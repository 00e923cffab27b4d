# Blackjack game core: a Dafny model

This project models the game logic of a single-player Blackjack web server
written in Go (`main.go`). The server runs each game in its own worker, which
applies the commands "hit" and "stand" one at a time to a game state. A shared
registry maps game ids to sessions and drops sessions older than 30 minutes.
The model keeps the sequential logic and proves properties about it:

- `cards.dfy`, module `Cards`: a card is a number. Its rank is `c % 13`, its
  suit is `c % 4`, and its value (Ace at 11) comes from the score table.
- `hands.dfy`, module `Hands`: the hand score, which counts every Ace as 11 and
  then takes off 10 per Ace while the total is over 21. Also the blackjack test
  and the "holds an Ace" test.
- `game.dfy`, module `Game`: the deal, the hit and stand transitions, the
  dealer's drawing loop and the outcome message. They are written as
  functions on `Snapshot` values, `Step` and `Run`. The `GameState` class is
  the worker's state, updated in place by `Hit`, `Stand`, `Apply` and `Serve`.
  Each of those methods is proved to match the functions. The deck is built in
  an array and shuffled there.
- `registry.dfy`, module `SessionRegistry`: the `games` map from id to creation
  time, game creation, lookup, the `game-<decimal>` id format and its check,
  and the removal of old sessions.

In Go, reading the front card of an empty deck panics. The functions model
this as the result `None`, and the methods return `ok == false`. The invariant
`Game.Inv` says four things:

- the hands and the deck hold the 52 cards once each;
- the bust flag agrees with the score;
- the bust and stand flags are never both set;
- the dealer holds one card until the player stands.

`Game.GameNeverPanics` proves that the invariant holds after any sequence of
commands from any shuffled deck, and that no draw ever finds the deck empty.

The model follows the code where it departs from the usual blackjack rules:

- The code deals one card each to the player and the dealer.
- The dealer also draws on a 17 that holds any Ace, even when that Ace already
  counts as 1. The usual soft-17 rule would stop there; the model keeps the
  code's rule. `Game.DealerDrawsOnHardSeventeenWithAce` shows the difference
  on Ace, 6, 10.
- The outcome cases come in the code's order. Its "player scores 21" case can
  never be chosen (`Game.OutcomeNeverBlackjack`).
- A stand does not remove the session from the registry. Sessions leave the
  registry only through the periodic cleanup.

## Model

| member | source | states |
|---|---|---|
| `Cards.CardScore` | main.go:82-84 | a card's value is between 2 and 11; it is 11 exactly for rank index 12 (Ace) and 10 exactly for ranks 10, Jack, Queen, King |
| `Cards.CardName` | main.go:78-80 | the pair of rank name and suit name that `String` formats as "R of S"; the name is "Ace" exactly for a card worth 11 and a ten or face card exactly for a card worth 10 |
| `Cards.CardOf` | main.go:78-80 | for every rank index and suit index there is a card of the deck with that rank and suit |
| `Cards.RankSuitInjective` | main.go:78-80 | two cards of 0..51 with the same rank and suit index are the same card |
| `Cards.CardOfRankSuit` | main.go:78-80 | rebuilding a card from its rank and suit gives the card back |
| `Cards.CardNameInjective` | main.go:78-80 | the 52 cards have 52 different (rank name, suit name) pairs |
| `Cards.EveryNameInDeck` | main.go:78-80 | every one of the 13 x 4 name pairs belongs to some card of the deck |
| `Hands.AcesDemoted` | main.go:97-100 | the number of Aces demoted is at most the number of Aces; demotion continues while the total is over 21 and stops at the first total of 21 or under |
| `Hands.HandScore` | main.go:87-102 | the best score of a hand: the Ace-at-11 sum less 10 per demoted Ace (`AcesDemoted`); it lies between the all-Aces-low and all-Aces-high sums, and is over 21 only when every Ace was demoted |
| `Hands.ScoreIsBest` | main.go:86-102 | if some number of Aces counted as 1 brings the sum to 21 or under, the score is at most 21 and at least that sum |
| `Hands.SizeAtMostScore` | main.go:87-102 | a hand has no more cards than its all-Aces-low sum, which is at most its score |
| `Hands.Score` | main.go:87-102 | the two-loop computation returns the hand score |
| `Hands.ContainsAce` | main.go:108-115 | no contract of its own: some card of the hand has value 11; `HasAce` is the loop proved equal to it and `ContainsAceIffAces` relates it to the Ace count |
| `Hands.HasAce` | main.go:108-115 | the early-return loop is true exactly when some card of the hand has value 11 |
| `Hands.ContainsAceIffAces` | main.go:108-115 | a hand holds an Ace exactly when its Ace count is positive |
| `Hands.SoftHasAce` | main.go:108-115 | a hand whose score still counts an Ace as 11 holds an Ace |
| `Hands.IsBlackjack` | main.go:104-106 | no contract of its own: a hand of exactly two cards scoring 21; `BlackjackIsAceAndTen` characterises it independently |
| `Hands.BlackjackIsAceAndTen` | main.go:104-106 | a hand is a blackjack exactly when it is an Ace and a ten-valued card, in either order |
| `Game.DealerMustDraw` | main.go:149 | no contract of its own: the loop condition, score under 17 or exactly 17 with any Ace; `DealerRule` evaluates it as the code does and `DealerDrawsOnSoftSeventeen` and `DealerDrawsOnHardSeventeenWithAce` compare it with the soft-17 rule |
| `Game.DealerPlay` | main.go:147-153 | the dealer's hand and the deck keep their concatenation; the hand only grows; the dealer stops only on a hand the rule does not draw on; running out means the rule still draws on the whole deck |
| `Game.DealerStopsAtFirst` | main.go:149-153 | every hand the dealer passed through on the way was one the rule draws on |
| `Game.DealerPlaySucceeds` | main.go:149-153 | the dealer never runs out while hand and deck together hold more than 17 cards |
| `Game.DealerRule` | main.go:149 | the loop test: the score, and draw under 17 or on 17 with any Ace |
| `Game.DealerDrawsOnSoftSeventeen` | main.go:149 | the dealer draws on every soft 17 |
| `Game.DealerDrawsOnHardSeventeenWithAce` | main.go:149 | the dealer also draws on the hard 17 Ace, 6, 10 |
| `Game.Deal` | main.go:193-197 | the initial state: one card to the player, one to the dealer, nothing lost or added (the hands followed by the deck are the deck dealt from), the game in progress with no message |
| `Game.DealIsValid` | main.go:193-197 | from a shuffled deck the player gets the first card, the dealer the second, the game is in progress and the invariant holds |
| `Game.PartsDisjoint` | main.go:193-197 | in a reachable state the two hands and the deck share no card, and every card is below 52 |
| `Game.AfterHit` | main.go:130-143 | no contract of its own: the "hit" case as a function on states, `None` where `Deck[0]` panics; `HitEffect` gives every field after it and `HitPreservesInv` shows it keeps the invariant |
| `Game.HitEffect` | main.go:130-141 | a hit in progress appends the front card to the player's hand and drops it from the deck; bust is set exactly when the new score is over 21 and stand exactly on a blackjack, never both; the message follows |
| `Game.AceThenTenIsBlackjack` | main.go:138-141 | a player holding an Ace who draws a ten-valued card stands at once with the blackjack message |
| `Game.DeckLeftInPlay` | main.go:132-133 | in a reachable game in progress at least 30 cards remain, so the hit's draw cannot fail |
| `Game.HitPreservesInv` | main.go:130-141 | a hit keeps the invariant and never draws from an empty deck |
| `Game.TerminalIsFixed` | main.go:131-145 | a command on a game where the player stood or went bust changes nothing |
| `Game.UnknownActionIsNoop` | main.go:129-170 | any action other than "hit" and "stand", the empty one included, changes nothing |
| `Game.AfterStand` | main.go:144-169 | a finished game is left as it is; on a game in progress the player stands with the same hand, the dealer's hand and the deck keep their concatenation and the dealer stops on a hand the rule does not draw on; the deck runs out only when the rule still draws with every remaining card taken |
| `Game.StandEffect` | main.go:144-168 | a stand in progress completes: stand is set, the player's hand is unchanged, the dealer's hand grows by the deck's front cards to a score of at least 17 that is not 17 with an Ace, and the message compares the scores |
| `Game.StandPreservesInv` | main.go:144-168 | a stand keeps the invariant and never draws from an empty deck |
| `Game.Outcome` | main.go:155-168 | no contract of its own: the message switch in the code's case order; `OutcomeMeaning` and `OutcomeNeverBlackjack` state what it chooses |
| `Game.OutcomeMeaning` | main.go:155-168 | the dealer's bust wins, otherwise the higher score wins and equal scores push |
| `Game.OutcomeNeverBlackjack` | main.go:164-165 | the outcome is never the "player scores 21" message |
| `Game.Step` | main.go:129-170 | no contract of its own: one command, "hit", "stand", or anything else as a no-op; `TerminalIsFixed`, `UnknownActionIsNoop` and `StepPreservesInv` state its behaviour |
| `Game.StepPreservesInv` | main.go:128-171 | every command keeps the invariant and never panics |
| `Game.Run` | main.go:128-172 | no contract of its own: the commands applied in arrival order, stopping at the first panic; `RunPreservesInv`, `RunStopsAtPanic` and `GameState.Serve` are proved about it |
| `Game.RunPreservesInv` | main.go:128-172 | every sequence of commands keeps the invariant and never panics |
| `Game.GameNeverPanics` | main.go:124-172 | from any shuffled deck and any commands the worker never panics, the invariant holds, and a player who has not bust scores at most 21 |
| `Game.NewDeck` | main.go:187-190 | the new deck holds the cards 0..51 in order |
| `Game.InOrderIsDeck` | main.go:187-190 | the ordered deck holds each of the 52 cards once |
| `Game.Shuffle` | main.go:191 | any sequence of swaps permutes the deck |
| `Game.ShuffledIsDeck` | main.go:191 | a permutation of the deck is a deck of 52 cards |
| `Game.GameState.constructor` | main.go:125 | the worker starts from a copy of the initial state |
| `Game.GameState.Hit` | main.go:130-143 | the in-place hit matches `AfterHit`, and reports a panic exactly when `AfterHit` does |
| `Game.GameState.Stand` | main.go:144-169 | the in-place stand with its dealer loop matches `AfterStand`, and reports a panic exactly when `AfterStand` does |
| `Game.GameState.Apply` | main.go:129-170 | one command matches `Step` |
| `Game.GameState.Serve` | main.go:128-172 | the worker loop ends in the state `Run` gives, and each reply is the state after the commands so far |
| `SessionRegistry.FormatInt` | main.go:186 | no contract of its own: `%d` of an integer, a minus sign then the digits of a negative one; `DigitsRoundTrip` and `GameIdValid` are proved about it |
| `SessionRegistry.GameId` | main.go:186 | no contract of its own: `"game-"` followed by `FormatInt` of the clock reading; `GameIdValid` and `GameIdInjective` are proved about it |
| `SessionRegistry.ValidGameId` | main.go:45 | no contract of its own: the regular expression `^game-\d+$` as a predicate, the prefix then one or more ASCII digits and nothing else; `GameIdValid` relates it to `GameId` |
| `SessionRegistry.Digits` | main.go:186 | the decimal form of a number is one or more digits |
| `SessionRegistry.DigitsRoundTrip` | main.go:186 | parsing the decimal form of a number gives the number back |
| `SessionRegistry.GameIdValid` | main.go:45 | an id built from a clock reading passes the id check exactly when the reading is not negative |
| `SessionRegistry.GameIdInjective` | main.go:186 | different non-negative clock readings give different ids |
| `SessionRegistry.Admit` | main.go:207-218 | no contract of its own: the id check first (a malformed id is refused), then the lookup (an unknown id goes to a new game); `CreatedGameIsAdmitted` and `AdmitAfterCleanup` are proved about it |
| `SessionRegistry.CreatedGameIsAdmitted` | main.go:208-218 | right after creation, a game's id passes the check and is found with its creation time (if the clock reading is not negative) |
| `SessionRegistry.Expired` | main.go:259 | no contract of its own: more than 30 minutes between creation and now, `time.Since(created) > 30*time.Minute` |
| `SessionRegistry.Cleanup` | main.go:254-264 | no contract of its own: the sessions a cleanup keeps, as a map; `CleanupExact`, `CleanupIdempotent`, `CleanupLater` and `Registry.CleanupOldGames` are proved about it |
| `SessionRegistry.CleanupExact` | main.go:254-264 | cleanup removes exactly the sessions older than 30 minutes and keeps every other id and creation time |
| `SessionRegistry.CleanupIdempotent` | main.go:254-264 | a second cleanup at the same time removes nothing |
| `SessionRegistry.CleanupLater` | main.go:254-264 | a later cleanup removes everything an earlier one would |
| `SessionRegistry.AdmitAfterCleanup` | main.go:254-264 | after cleanup an old session is not found, a recent one is found as before, and a malformed id is still refused |
| `SessionRegistry.Registry.constructor` | main.go:43 | the registry starts empty |
| `SessionRegistry.Registry.GetSession` | main.go:178-183 | the lookup finds a session exactly when its id is in the map, with its creation time |
| `SessionRegistry.Registry.CreateGame` | main.go:185-205 | the id is `game-` and the clock reading; the deck is a permutation of the 52 cards; the worker starts from the deal; the map gains the entry, replacing any entry with the same id |
| `SessionRegistry.Registry.CleanupOldGames` | main.go:254-264 | the in-place removal loop leaves the map that `Cleanup` gives |

## Left out

- Goroutines, channels, the read/write lock and the 2-second reply timeout are not modelled, because they are concurrency. The worker is the sequential method `GameState.Serve` over a list of commands.
- The worker replies with a pointer to its live state, not a copy. A handler that renders late can see the effects of later commands. `GameState.Serve` replies with the value of the state right after each command, which is what a handler sees when requests do not overlap.
- Closing `session.commands` at cleanup is not modelled. In Go that close ends the worker's `range` loop, and the worker's deferred second `close` of the same channel then panics ("close of closed channel"). That panic ends the whole process the first time a cleanup removes a session. The model covers the sequential game logic only, and a cleanup here just removes map entries.
- `rand.Seed` and `rand.Shuffle` are replaced by a caller-given list of in-range swaps on the deck array, because they are library randomness. The model proves only that the result is a permutation.
- `time.Now`, `time.Since` and the hourly ticker are not modelled, because they are clock and scheduling. Clock readings are integer nanosecond parameters, and `time.Since(created)` is `now - created`. Overflow of Go's 64-bit `time.Duration` is not modelled.
- The HTTP handlers, routing, redirects and template rendering are not modelled, because they are I/O. From `gameHandler` only the decision "check the id, then look it up" is kept (`Admit`).
- `fmt.Sprintf` formatting of a card name is kept as a (rank name, suit name) pair.
- The regular expression `^game-\d+$` is written as a predicate: the prefix, then one or more ASCII digits.
- Sessions are stored as their creation times. The game state each worker owns is the separate `GameState` object that `CreateGame` returns.
- After a panic (`ok == false`), `GameState.Hit` and `GameState.Stand` say nothing about the fields. In Go the process would have crashed.
