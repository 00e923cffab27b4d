/** One game: the deal, the hit and stand transitions, the dealer's drawing
    rule and the outcome message. The transitions are specified as functions
    on `Snapshot` values; the worker that applies them in place is the class
    `GameState`. A draw from an empty deck (an index-out-of-range panic in the
    Go code) is the result `None`. */
module Game {
  import opened Cards
  import opened Hands

  datatype Option<T> = None | Some(value: T)

  /** The fields of one game's state, as a value. */
  datatype Snapshot = Snapshot(
    playerHand: Hand,
    dealerHand: Hand,
    deck: seq<Card>,
    bust: bool,
    stand: bool,
    message: string)

  const BustMessage: string := "Bust!"
  const BlackjackMessage: string := "Blackjack! You win!"
  const DealerBustMessage: string := "Dealer busts! You win!"
  const WinMessage: string := "You win!"
  const PushMessage: string := "Push!"
  const LoseMessage: string := "You lose!"

  /** The action strings the worker recognises. */
  const HitAction: string := "hit"
  const StandAction: string := "stand"

  /** The card `c` is one of the `n` first cards 0..n-1. This only names
      `c < n`; the set comprehension in `CardsBelow` uses it as the term its
      quantifier is instantiated on, which a bare comparison cannot be. */
  predicate Below(c: Card, n: nat) {
    c < n
  }

  /** The cards 0..n-1. */
  function CardsBelow(n: nat): set<Card> {
    set c: Card | c < n && Below(c, n)
  }

  /** The 52 cards of a deck. */
  function AllCards(): set<Card> {
    CardsBelow(DeckSize)
  }

  /** A deck that holds the cards 0..|d|-1 in order. */
  predicate InOrder(d: seq<Card>) {
    forall i :: 0 <= i < |d| ==> d[i] == i
  }

  /** A shuffled deck is a permutation of the 52 cards, each once. */
  predicate IsShuffledDeck(d: seq<Card>) {
    multiset(d) == multiset(AllCards())
  }

  /** The initial state: one card to the player, one to the dealer, the rest
      stays in the deck. */
  function Deal(deck: seq<Card>): (s: Snapshot)
    requires |deck| >= 2
    ensures s.playerHand + s.dealerHand + s.deck == deck
    ensures |s.playerHand| == 1 && |s.dealerHand| == 1
    ensures !Terminal(s) && s.message == ""
  {
    Snapshot([deck[0]], [deck[1]], deck[2..], false, false, "")
  }

  /** A game whose player has stood or gone bust accepts no more moves. */
  predicate Terminal(s: Snapshot) {
    s.stand || s.bust
  }

  /** The "hit" action. */
  function AfterHit(s: Snapshot): Option<Snapshot> {
    if Terminal(s) then Some(s)
    else if s.deck == [] then None
    else
      var hand := s.playerHand + [s.deck[0]];
      var drawn := s.(playerHand := hand, deck := s.deck[1..]);
      var checked := if HandScore(hand) > 21 then drawn.(bust := true, message := BustMessage) else drawn;
      Some(if IsBlackjack(hand) then checked.(stand := true, message := BlackjackMessage) else checked)
  }

  /** The dealer keeps drawing under 17, and on 17 when the hand holds any
      Ace at all (whether or not that Ace is still counted as 11). */
  predicate DealerMustDraw(h: Hand) {
    HandScore(h) < 17 || (HandScore(h) == 17 && ContainsAce(h))
  }

  /** The dealer's drawing loop: the final dealer hand and remaining deck, or
      `None` when the deck runs out while the dealer must still draw. */
  function DealerPlay(hand: Hand, deck: seq<Card>): (r: Option<(Hand, seq<Card>)>)
    ensures r.Some? ==> r.value.0 + r.value.1 == hand + deck && |hand| <= |r.value.0|
    ensures r.Some? ==> !DealerMustDraw(r.value.0)
    ensures r.None? ==> DealerMustDraw(hand + deck)
    decreases |deck|
  {
    if !DealerMustDraw(hand) then Some((hand, deck))
    else if deck == [] then (assert hand + deck == hand; None)
    else
      assert (hand + [deck[0]]) + deck[1..] == hand + deck;
      DealerPlay(hand + [deck[0]], deck[1..])
  }

  /** The message chosen once the dealer has finished: the first matching
      case in the order dealer bust, player higher, tie, player 21. */
  function Outcome(playerScore: int, dealerScore: int): string {
    if dealerScore > 21 then DealerBustMessage
    else if playerScore > dealerScore then WinMessage
    else if playerScore == dealerScore then PushMessage
    else if playerScore == 21 then BlackjackMessage
    else LoseMessage
  }

  /** The "stand" action: stand, let the dealer draw, pick the message. On a
      game in progress the player's hand is kept, the dealer's hand takes its
      cards from the front of the deck and stops on a hand the rule does not
      draw on; the deck runs out only when the rule draws on every card. */
  function AfterStand(s: Snapshot): (r: Option<Snapshot>)
    ensures Terminal(s) ==> r == Some(s)
    ensures !Terminal(s) && r.Some? ==>
      && r.value.stand && r.value.bust == s.bust
      && r.value.playerHand == s.playerHand
      && r.value.dealerHand + r.value.deck == s.dealerHand + s.deck
      && !DealerMustDraw(r.value.dealerHand)
    ensures r.None? ==> !Terminal(s) && DealerMustDraw(s.dealerHand + s.deck)
  {
    if Terminal(s) then Some(s)
    else
      match DealerPlay(s.dealerHand, s.deck)
      case None => None
      case Some((dealer, rest)) =>
        Some(s.(stand := true, dealerHand := dealer, deck := rest,
                message := Outcome(HandScore(s.playerHand), HandScore(dealer))))
  }

  /** One command of the worker: "hit", "stand", anything else leaves the
      state as it is (the empty action sent right after creation included). */
  function Step(s: Snapshot, action: string): Option<Snapshot> {
    if action == HitAction then AfterHit(s)
    else if action == StandAction then AfterStand(s)
    else Some(s)
  }

  /** The state after a sequence of commands, in the order they arrive. */
  function Run(s: Snapshot, actions: seq<string>): Option<Snapshot>
    decreases |actions|
  {
    if actions == [] then Some(s)
    else
      match Run(s, actions[..|actions| - 1])
      case None => None
      case Some(t) => Step(t, actions[|actions| - 1])
  }

  /** What holds of every state the game can reach: the hands and the deck
      together are the 52 cards once each, the bust flag agrees with the
      score, the two flags are never both set, and the dealer holds a single
      card until the player stands. */
  predicate Inv(s: Snapshot) {
    && multiset(s.playerHand + s.dealerHand + s.deck) == multiset(AllCards())
    && (s.bust <==> HandScore(s.playerHand) > 21)
    && !(s.bust && s.stand)
    && (!s.stand ==> |s.dealerHand| == 1)
  }

  /** The cards below `n` are `n` cards. */
  lemma {:induction false} CardsBelowCount(n: nat)
    ensures |CardsBelow(n)| == n
  {
    if n > 0 {
      CardsBelowCount(n - 1);
      assert CardsBelow(n) == CardsBelow(n - 1) + {n - 1};
    }
  }

  /** A deck holds 52 cards. */
  lemma AllCardsCount()
    ensures |AllCards()| == DeckSize
  {
    CardsBelowCount(DeckSize);
  }

  /** A deck that holds 0..n-1 in order holds each card below n once. */
  lemma {:induction false} InOrderCards(d: seq<Card>)
    requires InOrder(d)
    ensures multiset(d) == multiset(CardsBelow(|d|))
  {
    if d != [] {
      var p := d[..|d| - 1];
      assert InOrder(p);
      InOrderCards(p);
      assert d == p + [|d| - 1];
      assert CardsBelow(|d|) == CardsBelow(|p|) + {|d| - 1};
    }
  }

  /** The unshuffled deck 0..51 is a deck in the sense of `IsShuffledDeck`. */
  lemma InOrderIsDeck(d: seq<Card>)
    requires |d| == DeckSize && InOrder(d)
    ensures IsShuffledDeck(d)
  {
    InOrderCards(d);
  }

  /** A shuffle of a deck is a deck. */
  lemma ShuffledIsDeck(d: seq<Card>, e: seq<Card>)
    requires IsShuffledDeck(d) && multiset(e) == multiset(d)
    ensures IsShuffledDeck(e) && |e| == DeckSize
  {
    AllCardsCount();
    assert |multiset(e)| == |multiset(AllCards())|;
  }

  /** In a reachable state the player's hand, the dealer's hand and the deck
      never share a card, and every card is one of 0..51. */
  lemma PartsDisjoint(s: Snapshot, c: Card)
    requires Inv(s)
    ensures c in s.playerHand ==> c !in s.dealerHand && c !in s.deck
    ensures c in s.dealerHand ==> c !in s.deck
    ensures c in s.playerHand + s.dealerHand + s.deck ==> c < DeckSize
  {
    var m := multiset(s.playerHand + s.dealerHand + s.deck);
    assert m[c] == multiset(s.playerHand)[c] + multiset(s.dealerHand)[c] + multiset(s.deck)[c];
  }

  /** The deal gives the player the first card and the dealer the second,
      and starts a game in which the invariant holds. */
  lemma DealIsValid(deck: seq<Card>)
    requires IsShuffledDeck(deck)
    ensures |deck| == DeckSize
    ensures Deal(deck).playerHand == [deck[0]] && Deal(deck).dealerHand == [deck[1]]
    ensures !Terminal(Deal(deck)) && Inv(Deal(deck))
  {
    AllCardsCount();
    assert |multiset(deck)| == |multiset(AllCards())|;
    var p := [deck[0]];
    TotalSnoc([], deck[0]);
    assert [] + [deck[0]] == p;
    assert p + [deck[1]] + deck[2..] == deck;
  }

  /** A "hit" on a game in progress moves the front card of the deck to the
      player; the bust flag is set exactly when the new score is over 21 and
      the stand flag exactly when the new hand is a blackjack, never both. */
  lemma HitEffect(s: Snapshot)
    requires !Terminal(s) && s.deck != []
    ensures AfterHit(s).Some?
    ensures AfterHit(s).value.playerHand == s.playerHand + [s.deck[0]]
    ensures AfterHit(s).value.deck == s.deck[1..]
    ensures AfterHit(s).value.dealerHand == s.dealerHand
    ensures AfterHit(s).value.bust <==> HandScore(s.playerHand + [s.deck[0]]) > 21
    ensures AfterHit(s).value.stand <==> IsBlackjack(s.playerHand + [s.deck[0]])
    ensures !(AfterHit(s).value.bust && AfterHit(s).value.stand)
    ensures AfterHit(s).value.message ==
      if AfterHit(s).value.stand then BlackjackMessage
      else if AfterHit(s).value.bust then BustMessage
      else s.message
  {
  }

  /** A player holding an Ace who hits and draws a ten-valued card has a
      blackjack: the game ends at once with the winning message. */
  lemma AceThenTenIsBlackjack(s: Snapshot)
    requires !Terminal(s) && |s.playerHand| == 1 && IsAce(s.playerHand[0])
    requires s.deck != [] && CardScore(s.deck[0]) == 10
    ensures AfterHit(s).Some? && AfterHit(s).value.stand && !AfterHit(s).value.bust
    ensures AfterHit(s).value.message == BlackjackMessage
  {
    BlackjackIsAceAndTen(s.playerHand + [s.deck[0]]);
    HitEffect(s);
  }

  /** Once the player has stood or gone bust, every command leaves the state
      as it is. */
  lemma TerminalIsFixed(s: Snapshot, action: string)
    requires Terminal(s)
    ensures Step(s, action) == Some(s)
  {
  }

  /** A command other than "hit" and "stand" changes nothing. */
  lemma UnknownActionIsNoop(s: Snapshot, action: string)
    requires action != HitAction && action != StandAction
    ensures Step(s, action) == Some(s)
  {
  }

  /** The dealer stops at the first hand the rule allows: every shorter hand
      on the way was one the rule made the dealer draw on. */
  lemma {:induction false} DealerStopsAtFirst(hand: Hand, deck: seq<Card>, j: nat)
    requires DealerPlay(hand, deck).Some?
    requires |hand| + j < |DealerPlay(hand, deck).value.0|
    ensures j < |deck|
    ensures DealerMustDraw(hand + deck[..j])
    decreases |deck|
  {
    if !DealerMustDraw(hand) {
    } else if j == 0 {
      assert hand + deck[..0] == hand;
    } else {
      assert (hand + deck)[..|hand| + 1] == hand + [deck[0]];
      DealerStopsAtFirst(hand + [deck[0]], deck[1..], j - 1);
      assert (hand + [deck[0]]) + deck[1..][..j - 1] == hand + deck[..j];
    }
  }

  /** The dealer never runs out of cards while there are more than 17 cards
      between the dealer's hand and the deck: a hand the dealer must draw on
      scores at most 17 and so has at most 17 cards. */
  lemma {:induction false} DealerPlaySucceeds(hand: Hand, deck: seq<Card>)
    requires |hand| + |deck| > 17
    ensures DealerPlay(hand, deck).Some?
    decreases |deck|
  {
    if DealerMustDraw(hand) {
      SizeAtMostScore(hand);
      DealerPlaySucceeds(hand + [deck[0]], deck[1..]);
    }
  }

  /** The outcome message by score comparison: the dealer's bust wins, then
      the higher score wins, equal scores push. */
  lemma OutcomeMeaning(p: int, d: int)
    ensures Outcome(p, d) == DealerBustMessage <==> d > 21
    ensures Outcome(p, d) == WinMessage <==> d <= 21 && p > d
    ensures Outcome(p, d) == PushMessage <==> d <= 21 && p == d
    ensures Outcome(p, d) == LoseMessage <==> d <= 21 && p < d
  {
  }

  /** The "player scores 21" case of the outcome can never be chosen: reaching
      it needs the player below a dealer who has not bust, so below 21. */
  lemma OutcomeNeverBlackjack(p: int, d: int)
    ensures Outcome(p, d) != BlackjackMessage
  {
  }

  /** A "stand" on a reachable game in progress always completes: the player
      stands with an unchanged hand, the dealer's hand grows by the front
      cards of the deck until the rule lets the dealer stop, and the message
      compares the two scores. */
  lemma StandEffect(s: Snapshot)
    requires Inv(s) && !Terminal(s)
    ensures AfterStand(s).Some?
    ensures AfterStand(s).value.stand && !AfterStand(s).value.bust
    ensures AfterStand(s).value.playerHand == s.playerHand
    ensures var k := |AfterStand(s).value.dealerHand| - |s.dealerHand|;
      0 <= k <= |s.deck| &&
      AfterStand(s).value.dealerHand == s.dealerHand + s.deck[..k] &&
      AfterStand(s).value.deck == s.deck[k..]
    ensures HandScore(AfterStand(s).value.dealerHand) >= 17
    ensures !(HandScore(AfterStand(s).value.dealerHand) == 17 && ContainsAce(AfterStand(s).value.dealerHand))
    ensures AfterStand(s).value.message ==
      Outcome(HandScore(s.playerHand), HandScore(AfterStand(s).value.dealerHand))
  {
    DeckLeftInPlay(s);
    DealerPlaySucceeds(s.dealerHand, s.deck);
    var (dealer, rest) := DealerPlay(s.dealerHand, s.deck).value;
    var k := |dealer| - |s.dealerHand|;
    assert dealer == (s.dealerHand + s.deck)[..|dealer|];
    assert rest == (s.dealerHand + s.deck)[|dealer|..];
  }

  /** In a reachable game in progress the player holds at most 21 cards and
      the dealer one, so at least 30 cards are left in the deck. */
  lemma DeckLeftInPlay(s: Snapshot)
    requires Inv(s) && !Terminal(s)
    ensures |s.deck| >= DeckSize - 22
  {
    SizeAtMostScore(s.playerHand);
    AllCardsCount();
    assert |multiset(s.playerHand + s.dealerHand + s.deck)| == |multiset(AllCards())|;
  }

  /** A "hit" keeps the invariant and, on a reachable state, never draws
      from an empty deck. */
  lemma HitPreservesInv(s: Snapshot)
    requires Inv(s)
    ensures AfterHit(s).Some? && Inv(AfterHit(s).value)
  {
    if !Terminal(s) {
      DeckLeftInPlay(s);
      HitEffect(s);
      var hand := s.playerHand + [s.deck[0]];
      assert multiset(hand + s.dealerHand + s.deck[1..]) == multiset(s.playerHand + s.dealerHand + s.deck) by {
        assert s.deck == [s.deck[0]] + s.deck[1..];
      }
    }
  }

  /** A "stand" keeps the invariant and, on a reachable state, never draws
      from an empty deck. */
  lemma StandPreservesInv(s: Snapshot)
    requires Inv(s)
    ensures AfterStand(s).Some? && Inv(AfterStand(s).value)
  {
    if !Terminal(s) {
      StandEffect(s);
      var t := AfterStand(s).value;
      assert t.dealerHand + t.deck == s.dealerHand + s.deck;
      assert t.playerHand + t.dealerHand + t.deck == s.playerHand + (s.dealerHand + s.deck);
    }
  }

  /** Every command keeps the invariant and, on a reachable state, never
      draws from an empty deck. */
  lemma StepPreservesInv(s: Snapshot, action: string)
    requires Inv(s)
    ensures Step(s, action).Some? && Inv(Step(s, action).value)
  {
    HitPreservesInv(s);
    StandPreservesInv(s);
  }

  /** Any sequence of commands keeps the invariant and never panics. */
  lemma {:induction false} RunPreservesInv(s: Snapshot, actions: seq<string>)
    requires Inv(s)
    ensures Run(s, actions).Some? && Inv(Run(s, actions).value)
    decreases |actions|
  {
    if actions != [] {
      RunPreservesInv(s, actions[..|actions| - 1]);
      StepPreservesInv(Run(s, actions[..|actions| - 1]).value, actions[|actions| - 1]);
    }
  }

  /** From any shuffled deck, a game driven by any sequence of commands never
      draws from an empty deck, and in every state it reaches the cards stay a
      partition of the deck, the bust flag agrees with the score, and a player
      who has not bust scores at most 21. */
  lemma GameNeverPanics(deck: seq<Card>, actions: seq<string>)
    requires IsShuffledDeck(deck)
    ensures |deck| == DeckSize
    ensures Run(Deal(deck), actions).Some?
    ensures Inv(Run(Deal(deck), actions).value)
    ensures !Run(Deal(deck), actions).value.bust ==> HandScore(Run(Deal(deck), actions).value.playerHand) <= 21
  {
    DealIsValid(deck);
    RunPreservesInv(Deal(deck), actions);
  }

  /** The dealer's rule as written draws on every soft 17 ... */
  lemma DealerDrawsOnSoftSeventeen(h: Hand)
    requires HandScore(h) == 17 && IsSoft(h)
    ensures DealerMustDraw(h)
  {
    SoftHasAce(h);
  }

  /** ... and also on a hard 17 that holds an Ace: Ace of spades, 6 of
      spades, 10 of spades scores 17 with the Ace counted as 1, and the dealer
      still draws. */
  lemma DealerDrawsOnHardSeventeenWithAce()
    ensures var h: Hand := [12, 4, 8];
      HandScore(h) == 17 && !IsSoft(h) && DealerMustDraw(h)
  {
    var h: Hand := [12, 4, 8];
    assert h[..2] == [12, 4] && h[..2][..1] == [12] && h[..2][..1][..0] == [];
    assert CardScore(12) == 11 && CardScore(4) == 6 && CardScore(8) == 10;
    assert Total(h[..2][..1]) == 11 && Aces(h[..2][..1]) == 1;
    assert Total(h[..2]) == 17 && Aces(h[..2]) == 1;
    assert Total(h) == 27 && Aces(h) == 1;
    assert IsAce(h[0]);
  }

  /** Builds the unshuffled deck 0..51 in a fresh array. */
  method NewDeck() returns (deck: array<Card>)
    ensures fresh(deck)
    ensures deck.Length == DeckSize && InOrder(deck[..])
  {
    deck := new Card[DeckSize];
    for i := 0 to DeckSize
      invariant forall k :: 0 <= k < i ==> deck[k] == k
    {
      deck[i] := i;
    }
  }

  /** Shuffles the deck in place by the given swaps, the choices of the
      random source. Any sequence of swaps only permutes the deck. */
  method Shuffle(deck: array<Card>, swaps: seq<(nat, nat)>)
    requires forall k :: 0 <= k < |swaps| ==> swaps[k].0 < deck.Length && swaps[k].1 < deck.Length
    modifies deck
    ensures multiset(deck[..]) == multiset(old(deck[..]))
  {
    for k := 0 to |swaps|
      invariant multiset(deck[..]) == multiset(old(deck[..]))
    {
      var (i, j) := swaps[k];
      deck[i], deck[j] := deck[j], deck[i];
    }
  }

  /** The state owned by one game's worker, updated in place by each command. */
  class GameState {
    var playerHand: Hand
    var dealerHand: Hand
    var deck: seq<Card>
    var bust: bool
    var stand: bool
    var message: string

    /** The current state as a value: what the worker replies with. */
    function Value(): Snapshot
      reads this
    {
      Snapshot(playerHand, dealerHand, deck, bust, stand, message)
    }

    /** The worker starts from a copy of the initial state. */
    constructor (initial: Snapshot)
      ensures Value() == initial
    {
      playerHand := initial.playerHand;
      dealerHand := initial.dealerHand;
      deck := initial.deck;
      bust := initial.bust;
      stand := initial.stand;
      message := initial.message;
    }

    /** The "hit" case of the worker. `ok` is false when the deck is empty,
        where the Go code's read of the front card panics. */
    method Hit() returns (ok: bool)
      modifies this
      ensures ok == AfterHit(old(Value())).Some?
      ensures ok ==> Value() == AfterHit(old(Value())).value
    {
      if !stand && !bust {
        if |deck| == 0 {
          return false;
        }
        playerHand := playerHand + [deck[0]];
        deck := deck[1..];
        var total := Score(playerHand);
        if total > 21 {
          bust := true;
          message := BustMessage;
        }
        if IsBlackjack(playerHand) {
          stand := true;
          message := BlackjackMessage;
        }
      }
      return true;
    }

    /** The "stand" case of the worker, with the dealer's drawing loop. `ok`
        is false when the deck runs out while the dealer must draw; the state
        is then left as far as the Go code got before its panic. */
    method Stand() returns (ok: bool)
      modifies this
      ensures ok == AfterStand(old(Value())).Some?
      ensures ok ==> Value() == AfterStand(old(Value())).value
    {
      if stand || bust {
        return true;
      }
      stand := true;
      var dealerScore, draw := DealerRule(dealerHand);
      while draw
        invariant dealerScore == HandScore(dealerHand) && draw == DealerMustDraw(dealerHand)
        invariant DealerPlay(dealerHand, deck) == DealerPlay(old(dealerHand), old(deck))
        invariant stand && playerHand == old(playerHand) && bust == old(bust)
        decreases |deck|
      {
        if |deck| == 0 {
          return false;
        }
        dealerHand := dealerHand + [deck[0]];
        deck := deck[1..];
        dealerScore, draw := DealerRule(dealerHand);
      }
      var playerScore := Score(playerHand);
      message := Outcome(playerScore, dealerScore);
      return true;
    }

    /** One command of the worker loop. */
    method Apply(action: string) returns (ok: bool)
      modifies this
      ensures ok == Step(old(Value()), action).Some?
      ensures ok ==> Value() == Step(old(Value()), action).value
    {
      if action == HitAction {
        ok := Hit();
      } else if action == StandAction {
        ok := Stand();
      } else {
        ok := true;
      }
    }

    /** The worker loop: applies the commands in the order they arrive and
        replies to each with the state as it is right after that command. It stops with
        `ok` false at the first command where the Go code panics. */
    method Serve(actions: seq<string>) returns (replies: seq<Snapshot>, ok: bool)
      modifies this
      ensures ok == Run(old(Value()), actions).Some?
      ensures ok ==> Value() == Run(old(Value()), actions).value
      ensures |replies| <= |actions|
      ensures ok ==> |replies| == |actions|
      ensures forall i :: 0 <= i < |replies| ==> Run(old(Value()), actions[..i + 1]) == Some(replies[i])
    {
      replies := [];
      for i := 0 to |actions|
        invariant |replies| == i
        invariant Run(old(Value()), actions[..i]) == Some(Value())
        invariant forall k :: 0 <= k < i ==> Run(old(Value()), actions[..k + 1]) == Some(replies[k])
      {
        assert actions[..i + 1][..i] == actions[..i];
        ok := Apply(actions[i]);
        if !ok {
          RunStopsAtPanic(old(Value()), actions, i + 1);
          return;
        }
        replies := replies + [Value()];
      }
      assert actions[..|actions|] == actions;
      ok := true;
    }
  }

  /** The dealer's test as the Go code evaluates it: the score, and whether to
      draw (the Ace test only when the score is exactly 17). */
  method DealerRule(hand: Hand) returns (dealerScore: int, draw: bool)
    ensures dealerScore == HandScore(hand)
    ensures draw == DealerMustDraw(hand)
  {
    dealerScore := Score(hand);
    draw := dealerScore < 17;
    if !draw && dealerScore == 17 {
      draw := HasAce(hand);
    }
  }

  /** Once a command panics, the run of every longer sequence fails too. */
  lemma {:induction false} RunStopsAtPanic(s: Snapshot, actions: seq<string>, n: nat)
    requires n <= |actions| && Run(s, actions[..n]).None?
    ensures Run(s, actions).None?
    decreases |actions| - n
  {
    if n < |actions| {
      assert actions[..n + 1][..n] == actions[..n];
      RunStopsAtPanic(s, actions, n + 1);
    } else {
      assert actions[..n] == actions;
    }
  }
}
