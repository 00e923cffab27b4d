/** The session registry: the map from game id to the session's creation
    time, game creation, lookup, the id format and its validation, and the
    periodic removal of old sessions. Times are integers in nanoseconds. */
module SessionRegistry {
  import opened Cards
  import opened Game

  /** The registry's contents: game id to creation time. */
  type Sessions = map<string, int>

  /** A session is removed once it is older than 30 minutes. */
  const SessionTtl: int := 30 * 60 * 1_000_000_000

  /** Every game id starts with this. */
  const IdPrefix: string := "game-"

  predicate IsDigit(ch: char) {
    '0' <= ch <= '9'
  }

  /** The character of a decimal digit. */
  function DigitChar(d: nat): (ch: char)
    requires d < 10
    ensures IsDigit(ch)
  {
    "0123456789"[d]
  }

  /** The value of a digit character. */
  function DigitValue(ch: char): (d: nat)
    requires IsDigit(ch)
    ensures d < 10
  {
    (ch as int - '0' as int) as nat
  }

  /** The decimal digits of a natural number, no leading zeros. */
  function Digits(n: nat): (s: string)
    ensures |s| >= 1
    ensures forall i :: 0 <= i < |s| ==> IsDigit(s[i])
  {
    if n < 10 then [DigitChar(n)] else Digits(n / 10) + [DigitChar(n % 10)]
  }

  /** The number a string of digits stands for. */
  function ParseDigits(s: string): nat
    requires forall i :: 0 <= i < |s| ==> IsDigit(s[i])
  {
    if s == [] then 0 else 10 * ParseDigits(s[..|s| - 1]) + DigitValue(s[|s| - 1])
  }

  /** An integer in decimal, with a minus sign when it is negative. */
  function FormatInt(n: int): string {
    if n < 0 then "-" + Digits(-n) else Digits(n)
  }

  /** The id of a game created at the given clock reading. */
  function GameId(time: int): string {
    IdPrefix + FormatInt(time)
  }

  /** The id check: the prefix, then one or more decimal digits, nothing else. */
  predicate ValidGameId(id: string) {
    && |id| > |IdPrefix|
    && id[..|IdPrefix|] == IdPrefix
    && forall i :: |IdPrefix| <= i < |id| ==> IsDigit(id[i])
  }

  /** Reading the digits of a number back gives the number. */
  lemma {:induction false} DigitsRoundTrip(n: nat)
    ensures ParseDigits(Digits(n)) == n
  {
    if n >= 10 {
      DigitsRoundTrip(n / 10);
      var s := Digits(n);
      assert s[..|s| - 1] == Digits(n / 10);
    }
  }

  /** An id made from a clock reading passes the check exactly when the
      reading is not negative: a negative one puts a minus sign after the
      prefix. */
  lemma GameIdValid(time: int)
    ensures ValidGameId(GameId(time)) <==> time >= 0
  {
    var id := GameId(time);
    assert id[..|IdPrefix|] == IdPrefix;
    if time < 0 {
      assert id[|IdPrefix|] == '-';
    } else {
      assert forall i :: |IdPrefix| <= i < |id| ==> id[i] == Digits(time)[i - |IdPrefix|];
    }
  }

  /** Distinct clock readings give distinct ids. */
  lemma GameIdInjective(t1: nat, t2: nat)
    requires GameId(t1) == GameId(t2)
    ensures t1 == t2
  {
    assert GameId(t1)[|IdPrefix|..] == Digits(t1);
    assert GameId(t2)[|IdPrefix|..] == Digits(t2);
    DigitsRoundTrip(t1);
    DigitsRoundTrip(t2);
  }

  /** A session is old once more than the time-to-live has passed since it
      was created. */
  predicate Expired(created: int, now: int) {
    now - created > SessionTtl
  }

  /** The sessions a cleanup at time `now` keeps. */
  function Cleanup(games: Sessions, now: int): Sessions {
    map id | id in games && !Expired(games[id], now) :: games[id]
  }

  /** Cleanup removes exactly the old sessions and leaves every other id and
      its creation time as it was. */
  lemma CleanupExact(games: Sessions, now: int, id: string)
    ensures id in Cleanup(games, now) <==> id in games && !Expired(games[id], now)
    ensures id in Cleanup(games, now) ==> Cleanup(games, now)[id] == games[id]
  {
  }

  /** A second cleanup at the same time removes nothing more. */
  lemma CleanupIdempotent(games: Sessions, now: int)
    ensures Cleanup(Cleanup(games, now), now) == Cleanup(games, now)
  {
  }

  /** A cleanup at a later time removes everything an earlier one would. */
  lemma CleanupLater(games: Sessions, t1: int, t2: int)
    requires t1 <= t2
    ensures Cleanup(Cleanup(games, t1), t2) == Cleanup(games, t2)
  {
    assert forall id :: id in games && !Expired(games[id], t2) ==> !Expired(games[id], t1);
  }

  /** How a request's game id is handled: rejected when malformed, sent to
      create a new game when unknown, or passed to the session found. */
  datatype Admission = InvalidId | UnknownSession | Admitted(created: int)

  /** The id check comes before the lookup. */
  function Admit(games: Sessions, id: string): Admission {
    if !ValidGameId(id) then InvalidId
    else if id !in games then UnknownSession
    else Admitted(games[id])
  }

  /** A game just created from a non-negative clock reading is found under
      its id; one created from a negative reading has an id that is refused. */
  lemma CreatedGameIsAdmitted(games: Sessions, time: int, created: int)
    ensures Admit(games[GameId(time) := created], GameId(time)) ==
      if time >= 0 then Admitted(created) else InvalidId
  {
    GameIdValid(time);
  }

  /** After a cleanup, a malformed id is still refused, an old session is no
      longer found, and a recent one is found as before. */
  lemma AdmitAfterCleanup(games: Sessions, now: int, id: string)
    ensures Admit(Cleanup(games, now), id) ==
      if !ValidGameId(id) then InvalidId
      else if id in games && !Expired(games[id], now) then Admitted(games[id])
      else UnknownSession
  {
  }

  /** The registry shared by all request handlers. */
  class Registry {
    var games: Sessions

    constructor ()
      ensures games == map[]
    {
      games := map[];
    }

    /** Looks a session up by id. */
    method GetSession(id: string) returns (created: int, found: bool)
      ensures found <==> id in games
      ensures found ==> created == games[id]
    {
      found := id in games;
      created := if found then games[id] else 0;
    }

    /** Creates a game: its id from the clock reading `idTime`, a deck of the
        52 cards shuffled by `swaps`, the deal, the worker's state created at
        time `created`, and the registry entry. An earlier entry with the
        same id is replaced. */
    method CreateGame(idTime: int, created: int, swaps: seq<(nat, nat)>)
      returns (id: string, state: GameState, shuffled: seq<Card>)
      requires forall k :: 0 <= k < |swaps| ==> swaps[k].0 < DeckSize && swaps[k].1 < DeckSize
      modifies this
      ensures id == GameId(idTime)
      ensures games == old(games)[id := created]
      ensures IsShuffledDeck(shuffled) && |shuffled| == DeckSize
      ensures fresh(state) && state.Value() == Deal(shuffled)
    {
      id := GameId(idTime);
      var deck := NewDeck();
      InOrderIsDeck(deck[..]);
      ghost var unshuffled := deck[..];
      Shuffle(deck, swaps);
      shuffled := deck[..];
      ShuffledIsDeck(unshuffled, shuffled);
      state := new GameState(Deal(shuffled));
      games := games[id := created];
    }

    /** Removes every session older than the time-to-live at time `now`,
        visiting the entries one at a time. */
    method CleanupOldGames(now: int)
      modifies this
      ensures games == Cleanup(old(games), now)
    {
      var pending := games.Keys;
      while pending != {}
        invariant pending <= games.Keys && games.Keys <= old(games).Keys
        invariant forall id :: id in games ==> games[id] == old(games)[id]
        invariant forall id :: id in old(games) ==>
          (id in games <==> id in pending || !Expired(old(games)[id], now))
        decreases pending
      {
        var id :| id in pending;
        if now - games[id] > SessionTtl {
          games := games - {id};
        }
        pending := pending - {id};
      }
    }
  }
}
