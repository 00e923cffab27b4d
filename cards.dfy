/** The card value type: a card is a number, and its rank, suit and blackjack
    value are read off the number by remainders. A full deck holds 0..51. */
module Cards {

  /** A card. The game only ever creates the cards 0..51. */
  type Card = nat

  /** Number of cards in a fresh deck. */
  const DeckSize: nat := 52

  /** Rank names, indexed by `c % 13`. */
  const Values: seq<string> :=
    ["2", "3", "4", "5", "6", "7", "8", "9", "10", "Jack", "Queen", "King", "Ace"]

  /** Blackjack value of each rank, Ace counted as 11. */
  const Scores: seq<int> := [2, 3, 4, 5, 6, 7, 8, 9, 10, 10, 10, 10, 11]

  /** Suit names, indexed by `c % 4`. */
  const Suits: seq<string> := ["spades", "hearts", "diamonds", "clubs"]

  /** Index of the card's rank in `Values` (and in `Scores`). */
  function Rank(c: Card): (r: nat)
    ensures r < |Values| && r < |Scores|
  {
    c % |Values|
  }

  /** Index of the card's suit in `Suits`. */
  function Suit(c: Card): (s: nat)
    ensures s < |Suits|
  {
    c % |Suits|
  }

  /** The card's value with an Ace at 11. */
  function CardScore(c: Card): (v: int)
    ensures 2 <= v <= 11
    ensures v == 11 <==> Rank(c) == 12
    ensures v == 10 <==> 8 <= Rank(c) <= 11
  {
    Scores[c % |Scores|]
  }

  /** An Ace is recognised by its value 11. */
  predicate IsAce(c: Card) {
    CardScore(c) == 11
  }

  /** The card's name as a (rank name, suit name) pair; the text "R of S" is
      this pair formatted. The rank names and the value table agree: the name
      is "Ace" exactly for the card worth 11, and a ten or a face card exactly
      for the cards worth 10. */
  function CardName(c: Card): (n: (string, string))
    ensures n.0 == "Ace" <==> IsAce(c)
    ensures n.0 in {"10", "Jack", "Queen", "King"} <==> CardScore(c) == 10
    ensures n.1 in {"spades", "hearts", "diamonds", "clubs"}
  {
    (Values[Rank(c)], Suits[Suit(c)])
  }

  /** The card with a given rank index and suit index: the rank plus the
      multiple of 13 that brings the remainder modulo 4 to the suit (13 is 1
      modulo 4). */
  function CardOf(r: nat, s: nat): (c: Card)
    requires r < |Values| && s < |Suits|
    ensures c < DeckSize
    ensures Rank(c) == r && Suit(c) == s
  {
    var k := (s - r) % 4;
    assert (r + k) % 4 == s;
    r + 13 * k
  }

  /** Two cards of the deck with the same rank and suit are the same card,
      because 13 and 4 are coprime. */
  lemma RankSuitInjective(c1: Card, c2: Card)
    requires c1 < DeckSize && c2 < DeckSize
    requires Rank(c1) == Rank(c2) && Suit(c1) == Suit(c2)
    ensures c1 == c2
  {
    var q1, q2 := c1 / 13, c2 / 13;
    assert c1 == 13 * q1 + Rank(c1) && c2 == 13 * q2 + Rank(c2);
    assert 0 <= q1 < 4 && 0 <= q2 < 4;
  }

  /** Decoding a card after encoding its rank and suit gives the card back. */
  lemma CardOfRankSuit(c: Card)
    requires c < DeckSize
    ensures CardOf(Rank(c), Suit(c)) == c
  {
    RankSuitInjective(CardOf(Rank(c), Suit(c)), c);
  }

  /** The rank names are pairwise different, and so are the suit names. */
  lemma NamesDistinct(i: nat, j: nat)
    ensures i < |Values| && j < |Values| && i != j ==> Values[i] != Values[j]
    ensures i < |Suits| && j < |Suits| && i != j ==> Suits[i] != Suits[j]
  {
  }

  /** The 52 cards of a deck have 52 different names. */
  lemma CardNameInjective(c1: Card, c2: Card)
    requires c1 < DeckSize && c2 < DeckSize
    requires CardName(c1) == CardName(c2)
    ensures c1 == c2
  {
    NamesDistinct(Rank(c1), Rank(c2));
    NamesDistinct(Suit(c1), Suit(c2));
    RankSuitInjective(c1, c2);
  }

  /** Every one of the 13 x 4 rank/suit combinations is the name of some
      card of the deck, so the deck holds each combination exactly once. */
  lemma EveryNameInDeck(r: nat, s: nat)
    requires r < |Values| && s < |Suits|
    ensures exists c: Card :: c < DeckSize && CardName(c) == (Values[r], Suits[s])
  {
    var c := CardOf(r, s);
    assert CardName(c) == (Values[r], Suits[s]);
  }
}
