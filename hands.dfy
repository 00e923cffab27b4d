/** The hand evaluator: the best score of a hand under the flexible-Ace rule,
    the blackjack test and the Ace test used by the dealer. */
module Hands {
  import opened Cards

  /** A hand in the order its cards were dealt. */
  type Hand = seq<Card>

  /** Sum of the card values, every Ace counted as 11. */
  function Total(h: Hand): int
  {
    if h == [] then 0 else Total(h[..|h| - 1]) + CardScore(h[|h| - 1])
  }

  /** Number of Aces in the hand. */
  function Aces(h: Hand): nat
  {
    if h == [] then 0 else Aces(h[..|h| - 1]) + (if IsAce(h[|h| - 1]) then 1 else 0)
  }

  /** Sum of the card values with every Ace counted as 1. */
  function HardTotal(h: Hand): int
  {
    Total(h) - 10 * Aces(h)
  }

  /** How many of `aces` Aces are turned from 11 into 1 starting from the sum
      `total`: one at a time while the sum is over 21 and an Ace is left. */
  function AcesDemoted(total: int, aces: nat): (k: nat)
    ensures k <= aces
    ensures total - 10 * k > 21 ==> k == aces
    ensures k > 0 ==> total - 10 * (k - 1) > 21
    decreases aces
  {
    if total > 21 && aces > 0 then 1 + AcesDemoted(total - 10, aces - 1) else 0
  }

  /** The score of a hand: the Ace-at-11 sum less 10 for each demoted Ace.
      It lies between the all-Aces-low and the all-Aces-high sums, and is
      over 21 only when every Ace has been demoted. */
  function HandScore(h: Hand): (s: int)
    ensures HardTotal(h) <= s <= Total(h)
    ensures s > 21 ==> s == HardTotal(h)
  {
    Total(h) - 10 * AcesDemoted(Total(h), Aces(h))
  }

  /** A hand is soft when its score still counts some Ace as 11. */
  predicate IsSoft(h: Hand) {
    HandScore(h) > HardTotal(h)
  }

  /** The hand holds at least one Ace. */
  predicate ContainsAce(h: Hand) {
    exists i :: 0 <= i < |h| && IsAce(h[i])
  }

  /** A blackjack is a two-card hand scoring 21. */
  predicate IsBlackjack(h: Hand) {
    |h| == 2 && HandScore(h) == 21
  }

  /** The score is the best one available: whenever some choice of `j` Aces
      counted as 1 brings the sum to 21 or under, the score is at most 21 and
      at least that sum. So demotion stops at the first sum that is 21 or
      under, and an Ace is never counted both as 11 and as 1. */
  lemma ScoreIsBest(h: Hand, j: nat)
    requires j <= Aces(h) && Total(h) - 10 * j <= 21
    ensures HandScore(h) <= 21
    ensures Total(h) - 10 * j <= HandScore(h)
  {
  }

  /** Taking one more card: the sums and counts of the longer hand. */
  lemma TotalSnoc(h: Hand, c: Card)
    ensures Total(h + [c]) == Total(h) + CardScore(c)
    ensures Aces(h + [c]) == Aces(h) + (if IsAce(c) then 1 else 0)
  {
    assert (h + [c])[..|h|] == h;
  }

  /** Every card adds at least 1 to the all-Aces-low sum, so a hand has at
      most as many cards as its score. */
  lemma {:induction false} SizeAtMostScore(h: Hand)
    ensures |h| <= HardTotal(h) <= HandScore(h)
  {
    if h != [] {
      var p := h[..|h| - 1];
      SizeAtMostScore(p);
      assert h == p + [h[|h| - 1]];
      TotalSnoc(p, h[|h| - 1]);
    }
  }

  /** A hand holds an Ace exactly when its Ace count is positive. */
  lemma {:induction false} ContainsAceIffAces(h: Hand)
    ensures ContainsAce(h) <==> Aces(h) > 0
  {
    if h != [] {
      var p := h[..|h| - 1];
      ContainsAceIffAces(p);
      if ContainsAce(p) {
        var i :| 0 <= i < |p| && IsAce(p[i]);
        assert h[i] == p[i];
      }
      if ContainsAce(h) && !IsAce(h[|h| - 1]) {
        var i :| 0 <= i < |h| && IsAce(h[i]);
        assert p[i] == h[i];
      }
    }
  }

  /** A soft hand holds an Ace (the converse fails: an Ace may have been
      demoted, as in Ace, 6, 10). */
  lemma SoftHasAce(h: Hand)
    ensures IsSoft(h) ==> ContainsAce(h)
  {
    ContainsAceIffAces(h);
  }

  /** A blackjack is an Ace together with a ten-valued card, in either order. */
  lemma BlackjackIsAceAndTen(h: Hand)
    ensures IsBlackjack(h) <==>
      |h| == 2 && ((IsAce(h[0]) && CardScore(h[1]) == 10) || (CardScore(h[0]) == 10 && IsAce(h[1])))
  {
    if |h| == 2 {
      var p := h[..1];
      assert p[..0] == [] && p[0] == h[0];
      assert Total(p) == CardScore(h[0]) && Aces(p) == (if IsAce(h[0]) then 1 else 0);
      assert Total(h) == CardScore(h[0]) + CardScore(h[1]);
      assert Aces(h) == (if IsAce(h[0]) then 1 else 0) + (if IsAce(h[1]) then 1 else 0);
    }
  }

  /** Computes the score as the Go code does: sum with Aces at 11 while
      counting Aces, then take 10 off per Ace while the sum is over 21. */
  method Score(h: Hand) returns (total: int)
    ensures total == HandScore(h)
  {
    var aces: nat := 0;
    total := 0;
    for i := 0 to |h|
      invariant total == Total(h[..i]) && aces == Aces(h[..i])
    {
      TotalSnoc(h[..i], h[i]);
      assert h[..i + 1] == h[..i] + [h[i]];
      var s := CardScore(h[i]);
      total := total + s;
      if s == 11 {
        aces := aces + 1;
      }
    }
    assert h[..|h|] == h;
    ghost var demoted: nat := 0;
    while total > 21 && aces > 0
      invariant demoted <= Aces(h) && aces == Aces(h) - demoted
      invariant total == Total(h) - 10 * demoted
      invariant demoted + AcesDemoted(total, aces) == AcesDemoted(Total(h), Aces(h))
    {
      total := total - 10;
      aces := aces - 1;
      demoted := demoted + 1;
    }
  }

  /** Tells whether the hand holds an Ace, stopping at the first one. */
  method HasAce(h: Hand) returns (b: bool)
    ensures b == ContainsAce(h)
  {
    for i := 0 to |h|
      invariant forall k :: 0 <= k < i ==> !IsAce(h[k])
    {
      if CardScore(h[i]) == 11 {
        return true;
      }
    }
    return false;
  }
}
