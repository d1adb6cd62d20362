/**
 * Blackjack hand values. A card first counts its points with every Ace as
 * 11; then, while the total is over 21 and an Ace still counts 11, one Ace
 * is re-read as 1 (10 points less). The functions here are the reference
 * definition that the loop method Blackjack.Game.CalculateHandValue is
 * proved against.
 */
module Scoring {
  import opened Cards

  /** Points before softening: Ace 11, Jack/Queen/King 10, any other card its rank. */
  function CardPoints(c: Card): (p: nat)
    ensures 2 <= p <= 11
    ensures p == 11 <==> c.rank == 1
  {
    if c.rank == 1 then 11 else if c.rank > 10 then 10 else c.rank
  }

  /** Points with every Ace read as 1: the rank, capped at 10. */
  function HardPoints(c: Card): nat
  {
    if c.rank > 10 then 10 else c.rank
  }

  /** The total with every Ace counted 11, summed in hand order. */
  function RawTotal(hand: seq<Card>): nat
  {
    if hand == [] then 0 else RawTotal(hand[..|hand| - 1]) + CardPoints(hand[|hand| - 1])
  }

  /** The total with every Ace counted 1. */
  function HardTotal(hand: seq<Card>): nat
  {
    if hand == [] then 0 else HardTotal(hand[..|hand| - 1]) + HardPoints(hand[|hand| - 1])
  }

  /** The number of Aces in the hand. */
  function AceCount(hand: seq<Card>): nat
  {
    if hand == [] then 0 else AceCount(hand[..|hand| - 1]) + (if hand[|hand| - 1].rank == 1 then 1 else 0)
  }

  /** Re-read Aces as 1, one at a time, while the total is over 21 and an Ace is left. */
  function Soften(total: int, aces: nat): (r: int)
    ensures total - 10 * aces <= r <= total
    ensures r > 21 ==> r == total - 10 * aces
    decreases aces
  {
    if total > 21 && aces > 0 then Soften(total - 10, aces - 1) else total
  }

  /** The value of a hand: the raw total, softened. */
  function HandValue(hand: seq<Card>): (v: int)
    ensures v <= RawTotal(hand)
    ensures v > 21 ==> v == RawTotal(hand) - 10 * AceCount(hand)
  {
    Soften(RawTotal(hand), AceCount(hand))
  }

  /**
   * k Aces are the fewest that must be re-read as 1 to bring the total to at
   * most 21, or all of them when even that is not enough.
   */
  ghost predicate FewestAces(total: int, aces: nat, k: nat)
  {
    && k <= aces
    && (total - 10 * k <= 21 || k == aces)
    && forall j :: 0 <= j < k ==> total - 10 * j > 21
  }

  /** The raw total is the hard total plus 10 for each Ace. */
  lemma {:induction false} RawIsHardPlusAces(hand: seq<Card>)
    ensures RawTotal(hand) == HardTotal(hand) + 10 * AceCount(hand)
  {
    if hand != [] {
      RawIsHardPlusAces(hand[..|hand| - 1]);
    }
  }

  /** Every card adds at least 1 to the hard total. */
  lemma {:induction false} HardTotalAtLeastLength(hand: seq<Card>)
    ensures |hand| <= HardTotal(hand)
    ensures AceCount(hand) <= |hand|
  {
    if hand != [] {
      HardTotalAtLeastLength(hand[..|hand| - 1]);
    }
  }

  /** Appending a card adds its points to each total. */
  lemma AppendCard(hand: seq<Card>, c: Card)
    ensures RawTotal(hand + [c]) == RawTotal(hand) + CardPoints(c)
    ensures HardTotal(hand + [c]) == HardTotal(hand) + HardPoints(c)
    ensures AceCount(hand + [c]) == AceCount(hand) + (if c.rank == 1 then 1 else 0)
  {
    assert (hand + [c])[..|hand|] == hand;
  }

  /** Softening re-reads exactly the fewest Aces needed (any such count gives the value). */
  lemma {:induction false} SoftenIsFewestAces(total: int, aces: nat, k: nat)
    requires FewestAces(total, aces, k)
    ensures Soften(total, aces) == total - 10 * k
    decreases aces
  {
    if k > 0 {
      assert total - 10 * 0 > 21;
    }
    if total > 21 && aces > 0 {
      assert FewestAces(total - 10, aces - 1, k - 1) by {
        forall j | 0 <= j < k - 1
          ensures total - 10 - 10 * j > 21
        {
          assert total - 10 * (j + 1) > 21;
        }
      }
      SoftenIsFewestAces(total - 10, aces - 1, k - 1);
    }
  }

  /** The fewest count always exists: softening re-reads some k Aces, the fewest. */
  lemma {:induction false} SoftenHasFewestAces(total: int, aces: nat)
    ensures exists k: nat :: FewestAces(total, aces, k) && Soften(total, aces) == total - 10 * k
    decreases aces
  {
    if total > 21 && aces > 0 {
      SoftenHasFewestAces(total - 10, aces - 1);
      var k: nat :| FewestAces(total - 10, aces - 1, k) && Soften(total - 10, aces - 1) == total - 10 - 10 * k;
      assert FewestAces(total, aces, k + 1) by {
        forall j | 0 <= j < k + 1
          ensures total - 10 * j > 21
        {
          if j > 0 {
            assert total - 10 - 10 * (j - 1) > 21;
          }
        }
      }
    } else {
      assert FewestAces(total, aces, 0);
    }
  }

  /** The value of a hand is its raw total less 10 for each of the fewest Aces needed. */
  lemma HandValueSoftensFewestAces(hand: seq<Card>)
    ensures exists k: nat :: FewestAces(RawTotal(hand), AceCount(hand), k) && HandValue(hand) == RawTotal(hand) - 10 * k
  {
    SoftenHasFewestAces(RawTotal(hand), AceCount(hand));
  }

  /** A hand's value lies between its hard total and its raw total. */
  lemma ValueBetweenHardAndRaw(hand: seq<Card>)
    ensures HardTotal(hand) <= HandValue(hand) <= RawTotal(hand)
  {
    RawIsHardPlusAces(hand);
    SoftenHasFewestAces(RawTotal(hand), AceCount(hand));
  }

  /** A hand is not bust exactly when its hard total is not over 21. */
  lemma ValueAtMost21Iff(hand: seq<Card>)
    ensures HandValue(hand) <= 21 <==> HardTotal(hand) <= 21
  {
    RawIsHardPlusAces(hand);
    SoftenHasFewestAces(RawTotal(hand), AceCount(hand));
  }

  /** Without Aces the value is the sum of the ranks, each capped at 10. */
  lemma NoAcesValue(hand: seq<Card>)
    requires forall i :: 0 <= i < |hand| ==> hand[i].rank != 1
    ensures AceCount(hand) == 0
    ensures HandValue(hand) == HardTotal(hand)
  {
    NoAcesCount(hand);
    RawIsHardPlusAces(hand);
  }

  lemma {:induction false} NoAcesCount(hand: seq<Card>)
    requires forall i :: 0 <= i < |hand| ==> hand[i].rank != 1
    ensures AceCount(hand) == 0
  {
    if hand != [] {
      NoAcesCount(hand[..|hand| - 1]);
    }
  }

  /** The empty hand is worth 0, and two Aces together are worth 12, not 22. */
  lemma SmallHands(s1: Suit, s2: Suit)
    ensures HandValue([]) == 0
    ensures HandValue([Card(s1, 1), Card(s2, 1)]) == 12
  {
    var h := [Card(s1, 1), Card(s2, 1)];
    assert h[..1] == [Card(s1, 1)];
    assert [Card(s1, 1)][..0] == [];
    assert RawTotal(h[..1]) == 11 && AceCount(h[..1]) == 1;
    assert RawTotal(h) == 22 && AceCount(h) == 2;
    assert Soften(22, 2) == Soften(12, 1) == 12;
  }

  /** No two-card hand is bust: a dealt hand is worth at least 4 (two 2s) and at most 21. */
  lemma TwoCardHandAtMost21(hand: seq<Card>)
    requires |hand| == 2
    ensures 4 <= HandValue(hand) <= 21
  {
    assert hand[..1][..0] == [];
    assert RawTotal(hand[..1]) == CardPoints(hand[0]);
    assert AceCount(hand[..1]) == if hand[0].rank == 1 then 1 else 0;
    assert RawTotal(hand) == CardPoints(hand[0]) + CardPoints(hand[1]);
    ValueBetweenHardAndRaw(hand);
    HardTotalAtLeastLength(hand);
    if RawTotal(hand) > 21 {
      assert hand[0].rank == 1 && hand[1].rank == 1;
      assert AceCount(hand) == 2;
      assert Soften(22, 2) == Soften(12, 1) == 12;
    }
  }
}
