/**
 * The deck: the unshuffled 52-card order, the Fisher-Yates shuffle with its
 * random choices passed in, and drawing from the front.
 */
module Decks {
  import opened Wrappers
  import opened Cards

  /** The card at position k of a new deck: suit number k / 13, rank k % 13 + 1. */
  function CardAt(k: nat): (c: Card)
    requires k < 52
    ensures CardIndex(c) == k
  {
    var c := Card(SUITS[k / 13], k % 13 + 1);
    assert SuitIndex(c.suit) == k / 13;
    c
  }

  /** A new deck: every suit in order, each with its ranks ascending. */
  function StandardDeck(): (d: seq<Card>)
    ensures |d| == 52
  {
    seq(52, k requires 0 <= k < 52 => CardAt(k))
  }

  /** Card number i of a new deck is the card whose deck position is i. */
  lemma StandardDeckPositions()
    ensures |StandardDeck()| == 52
    ensures forall i :: 0 <= i < 52 ==> CardIndex(StandardDeck()[i]) == i
  {
  }

  /** A new deck holds every card, at its own position. */
  lemma StandardDeckComplete(c: Card)
    ensures |StandardDeck()| == 52
    ensures StandardDeck()[CardIndex(c)] == c
  {
    StandardDeckPositions();
    CardIndexInjective(StandardDeck()[CardIndex(c)], c);
  }

  /** A new deck holds no card twice. */
  lemma StandardDeckDistinct()
    ensures |StandardDeck()| == 52
    ensures forall i, j :: 0 <= i < j < 52 ==> StandardDeck()[i] != StandardDeck()[j]
  {
    StandardDeckPositions();
  }

  /** A new deck is suit-major (Hearts, Diamonds, Clubs, Spades) with ranks ascending in each suit. */
  lemma StandardDeckOrder()
    ensures |StandardDeck()| == 52
    ensures forall i, j :: 0 <= i < j < 52 ==>
      var a, b := StandardDeck()[i], StandardDeck()[j];
      SuitIndex(a.suit) < SuitIndex(b.suit) || (a.suit == b.suit && a.rank < b.rank)
  {
    StandardDeckPositions();
    forall i, j | 0 <= i < j < 52
      ensures var a, b := StandardDeck()[i], StandardDeck()[j];
        SuitIndex(a.suit) < SuitIndex(b.suit) || (a.suit == b.suit && a.rank < b.rank)
    {
      var a, b := StandardDeck()[i], StandardDeck()[j];
      assert CardIndex(a) < CardIndex(b);
      if SuitIndex(a.suit) == SuitIndex(b.suit) {
        assert a.suit == SUITS[SuitIndex(a.suit)] == b.suit;
      }
    }
  }

  /** No element occurs twice in s. */
  ghost predicate Distinct(s: seq<Card>)
  {
    forall i, j :: 0 <= i < j < |s| ==> s[i] != s[j]
  }

  lemma {:induction false} DistinctCount(s: seq<Card>, c: Card)
    requires Distinct(s)
    ensures multiset(s)[c] == if c in s then 1 else 0
  {
    if s != [] {
      var front := s[..|s| - 1];
      assert s == front + [s[|s| - 1]];
      assert Distinct(front);
      DistinctCount(front, c);
      assert s[|s| - 1] in front ==> false;
    }
  }

  /** Each card occurs exactly once in a new deck. */
  lemma StandardDeckOnceEach(c: Card)
    ensures multiset(StandardDeck())[c] == 1
  {
    StandardDeckDistinct();
    StandardDeckComplete(c);
    DistinctCount(StandardDeck(), c);
  }

  /** The exchange of positions i and j, written as the program's three assignments through a temporary. */
  function Swap(s: seq<Card>, i: nat, j: nat): (r: seq<Card>)
    requires i < |s| && j < |s|
    ensures |r| == |s|
    ensures r[i] == s[j] && r[j] == s[i]
    ensures forall k :: 0 <= k < |s| && k != i && k != j ==> r[k] == s[k]
  {
    var temp := s[i];
    s[i := s[j]][j := temp]
  }

  /** An exchange keeps every card, as often as before. */
  lemma SwapIsPermutation(s: seq<Card>, i: nat, j: nat)
    requires i < |s| && j < |s|
    ensures multiset(Swap(s, i, j)) == multiset(s)
  {
  }

  /** The random choices for a shuffle of n cards: at step i the index drawn lies in [0, i]. */
  predicate ValidPicks(picks: seq<nat>, n: nat)
  {
    |picks| == n && forall i :: 0 < i < n ==> picks[i] <= i
  }

  /** The Fisher-Yates steps i, i - 1, ..., 1 applied to s, step k swapping k with picks[k]. */
  function ShuffleDown(s: seq<Card>, picks: seq<nat>, i: int): (r: seq<Card>)
    requires ValidPicks(picks, |s|) && i < |s|
    ensures |r| == |s|
    ensures forall k :: 0 <= k < |s| && i < k ==> r[k] == s[k]
    decreases i
  {
    if i <= 0 then s else ShuffleDown(Swap(s, i, picks[i]), picks, i - 1)
  }

  /** The deck that a shuffle with the given choices leaves. */
  function Shuffled(s: seq<Card>, picks: seq<nat>): (r: seq<Card>)
    requires ValidPicks(picks, |s|)
    ensures |r| == |s|
    ensures |s| <= 1 ==> r == s
  {
    ShuffleDown(s, picks, |s| - 1)
  }

  lemma {:induction false} ShuffleDownIsPermutation(s: seq<Card>, picks: seq<nat>, i: int)
    requires ValidPicks(picks, |s|) && i < |s|
    ensures |ShuffleDown(s, picks, i)| == |s|
    ensures multiset(ShuffleDown(s, picks, i)) == multiset(s)
    decreases i
  {
    if i > 0 {
      SwapIsPermutation(s, i, picks[i]);
      ShuffleDownIsPermutation(Swap(s, i, picks[i]), picks, i - 1);
    }
  }

  /** Whatever the choices, a shuffle only reorders: same length, same cards, each as often. */
  lemma ShuffledIsPermutation(s: seq<Card>, picks: seq<nat>)
    requires ValidPicks(picks, |s|)
    ensures |Shuffled(s, picks)| == |s|
    ensures multiset(Shuffled(s, picks)) == multiset(s)
  {
    ShuffleDownIsPermutation(s, picks, |s| - 1);
  }

  /** A shuffled new deck still holds 52 cards, each card exactly once. */
  lemma ShuffledDeckOnceEach(picks: seq<nat>, c: Card)
    requires ValidPicks(picks, 52)
    ensures |StandardDeck()| == 52
    ensures |Shuffled(StandardDeck(), picks)| == 52
    ensures multiset(Shuffled(StandardDeck(), picks))[c] == 1
  {
    StandardDeckPositions();
    ShuffledIsPermutation(StandardDeck(), picks);
    StandardDeckOnceEach(c);
  }

  /** The undealt cards of one round, top of the deck first. */
  class Deck {
    var cards: seq<Card>

    /** Builds the deck suit by suit, ranks 1 to 13 within each suit. */
    constructor ()
      ensures cards == StandardDeck()
    {
      cards := [];
      new;
      for si := 0 to |SUITS|
        invariant cards == StandardDeck()[..13 * si]
      {
        var suit := SUITS[si];
        for value := 1 to 14
          invariant cards == StandardDeck()[..13 * si + value - 1]
        {
          CardIndexInjective(Card(suit, value), StandardDeck()[13 * si + value - 1]);
          assert StandardDeck()[..13 * si + value] == cards + [Card(suit, value)];
          cards := cards + [Card(suit, value)];
        }
      }
    }

    /** Fisher-Yates: for i from the last index down to 1, swap card i with card picks[i]. */
    method Shuffle(picks: seq<nat>)
      requires ValidPicks(picks, |cards|)
      modifies this
      ensures cards == Shuffled(old(cards), picks)
      ensures |cards| == |old(cards)| && multiset(cards) == multiset(old(cards))
    {
      var i := |cards| - 1;
      while i > 0
        invariant -1 <= i < |cards| == |old(cards)|
        invariant ShuffleDown(cards, picks, i) == Shuffled(old(cards), picks)
      {
        ghost var before := cards;
        var j := picks[i];
        var temp := cards[i];
        cards := cards[i := cards[j]];
        cards := cards[j := temp];
        assert cards == Swap(before, i, j);
        i := i - 1;
      }
      ShuffledIsPermutation(old(cards), picks);
    }

    /** Removes and returns the top card, or returns None and changes nothing when the deck is empty. */
    method Draw() returns (c: Option<Card>)
      modifies this
      ensures old(cards) == [] ==> c == None && cards == old(cards)
      ensures old(cards) != [] ==> c == Some(old(cards)[0]) && cards == old(cards)[1..]
    {
      if |cards| == 0 {
        return None;
      }
      var drawn := cards[0];
      cards := cards[1..];
      return Some(drawn);
    }
  }
}
