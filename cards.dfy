/**
 * Playing cards: the four suits, ranks 1..13 (1 is the Ace, 11..13 are
 * Jack, Queen and King) and the display form of a card.
 */
module Cards {

  datatype Suit = Hearts | Diamonds | Clubs | Spades

  /** The suits in declaration order, the order in which a deck is built. */
  const SUITS: seq<Suit> := [Hearts, Diamonds, Clubs, Spades]

  /** A card's rank; the model never builds a card outside 1..13. */
  type Rank = r: int | 1 <= r <= 13 witness 1

  /** An immutable card; equality is equality of suit and rank. */
  datatype Card = Card(suit: Suit, rank: Rank)

  /** The position of a suit in SUITS. */
  function SuitIndex(s: Suit): (k: nat)
    ensures k < |SUITS| && SUITS[k] == s
  {
    match s
    case Hearts => 0
    case Diamonds => 1
    case Clubs => 2
    case Spades => 3
  }

  /** The position a card takes in an unshuffled deck: suit-major, ranks ascending. */
  function CardIndex(c: Card): (k: nat)
    ensures k < 52
    ensures k / 13 == SuitIndex(c.suit) && k % 13 == c.rank - 1
  {
    13 * SuitIndex(c.suit) + (c.rank - 1)
  }

  /** Different cards have different positions in an unshuffled deck. */
  lemma CardIndexInjective(a: Card, b: Card)
    ensures CardIndex(a) == CardIndex(b) ==> a == b
  {
    if CardIndex(a) == CardIndex(b) {
      assert SuitIndex(a.suit) == SuitIndex(b.suit);
      assert a.suit == SUITS[SuitIndex(a.suit)] == b.suit;
    }
  }

  /** The rank labels, indexed by rank - 1. */
  const FACE_LABELS: seq<string> := ["A", "2", "3", "4", "5", "6", "7", "8", "9", "10", "J", "Q", "K"]

  /** The label shown for a rank: A, the digits 2..10, J, Q or K. */
  function FaceLabel(r: Rank): (s: string)
    ensures r == 1 ==> s == "A"
    ensures 2 <= r <= 9 ==> s == [('0' as int + r) as char]
    ensures r == 10 ==> s == "10"
    ensures r == 11 ==> s == "J"
    ensures r == 12 ==> s == "Q"
    ensures r == 13 ==> s == "K"
  {
    FACE_LABELS[r - 1]
  }

  /** The enum name of a suit, as the program prints it. */
  function SuitName(s: Suit): string
  {
    match s
    case Hearts => "Hearts"
    case Diamonds => "Diamonds"
    case Clubs => "Clubs"
    case Spades => "Spades"
  }

  /** The display form of a card, "<label> of <suit>". */
  function CardString(c: Card): (s: string)
    ensures 10 <= |s| <= 14
  {
    FaceLabelShape(c.rank);
    FaceLabel(c.rank) + " of " + SuitName(c.suit)
  }

  /** Each label has one or two characters and no space; only "10" has two. */
  lemma FaceLabelShape(r: Rank)
    ensures 1 <= |FaceLabel(r)| <= 2
    ensures forall i :: 0 <= i < |FaceLabel(r)| ==> FaceLabel(r)[i] != ' '
    ensures |FaceLabel(r)| == 2 <==> r == 10
  {
  }

  /** Distinct ranks have distinct labels. */
  lemma FaceLabelInjective(r1: Rank, r2: Rank)
    ensures FaceLabel(r1) == FaceLabel(r2) ==> r1 == r2
  {
  }

  /** Distinct suits have distinct names. */
  lemma SuitNameInjective(s1: Suit, s2: Suit)
    ensures SuitName(s1) == SuitName(s2) ==> s1 == s2
  {
  }

  /** Joining with " of " can be undone when the left part holds no space. */
  lemma {:induction false} JoinedAtFirstSpace(l1: string, r1: string, l2: string, r2: string)
    requires forall i :: 0 <= i < |l1| ==> l1[i] != ' '
    requires forall i :: 0 <= i < |l2| ==> l2[i] != ' '
    ensures l1 + " of " + r1 == l2 + " of " + r2 ==> l1 == l2 && r1 == r2
  {
    var s1, s2 := l1 + " of " + r1, l2 + " of " + r2;
    if s1 == s2 {
      assert s1[|l1|] == ' ' && s2[|l2|] == ' ';
      assert |l1| == |l2|;
      assert l1 == s1[..|l1|] && l2 == s2[..|l2|];
      assert r1 == s1[|l1| + 4..] && r2 == s2[|l2| + 4..];
    }
  }

  /** The display form tells cards apart: two cards that print alike are the same card. */
  lemma CardStringInjective(a: Card, b: Card)
    ensures CardString(a) == CardString(b) ==> a == b
  {
    FaceLabelShape(a.rank);
    FaceLabelShape(b.rank);
    JoinedAtFirstSpace(FaceLabel(a.rank), SuitName(a.suit), FaceLabel(b.rank), SuitName(b.suit));
    FaceLabelInjective(a.rank, b.rank);
    SuitNameInjective(a.suit, b.suit);
  }
}
