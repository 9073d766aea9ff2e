/**
 * Playing cards as the evaluator sees them.
 *
 * The card class itself is not part of this model; what the evaluator and the
 * deck rely on is stated here as explicit assumptions:
 *  - a card has one of four suits and a face value 1..13, where 1 is the Ace;
 *  - the deck's suit letters 's', 'h', 'c', 'd' denote Spades, Hearts, Clubs
 *    and Diamonds, the names the flush detector tests for;
 *  - `a > b` compares Ace-high magnitude (Ace above King), see `Rank`;
 *  - `a == b` and `a.eq(b)` compare face values only, see `SameValue`.
 */
module Cards {

  datatype Option<T> = None | Some(value: T)

  datatype Suit = Spades | Hearts | Clubs | Diamonds

  /** Face value as stored on a card: 1 is the Ace, 11..13 are Jack, Queen, King. */
  type Value = v: int | 1 <= v <= 13 witness 1

  datatype Card = Card(suit: Suit, value: Value)

  /** The order in which the deck is built and the flush detector scans suits. */
  const SuitOrder: seq<Suit> := [Spades, Hearts, Clubs, Diamonds]

  /** Position of a suit in `SuitOrder`. */
  function SuitIndex(s: Suit): (k: nat)
    ensures k < 4 && SuitOrder[k] == s
  {
    match s
    case Spades => 0
    case Hearts => 1
    case Clubs => 2
    case Diamonds => 3
  }

  /** Ace-high magnitude: 2..13 as printed, the Ace counts as 14. */
  function Rank(c: Card): (r: int)
    ensures 2 <= r <= 14
    ensures r == 14 <==> c.value == 1
    ensures r != 14 ==> r == c.value
  {
    if c.value == 1 then 14 else c.value
  }

  /** The card comparison `a > b`. */
  predicate Greater(a: Card, b: Card) {
    Rank(a) > Rank(b)
  }

  /** The card comparisons `a == b` and `a.eq(b)`: same face value, any suit. */
  predicate SameValue(a: Card, b: Card) {
    a.value == b.value
  }

  /** Equal face values are exactly equal magnitudes, so `>`, `==` and `<` are exhaustive. */
  lemma SameValueIsSameRank(a: Card, b: Card)
    ensures SameValue(a, b) <==> Rank(a) == Rank(b)
    ensures !Greater(a, b) && !SameValue(a, b) ==> Greater(b, a)
  {
  }

  /** The cards of `cards` that satisfy `keep`, in their original order. */
  function Filter(cards: seq<Card>, keep: Card -> bool): (r: seq<Card>)
    ensures |r| <= |cards|
  {
    if cards == [] then []
    else
      var last := cards[|cards| - 1];
      Filter(cards[..|cards| - 1], keep) + (if keep(last) then [last] else [])
  }

  /** Bucket of the cards of Ace-high rank `r`. */
  function OfRank(cards: seq<Card>, r: int): seq<Card> {
    Filter(cards, c => Rank(c) == r)
  }

  /** Bucket of the cards of suit `s`. */
  function OfSuit(cards: seq<Card>, s: Suit): seq<Card> {
    Filter(cards, (c: Card) => c.suit == s)
  }

  /** The cards whose rank differs from `r`. */
  function NotOfRank(cards: seq<Card>, r: int): seq<Card> {
    Filter(cards, c => Rank(c) != r)
  }

  /** A card is in a bucket exactly when it is in the input and passes the test. */
  lemma {:induction false} FilterMembers(cards: seq<Card>, keep: Card -> bool)
    ensures forall c :: c in Filter(cards, keep) <==> c in cards && keep(c)
  {
    if cards != [] {
      var init := cards[..|cards| - 1];
      FilterMembers(init, keep);
      assert cards == init + [cards[|cards| - 1]];
    }
  }

  lemma OfRankMembers(cards: seq<Card>, r: int)
    ensures forall c :: c in OfRank(cards, r) <==> c in cards && Rank(c) == r
  {
    FilterMembers(cards, c => Rank(c) == r);
  }

  lemma OfSuitMembers(cards: seq<Card>, s: Suit)
    ensures forall c :: c in OfSuit(cards, s) <==> c in cards && c.suit == s
  {
    FilterMembers(cards, (c: Card) => c.suit == s);
  }

  /** Every card of a non-empty bucket is in the bucket, and the first one is in the input. */
  lemma FilterHead(cards: seq<Card>, keep: Card -> bool)
    requires |Filter(cards, keep)| > 0
    ensures Filter(cards, keep)[0] in cards && keep(Filter(cards, keep)[0])
  {
    FilterMembers(cards, keep);
    assert Filter(cards, keep)[0] in Filter(cards, keep);
  }
}
