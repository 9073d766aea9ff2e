/**
 * The hand evaluator: the category detectors and `checkHand`, as functions.
 *
 * Every detector buckets the cards (by Ace-high rank, by suit, or into the 14
 * straight slots) and scans the buckets from high to low; the functions below
 * state each scan as a recursion over the bucket index, and their contracts
 * say what the first bucket found means. The loops that fill and scan the
 * buckets are in module HandScan, proved equal to these functions.
 */
module Hands {
  import opened Cards

  // ---------------------------------------------------------------- highest card

  /**
   * Index kept by the high-card scan: a card no other card outranks, and the
   * earliest such card, because a later card replaces it only when strictly higher.
   */
  function HighestIndex(cards: seq<Card>): (k: nat)
    requires |cards| > 0
    ensures k < |cards|
    ensures forall j :: 0 <= j < |cards| ==> Rank(cards[j]) <= Rank(cards[k])
    ensures forall j :: 0 <= j < k ==> Rank(cards[j]) < Rank(cards[k])
  {
    if |cards| == 1 then 0
    else
      var h := HighestIndex(cards[..|cards| - 1]);
      if Rank(cards[|cards| - 1]) > Rank(cards[h]) then |cards| - 1 else h
  }

  /** The card `findHighest` returns. */
  function Highest(cards: seq<Card>): (c: Card)
    requires |cards| > 0
    ensures c in cards
    ensures forall d :: d in cards ==> Rank(d) <= Rank(c)
  {
    cards[HighestIndex(cards)]
  }

  // ---------------------------------------------------------------- n of a kind

  /**
   * Scan of the rank buckets from rank `r` down to 2 for one holding at least
   * `n` cards; the result is the first card of the first such bucket.
   */
  function RepeatAtOrBelow(n: int, cards: seq<Card>, r: int): (res: Option<Card>)
    requires n >= 1
    ensures res.None? <==> forall k :: 2 <= k <= r ==> |OfRank(cards, k)| < n
    ensures res.Some? ==>
      var c := res.value;
      2 <= Rank(c) <= r && c in cards &&
      |OfRank(cards, Rank(c))| >= n && c == OfRank(cards, Rank(c))[0] &&
      forall k :: Rank(c) < k <= r ==> |OfRank(cards, k)| < n
    decreases r
  {
    if r < 2 then None
    else if |OfRank(cards, r)| >= n then
      FilterHead(cards, c => Rank(c) == r);
      Some(OfRank(cards, r)[0])
    else RepeatAtOrBelow(n, cards, r - 1)
  }

  /**
   * `findRepeat(n, cards)`: None exactly when no rank occurs `n` times;
   * otherwise the first card of the highest rank (Ace above King) that does.
   */
  function Repeat(n: int, cards: seq<Card>): (res: Option<Card>)
    requires n >= 1
    ensures res.None? <==> forall k :: 2 <= k <= 14 ==> |OfRank(cards, k)| < n
    ensures res.Some? ==>
      var c := res.value;
      c in cards && |OfRank(cards, Rank(c))| >= n && c == OfRank(cards, Rank(c))[0] &&
      forall k :: Rank(c) < k <= 14 ==> |OfRank(cards, k)| < n
  {
    RepeatAtOrBelow(n, cards, 14)
  }

  // ---------------------------------------------------------------- two pair

  /** `twoPair`: the highest pair's card, provided a second, lower pair exists. */
  function TwoPair(cards: seq<Card>): (res: Option<Card>)
    ensures res.Some? ==> res == Repeat(2, cards)
  {
    match Repeat(2, cards)
    case None => None
    case Some(c) => if RepeatAtOrBelow(2, cards, Rank(c) - 1).Some? then Some(c) else None
  }

  // ---------------------------------------------------------------- straight

  /**
   * Straight slot `s` of 14: slot s < 13 holds the cards of face value s + 1,
   * so the Ace sits in slot 0, and slot 13 holds the Aces once more.
   */
  function Slot(cards: seq<Card>, s: int): seq<Card>
    requires 0 <= s <= 13
  {
    if s == 0 || s == 13 then OfRank(cards, 14) else OfRank(cards, s + 1)
  }

  /** Five consecutive non-empty slots whose top slot is `p`. */
  predicate RunAt(cards: seq<Card>, p: int)
    requires 4 <= p <= 13
  {
    forall s :: p - 4 <= s <= p ==> |Slot(cards, s)| > 0
  }

  /** Top slot of the highest run whose top is at most `p`, or 3 if there is none. */
  function HighestRun(cards: seq<Card>, p: int): (q: int)
    requires p <= 13
    ensures q == 3 || 4 <= q <= p
    ensures 4 <= q ==> RunAt(cards, q)
    ensures forall t :: 4 <= t <= p && q < t ==> !RunAt(cards, t)
    decreases p
  {
    if p < 4 then 3
    else if RunAt(cards, p) then p
    else HighestRun(cards, p - 1)
  }

  /**
   * `straight`: a card exactly when some five consecutive slots are filled; it is
   * the first card of the top slot of the highest run, so an Ace for
   * 10-J-Q-K-A and a 5 for A-2-3-4-5.
   */
  function Straight(cards: seq<Card>): (res: Option<Card>)
    ensures res.Some? <==> exists q :: 4 <= q <= 13 && RunAt(cards, q)
    ensures res.Some? ==>
      var q := HighestRun(cards, 13);
      4 <= q && res.value in cards && res.value == Slot(cards, q)[0] &&
      res.value.value == (if q == 13 then 1 else q + 1) && Rank(res.value) == q + 1
  {
    var q := HighestRun(cards, 13);
    if q >= 4 then
      assert |Slot(cards, q)| > 0;
      FilterHead(cards, c => Rank(c) == (if q == 13 then 14 else q + 1));
      Some(Slot(cards, q)[0])
    else None
  }

  // ---------------------------------------------------------------- flush

  /**
   * Scan of the suit buckets from position `k` of `SuitOrder` on for one with
   * at least five cards; the result is that bucket's highest card.
   */
  function FlushFrom(cards: seq<Card>, k: nat): (res: Option<Card>)
    requires k <= 4
    ensures res.None? <==> forall t :: k <= SuitIndex(t) ==> |OfSuit(cards, t)| < 5
    ensures res.Some? ==>
      var c := res.value;
      k <= SuitIndex(c.suit) && |OfSuit(cards, c.suit)| >= 5 &&
      c == Highest(OfSuit(cards, c.suit)) &&
      forall t :: k <= SuitIndex(t) < SuitIndex(c.suit) ==> |OfSuit(cards, t)| < 5
    decreases 4 - k
  {
    if k == 4 then None
    else
      var bucket := OfSuit(cards, SuitOrder[k]);
      if |bucket| >= 5 then
        OfSuitMembers(cards, SuitOrder[k]);
        Some(Highest(bucket))
      else FlushFrom(cards, k + 1)
  }

  /**
   * `flush`: the highest card of the first suit, in the order Spades, Hearts,
   * Clubs, Diamonds, that has at least five cards; None when no suit has five.
   */
  function Flush(cards: seq<Card>): (res: Option<Card>)
    ensures res.None? <==> forall t :: |OfSuit(cards, t)| < 5
    ensures res.Some? ==>
      var c := res.value;
      c in cards && |OfSuit(cards, c.suit)| >= 5 &&
      (forall d :: d in cards && d.suit == c.suit ==> Rank(d) <= Rank(c)) &&
      forall t :: SuitIndex(t) < SuitIndex(c.suit) ==> |OfSuit(cards, t)| < 5
  {
    var res := FlushFrom(cards, 0);
    if res.Some? then OfSuitMembers(cards, res.value.suit); res else res
  }

  // ---------------------------------------------------------------- composed detectors

  /**
   * `fullHouse`: the three-of-a-kind card, when the cards of the other values
   * still hold a pair. (Comparing face values and comparing ranks coincide.)
   */
  function FullHouse(cards: seq<Card>): (res: Option<Card>)
    ensures res.Some? ==> res == Repeat(3, cards)
  {
    match Repeat(3, cards)
    case None => None
    case Some(c) =>
      if Repeat(2, NotOfRank(cards, Rank(c))).None? then None else Some(c)
  }

  /** `straightFlush`: the straight found among the cards of the flush's suit. */
  function StraightFlush(cards: seq<Card>): (res: Option<Card>)
    ensures res.Some? ==> Flush(cards).Some? && res.value in cards && res.value.suit == Flush(cards).value.suit
  {
    match Flush(cards)
    case None => None
    case Some(c) =>
      OfSuitMembers(cards, c.suit);
      Straight(OfSuit(cards, c.suit))
  }

  /** `royalFlush`: the straight flush, when its top card is an Ace. */
  function RoyalFlush(cards: seq<Card>): (res: Option<Card>)
    ensures res.Some? ==> res.value.value == 1 && res == StraightFlush(cards)
  {
    match StraightFlush(cards)
    case None => None
    case Some(c) => if c.value != 1 then None else Some(c)
  }

  // ---------------------------------------------------------------- checkHand

  /** Result of `checkHand`: the category 1..10 and its tie-break card. */
  datatype Hand = Hand(rank: int, card: Card)

  /** The detector `checkHand` consults for category `rank` (2 = one pair … 10 = royal flush). */
  function Detect(rank: int, cards: seq<Card>): Option<Card>
    requires 2 <= rank <= 10
  {
    if rank == 10 then RoyalFlush(cards)
    else if rank == 9 then StraightFlush(cards)
    else if rank == 8 then Repeat(4, cards)
    else if rank == 7 then FullHouse(cards)
    else if rank == 6 then Flush(cards)
    else if rank == 5 then Straight(cards)
    else if rank == 4 then Repeat(3, cards)
    else if rank == 3 then TwoPair(cards)
    else Repeat(2, cards)
  }

  /**
   * `checkHand`: the strongest category whose detector matches, trying them in
   * the order royal flush, straight flush, four of a kind, full house, flush,
   * straight, three of a kind, two pair, pair; high card (1) otherwise.
   */
  function CheckHand(cards: seq<Card>): (h: Hand)
    requires |cards| > 0
    ensures 1 <= h.rank <= 10 && h.card in cards
    ensures h.rank >= 2 ==> Detect(h.rank, cards) == Some(h.card)
    ensures h.rank == 1 ==> h.card == Highest(cards)
    ensures forall k :: h.rank < k <= 10 ==> Detect(k, cards).None?
  {
    var royal := RoyalFlush(cards);
    if royal.Some? then Hand(10, royal.value) else
    var straightFlush := StraightFlush(cards);
    if straightFlush.Some? then Hand(9, straightFlush.value) else
    var four := Repeat(4, cards);
    if four.Some? then Hand(8, four.value) else
    var fullHouse := FullHouse(cards);
    if fullHouse.Some? then Hand(7, fullHouse.value) else
    var flush := Flush(cards);
    if flush.Some? then Hand(6, flush.value) else
    var straight := Straight(cards);
    if straight.Some? then Hand(5, straight.value) else
    var three := Repeat(3, cards);
    if three.Some? then Hand(4, three.value) else
    var twoPair := TwoPair(cards);
    if twoPair.Some? then Hand(3, twoPair.value) else
    var pair := Repeat(2, cards);
    if pair.Some? then Hand(2, pair.value) else
    Hand(1, Highest(cards))
  }
}
