/**
 * The evaluator does not care about the order of the cards as far as the
 * settlement can see: reordering the input keeps every detector's verdict and
 * the Ace-high rank of the card it reports. (Which card of that rank is
 * reported may change, since the detectors report the first card of a bucket.)
 */
module HandOrder {
  import opened Cards
  import opened Hands
  import opened HandLaws

  // ---------------------------------------------------------------- buckets

  /** How often a card occurs in a bucket: as often as in the input when it passes the test, otherwise never. */
  lemma {:induction false} FilterCounts(cards: seq<Card>, keep: Card -> bool)
    ensures forall c :: multiset(Filter(cards, keep))[c] == if keep(c) then multiset(cards)[c] else 0
  {
    if cards != [] {
      var init := cards[..|cards| - 1];
      var last := cards[|cards| - 1];
      FilterCounts(init, keep);
      assert cards == init + [last];
      assert multiset(cards) == multiset(init) + multiset{last};
    }
  }

  /** Reordering the input reorders each bucket, so its size stays. */
  lemma FilterReordered(a: seq<Card>, b: seq<Card>, keep: Card -> bool)
    requires multiset(a) == multiset(b)
    ensures multiset(Filter(a, keep)) == multiset(Filter(b, keep))
    ensures |Filter(a, keep)| == |Filter(b, keep)|
  {
    FilterCounts(a, keep);
    FilterCounts(b, keep);
    assert forall c :: multiset(Filter(a, keep))[c] == multiset(Filter(b, keep))[c];
    assert multiset(Filter(a, keep)) == multiset(Filter(b, keep));
    assert |multiset(Filter(a, keep))| == |Filter(a, keep)|;
    assert |multiset(Filter(b, keep))| == |Filter(b, keep)|;
  }

  /** Every rank bucket of `a` has the size of the same bucket of `b`. */
  predicate SameRankSizes(a: seq<Card>, b: seq<Card>) {
    forall r :: 2 <= r <= 14 ==> |OfRank(a, r)| == |OfRank(b, r)|
  }

  lemma RankSizesReordered(a: seq<Card>, b: seq<Card>)
    requires multiset(a) == multiset(b)
    ensures SameRankSizes(a, b)
  {
    forall r | 2 <= r <= 14
      ensures |OfRank(a, r)| == |OfRank(b, r)|
    {
      FilterReordered(a, b, c => Rank(c) == r);
    }
  }

  lemma SuitBucketsReordered(a: seq<Card>, b: seq<Card>, s: Suit)
    requires multiset(a) == multiset(b)
    ensures multiset(OfSuit(a, s)) == multiset(OfSuit(b, s))
    ensures |OfSuit(a, s)| == |OfSuit(b, s)|
  {
    FilterReordered(a, b, (c: Card) => c.suit == s);
  }

  /** Two detector answers agree up to the card's suit and position: both match or neither, on cards of the same rank. */
  predicate SameVerdict(x: Option<Card>, y: Option<Card>) {
    x.Some? == y.Some? && (x.Some? ==> Rank(x.value) == Rank(y.value))
  }

  // ---------------------------------------------------------------- detectors

  /** `findRepeat` depends only on the sizes of the rank buckets, up to which card of the rank it reports. */
  lemma RepeatReordered(n: int, a: seq<Card>, b: seq<Card>)
    requires n >= 1 && SameRankSizes(a, b)
    ensures SameVerdict(Repeat(n, a), Repeat(n, b))
  {
    if Repeat(n, a).Some? && Repeat(n, b).Some? {
      var ra, rb := Rank(Repeat(n, a).value), Rank(Repeat(n, b).value);
      assert |OfRank(a, rb)| == |OfRank(b, rb)| && |OfRank(a, ra)| == |OfRank(b, ra)|;
    }
  }

  lemma TwoPairReordered(a: seq<Card>, b: seq<Card>)
    requires SameRankSizes(a, b)
    ensures SameVerdict(TwoPair(a), TwoPair(b))
  {
    TwoPairMeaning(a);
    TwoPairMeaning(b);
    RepeatReordered(2, a, b);
    if TwoPair(a).Some? {
      var hi, lo :| 2 <= lo < hi <= 14 && |OfRank(a, hi)| >= 2 && |OfRank(a, lo)| >= 2;
      assert |OfRank(b, hi)| >= 2 && |OfRank(b, lo)| >= 2;
    }
    if TwoPair(b).Some? {
      var hi, lo :| 2 <= lo < hi <= 14 && |OfRank(b, hi)| >= 2 && |OfRank(b, lo)| >= 2;
      assert |OfRank(a, hi)| >= 2 && |OfRank(a, lo)| >= 2;
    }
  }

  lemma FullHouseReordered(a: seq<Card>, b: seq<Card>)
    requires SameRankSizes(a, b)
    ensures SameVerdict(FullHouse(a), FullHouse(b))
  {
    FullHouseMeaning(a);
    FullHouseMeaning(b);
    RepeatReordered(3, a, b);
    if FullHouse(a).Some? {
      var k :| 2 <= k <= 14 && k != Rank(Repeat(3, a).value) && |OfRank(a, k)| >= 2;
      assert |OfRank(b, k)| >= 2;
    }
    if FullHouse(b).Some? {
      var k :| 2 <= k <= 14 && k != Rank(Repeat(3, b).value) && |OfRank(b, k)| >= 2;
      assert |OfRank(a, k)| >= 2;
    }
  }

  /** The highest run depends only on which slots are filled. */
  lemma HighestRunReordered(a: seq<Card>, b: seq<Card>)
    requires SameRankSizes(a, b)
    ensures forall q :: 4 <= q <= 13 ==> (RunAt(a, q) <==> RunAt(b, q))
    ensures HighestRun(a, 13) == HighestRun(b, 13)
  {
    forall q | 4 <= q <= 13
      ensures RunAt(a, q) <==> RunAt(b, q)
    {
      forall x | q - 4 <= x <= q
        ensures |Slot(a, x)| == |Slot(b, x)|
      {
        assert |OfRank(a, if x == 0 || x == 13 then 14 else x + 1)| == |OfRank(b, if x == 0 || x == 13 then 14 else x + 1)|;
      }
    }
  }

  lemma StraightReordered(a: seq<Card>, b: seq<Card>)
    requires SameRankSizes(a, b)
    ensures SameVerdict(Straight(a), Straight(b))
  {
    HighestRunReordered(a, b);
  }

  /** `flush` finds the same suit after reordering, and a card of the same rank in it. */
  lemma FlushReordered(a: seq<Card>, b: seq<Card>)
    requires multiset(a) == multiset(b)
    ensures SameVerdict(Flush(a), Flush(b))
    ensures Flush(a).Some? ==> Flush(a).value.suit == Flush(b).value.suit
  {
    forall s
      ensures |OfSuit(a, s)| == |OfSuit(b, s)|
    {
      SuitBucketsReordered(a, b, s);
    }
    if Flush(a).Some? && Flush(b).Some? {
      var ca, cb := Flush(a).value, Flush(b).value;
      var sa, sb := ca.suit, cb.suit;
      assert |OfSuit(a, sb)| >= 5 && |OfSuit(b, sa)| >= 5;
      assert SuitIndex(sa) == SuitIndex(sb);
      assert sa == SuitOrder[SuitIndex(sa)] == sb;
      assert ca in multiset(a) && cb in multiset(b);
    }
  }

  lemma StraightFlushReordered(a: seq<Card>, b: seq<Card>)
    requires multiset(a) == multiset(b)
    ensures SameVerdict(StraightFlush(a), StraightFlush(b))
  {
    FlushReordered(a, b);
    if Flush(a).Some? {
      var s := Flush(a).value.suit;
      SuitBucketsReordered(a, b, s);
      RankSizesReordered(OfSuit(a, s), OfSuit(b, s));
      StraightReordered(OfSuit(a, s), OfSuit(b, s));
    }
  }

  lemma RoyalFlushReordered(a: seq<Card>, b: seq<Card>)
    requires multiset(a) == multiset(b)
    ensures SameVerdict(RoyalFlush(a), RoyalFlush(b))
  {
    StraightFlushReordered(a, b);
  }

  /** `findHighest` reports a card of the same rank after reordering. */
  lemma HighestReordered(a: seq<Card>, b: seq<Card>)
    requires |a| > 0 && multiset(a) == multiset(b)
    ensures |b| > 0 && Rank(Highest(a)) == Rank(Highest(b))
  {
    assert |multiset(a)| == |a| && |multiset(b)| == |b|;
    assert Highest(a) in multiset(b) && Highest(b) in multiset(a);
  }

  lemma DetectReordered(k: int, a: seq<Card>, b: seq<Card>)
    requires 2 <= k <= 10 && multiset(a) == multiset(b)
    ensures SameVerdict(Detect(k, a), Detect(k, b))
  {
    RankSizesReordered(a, b);
    if k == 10 {
      RoyalFlushReordered(a, b);
    } else if k == 9 {
      StraightFlushReordered(a, b);
    } else if k == 8 {
      RepeatReordered(4, a, b);
    } else if k == 7 {
      FullHouseReordered(a, b);
    } else if k == 6 {
      FlushReordered(a, b);
    } else if k == 5 {
      StraightReordered(a, b);
    } else if k == 4 {
      RepeatReordered(3, a, b);
    } else if k == 3 {
      TwoPairReordered(a, b);
    } else {
      RepeatReordered(2, a, b);
    }
  }

  // ---------------------------------------------------------------- checkHand

  /**
   * `checkHand` of a reordered hand reports the same category, with a
   * tie-break card of the same rank: all the settlement compares.
   */
  lemma CheckHandReordered(a: seq<Card>, b: seq<Card>)
    requires |a| > 0 && multiset(a) == multiset(b)
    ensures |b| > 0
    ensures CheckHand(a).rank == CheckHand(b).rank
    ensures Rank(CheckHand(a).card) == Rank(CheckHand(b).card)
  {
    HighestReordered(a, b);
    forall k | 2 <= k <= 10
      ensures SameVerdict(Detect(k, a), Detect(k, b))
    {
      DetectReordered(k, a, b);
    }
  }
}
