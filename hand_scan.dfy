/**
 * The detectors as the evaluator runs them: bucket arrays filled by append
 * loops and scanned by index loops. Each method is proved to compute the
 * function of module Hands that states what the scan means.
 */
module HandScan {
  import opened Cards
  import opened Hands

  /** Appending one card extends every bucket by that card or by nothing. */
  lemma FilterStep(cards: seq<Card>, i: nat, keep: Card -> bool)
    requires i < |cards|
    ensures Filter(cards[..i + 1], keep) == Filter(cards[..i], keep) + (if keep(cards[i]) then [cards[i]] else [])
  {
    assert cards[..i + 1][..i] == cards[..i];
  }

  /** `findHighest`: keeps the index of the highest card seen, replaced only by a strictly higher one. */
  method FindHighest(cards: seq<Card>) returns (c: Card)
    requires |cards| > 0
    ensures c == Highest(cards)
  {
    var highest := 0;
    for i := 1 to |cards|
      invariant highest == HighestIndex(cards[..i])
    {
      assert cards[..i + 1][..i] == cards[..i];
      if Rank(cards[i]) > Rank(cards[highest]) {
        highest := i;
      }
    }
    assert cards[..|cards|] == cards;
    c := cards[highest];
  }

  /**
   * Buckets by Ace-high rank as `findRepeat` and `twoPair` build them: bucket
   * b holds face value b + 2, and the Aces go to the last bucket, 12.
   */
  method RankBuckets(cards: seq<Card>) returns (vals: array<seq<Card>>)
    ensures fresh(vals) && vals.Length == 13
    ensures forall b :: 0 <= b < 13 ==> vals[b] == OfRank(cards, b + 2)
  {
    vals := new seq<Card>[13](_ => []);
    for i := 0 to |cards|
      invariant forall b :: 0 <= b < 13 ==> vals[b] == OfRank(cards[..i], b + 2)
    {
      var card := cards[i];
      var val := card.value;
      forall r | 2 <= r <= 14
        ensures OfRank(cards[..i + 1], r) == OfRank(cards[..i], r) + (if Rank(card) == r then [card] else [])
      {
        FilterStep(cards, i, c => Rank(c) == r);
      }
      if val == 1 {
        vals[12] := vals[12] + [card];
      } else {
        vals[val - 2] := vals[val - 2] + [card];
      }
    }
    assert cards[..|cards|] == cards;
  }

  /** `findRepeat`: the first bucket, from the Aces down, with at least `minimum` cards. */
  method FindRepeat(minimum: int, cards: seq<Card>) returns (res: Option<Card>)
    requires minimum >= 1
    ensures res == Repeat(minimum, cards)
  {
    var vals := RankBuckets(cards);
    var b := 13;
    while b > 0
      invariant 0 <= b <= 13
      invariant Repeat(minimum, cards) == RepeatAtOrBelow(minimum, cards, b + 1)
    {
      b := b - 1;
      if |vals[b]| >= minimum {
        return Some(vals[b][0]);
      }
    }
    return None;
  }

  /** When no rank strictly between `lo` and `hi` has `n` cards, the scan from `hi` ends where the one from `lo` does. */
  lemma {:induction false} RepeatSkip(n: int, cards: seq<Card>, lo: int, hi: int)
    requires n >= 1 && lo <= hi
    requires forall k :: lo < k <= hi ==> |OfRank(cards, k)| < n
    ensures RepeatAtOrBelow(n, cards, hi) == RepeatAtOrBelow(n, cards, lo)
    decreases hi - lo
  {
    if lo < hi {
      RepeatSkip(n, cards, lo, hi - 1);
    }
  }

  /** `twoPair`: from the Aces down, a pair bucket followed by a search for a lower one. */
  method FindTwoPair(cards: seq<Card>) returns (res: Option<Card>)
    ensures res == TwoPair(cards)
  {
    var vals := RankBuckets(cards);
    ghost var seen := false;  // a pair was met, and nothing below it paired
    var i := 13;
    while i > 0
      invariant 0 <= i <= 13
      invariant !seen ==> forall h :: i <= h < 13 ==> |vals[h]| < 2
      invariant seen ==> TwoPair(cards).None? && forall l :: 0 <= l < i ==> |vals[l]| < 2
    {
      i := i - 1;
      if |vals[i]| >= 2 {
        var temp := vals[i][0];
        var j := i;
        while j > 0
          invariant 0 <= j <= i
          invariant forall l :: j <= l < i ==> |vals[l]| < 2
        {
          j := j - 1;
          if |vals[j]| >= 2 {
            assert TwoPair(cards) == Some(temp) by {
              forall k | i + 2 < k <= 14
                ensures |OfRank(cards, k)| < 2
              {
                assert vals[k - 2] == OfRank(cards, k);
              }
              RepeatSkip(2, cards, i + 2, 14);
              assert vals[i] == OfRank(cards, i + 2);
              assert vals[j] == OfRank(cards, j + 2);
            }
            return Some(temp);
          }
        }
        assert TwoPair(cards).None? by {
          forall k | 2 <= k <= 14 && k != i + 2
            ensures |OfRank(cards, k)| < 2
          {
            assert vals[k - 2] == OfRank(cards, k);
          }
          RepeatSkip(2, cards, i + 2, 14);
          assert vals[i] == OfRank(cards, i + 2);
        }
        seen := true;
      }
    }
    assert TwoPair(cards).None? by {
      if !seen {
        forall k | 2 <= k <= 14
          ensures |OfRank(cards, k)| < 2
        {
          assert vals[k - 2] == OfRank(cards, k);
        }
      }
    }
    return None;
  }

  /** When no run tops out strictly between `lo` and `hi`, the search from `hi` ends where the one from `lo` does. */
  lemma {:induction false} HighestRunSkip(cards: seq<Card>, lo: int, hi: int)
    requires lo <= hi <= 13
    requires forall t :: lo < t <= hi && 4 <= t ==> !RunAt(cards, t)
    ensures HighestRun(cards, hi) == HighestRun(cards, lo)
    decreases hi - lo
  {
    if lo < hi {
      HighestRunSkip(cards, lo, hi - 1);
    }
  }

  /** Five consecutive non-empty slots of the slot array, topped by slot `p`. */
  predicate Window(slots: seq<seq<Card>>, p: int)
    requires 4 <= p <= 13 && |slots| == 14
  {
    forall s :: p - 4 <= s <= p ==> |slots[s]| > 0
  }

  /** A run in the slot array is a run of the cards it was filled from. */
  lemma WindowIsRun(cards: seq<Card>, slots: seq<seq<Card>>, lo: int)
    requires 3 <= lo <= 13 && |slots| == 14
    requires forall s :: 0 <= s < 14 ==> slots[s] == Slot(cards, s)
    requires forall t :: lo < t <= 13 ==> !Window(slots, t)
    ensures forall t :: lo < t <= 13 && 4 <= t ==> !RunAt(cards, t)
  {
    forall t | lo < t <= 13 && 4 <= t
      ensures !RunAt(cards, t)
    {
      assert !Window(slots, t);
    }
  }

  /**
   * `straight`: fill 14 slots (Aces twice), then slide a five-slot window down
   * from slot 13; on an empty slot the window jumps just below it.
   */
  method FindStraight(cards: seq<Card>) returns (res: Option<Card>)
    ensures res == Straight(cards)
  {
    var sorted := SlotBuckets(cards);
    ghost var slots := sorted[..];
    var pos := 13;
    while pos >= 4
      invariant pos <= 13
      invariant forall t :: pos < t <= 13 && 4 <= t ==> !Window(slots, t)
      decreases pos
    {
      var temp := pos;
      for i := 0 to 5
        invariant pos == temp
        invariant forall s :: temp - i < s <= temp ==> |slots[s]| > 0
      {
        if |sorted[pos - i]| == 0 {
          // every window whose top lies in pos - i .. pos contains the empty slot
          assert |slots[temp - i]| == 0;
          pos := pos - i - 1;
          break;
        }
      }
      if temp == pos {
        assert Straight(cards) == Some(sorted[pos][0]) by {
          assert Window(slots, pos);
          WindowIsRun(cards, slots, pos);
          assert RunAt(cards, pos);
          HighestRunSkip(cards, pos, 13);
        }
        return Some(sorted[pos][0]);
      }
    }
    assert Straight(cards) == None by {
      WindowIsRun(cards, slots, if pos < 3 then 3 else pos);
      HighestRunSkip(cards, pos, 13);
    }
    return None;
  }

  /** The 14 straight slots as `straight` fills them: each card by face value, and each Ace once more in slot 13. */
  method SlotBuckets(cards: seq<Card>) returns (sorted: array<seq<Card>>)
    ensures fresh(sorted) && sorted.Length == 14
    ensures forall s :: 0 <= s < 14 ==> sorted[s] == Slot(cards, s)
  {
    sorted := new seq<Card>[14](_ => []);
    for i := 0 to |cards|
      invariant forall s :: 0 <= s < 14 ==> sorted[s] == Slot(cards[..i], s)
    {
      var card := cards[i];
      var val := card.value;
      forall r | 2 <= r <= 14
        ensures OfRank(cards[..i + 1], r) == OfRank(cards[..i], r) + (if Rank(card) == r then [card] else [])
      {
        FilterStep(cards, i, c => Rank(c) == r);
      }
      sorted[val - 1] := sorted[val - 1] + [card];
      if val == 1 {
        sorted[13] := sorted[13] + [card];
      }
    }
    assert cards[..|cards|] == cards;
  }

  /** `flush`: buckets by suit, then the first bucket of five or more gives its highest card. */
  method FindFlush(cards: seq<Card>) returns (res: Option<Card>)
    ensures res == Flush(cards)
  {
    var suits := SuitBuckets(cards);
    for k := 0 to 4
      invariant Flush(cards) == FlushFrom(cards, k)
    {
      if |suits[k]| >= 5 {
        var highest := FindHighest(suits[k]);
        return Some(highest);
      }
    }
    return None;
  }

  /** The four suit buckets as `flush` fills them, in the order Spades, Hearts, Clubs, Diamonds. */
  method SuitBuckets(cards: seq<Card>) returns (suits: array<seq<Card>>)
    ensures fresh(suits) && suits.Length == 4
    ensures forall k :: 0 <= k < 4 ==> suits[k] == OfSuit(cards, SuitOrder[k])
  {
    suits := new seq<Card>[4](_ => []);
    for i := 0 to |cards|
      invariant forall k :: 0 <= k < 4 ==> suits[k] == OfSuit(cards[..i], SuitOrder[k])
    {
      var card := cards[i];
      forall k | 0 <= k < 4
        ensures OfSuit(cards[..i + 1], SuitOrder[k]) == OfSuit(cards[..i], SuitOrder[k]) + (if card.suit == SuitOrder[k] then [card] else [])
      {
        FilterStep(cards, i, (c: Card) => c.suit == SuitOrder[k]);
      }
      match card.suit
      case Spades => suits[0] := suits[0] + [card];
      case Hearts => suits[1] := suits[1] + [card];
      case Clubs => suits[2] := suits[2] + [card];
      case Diamonds => suits[3] := suits[3] + [card];
    }
    assert cards[..|cards|] == cards;
  }
}
