/**
 * Properties of the evaluator that relate several detectors: the categories
 * that imply one another, the Ace's two places in the straight slots, and
 * what `checkHand`'s first-match order gives its callers.
 */
module HandLaws {
  import opened Cards
  import opened Hands

  // ---------------------------------------------------------------- buckets of buckets

  /** Removing rank `r` empties that rank's bucket and leaves every other bucket as it was. */
  lemma {:induction false} OfRankAfterRemoval(cards: seq<Card>, r: int, k: int)
    ensures OfRank(NotOfRank(cards, r), k) == if k == r then [] else OfRank(cards, k)
  {
    if cards != [] {
      var init := cards[..|cards| - 1];
      var last := cards[|cards| - 1];
      OfRankAfterRemoval(init, r, k);
      var rest := NotOfRank(init, r);
      if Rank(last) != r {
        assert NotOfRank(cards, r) == rest + [last];
        assert (rest + [last])[..|rest + [last]| - 1] == rest;
      } else {
        assert NotOfRank(cards, r) == rest;
      }
    }
  }

  /** A card of rank `r` among the cards of one suit is a card of rank `r` among all the cards. */
  lemma SuitSlotsInHand(cards: seq<Card>, s: Suit, x: int)
    requires 0 <= x <= 13
    requires |Slot(OfSuit(cards, s), x)| > 0
    ensures |Slot(cards, x)| > 0
  {
    var r := if x == 0 || x == 13 then 14 else x + 1;
    var c := Slot(OfSuit(cards, s), x)[0];
    OfRankMembers(OfSuit(cards, s), r);
    OfSuitMembers(cards, s);
    OfRankMembers(cards, r);
    assert c in Slot(cards, x);
  }

  /** A run among the cards of one suit is a run among all the cards. */
  lemma SuitRunInHand(cards: seq<Card>, s: Suit, q: int)
    requires 4 <= q <= 13
    requires RunAt(OfSuit(cards, s), q)
    ensures RunAt(cards, q)
  {
    forall x | q - 4 <= x <= q
      ensures |Slot(cards, x)| > 0
    {
      SuitSlotsInHand(cards, s, x);
    }
  }

  // ---------------------------------------------------------------- n of a kind

  /** Four of a kind implies three of a kind, which implies a pair, anchored no lower. */
  lemma RepeatWeakens(n: int, cards: seq<Card>)
    requires n >= 1
    requires Repeat(n + 1, cards).Some?
    ensures Repeat(n, cards).Some?
    ensures Rank(Repeat(n, cards).value) >= Rank(Repeat(n + 1, cards).value)
  {
    var c := Repeat(n + 1, cards).value;
    assert |OfRank(cards, Rank(c))| >= n;
  }

  /** Two pair means two different ranks holding a pair, reported by the higher one. */
  lemma TwoPairMeaning(cards: seq<Card>)
    ensures TwoPair(cards).Some? <==>
      exists hi, lo :: 2 <= lo < hi <= 14 && |OfRank(cards, hi)| >= 2 && |OfRank(cards, lo)| >= 2
    ensures TwoPair(cards).Some? ==> TwoPair(cards) == Repeat(2, cards)
  {
    match Repeat(2, cards)
    case None =>
    case Some(c) =>
      var below := RepeatAtOrBelow(2, cards, Rank(c) - 1);
      if below.Some? {
        assert |OfRank(cards, Rank(below.value))| >= 2;
      }
  }

  // ---------------------------------------------------------------- full house

  /**
   * A full house is a three of a kind plus a pair of another rank; the card it
   * reports is the three of a kind's.
   */
  lemma FullHouseMeaning(cards: seq<Card>)
    ensures FullHouse(cards).Some? <==>
      Repeat(3, cards).Some? &&
      exists k :: 2 <= k <= 14 && k != Rank(Repeat(3, cards).value) && |OfRank(cards, k)| >= 2
    ensures FullHouse(cards).Some? ==> FullHouse(cards) == Repeat(3, cards)
  {
    match Repeat(3, cards)
    case None =>
    case Some(c) =>
      var rest := NotOfRank(cards, Rank(c));
      forall k ensures OfRank(rest, k) == if k == Rank(c) then [] else OfRank(cards, k) {
        OfRankAfterRemoval(cards, Rank(c), k);
      }
      if Repeat(2, rest).Some? {
        assert |OfRank(rest, Rank(Repeat(2, rest).value))| >= 2;
      }
  }

  /** A full house also holds two pair. */
  lemma FullHouseHasTwoPair(cards: seq<Card>)
    requires FullHouse(cards).Some?
    ensures TwoPair(cards).Some?
  {
    FullHouseMeaning(cards);
    var three := Rank(Repeat(3, cards).value);
    var k :| 2 <= k <= 14 && k != three && |OfRank(cards, k)| >= 2;
    if k < three {
      assert 2 <= k < three <= 14 && |OfRank(cards, three)| >= 2 && |OfRank(cards, k)| >= 2;
    } else {
      assert 2 <= three < k <= 14 && |OfRank(cards, k)| >= 2 && |OfRank(cards, three)| >= 2;
    }
    TwoPairMeaning(cards);
  }

  // ---------------------------------------------------------------- straight and the Ace

  /** The straight's card is an Ace exactly when 10-J-Q-K-A is filled, since only slot 13 tops out at an Ace. */
  lemma StraightAceHigh(cards: seq<Card>)
    ensures Straight(cards).Some? && Straight(cards).value.value == 1 <==> RunAt(cards, 13)
  {
  }

  /** With A-2-3-4-5 the highest run, the Ace plays low and the straight's card is the 5. */
  lemma StraightWheel(cards: seq<Card>)
    requires RunAt(cards, 4)
    requires forall t :: 5 <= t <= 13 ==> !RunAt(cards, t)
    ensures Straight(cards).Some? && Straight(cards).value.value == 5
  {
    assert HighestRun(cards, 13) == 4;
  }

  // ---------------------------------------------------------------- flush family

  /** A straight flush is both a flush and a straight, and the straight found in the whole hand is at least as high. */
  lemma StraightFlushIsFlushAndStraight(cards: seq<Card>)
    ensures StraightFlush(cards).Some? ==>
      Flush(cards).Some? && Straight(cards).Some? &&
      Rank(StraightFlush(cards).value) <= Rank(Straight(cards).value)
  {
    if StraightFlush(cards).Some? {
      var s := Flush(cards).value.suit;
      var suited := OfSuit(cards, s);
      var q := HighestRun(suited, 13);
      SuitRunInHand(cards, s, q);
      assert HighestRun(cards, 13) >= q;
    }
  }

  /**
   * A royal flush is found exactly when the flush's suit holds 10-J-Q-K-A,
   * and then it is also a straight flush, a flush and a straight.
   */
  lemma RoyalFlushMeaning(cards: seq<Card>)
    ensures RoyalFlush(cards).Some? <==>
      Flush(cards).Some? && RunAt(OfSuit(cards, Flush(cards).value.suit), 13)
    ensures RoyalFlush(cards).Some? ==>
      StraightFlush(cards).Some? && Flush(cards).Some? && Straight(cards).Some?
  {
    if Flush(cards).Some? {
      StraightAceHigh(OfSuit(cards, Flush(cards).value.suit));
    }
    if RoyalFlush(cards).Some? {
      StraightFlushIsFlushAndStraight(cards);
    }
  }

  // ---------------------------------------------------------------- checkHand

  /** Whatever detector matches, `checkHand` reports that category or a stronger one. */
  lemma CheckHandAtLeast(cards: seq<Card>, k: int)
    requires |cards| > 0 && 2 <= k <= 10
    requires Detect(k, cards).Some?
    ensures CheckHand(cards).rank >= k
  {
  }

  // ---------------------------------------------------------------- hands of at most nine cards

  /** A set of cards all taken from a sequence has at most as many cards as the sequence. */
  lemma {:induction false} SetWithin(xs: seq<Card>, picked: set<Card>)
    requires forall c :: c in picked ==> c in xs
    ensures |picked| <= |xs|
  {
    if xs == [] {
      assert picked == {};
    } else {
      var init := xs[..|xs| - 1];
      var last := xs[|xs| - 1];
      assert xs == init + [last];
      SetWithin(init, picked - {last});
    }
  }

  /** The first card of a filled slot is in the input and has that slot's rank. */
  lemma SlotHead(cards: seq<Card>, x: int)
    requires 0 <= x <= 13 && |Slot(cards, x)| > 0
    ensures Slot(cards, x)[0] in cards
    ensures Rank(Slot(cards, x)[0]) == if x == 0 || x == 13 then 14 else x + 1
  {
    FilterHead(cards, c => Rank(c) == (if x == 0 || x == 13 then 14 else x + 1));
  }

  /** Five cards of five different ranks, all in `cards`, need five places. */
  lemma FiveRanksFiveCards(cards: seq<Card>, c0: Card, c1: Card, c2: Card, c3: Card, c4: Card)
    requires c0 in cards && c1 in cards && c2 in cards && c3 in cards && c4 in cards
    requires Rank(c0) < Rank(c1) < Rank(c2) < Rank(c3) < Rank(c4) || (Rank(c0) == 14 && Rank(c1) < Rank(c2) < Rank(c3) < Rank(c4) < 14)
    ensures |cards| >= 5
  {
    assert c1 !in {c0};
    assert c2 !in {c0, c1};
    assert c3 !in {c0, c1, c2};
    assert c4 !in {c0, c1, c2, c3};
    var picked := {c0, c1, c2, c3, c4};
    assert |picked| == 5;
    SetWithin(cards, picked);
  }

  /** Five consecutive filled slots hold five different cards. */
  lemma RunHasFive(cards: seq<Card>, q: int)
    requires 4 <= q <= 13 && RunAt(cards, q)
    ensures |cards| >= 5
  {
    SlotHead(cards, q - 4);
    SlotHead(cards, q - 3);
    SlotHead(cards, q - 2);
    SlotHead(cards, q - 1);
    SlotHead(cards, q);
    FiveRanksFiveCards(cards, Slot(cards, q - 4)[0], Slot(cards, q - 3)[0], Slot(cards, q - 2)[0], Slot(cards, q - 1)[0], Slot(cards, q)[0]);
  }

  /** Every card falls in exactly one suit bucket. */
  lemma {:induction false} SuitCounts(cards: seq<Card>)
    ensures |OfSuit(cards, Spades)| + |OfSuit(cards, Hearts)| + |OfSuit(cards, Clubs)| + |OfSuit(cards, Diamonds)| == |cards|
  {
    if cards != [] {
      SuitCounts(cards[..|cards| - 1]);
    }
  }

  /** With at most nine cards only one suit can hold five, so a suit that does is the flush's. */
  lemma FlushSuitInGame(cards: seq<Card>, s: Suit)
    requires |cards| <= 9 && |OfSuit(cards, s)| >= 5
    ensures Flush(cards).Some? && Flush(cards).value.suit == s
  {
    SuitCounts(cards);
  }

  /**
   * With at most nine cards, as in a game (two hole cards and five community
   * cards), a straight flush is found exactly when the cards of some suit fill
   * five consecutive slots.
   */
  lemma StraightFlushInGame(cards: seq<Card>)
    requires |cards| <= 9
    ensures StraightFlush(cards).Some? <==> exists s, q :: 4 <= q <= 13 && RunAt(OfSuit(cards, s), q)
  {
    if s, q :| 4 <= q <= 13 && RunAt(OfSuit(cards, s), q) {
      RunHasFive(OfSuit(cards, s), q);
      FlushSuitInGame(cards, s);
    }
  }

  /** The royal cards 10, J, Q, K and A of suit `s` are all present. */
  predicate RoyalIn(cards: seq<Card>, s: Suit) {
    Card(s, 10) in cards && Card(s, 11) in cards && Card(s, 12) in cards &&
    Card(s, 13) in cards && Card(s, 1) in cards
  }

  /** Slot `x` of the cards of suit `s` is filled exactly when that suit's card for the slot is present. */
  lemma SuitSlotFilled(cards: seq<Card>, s: Suit, x: int)
    requires 9 <= x <= 13
    ensures |Slot(OfSuit(cards, s), x)| > 0 <==> Card(s, if x == 13 then 1 else x + 1) in cards
  {
    var suited := OfSuit(cards, s);
    var card := Card(s, if x == 13 then 1 else x + 1);
    OfSuitMembers(cards, s);
    OfRankMembers(suited, Rank(card));
    if |Slot(suited, x)| > 0 {
      SlotHead(suited, x);
      assert Slot(suited, x)[0] == card;
    }
    if card in cards {
      assert card in Slot(suited, x);
    }
  }

  /** The top run among the cards of suit `s` is filled exactly when that suit's 10 to Ace are present. */
  lemma RoyalRun(cards: seq<Card>, s: Suit)
    ensures RunAt(OfSuit(cards, s), 13) <==> RoyalIn(cards, s)
  {
    SuitSlotFilled(cards, s, 9);
    SuitSlotFilled(cards, s, 10);
    SuitSlotFilled(cards, s, 11);
    SuitSlotFilled(cards, s, 12);
    SuitSlotFilled(cards, s, 13);
    if RoyalIn(cards, s) {
      forall x | 9 <= x <= 13
        ensures |Slot(OfSuit(cards, s), x)| > 0
      {
        SuitSlotFilled(cards, s, x);
      }
    }
  }

  /**
   * With at most nine cards, `checkHand` reports a royal flush exactly when
   * some suit's 10, J, Q, K and A are all present, and its card is that Ace.
   */
  lemma RoyalFlushInGame(cards: seq<Card>)
    requires 0 < |cards| <= 9
    ensures CheckHand(cards).rank == 10 <==> exists s :: RoyalIn(cards, s)
    ensures CheckHand(cards).rank == 10 ==>
      CheckHand(cards).card == Card(CheckHand(cards).card.suit, 1) && RoyalIn(cards, CheckHand(cards).card.suit)
  {
    RoyalFlushMeaning(cards);
    if CheckHand(cards).rank == 10 {
      RoyalRun(cards, Flush(cards).value.suit);
    }
    if s :| RoyalIn(cards, s) {
      RoyalRun(cards, s);
      RunHasFive(OfSuit(cards, s), 13);
      FlushSuitInGame(cards, s);
      CheckHandAtLeast(cards, 10);
    }
  }
}
