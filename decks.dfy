/**
 * A pile of cards kept as a list: the game's draw pile, the community cards
 * and each side's hole cards are all decks. Card positions and sprites are not
 * modelled.
 */
module Decks {
  import opened Cards

  /** The standard 52 cards in the order `setDefault` appends them: suit by suit (s, h, c, d), values 1..13 within each. */
  function StandardDeck(): seq<Card> {
    seq(52, i requires 0 <= i < 52 => Card(SuitOrder[i / 13], i % 13 + 1))
  }

  /** Card `v` of the `k`-th suit sits at position 13 k + v - 1. */
  lemma StandardDeckAt(k: int, v: int)
    requires 0 <= k < 4 && 1 <= v <= 13
    ensures |StandardDeck()| == 52 && StandardDeck()[13 * k + v - 1] == Card(SuitOrder[k], v)
  {
    var i := 13 * k + v - 1;
    assert i / 13 == k && i % 13 == v - 1;
  }

  /** Every card occurs in the standard deck, and no card occurs twice. */
  lemma StandardDeckComplete()
    ensures |StandardDeck()| == 52
    ensures forall c: Card :: c in StandardDeck()
    ensures forall i, j :: 0 <= i < j < 52 ==> StandardDeck()[i] != StandardDeck()[j]
  {
    forall c: Card
      ensures c in StandardDeck()
    {
      StandardDeckAt(SuitIndex(c.suit), c.value);
    }
    forall i, j | 0 <= i < j < 52
      ensures StandardDeck()[i] != StandardDeck()[j]
    {
      if i / 13 == j / 13 {
        assert i % 13 != j % 13;
      } else {
        assert SuitIndex(SuitOrder[i / 13]) != SuitIndex(SuitOrder[j / 13]);
      }
    }
  }

  /** Suits come in the order s, h, c, d, and values ascend within a suit. */
  lemma StandardDeckOrdered()
    ensures forall i, j :: 0 <= i < j < 52 ==>
      SuitIndex(StandardDeck()[i].suit) < SuitIndex(StandardDeck()[j].suit) ||
      (StandardDeck()[i].suit == StandardDeck()[j].suit && StandardDeck()[i].value < StandardDeck()[j].value)
  {
    forall i, j | 0 <= i < j < 52
      ensures SuitIndex(StandardDeck()[i].suit) < SuitIndex(StandardDeck()[j].suit) ||
        (StandardDeck()[i].suit == StandardDeck()[j].suit && StandardDeck()[i].value < StandardDeck()[j].value)
    {
      assert SuitIndex(SuitOrder[i / 13]) == i / 13 && SuitIndex(SuitOrder[j / 13]) == j / 13;
    }
  }

  /** `Deck`: the list `_cards`, bottom first; the top card is the last one. */
  class Deck {
    var cards: seq<Card>

    /** An empty deck. */
    constructor ()
      ensures cards == []
    {
      cards := [];
    }

    /** `setDefault`: empty the deck, then append the 52 standard cards. */
    method SetDefault()
      modifies this
      ensures cards == StandardDeck()
    {
      Empty();
      for k := 0 to 4
        invariant cards == StandardDeck()[..13 * k]
      {
        for val := 1 to 14
          invariant cards == StandardDeck()[..13 * k + val - 1]
        {
          StandardDeckAt(k, val);
          cards := cards + [Card(SuitOrder[k], val)];
        }
      }
    }

    /** `add`: put a card on top. */
    method Add(card: Card)
      modifies this
      ensures cards == old(cards) + [card]
    {
      cards := cards + [card];
    }

    /** `draw`: take the top card off, or None when the deck is empty. */
    method Draw() returns (card: Option<Card>)
      modifies this
      ensures old(cards) == [] ==> card == None && cards == []
      ensures old(cards) != [] ==> card == Some(old(cards)[|old(cards)| - 1]) && cards == old(cards)[..|old(cards)| - 1]
      ensures card.Some? ==> old(cards) == cards + [card.value]
    {
      if |cards| == 0 {
        return None;
      }
      card := Some(cards[|cards| - 1]);
      cards := cards[..|cards| - 1];
    }

    /** `empty`: drop every card. */
    method Empty()
      modifies this
      ensures cards == []
    {
      cards := [];
    }

    /** `size`: the number of cards. */
    method Size() returns (n: nat)
      ensures n == |cards|
    {
      n := |cards|;
    }

    /**
     * `merge`: move every card of `other` on top of this deck, in order, and
     * leave `other` empty. Merging a deck into itself would append to the list
     * being walked and never end, so the two decks must differ.
     */
    method Merge(other: Deck)
      requires other != this
      modifies this, other
      ensures cards == old(cards) + old(other.cards)
      ensures other.cards == []
      ensures |cards| + |other.cards| == old(|cards|) + old(|other.cards|)
    {
      for i := 0 to |other.cards|
        invariant other.cards == old(other.cards)
        invariant cards == old(cards) + other.cards[..i]
      {
        cards := cards + [other.cards[i]];
      }
      assert other.cards[..|other.cards|] == other.cards;
      other.Empty();
    }

    /** `__add__`: a new deck holding this deck's cards followed by `other`'s; neither operand changes. */
    method Plus(other: Deck) returns (sum: Deck)
      ensures fresh(sum)
      ensures sum.cards == cards + other.cards
    {
      sum := new Deck();
      for i := 0 to |cards|
        invariant sum.cards == cards[..i]
      {
        sum.Add(cards[i]);
      }
      for i := 0 to |other.cards|
        invariant sum.cards == cards + other.cards[..i]
      {
        sum.Add(other.cards[i]);
      }
    }

    /** `__getitem__`: the card at a position from the bottom; a negative position counts from the top. */
    function At(num: int): (card: Card)
      reads this
      requires -|cards| <= num < |cards|
      ensures card in cards
      ensures num >= 0 ==> card == cards[num]
      ensures num < 0 ==> card == cards[|cards| + num]
    {
      if num >= 0 then cards[num] else cards[|cards| + num]
    }
  }
}
