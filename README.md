# Texas hold'em hand evaluator and wager bookkeeping, in Dafny

This project models the core of a small Texas hold'em game played against a
computer opponent:

- the hand evaluator in `poker.py`: `checkHand` and the detectors it calls
  (`findHighest`, `findRepeat`, `twoPair`, `straight`, `flush`, `fullHouse`,
  `straightFlush`, `royalFlush`);
- the wager state of the game class: its bank, pot and outcome fields, the
  Start, Raise, Fold and Bet Again buttons, `wage`, and the settlement at the
  showdown;
- the `Deck` class of `deck.py`, a list of cards whose top is the last
  element.

Modules:

- `Cards` (`cards.dfy`): cards, suits, Ace-high rank, and the buckets
  (`OfRank`, `OfSuit`) that every detector builds.
- `Hands` (`hands.dfy`): each detector as a function whose contract says what
  its answer means, and `CheckHand`, which tries the categories from royal
  flush (10) down to high card (1).
- `HandScan` (`hand_scan.dfy`): the detectors as the source runs them. Append
  loops fill bucket arrays, and index loops scan them from high to low. Each
  method is proved to return exactly what the function in `Hands` returns.
- `HandLaws` (`hand_laws.dfy`): properties that relate several detectors. It
  also proves that, with at most nine cards (a game has seven), a straight
  flush or a royal flush is found exactly when one suit holds the run.
- `HandOrder` (`hand_order.dfy`): reordering the cards keeps every
  detector's verdict, `checkHand`'s category and the rank of its card, so the
  showdown's outcome does not depend on the order of the deal.
- `Table` (`table.dfy`): the class `Poker` with the fields `bank`, `pot`,
  `win` and `minWage`, its buttons, and the showdown as a function.
- `Decks` (`decks.dfy`): the class `Deck` with a `seq<Card>` field, and the
  standard 52-card order.

The card class is not part of this model. The model relies on these
assumptions about it, which are also stated at the head of `cards.dfy`:

- A card has one of four suits and a face value 1..13, and 1 is the Ace.
- The deck's suit letters `s`, `h`, `c`, `d` are the suits Spades, Hearts,
  Clubs and Diamonds.
- `a > b` compares Ace-high rank (Ace above King).
- `a == b` and `a.eq(b)` compare face values.

`checkHand` and `findHighest` need at least one card (`cards[0]` is read).
`findRepeat` needs `minimum >= 1`. Its callers pass 2, 3 and 4. Both demands
are preconditions in the model.

The settlement's last tie-break compares the highest card of each side's two
hole cards only. It does not use the whole seven-card hand. The model follows
the code here.

## Model

| member | source | states |
|---|---|---|
| Cards.Rank | poker.py:93-99 | Ace-high magnitude: 14 exactly for the Ace, the face value otherwise |
| Cards.SuitIndex | poker.py:189-200 | the suits' positions in the bucket order Spades, Hearts, Clubs, Diamonds |
| Cards.Greater | poker.py:503-510 | the comparison `a > b` of the settlement (and of `findHighest`): a higher Ace-high rank |
| Cards.SameValue | poker.py:506-514 | the comparisons `a == b` and `a.eq(b)`: the same face value, any suit |
| Cards.OfRank | poker.py:93-99 | the bucket of one Ace-high rank, in input order; `OfRankMembers` states who is in it |
| Cards.OfSuit | poker.py:251-254 | the cards of one suit, in input order, as `straightFlush` collects them and `flush` buckets them; `OfSuitMembers` states who is in it |
| Cards.NotOfRank | poker.py:225-228 | the cards whose value differs from the three of a kind's, as `fullHouse` collects them; `HandLaws.OfRankAfterRemoval` states what is left |
| Cards.SameValueIsSameRank | poker.py:496-516 | equal face values are exactly equal ranks, so the settlement's `>`, `==`, else branches cover every case |
| Hands.HighestIndex | poker.py:73-78 | the kept index points at a card no card outranks, and at the earliest such card |
| Hands.Highest | poker.py:65-78 | `findHighest` returns a card of the input that no input card outranks |
| Hands.RepeatAtOrBelow | poker.py:101-107 | scanning ranks from `r` down: None iff no rank up to `r` has `minimum` cards; otherwise the first card of the highest such rank |
| Hands.Repeat | poker.py:81-107 | `findRepeat`: None iff no rank occurs `minimum` times; otherwise the first card of the highest such rank, Ace highest |
| Hands.TwoPair | poker.py:110-141 | `twoPair`: whenever it matches, it reports the card of the highest pair, as `findRepeat(2, ...)` does; `HandLaws.TwoPairMeaning` states when it matches |
| Hands.Slot | poker.py:153-162 | the 14 straight slots: slot s < 13 holds the cards of value s + 1, slot 0 and slot 13 both hold the Aces |
| Hands.HighestRun | poker.py:164-178 | the top slot of the highest run of five filled slots at or below `p`, with no run above it |
| Hands.Straight | poker.py:144-178 | `straight`: a card iff five consecutive slots are filled; it is the first card of the top slot of the highest run, with face value and rank given by that slot |
| Hands.FlushFrom | poker.py:202-209 | the first suit bucket from position `k` on with five cards gives its highest card; None iff there is none |
| Hands.Flush | poker.py:181-209 | `flush`: None iff no suit has five cards; otherwise the highest card of the first suit with five, in the order Spades, Hearts, Clubs, Diamonds |
| Hands.FullHouse | poker.py:212-234 | a full house reports the three of a kind's card |
| Hands.StraightFlush | poker.py:237-257 | a straight flush needs a flush, and its card is in the hand and of the flush's suit |
| Hands.RoyalFlush | poker.py:260-276 | a royal flush is the straight flush when that straight's card is an Ace |
| Hands.CheckHand | poker.py:6-62 | the category is 1..10, and its card is from the hand and is what that category's detector returned (the highest card for 1); no stronger category's detector matches |
| HandScan.FindHighest | poker.py:65-78 | the loop returns `Highest(cards)` |
| HandScan.RankBuckets | poker.py:89-99 | bucket b holds, in input order, exactly the cards of rank b + 2, with the Aces in bucket 12 |
| HandScan.FindRepeat | poker.py:81-107 | the bucket scan returns `Repeat(minimum, cards)` |
| HandScan.RepeatSkip | poker.py:101-104 | scanning past ranks that do not hold `minimum` cards does not change where the scan ends |
| HandScan.FindTwoPair | poker.py:110-141 | the nested bucket scan returns `TwoPair(cards)` |
| HandScan.SlotBuckets | poker.py:152-162 | slot s < 13 holds the cards of value s + 1, and slot 13 holds the Aces again |
| HandScan.HighestRunSkip | poker.py:166-172 | jumping the window below an empty slot skips no run |
| HandScan.FindStraight | poker.py:144-178 | the sliding-window scan returns `Straight(cards)` |
| HandScan.SuitBuckets | poker.py:189-200 | the four suit buckets hold exactly the cards of each suit, in input order |
| HandScan.FindFlush | poker.py:181-209 | the suit scan returns `Flush(cards)` |
| HandLaws.OfRankAfterRemoval | poker.py:224-228 | removing a rank empties that rank's bucket and leaves every other bucket as it was |
| HandLaws.SuitRunInHand | poker.py:250-257 | a run among the cards of one suit is a run among all the cards |
| HandLaws.RepeatWeakens | poker.py:81-107 | four of a kind implies three of a kind, which implies a pair, at a rank no lower |
| HandLaws.TwoPairMeaning | poker.py:110-141 | two pair is found iff two different ranks hold a pair each, and it reports the highest pair's card |
| HandLaws.FullHouseMeaning | poker.py:212-234 | a full house is found iff there is a three of a kind and another rank holds a pair, and it reports the three of a kind's card |
| HandLaws.FullHouseHasTwoPair | poker.py:212-234 | every full house also holds two pair |
| HandLaws.StraightAceHigh | poker.py:152-176 | the straight's card is an Ace iff 10-J-Q-K-A is filled |
| HandLaws.StraightWheel | poker.py:152-176 | when A-2-3-4-5 is the only run, the Ace plays low and the straight's card is the 5 |
| HandLaws.StraightFlushIsFlushAndStraight | poker.py:237-257 | a straight flush is also a flush and a straight, and the straight among all the cards is at least as high |
| HandLaws.RoyalFlushMeaning | poker.py:260-276 | a royal flush is found iff the flush's suit fills 10-J-Q-K-A, and then a straight flush, a flush and a straight are found too |
| HandLaws.CheckHandAtLeast | poker.py:6-62 | whenever a category's detector matches, `checkHand` reports that category or a stronger one |
| HandLaws.RunHasFive | poker.py:166-176 | a filled run holds five different cards |
| HandLaws.SuitCounts | poker.py:189-200 | every card lands in exactly one suit bucket |
| HandLaws.FlushSuitInGame | poker.py:202-206 | with at most nine cards, a suit holding five cards is the flush's suit |
| HandLaws.StraightFlushInGame | poker.py:237-257 | with at most nine cards, a straight flush is found iff the cards of some suit fill five consecutive slots |
| HandLaws.RoyalRun | poker.py:260-276 | the top run of a suit's cards is filled iff that suit's 10, J, Q, K and A are present |
| HandLaws.RoyalFlushInGame | poker.py:6-62 | with at most nine cards, `checkHand` reports 10 iff some suit's 10, J, Q, K and A are present, and the card is that suit's Ace |
| HandOrder.FilterCounts | poker.py:92-99 | a bucket holds each card as often as the input does when it passes the bucket's test, and never otherwise |
| HandOrder.FilterReordered | poker.py:92-99 | reordering the input only reorders each bucket, so its size stays |
| HandOrder.RankSizesReordered | poker.py:92-99 | reordering the input keeps the size of every rank bucket |
| HandOrder.SuitBucketsReordered | poker.py:190-200 | reordering the input keeps the contents, up to order, of every suit bucket |
| HandOrder.RepeatReordered | poker.py:81-107 | `findRepeat` matches on a reordered hand exactly when on the original, with a card of the same rank |
| HandOrder.TwoPairReordered | poker.py:110-141 | the same for `twoPair` |
| HandOrder.FullHouseReordered | poker.py:212-234 | the same for `fullHouse` |
| HandOrder.HighestRunReordered | poker.py:164-178 | the filled runs and the highest of them depend only on the bucket sizes |
| HandOrder.StraightReordered | poker.py:144-178 | the same for `straight` |
| HandOrder.FlushReordered | poker.py:181-209 | the same for `flush`, which also finds the same suit |
| HandOrder.StraightFlushReordered | poker.py:237-257 | the same for `straightFlush` |
| HandOrder.RoyalFlushReordered | poker.py:260-276 | the same for `royalFlush` |
| HandOrder.HighestReordered | poker.py:65-78 | `findHighest` of a reordered hand reports a card of the same rank |
| HandOrder.DetectReordered | poker.py:15-58 | each detector `checkHand` consults gives the same verdict, on a card of the same rank, for a reordered hand |
| HandOrder.CheckHandReordered | poker.py:6-62 | `checkHand` of a reordered hand reports the same category, with a tie-break card of the same rank |
| Table.Showdown | poker.py:492-516 | the player wins, draws or loses iff the standing (category, rank of the tie-break card, highest hole card) is lexicographically above, equal to or below the opponent's |
| Table.ShowdownSwap | poker.py:496-516 | swapping the sides swaps a win and a loss and keeps a draw |
| Table.Standing | poker.py:492-516 | what the settlement compares for one side, in order: category 1..10, rank of the tie-break card, rank of the highest hole card |
| Table.StandingReordered | poker.py:492-509 | a side's standing does not depend on the order of its hole cards or of the community cards |
| Table.ShowdownReordered | poker.py:492-516 | the outcome of a showdown does not depend on the order in which any card was dealt |
| Table.Payout | poker.py:496-516 | the bank gains the whole pot on a win, half rounded down on a draw, nothing on a loss |
| Table.DecimalText | poker.py:518 | `str` of an amount is a non-empty string of digits |
| Table.DecimalValue | poker.py:473 | `int(wage)` for a string of decimal digits, most significant digit first; `DecimalRoundTrip` and `DecimalCanonical` tie it to `str` |
| Table.IsNumeric | poker.py:473 | `isnumeric()` over the decimal digits 0..9: a non-empty string of them |
| Table.RaiseAccepted | poker.py:473 | the raise check: a non-empty string of decimal digits whose value the bank covers |
| Table.DecimalRoundTrip | poker.py:473 | `int` reads back the digits `str` writes |
| Table.RaiseAcceptsAffordable | poker.py:471-474 | an amount typed in decimal passes the raise check iff the bank covers it |
| Table.DecimalCanonical | poker.py:473 | digits without a leading zero are exactly what `str` writes for the amount `int` reads from them |
| Table.ReadRaise | poker.py:471-474 | the intended guard never fails; it wagers exactly when the text passes the raise check, and never more than the bank |
| Table.ReadRaiseAgrees | poker.py:471-474 | wherever the guard as written does not fail, it does the same as the intended guard |
| Table.RaiseAsWritten | poker.py:470-474 | the guard as written: `int()` fails iff the text is numeric but not all decimal digits; a wager is made iff the corrected check accepts |
| Table.IsNumericAsWritten | poker.py:473 | `isnumeric()` as the guard runs it: the decimal digits and the Latin-1 superscripts and fractions |
| Table.SuperscriptRaiseFails | poker.py:473 | a typed superscript two passes `isnumeric()` and makes `int()` fail |
| Table.Poker.constructor | poker.py:413-417 | a new game has bank 500, pot 0, minimum wager 20 |
| Table.Poker.Wage | poker.py:546-558 | with enough in the bank the pot takes the wager twice and the bank pays it once, otherwise nothing changes; bank plus half the pot is kept |
| Table.Poker.Start | poker.py:445-451 | starting a game wagers the minimum |
| Table.Poker.Raise | poker.py:468-474 | a raise is made exactly when the typed text passes the check, and then the typed amount is wagered |
| Table.Poker.Fold | poker.py:454-459 | folding empties the pot and leaves the bank |
| Table.Poker.Settle | poker.py:492-518 | the outcome is the showdown's, the bank gains its payout, and the pot stays |
| Table.Poker.Rebet | poker.py:523-532 | Bet Again is refused while the bank is at most the minimum wager; otherwise the pot restarts with the minimum wager from both sides |
| Decks.StandardDeck | deck.py:22-24 | the 52 cards in the order `setDefault` appends them; `StandardDeckComplete` and `StandardDeckOrdered` state what it holds |
| Decks.StandardDeckAt | deck.py:22-24 | the card of value v of the k-th suit sits at position 13 k + v - 1 |
| Decks.StandardDeckComplete | deck.py:16-24 | the standard deck has 52 cards, every card, and no card twice |
| Decks.StandardDeckOrdered | deck.py:22-24 | suits come in the order s, h, c, d, and values ascend within a suit |
| Decks.Deck.constructor | deck.py:9-14 | a new deck is empty |
| Decks.Deck.SetDefault | deck.py:16-24 | the deck becomes the standard 52 cards in order, whatever it held |
| Decks.Deck.Add | deck.py:26-37 | the card goes on top |
| Decks.Deck.Draw | deck.py:55-69 | None on an empty deck; otherwise the top card is removed and returned, and adding it back restores the deck |
| Decks.Deck.Empty | deck.py:71-76 | the deck holds no cards |
| Decks.Deck.Size | deck.py:78-85 | the number of cards |
| Decks.Deck.Merge | deck.py:87-97 | the other deck's cards go on top in order, and the other deck ends empty; no card is lost |
| Decks.Deck.Plus | deck.py:108-114 | a new deck holding this deck's cards then the other's |
| Decks.Deck.At | deck.py:116-124 | the card at a position from the bottom, or from the top for a negative position |

## Findings

| source | as written | input that shows it | evidently intended | confidence | as-written member | corrected member |
|---|---|---|---|---|---|---|
| poker.py:473 | the raise guard checks `wage.isnumeric()` and then calls `int(wage)` | typing `²` (superscript two): `isnumeric()` accepts it, and `int()` raises `ValueError` | only texts that `int()` can read pass the guard, for example with `isdecimal()` | high; not executed | Table.SuperscriptRaiseFails | Table.ReadRaise |

The input box (`text.py`) appends any typed character up to five. So a
keyboard that can type `²` reaches this path. `Table.Poker.Raise` uses the
corrected guard, `ReadRaise`, which admits only decimal digits.

## Left out

- Drawing, sprites, card positions, texts, the window, buttons as screen areas, the game loop, and the game-state numbers: this is display and control flow, not evaluation or bookkeeping.
- Dealing: the Check and Raise buttons also draw the fourth or fifth community card. Only the wager part of those buttons is modelled.
- `Deck.shuffle`: it calls `random.shuffle`, which is randomness from a library.
- `Deck.getCardBack`: it only builds a sprite.
- `Deck.cards` and `Deck.__iter__`: they expose the list, which the model reads directly as the field `cards`.
- `test()` in `poker.py`: it prints sample hands.
- Decks.Deck.Add: the card's move to a screen position is not modelled.
- Table.Poker.Raise: non-ASCII decimal digits, such as Arabic-Indic digits, which `isnumeric()` and `int()` both accept, are treated as non-numeric. The input box's five-character limit is not modelled.
- Table.IsNumericAsWritten: of the characters `isnumeric()` accepts, it models only the ASCII digits and six Latin-1 characters (superscripts one to three, and the fractions).
- Hands.Flush and Hands.StraightFlush: these hold for any number of cards. With ten or more cards, two suits can each hold five, and only the first is examined. The nine-card lemmas in `HandLaws` cover every game hand.
- Hands.CheckHand: which card is reported depends on input order. It is the first card of a bucket, or the earliest highest card. The category and the rank of the card do not depend on order (`HandOrder.CheckHandReordered`); the card itself is not claimed to be independent of order.
- Decks.Deck.At: only positions inside the deck are modelled. Outside them `self._cards[num]` raises `IndexError`; every position the game reads is inside the deck.
- Decks.Deck.Merge: merging a deck into itself is excluded by its precondition. The source appends to the list it is walking, so that call never ends; the game never makes it.
- The text updates of the bank and pot labels are not modelled. They only display the fields.
