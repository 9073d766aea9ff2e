/**
 * The wager bookkeeping of the game: the player's bank, the pot, and the
 * outcome of the last showdown. Only this arithmetic is modelled; the window,
 * buttons, texts and dealing of the game class are not.
 */
module Table {
  import opened Cards
  import opened Hands
  import opened HandOrder

  /** The game's `_win` flag: 0 lost, 1 won, 2 draw. */
  datatype Outcome = Lost | Won | Drawn

  // ---------------------------------------------------------------- showdown

  /**
   * What the showdown compares for one side, most significant first: the
   * category of the hole cards plus the community cards, the Ace-high rank of
   * its tie-break card, and the Ace-high rank of the highest hole card.
   */
  function Standing(hole: seq<Card>, community: seq<Card>): (k: (int, int, int))
    requires |hole| > 0
    ensures 1 <= k.0 <= 10 && 2 <= k.1 <= 14 && 2 <= k.2 <= 14
  {
    var h := CheckHand(hole + community);
    (h.rank, Rank(h.card), Rank(Highest(hole)))
  }

  /** Lexicographic order on standings. */
  predicate Above(a: (int, int, int), b: (int, int, int)) {
    a.0 > b.0 || (a.0 == b.0 && (a.1 > b.1 || (a.1 == b.1 && a.2 > b.2)))
  }

  /**
   * Settlement of a round: a higher category wins; on equal categories the
   * higher tie-break card wins; when those have the same value, the higher of
   * the two sides' best hole cards wins; equal values all the way are a draw,
   * and everything else is a loss.
   */
  function Showdown(player: seq<Card>, ai: seq<Card>, community: seq<Card>): (o: Outcome)
    requires |player| > 0 && |ai| > 0
    ensures o == Won <==> Above(Standing(player, community), Standing(ai, community))
    ensures o == Drawn <==> Standing(player, community) == Standing(ai, community)
    ensures o == Lost <==> Above(Standing(ai, community), Standing(player, community))
  {
    var p := CheckHand(player + community);
    var a := CheckHand(ai + community);
    if p.rank > a.rank then Won
    else if p.rank == a.rank then
      if Greater(p.card, a.card) then Won
      else if SameValue(p.card, a.card) then
        var playerHand := Highest(player);
        var aiHand := Highest(ai);
        if Greater(playerHand, aiHand) then Won
        else if SameValue(playerHand, aiHand) then Drawn
        else Lost
      else Lost
    else Lost
  }

  /** Swapping the two sides swaps a win and a loss and keeps a draw. */
  lemma ShowdownSwap(player: seq<Card>, ai: seq<Card>, community: seq<Card>)
    requires |player| > 0 && |ai| > 0
    ensures Showdown(player, ai, community) == Won <==> Showdown(ai, player, community) == Lost
    ensures Showdown(player, ai, community) == Drawn <==> Showdown(ai, player, community) == Drawn
  {
  }

  /** A side's standing does not depend on the order of its hole cards or of the community cards. */
  lemma StandingReordered(hole: seq<Card>, community: seq<Card>, hole2: seq<Card>, community2: seq<Card>)
    requires |hole| > 0
    requires multiset(hole) == multiset(hole2) && multiset(community) == multiset(community2)
    ensures |hole2| > 0 && Standing(hole, community) == Standing(hole2, community2)
  {
    assert multiset(hole + community) == multiset(hole2 + community2);
    CheckHandReordered(hole + community, hole2 + community2);
    HighestReordered(hole, hole2);
  }

  /** The outcome of a showdown does not depend on the order in which any of the cards were dealt. */
  lemma ShowdownReordered(player: seq<Card>, ai: seq<Card>, community: seq<Card>,
                          player2: seq<Card>, ai2: seq<Card>, community2: seq<Card>)
    requires |player| > 0 && |ai| > 0
    requires multiset(player) == multiset(player2) && multiset(ai) == multiset(ai2)
    requires multiset(community) == multiset(community2)
    ensures |player2| > 0 && |ai2| > 0
    ensures Showdown(player, ai, community) == Showdown(player2, ai2, community2)
  {
    StandingReordered(player, community, player2, community2);
    StandingReordered(ai, community, ai2, community2);
  }

  /** What the bank gains from a settled round with pot `pot`: all of it on a win, half (rounded down) on a draw. */
  function Payout(o: Outcome, pot: int): (gain: int)
    requires pot >= 0
    ensures 0 <= gain <= pot
    ensures o == Won ==> gain == pot
    ensures o == Lost ==> gain == 0
    ensures o == Drawn ==> 2 * gain <= pot < 2 * gain + 2
  {
    match o
    case Won => pot
    case Drawn => pot / 2
    case Lost => 0
  }

  // ---------------------------------------------------------------- raise input

  predicate IsDigit(ch: char) {
    '0' <= ch <= '9'
  }

  /** `text.isnumeric()`, for the decimal digits 0..9. */
  predicate IsNumeric(text: string) {
    text != "" && forall i :: 0 <= i < |text| ==> IsDigit(text[i])
  }

  /** Value of a string of decimal digits, as `int(text)` reads it. */
  function DecimalValue(text: string): (n: nat)
    requires forall i :: 0 <= i < |text| ==> IsDigit(text[i])
  {
    if text == [] then 0
    else
      var last := text[|text| - 1];
      assert IsDigit(last);
      10 * DecimalValue(text[..|text| - 1]) + (last as int - '0' as int)
  }

  /** Decimal digits of `n`, as `str(n)` writes them. */
  function DecimalText(n: nat): (text: string)
    ensures |text| > 0
    ensures forall i :: 0 <= i < |text| ==> IsDigit(text[i])
  {
    if n < 10 then [('0' as int + n) as char]
    else DecimalText(n / 10) + [('0' as int + n % 10) as char]
  }

  /** Reading back the digits of any amount gives the amount. */
  lemma {:induction false} DecimalRoundTrip(n: nat)
    ensures DecimalValue(DecimalText(n)) == n
  {
    var text := DecimalText(n);
    if n >= 10 {
      DecimalRoundTrip(n / 10);
      assert text[..|text| - 1] == DecimalText(n / 10);
    }
  }

  /** Digits that do not start with a zero have a positive value. */
  lemma {:induction false} DecimalPositive(text: string)
    requires IsNumeric(text) && text[0] != '0'
    ensures DecimalValue(text) >= 1
  {
    if |text| > 1 {
      var init := text[..|text| - 1];
      assert init[0] == text[0];
      DecimalPositive(init);
    }
  }

  /** Digits without a leading zero are exactly what `str` writes for their value. */
  lemma {:induction false} DecimalCanonical(text: string)
    requires IsNumeric(text) && (text[0] != '0' || text == "0")
    ensures DecimalText(DecimalValue(text)) == text
  {
    if |text| > 1 {
      var init := text[..|text| - 1];
      var digit := text[|text| - 1];
      assert init[0] == text[0];
      DecimalPositive(init);
      DecimalCanonical(init);
      assert text == init + [digit];
    }
  }

  /** The raise check: a non-empty string of digits whose value is at most the bank. */
  predicate RaiseAccepted(text: string, bank: int) {
    IsNumeric(text) && DecimalValue(text) <= bank
  }

  /** Every amount from 0 to the bank, typed in decimal, passes the raise check; a negative bank admits none. */
  lemma RaiseAcceptsAffordable(n: nat, bank: int)
    ensures RaiseAccepted(DecimalText(n), bank) <==> n <= bank
  {
    DecimalRoundTrip(n);
  }

  /** Latin-1 characters that `str.isnumeric()` accepts but `int()` cannot read: superscript one to three and the vulgar fractions. */
  predicate IsOtherNumeric(ch: char) {
    ch == '\U{00B9}' || ch == '\U{00B2}' || ch == '\U{00B3}' ||
    ch == '\U{00BC}' || ch == '\U{00BD}' || ch == '\U{00BE}'
  }

  /** `text.isnumeric()` over the decimal digits and the characters above. */
  predicate IsNumericAsWritten(text: string) {
    text != "" && forall i :: 0 <= i < |text| ==> IsDigit(text[i]) || IsOtherNumeric(text[i])
  }

  /** What the Raise button does with the typed text, guard as written: ignore it, wager an amount, or fail in `int()`. */
  datatype RaiseStep = Ignored | Wagered(amount: nat) | ValueError

  /**
   * The raise guard as written: `isnumeric()` lets a superscript or fraction
   * through to `int()`, which raises on it; digits alone are read and wagered
   * when the bank covers them.
   */
  function RaiseAsWritten(text: string, bank: int): (step: RaiseStep)
    ensures step == ValueError <==> IsNumericAsWritten(text) && !IsNumeric(text)
    ensures step.Wagered? <==> RaiseAccepted(text, bank)
    ensures step.Wagered? ==> step.amount == DecimalValue(text) <= bank
  {
    if text != "" && IsNumericAsWritten(text) then
      if IsNumeric(text) then
        if DecimalValue(text) <= bank then Wagered(DecimalValue(text)) else Ignored
      else ValueError
    else Ignored
  }

  /** Typing a superscript two passes the guard and makes `int()` fail, whatever the bank. */
  lemma SuperscriptRaiseFails(bank: int)
    ensures RaiseAsWritten("\U{00B2}", bank) == ValueError
  {
    assert IsOtherNumeric("\U{00B2}"[0]);
  }

  /**
   * The raise guard as intended: only a non-empty string of decimal digits is
   * read, so `int()` never fails; the amount is wagered when the bank covers it.
   */
  function ReadRaise(text: string, bank: int): (step: RaiseStep)
    ensures step != ValueError
    ensures step.Wagered? <==> RaiseAccepted(text, bank)
    ensures step.Wagered? ==> step.amount == DecimalValue(text) <= bank
  {
    if RaiseAccepted(text, bank) then Wagered(DecimalValue(text)) else Ignored
  }

  /** Wherever the guard as written does not fail, it does what the intended guard does. */
  lemma ReadRaiseAgrees(text: string, bank: int)
    ensures RaiseAsWritten(text, bank) != ValueError ==> RaiseAsWritten(text, bank) == ReadRaise(text, bank)
  {
  }

  // ---------------------------------------------------------------- the game's wager state

  /** The bank, pot and outcome fields of the game, with the constant minimum wager. */
  class Poker {
    var bank: int
    var pot: int
    var win: Outcome
    const minWage: int

    /** Neither the bank nor the pot is ever negative. */
    ghost predicate Valid()
      reads this
    {
      bank >= 0 && pot >= 0 && minWage == 20
    }

    /** The wage settings of a new game. */
    constructor ()
      ensures Valid()
      ensures bank == 500 && pot == 0 && win == Lost && minWage == 20
    {
      minWage := 20;
      bank := 500;
      pot := 0;
      win := Lost;
    }

    /** `wage`: only when the bank covers it, the pot takes the wager twice (both sides) and the bank pays it once. */
    method Wage(wager: nat)
      requires Valid()
      modifies this
      ensures Valid() && win == old(win)
      ensures old(bank) >= wager ==> bank == old(bank) - wager && pot == old(pot) + 2 * wager
      ensures old(bank) < wager ==> bank == old(bank) && pot == old(pot)
      ensures bank + pot / 2 == old(bank) + old(pot) / 2
    {
      if bank >= wager {
        pot := pot + 2 * wager;
        bank := bank - wager;
      }
    }

    /** The Start Game button: the minimum wager goes in. */
    method Start()
      requires Valid()
      modifies this
      ensures Valid() && win == old(win)
      ensures old(bank) >= minWage ==> bank == old(bank) - minWage && pot == old(pot) + 2 * minWage
      ensures old(bank) < minWage ==> bank == old(bank) && pot == old(pot)
    {
      Wage(minWage);
    }

    /** The Raise button: a valid amount typed in the box is wagered, anything else is ignored. */
    method Raise(text: string) returns (accepted: bool)
      requires Valid()
      modifies this
      ensures Valid() && win == old(win)
      ensures accepted == RaiseAccepted(text, old(bank))
      ensures accepted ==> bank == old(bank) - DecimalValue(text) && pot == old(pot) + 2 * DecimalValue(text)
      ensures !accepted ==> bank == old(bank) && pot == old(pot)
    {
      var step := ReadRaise(text, bank);
      accepted := step.Wagered?;
      if accepted {
        Wage(step.amount);
      }
    }

    /** The Fold button: the pot is forfeited. */
    method Fold()
      requires Valid()
      modifies this
      ensures Valid() && pot == 0 && bank == old(bank) && win == old(win)
    {
      pot := 0;
    }

    /** Settlement once all five community cards are out: record the outcome and pay the bank. */
    method Settle(playerCards: seq<Card>, aiCards: seq<Card>, communityCards: seq<Card>)
      requires Valid()
      requires |playerCards| > 0 && |aiCards| > 0
      modifies this
      ensures Valid() && pot == old(pot)
      ensures win == Showdown(playerCards, aiCards, communityCards)
      ensures bank == old(bank) + Payout(win, pot)
    {
      var playerScore := CheckHand(playerCards + communityCards);
      var aiScore := CheckHand(aiCards + communityCards);
      win := Lost;
      if playerScore.rank > aiScore.rank {
        bank := bank + pot;
        win := Won;
      } else if playerScore.rank == aiScore.rank {
        if Greater(playerScore.card, aiScore.card) {
          bank := bank + pot;
          win := Won;
        } else if SameValue(playerScore.card, aiScore.card) {
          var playerHand := Highest(playerCards);
          var aiHand := Highest(aiCards);
          if Greater(playerHand, aiHand) {
            bank := bank + pot;
            win := Won;
          } else if SameValue(playerHand, aiHand) {
            bank := bank + pot / 2;
            win := Drawn;
          }
        }
      }
    }

    /** The Bet Again button: refused when the bank is at most the minimum wager; otherwise a fresh pot and the minimum wager. */
    method Rebet() returns (restarted: bool)
      requires Valid()
      modifies this
      ensures Valid() && win == old(win)
      ensures restarted == (old(bank) > minWage)
      ensures restarted ==> bank == old(bank) - minWage && pot == 2 * minWage
      ensures !restarted ==> bank == old(bank) && pot == old(pot)
    {
      if bank <= minWage {
        return false;
      }
      pot := 0;
      Wage(minWage);
      return true;
    }
  }
}
