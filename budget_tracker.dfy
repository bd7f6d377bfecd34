/**
 * The `BudgetTracker` widget: a stored budget record whose remaining amount
 * and percentage are recomputed by every update, a three-band status, an edit
 * box for the total and a confetti flag raised when the status drops from
 * warning back to under budget.
 */
module BudgetTracker {
  import opened Options
  import Rounding
  import Folds
  import Text

  datatype BudgetData = BudgetData(total: int, spent: int, remaining: int, percentage: int)

  datatype BudgetStatus = Under | Warning | Over

  /** Amounts of the quick-action buttons. */
  const SmallExpense := 10000
  const LargeExpense := 25000
  const BudgetRaise := 20000

  /** The derived fields agree with total and spent. */
  predicate Consistent(b: BudgetData) {
    && b.total > 0
    && b.remaining == b.total - b.spent
    && b.percentage == Rounding.RoundPercent(b.spent, b.total)
  }

  /** The record the widget starts with. */
  function Seed(): (b: BudgetData)
    ensures Consistent(b) && b.total == 120000 && b.spent == 68000
  {
    BudgetData(120000, 68000, 52000, 57)
  }

  /** `updateBudget(newTotal)`: a new total over the same spending. */
  function WithTotal(b: BudgetData, newTotal: int): (r: BudgetData)
    requires newTotal > 0
    ensures Consistent(r)
    ensures r.total == newTotal && r.spent == b.spent
  {
    var remaining := newTotal - b.spent;
    var percentage := Rounding.RoundPercent(b.spent, newTotal);
    BudgetData(newTotal, b.spent, remaining, percentage)
  }

  /** `addExpense(amount)`: more spending against the same total. */
  function WithExpense(b: BudgetData, amount: int): (r: BudgetData)
    requires b.total > 0
    ensures Consistent(r)
    ensures r.total == b.total && r.spent == b.spent + amount
  {
    var newSpent := b.spent + amount;
    var remaining := b.total - newSpent;
    var percentage := Rounding.RoundPercent(newSpent, b.total);
    b.(spent := newSpent, remaining := remaining, percentage := percentage)
  }

  /** `getBudgetStatus()`: the over case wins over the warning case. */
  function GetBudgetStatus(percentage: int): (s: BudgetStatus)
    ensures s == Over <==> percentage >= 90
    ensures s == Warning <==> 75 <= percentage < 90
    ensures s == Under <==> percentage < 75
  {
    if percentage >= 90 then Over
    else if percentage >= 75 then Warning
    else Under
  }

  /**
   * The bands in terms of the amounts: over from 89.5% of the total spent,
   * warning from 74.5%, because the percentage is rounded first.
   */
  lemma StatusByAmounts(b: BudgetData)
    requires Consistent(b)
    ensures GetBudgetStatus(b.percentage) == Over <==> 200 * b.spent >= 179 * b.total
    ensures GetBudgetStatus(b.percentage) == Warning <==> 149 * b.total <= 200 * b.spent < 179 * b.total
    ensures GetBudgetStatus(b.percentage) == Under <==> 200 * b.spent < 149 * b.total
  {
    Rounding.RoundPercentAtLeast(b.spent, b.total, 90);
    Rounding.RoundPercentAtLeast(b.spent, b.total, 75);
  }

  /** Raising the total by the quick action keeps the spending and keeps the total positive. */
  lemma RaiseKeepsSpending(b: BudgetData)
    requires Consistent(b)
    ensures var r := WithTotal(b, b.total + BudgetRaise);
      r.total == b.total + 20000 && r.spent == b.spent && r.total > 0 && Consistent(r)
  {
  }

  function Amount(x: int): int { x }

  function SumAmounts(amounts: seq<int>): int {
    Folds.Sum(amounts, Amount)
  }

  /** The record after a sequence of expenses. */
  function AfterExpenses(b: BudgetData, amounts: seq<int>): (r: BudgetData)
    requires b.total > 0
    ensures r.total == b.total
  {
    if amounts == [] then b else WithExpense(AfterExpenses(b, amounts[..|amounts| - 1]), amounts[|amounts| - 1])
  }

  /** Expenses accumulate: the final spending is the old spending plus their sum. */
  lemma {:induction false} SpentAfterExpenses(b: BudgetData, amounts: seq<int>)
    requires Consistent(b)
    ensures AfterExpenses(b, amounts).spent == b.spent + SumAmounts(amounts)
    ensures Consistent(AfterExpenses(b, amounts))
  {
    if amounts != [] {
      SpentAfterExpenses(b, amounts[..|amounts| - 1]);
    }
  }

  /** The final record does not depend on the order in which the expenses are added. */
  lemma ExpenseOrderIrrelevant(b: BudgetData, xs: seq<int>, ys: seq<int>)
    requires Consistent(b)
    requires multiset(xs) == multiset(ys)
    ensures AfterExpenses(b, xs) == AfterExpenses(b, ys)
  {
    SpentAfterExpenses(b, xs);
    SpentAfterExpenses(b, ys);
    Folds.SumPermutation(xs, ys, Amount);
  }

  /** The confetti edge: raised only on a change from warning to under budget. */
  predicate Celebrates(last: BudgetStatus, current: BudgetStatus) {
    last == Warning && current == Under
  }

  /** A non-negative expense never lowers the percentage, so it never sets off the confetti. */
  lemma ExpenseNeverCelebrates(b: BudgetData, amount: int)
    requires Consistent(b) && amount >= 0
    ensures !Celebrates(GetBudgetStatus(b.percentage), GetBudgetStatus(WithExpense(b, amount).percentage))
  {
    Rounding.RoundPercentMonotone(b.spent, b.spent + amount, b.total);
  }

  /**
   * From the seed, the 25k expense reaches the warning band (78%) and the 20k
   * raise then brings it back under (66%), which sets off the confetti.
   */
  lemma WarningThenRaiseCelebrates()
    ensures var w := WithExpense(Seed(), LargeExpense);
      && w.percentage == 78 && GetBudgetStatus(w.percentage) == Warning
      && var u := WithTotal(w, w.total + BudgetRaise);
      && u.percentage == 66 && Celebrates(GetBudgetStatus(w.percentage), GetBudgetStatus(u.percentage))
  {
    var w := WithExpense(Seed(), LargeExpense);
    Rounding.RoundPercentUnique(93000, 120000, 78);
    Rounding.RoundPercentUnique(93000, 140000, 66);
  }

  /** The widget's state. */
  class Tracker {
    var budget: BudgetData
    var isEditing: bool
    var editValue: string
    var showConfetti: bool
    var lastBudgetStatus: BudgetStatus

    /**
     * The record is consistent, and the effect on `budget.percentage` has run
     * since the last change, so `lastBudgetStatus` is the current status.
     */
    ghost predicate Valid()
      reads this
    {
      Consistent(budget) && lastBudgetStatus == GetBudgetStatus(budget.percentage)
    }

    constructor ()
      ensures Valid() && budget == Seed()
      ensures !isEditing && editValue == Text.DecimalString(120000) && !showConfetti
    {
      budget := Seed();
      isEditing := false;
      editValue := Text.DecimalString(120000);
      showConfetti := false;
      lastBudgetStatus := Under;
    }

    /**
     * The effect that runs after `budget.percentage` changes: it raises the
     * confetti on a warning-to-under change and records the current status.
     * It is run after every update here; when the percentage did not change,
     * `lastBudgetStatus` already is the current status and the run changes nothing.
     */
    method StatusEffect()
      requires Consistent(budget)
      modifies this
      ensures Valid()
      ensures budget == old(budget) && isEditing == old(isEditing) && editValue == old(editValue)
      ensures showConfetti == (old(showConfetti) || Celebrates(old(lastBudgetStatus), GetBudgetStatus(budget.percentage)))
    {
      var currentStatus := GetBudgetStatus(budget.percentage);
      if lastBudgetStatus == Warning && currentStatus == Under {
        showConfetti := true;
      }
      lastBudgetStatus := currentStatus;
    }

    method UpdateBudget(newTotal: int)
      requires Valid() && newTotal > 0
      modifies this
      ensures Valid() && budget == WithTotal(old(budget), newTotal)
      ensures isEditing == old(isEditing) && editValue == old(editValue)
      ensures showConfetti == (old(showConfetti) || Celebrates(old(lastBudgetStatus), GetBudgetStatus(budget.percentage)))
    {
      var remaining := newTotal - budget.spent;
      var percentage := Rounding.RoundPercent(budget.spent, newTotal);
      budget := BudgetData(newTotal, budget.spent, remaining, percentage);
      StatusEffect();
    }

    method AddExpense(amount: int)
      requires Valid()
      modifies this
      ensures Valid() && budget == WithExpense(old(budget), amount)
      ensures isEditing == old(isEditing) && editValue == old(editValue)
      ensures showConfetti == (old(showConfetti) || Celebrates(old(lastBudgetStatus), GetBudgetStatus(budget.percentage)))
    {
      var newSpent := budget.spent + amount;
      var remaining := budget.total - newSpent;
      var percentage := Rounding.RoundPercent(newSpent, budget.total);
      budget := budget.(spent := newSpent, remaining := remaining, percentage := percentage);
      StatusEffect();
    }

    /** The "+₹20k Budget" button. */
    method RaiseBudget()
      requires Valid()
      modifies this
      ensures Valid() && budget == WithTotal(old(budget), old(budget.total) + BudgetRaise)
      ensures isEditing == old(isEditing) && editValue == old(editValue)
      ensures showConfetti == (old(showConfetti) || Celebrates(old(lastBudgetStatus), GetBudgetStatus(budget.percentage)))
    {
      UpdateBudget(budget.total + BudgetRaise);
    }

    /** The edit button opens the edit box; its text is left as it was. */
    method StartEditing()
      requires Valid()
      modifies this
      ensures Valid() && isEditing
      ensures budget == old(budget) && editValue == old(editValue) && showConfetti == old(showConfetti)
    {
      isEditing := true;
    }

    /** Typing in the edit box. */
    method ChangeEditValue(text: string)
      requires Valid()
      modifies this
      ensures Valid() && editValue == text
      ensures budget == old(budget) && isEditing == old(isEditing) && showConfetti == old(showConfetti)
    {
      editValue := text;
    }

    /** `handleSaveBudget`: a number above zero becomes the total and closes the box; anything else changes nothing. */
    method SaveBudget()
      requires Valid()
      modifies this
      ensures Valid() && editValue == old(editValue)
      ensures var parsed := Text.ParseNumber(old(editValue));
        if parsed.Some? && parsed.value > 0 then
          && budget == WithTotal(old(budget), parsed.value) && !isEditing
          && showConfetti == (old(showConfetti) || Celebrates(old(lastBudgetStatus), GetBudgetStatus(budget.percentage)))
        else
          budget == old(budget) && isEditing == old(isEditing) && showConfetti == old(showConfetti)
    {
      var newTotal := Text.ParseNumber(editValue);
      if newTotal.Some? && newTotal.value > 0 {
        UpdateBudget(newTotal.value);
        isEditing := false;
      }
    }

    /** `handleCancelEdit`: the box text returns to the current total and the box closes. */
    method CancelEdit()
      requires Valid()
      modifies this
      ensures Valid() && budget == old(budget) && !isEditing
      ensures editValue == Text.DecimalString(budget.total)
      ensures Text.ParseNumber(editValue) == Some(budget.total)
      ensures showConfetti == old(showConfetti)
    {
      editValue := Text.DecimalString(budget.total);
      isEditing := false;
      Text.ParseDecimalString(budget.total);
    }

    /** The confetti component's `onComplete` callback. */
    method ConfettiComplete()
      requires Valid()
      modifies this
      ensures Valid() && !showConfetti && budget == old(budget)
      ensures isEditing == old(isEditing) && editValue == old(editValue)
    {
      showConfetti := false;
    }
  }
}
