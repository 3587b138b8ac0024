/**
 * Totals over expense lists shared by the repository, the widget
 * snapshot and the views: the sum of amounts and the current-month
 * selection.
 */
module Ledger {
  import opened ExpenseModel
  import opened Seqs

  function Amount(e: Expense): real
  {
    e.amount
  }

  /** Sum of the amounts (`reduce(0) { $0 + $1.amount }`). */
  function Total(es: seq<Expense>): real
  {
    SumBy(es, Amount)
  }

  /** "Falls in the month and year of `now`". */
  function InMonthOf(now: Date): Expense -> bool
  {
    (e: Expense) => SameMonth(e.date, now)
  }

  function NotInMonthOf(now: Date): Expense -> bool
  {
    (e: Expense) => !SameMonth(e.date, now)
  }

  /** The expenses of the current month, in list order. */
  function CurrentMonth(es: seq<Expense>, now: Date): (r: seq<Expense>)
    ensures forall e :: e in r <==> e in es && SameMonth(e.date, now)
  {
    Filter(es, InMonthOf(now))
  }

  /** Total of the current month's expenses. */
  function MonthTotal(es: seq<Expense>, now: Date): real
  {
    Total(CurrentMonth(es, now))
  }

  /** The total splits into the current month's part and the rest. */
  lemma MonthTotalSplit(es: seq<Expense>, now: Date)
    ensures Total(es) == MonthTotal(es, now) + Total(Filter(es, NotInMonthOf(now)))
  {
    SumByComplement(es, InMonthOf(now), NotInMonthOf(now), Amount);
  }

  /** When every expense is in the current month, the month total is the whole total. */
  lemma MonthTotalAllInMonth(es: seq<Expense>, now: Date)
    requires forall e :: e in es ==> SameMonth(e.date, now)
    ensures MonthTotal(es, now) == Total(es)
  {
    FilterAll(es, InMonthOf(now));
  }

  /** Expenses of other months do not change the month total. */
  lemma MonthTotalIgnoresOtherMonths(es: seq<Expense>, others: seq<Expense>, now: Date)
    requires forall e :: e in others ==> !SameMonth(e.date, now)
    ensures MonthTotal(es + others, now) == MonthTotal(es, now)
  {
    FilterConcat(es, others, InMonthOf(now));
    FilterNone(others, InMonthOf(now));
    assert CurrentMonth(es + others, now) == CurrentMonth(es, now) + [];
    assert CurrentMonth(es, now) + [] == CurrentMonth(es, now);
  }

  lemma {:induction false} TotalNonNegative(es: seq<Expense>)
    requires forall e :: e in es ==> e.amount >= 0.0
    ensures Total(es) >= 0.0
  {
    if es != [] {
      TotalNonNegative(es[..|es| - 1]);
      assert es[|es| - 1] in es;
    }
  }

  lemma TotalConcat(a: seq<Expense>, b: seq<Expense>)
    ensures Total(a + b) == Total(a) + Total(b)
  {
    SumByConcat(a, b, Amount);
  }

  /** The amount spent on day `d` of the month (the day-of-month component of the date). */
  function DayTotal(es: seq<Expense>, d: int): real
  {
    if es == [] then 0.0
    else DayTotal(es[..|es| - 1], d) + (if es[|es| - 1].date.day == d then es[|es| - 1].amount else 0.0)
  }

  lemma {:induction false} DayTotalNonNegative(es: seq<Expense>, d: int)
    requires forall e :: e in es ==> e.amount >= 0.0
    ensures DayTotal(es, d) >= 0.0
  {
    if es != [] {
      assert forall e :: e in es[..|es| - 1] ==> e in es;
      DayTotalNonNegative(es[..|es| - 1], d);
      assert es[|es| - 1] in es;
    }
  }
}
