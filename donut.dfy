/**
 * The spending donut (Expenses/Views/DonutChartView.swift): one slice
 * per category, the total in the middle, a gap between slices except
 * for small ones, and the slice palette.
 */
module Donut {
  import opened Seqs
  import opened ExpenseModel
  import opened Ledger
  import opened Grouping

  /** The slices: each category's total, the largest first. */
  function Slices(expenses: seq<Expense>): seq<CategoryData>
  {
    CategoryTotals(expenses)
  }

  /** `totalAmount`: the sum of all amounts. */
  function TotalAmount(expenses: seq<Expense>): real
  {
    Total(expenses)
  }

  /**
   * The slices add up to the total; there is no chart exactly when there
   * are no expenses; each category gets one slice, the largest first.
   */
  lemma SlicesFacts(expenses: seq<Expense>)
    ensures SumBy(Slices(expenses), EntryAmount) == TotalAmount(expenses)
    ensures |Slices(expenses)| > 0 <==> expenses != []
    ensures var s := Slices(expenses);
      forall i, j :: 0 <= i < j < |s| ==> s[i].category != s[j].category && s[i].amount >= s[j].amount
    ensures var s := Slices(expenses);
      forall i :: 0 <= i < |s| ==> s[i].amount == Total(Members(expenses, CategoryOf, s[i].category))
  {
    CategoryTotalsSum(expenses);
    CategoryTotalsOrdered(expenses);
    CategoryTotalsAmounts(expenses);
  }

  /**
   * The gap beside a slice: `angularInset` when the slice is more than 1%
   * of the total, else 0. A zero total is read as floating point does: a
   * positive amount over it exceeds any bound, and zero over it does not.
   */
  function SliceInset(amount: real, total: real, angularInset: real): (inset: real)
    ensures inset == angularInset || inset == 0.0
  {
    var exceeds := if total == 0.0 then amount > 0.0 else amount / total > 1.0 / 100.0;
    if exceeds then angularInset else 0.0
  }

  /** With a positive total, a slice gets the gap exactly when it is more than a hundredth of the total. */
  lemma SliceInsetRule(amount: real, total: real, angularInset: real)
    requires total > 0.0 && angularInset != 0.0
    ensures SliceInset(amount, total, angularInset) == angularInset <==> 100.0 * amount > total
  {
    assert amount == (amount / total) * total;
  }

  /** The donut's palette (`categoryColor(for:)`). */
  function DonutCategoryColor(category: string): Color
  {
    match category
    case "Food" => Orange
    case "Transport" => Blue
    case "Shopping" => Purple
    case "Entertainment" => Pink
    case "Bills" => Yellow
    case "Health" => Red
    case "Other" => Gray
    case _ => Gray
  }

  /** The donut colours every category as the record does: the six known ones their own colour, all others gray. */
  lemma DonutColorMatchesRecord(category: string)
    ensures DonutCategoryColor(category) == CategoryColor(category)
    ensures DonutCategoryColor(category) == Gray <==> category !in KnownCategories
  {
    ColorMapping(category);
  }
}
