/**
 * The two breakdowns the views build from an expense list: transaction
 * groups by calendar day (ExpenseListView and MonthDetailView
 * `groupedExpenses`) and per-category totals (MonthDetailView and
 * DonutChartView `categoryData`).
 *
 * `Dictionary(grouping:)` yields its keys in no particular order and
 * every view sorts what it builds from them, so the model takes the keys
 * in order of first occurrence and then sorts.
 */
module Grouping {
  import opened Seqs
  import opened Sorting
  import opened ExpenseModel
  import opened Ledger

  /** One section of the transaction list: a day (at midnight) and its expenses, in list order. */
  datatype TransactionGroup = TransactionGroup(date: Date, expenses: seq<Expense>)

  /** The grouping key: the start of the expense's day. */
  function DayKey(e: Expense): Date
  {
    StartOfDay(e.date)
  }

  /** Latest first (`$0.date > $1.date`). */
  function DateDesc(a: Date, b: Date): bool
  {
    NotBefore(a, b)
  }

  lemma DateDescIsTotalPreorder()
    ensures TotalPreorder(DateDesc)
  {
  }

  /** The days that have an expense, latest first. */
  function DaysDescending(es: seq<Expense>): seq<Date>
  {
    SortBy(DistinctKeys(es, DayKey), DateDesc)
  }

  /** The transaction groups, one per day with an expense, latest day first. */
  function GroupByDay(es: seq<Expense>): (gs: seq<TransactionGroup>)
    ensures |gs| == |DaysDescending(es)|
    ensures forall i :: 0 <= i < |gs| ==>
      gs[i] == TransactionGroup(DaysDescending(es)[i], Members(es, DayKey, DaysDescending(es)[i]))
  {
    var days := DaysDescending(es);
    seq(|days|, i requires 0 <= i < |days| => TransactionGroup(days[i], Members(es, DayKey, days[i])))
  }

  function GroupContents(gs: seq<TransactionGroup>): (r: seq<seq<Expense>>)
    ensures |r| == |gs|
    ensures forall i :: 0 <= i < |gs| ==> r[i] == gs[i].expenses
  {
    seq(|gs|, i requires 0 <= i < |gs| => gs[i].expenses)
  }

  /**
   * The groups partition the list: together they hold every expense
   * exactly as often as the list does; each group is non-empty and holds
   * exactly the expenses of its day; the days are midnights, strictly
   * decreasing.
   */
  lemma GroupByDayFacts(es: seq<Expense>)
    ensures multiset(Flatten(GroupContents(GroupByDay(es)))) == multiset(es)
    ensures |Flatten(GroupContents(GroupByDay(es)))| == |es|
    ensures var gs := GroupByDay(es);
      forall i, j :: 0 <= i < j < |gs| ==> NotBefore(gs[i].date, gs[j].date) && gs[i].date != gs[j].date
    ensures var gs := GroupByDay(es);
      forall i :: 0 <= i < |gs| ==> |gs[i].expenses| > 0 && gs[i].date.seconds == 0
    ensures var gs := GroupByDay(es);
      forall i, e :: 0 <= i < |gs| && e in gs[i].expenses ==> e in es && SameDay(e.date, gs[i].date)
    ensures var gs := GroupByDay(es);
      forall i, e :: 0 <= i < |gs| && e in es && SameDay(e.date, gs[i].date) ==> e in gs[i].expenses
  {
    GroupByDayPartition(es);
    GroupByDayOrder(es);
    GroupByDayMembers(es);
  }

  lemma GroupByDayPartition(es: seq<Expense>)
    ensures multiset(Flatten(GroupContents(GroupByDay(es)))) == multiset(es)
    ensures |Flatten(GroupContents(GroupByDay(es)))| == |es|
  {
    var days := DaysDescending(es);
    DateDescIsTotalPreorder();
    SortByFacts(DistinctKeys(es, DayKey), DateDesc);
    GroupContentsOfDays(es);
    GroupsForPartition(es, DayKey, days);
  }

  lemma GroupContentsOfDays(es: seq<Expense>)
    ensures GroupContents(GroupByDay(es)) == GroupsFor(es, DayKey, DaysDescending(es))
  {
    var a, b := GroupContents(GroupByDay(es)), GroupsFor(es, DayKey, DaysDescending(es));
    assert |a| == |b|;
    forall i | 0 <= i < |a|
      ensures a[i] == b[i]
    {
    }
  }

  lemma GroupByDayOrder(es: seq<Expense>)
    ensures var gs := GroupByDay(es);
      forall i, j :: 0 <= i < j < |gs| ==> NotBefore(gs[i].date, gs[j].date) && gs[i].date != gs[j].date
  {
    DateDescIsTotalPreorder();
    SortByFacts(DistinctKeys(es, DayKey), DateDesc);
  }

  lemma GroupByDayMembers(es: seq<Expense>)
    ensures var gs := GroupByDay(es);
      forall i :: 0 <= i < |gs| ==> |gs[i].expenses| > 0 && gs[i].date.seconds == 0
    ensures var gs := GroupByDay(es);
      forall i, e :: 0 <= i < |gs| && e in gs[i].expenses ==> e in es && SameDay(e.date, gs[i].date)
    ensures var gs := GroupByDay(es);
      forall i, e :: 0 <= i < |gs| && e in es && SameDay(e.date, gs[i].date) ==> e in gs[i].expenses
  {
    var keys := DistinctKeys(es, DayKey);
    var days := DaysDescending(es);
    var gs := GroupByDay(es);
    DateDescIsTotalPreorder();
    SortByFacts(keys, DateDesc);
    forall i | 0 <= i < |gs|
      ensures |gs[i].expenses| > 0 && gs[i].date.seconds == 0
    {
      assert days[i] in keys;
      var x :| x in es && DayKey(x) == days[i];
      assert x in gs[i].expenses;
    }
  }

  /** One category's spending: the category and the sum of its amounts. */
  datatype CategoryData = CategoryData(category: string, amount: real)

  function CategoryOf(e: Expense): string
  {
    e.category
  }

  function EntryAmount(c: CategoryData): real
  {
    c.amount
  }

  /** Largest first (`$0.amount > $1.amount`). */
  function AmountDesc(a: CategoryData, b: CategoryData): bool
  {
    a.amount >= b.amount
  }

  lemma AmountDescIsTotalPreorder()
    ensures TotalPreorder(AmountDesc)
  {
  }

  /** The total of each category in `cats`, in that order. */
  function CategorySums(es: seq<Expense>, cats: seq<string>): (r: seq<CategoryData>)
    ensures |r| == |cats|
    ensures forall i :: 0 <= i < |cats| ==> r[i] == CategoryData(cats[i], Total(Members(es, CategoryOf, cats[i])))
  {
    if cats == [] then []
    else
      var c := cats[|cats| - 1];
      CategorySums(es, cats[..|cats| - 1]) + [CategoryData(c, Total(Members(es, CategoryOf, c)))]
  }

  /** The per-category totals, largest first (`categoryData`). */
  function CategoryTotals(es: seq<Expense>): seq<CategoryData>
  {
    SortBy(CategorySums(es, DistinctKeys(es, CategoryOf)), AmountDesc)
  }

  lemma {:induction false} CategorySumsAddUp(es: seq<Expense>, cats: seq<string>)
    ensures SumBy(CategorySums(es, cats), EntryAmount) == SumBy(Flatten(GroupsFor(es, CategoryOf, cats)), Amount)
  {
    if cats != [] {
      var n := |cats| - 1;
      CategorySumsAddUp(es, cats[..n]);
      assert CategorySums(es, cats)[..n] == CategorySums(es, cats[..n]);
      assert GroupsFor(es, CategoryOf, cats)[..n] == GroupsFor(es, CategoryOf, cats[..n]);
      SumByConcat(Flatten(GroupsFor(es, CategoryOf, cats[..n])), Members(es, CategoryOf, cats[n]), Amount);
    }
  }

  /** The sorted entries are the unsorted ones rearranged, and those are duplicate free. */
  lemma CategoryTotalsPermutation(es: seq<Expense>)
    ensures multiset(CategoryTotals(es)) == multiset(CategorySums(es, DistinctKeys(es, CategoryOf)))
    ensures NoDup(CategoryTotals(es))
    ensures SortedBy(CategoryTotals(es), AmountDesc)
  {
    var cats := DistinctKeys(es, CategoryOf);
    var u := CategorySums(es, cats);
    assert NoDup(u) by {
      forall i, j | 0 <= i < j < |u|
        ensures u[i] != u[j]
      {
        assert u[i].category == cats[i] && u[j].category == cats[j];
      }
    }
    AmountDescIsTotalPreorder();
    SortByFacts(u, AmountDesc);
  }

  /** Each sorted entry is one of the unsorted ones. */
  lemma CategoryTotalsEntry(es: seq<Expense>, i: nat)
    requires i < |CategoryTotals(es)|
    ensures exists k ::
      0 <= k < |DistinctKeys(es, CategoryOf)| && CategoryTotals(es)[i] == CategorySums(es, DistinctKeys(es, CategoryOf))[k]
  {
    CategoryTotalsPermutation(es);
    var u := CategorySums(es, DistinctKeys(es, CategoryOf));
    var cd := CategoryTotals(es);
    assert cd[i] in multiset(cd);
    InMultisetAt(cd[i], u);
  }

  lemma InMultisetAt(x: CategoryData, u: seq<CategoryData>)
    requires x in multiset(u)
    ensures exists k :: 0 <= k < |u| && u[k] == x
  {
    assert x in u;
  }

  /** Every entry is its category's total, for a category that occurs in the list. */
  lemma CategoryTotalsAmounts(es: seq<Expense>)
    ensures var cd := CategoryTotals(es);
      forall i :: 0 <= i < |cd| ==> cd[i].amount == Total(Members(es, CategoryOf, cd[i].category))
    ensures var cd := CategoryTotals(es);
      forall i :: 0 <= i < |cd| ==> exists e :: e in es && e.category == cd[i].category
  {
    var cats := DistinctKeys(es, CategoryOf);
    var u := CategorySums(es, cats);
    var cd := CategoryTotals(es);
    CategoryTotalsPermutation(es);
    forall i | 0 <= i < |cd|
      ensures cd[i].amount == Total(Members(es, CategoryOf, cd[i].category))
      ensures exists e :: e in es && e.category == cd[i].category
    {
      assert cd[i] in multiset(cd);
      InMultisetAt(cd[i], u);
      var k :| 0 <= k < |u| && u[k] == cd[i];
      assert u[k] == CategoryData(cats[k], Total(Members(es, CategoryOf, cats[k])));
      assert cats[k] in cats;
    }
  }

  /** Every category that occurs in the list has an entry. */
  lemma CategoryTotalsCover(es: seq<Expense>)
    ensures var cd := CategoryTotals(es);
      forall e :: e in es ==> exists i :: 0 <= i < |cd| && cd[i].category == e.category
  {
    var cats := DistinctKeys(es, CategoryOf);
    var u := CategorySums(es, cats);
    var cd := CategoryTotals(es);
    CategoryTotalsPermutation(es);
    forall e | e in es
      ensures exists i :: 0 <= i < |cd| && cd[i].category == e.category
    {
      var k :| 0 <= k < |cats| && cats[k] == CategoryOf(e);
      assert u[k] in multiset(cd);
      var i :| 0 <= i < |cd| && cd[i] == u[k];
    }
  }

  /** One entry per category, the largest first. */
  lemma CategoryTotalsOrdered(es: seq<Expense>)
    ensures var cd := CategoryTotals(es);
      forall i, j :: 0 <= i < j < |cd| ==> cd[i].category != cd[j].category && cd[i].amount >= cd[j].amount
  {
    var cats := DistinctKeys(es, CategoryOf);
    var u := CategorySums(es, cats);
    CategoryTotalsPermutation(es);
    assert forall k, l :: 0 <= k < l < |u| ==> u[k].category != u[l].category by {
      forall k, l | 0 <= k < l < |u|
        ensures u[k].category != u[l].category
      {
        assert u[k].category == cats[k] && u[l].category == cats[l];
      }
    }
    DistinctCategoriesKept(u, CategoryTotals(es));
  }

  /** A duplicate-free rearrangement of entries with distinct categories has distinct categories. */
  lemma DistinctCategoriesKept(u: seq<CategoryData>, cd: seq<CategoryData>)
    requires forall k, l :: 0 <= k < l < |u| ==> u[k].category != u[l].category
    requires multiset(cd) == multiset(u) && NoDup(cd)
    ensures forall i, j :: 0 <= i < j < |cd| ==> cd[i].category != cd[j].category
  {
    forall i, j | 0 <= i < j < |cd|
      ensures cd[i].category != cd[j].category
    {
      assert cd[i] in multiset(cd) && cd[j] in multiset(cd);
      InMultisetAt(cd[i], u);
      InMultisetAt(cd[j], u);
      var k :| 0 <= k < |u| && u[k] == cd[i];
      var l :| 0 <= l < |u| && u[l] == cd[j];
      assert k != l;
    }
  }

  /** The entries add up to the total of the list, and there are none exactly when the list is empty. */
  lemma CategoryTotalsSum(es: seq<Expense>)
    ensures SumBy(CategoryTotals(es), EntryAmount) == Total(es)
    ensures |CategoryTotals(es)| == 0 <==> es == []
  {
    var cats := DistinctKeys(es, CategoryOf);
    var u := CategorySums(es, cats);
    CategoryTotalsPermutation(es);
    CategorySumsAddUp(es, cats);
    GroupsForPartition(es, CategoryOf, cats);
    SumByPermutation(Flatten(GroupsFor(es, CategoryOf, cats)), es, Amount);
    SumByPermutation(u, CategoryTotals(es), EntryAmount);
    if es != [] {
      assert es[0] in es;
    }
  }
}
