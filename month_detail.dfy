/**
 * One month's breakdown (Expenses/Views/MonthDetailView.swift): the
 * type filter, the per-day amounts and their average, the day sheet's
 * list, the category and day breakdowns of the filtered list, deletion
 * from a day group, and the calendar grid's first-day offset and title.
 *
 * The expense's type is not a field of the record, so it is the
 * parameter `kind`; the month's expenses arrive through a fetch the
 * repository does not define, so the view's state takes what its
 * callback delivers.
 */
module MonthDetail {
  import opened Wrappers
  import opened Seqs
  import opened Sorting
  import opened ExpenseModel
  import opened Ledger
  import opened Grouping
  import opened Repository

  function HasKind<K(==)>(kind: Expense -> K, f: K): Expense -> bool
  {
    (e: Expense) => kind(e) == f
  }

  /** `filteredExpenses`: all of them with no filter, else those of the chosen type. */
  function Filtered<K(==)>(es: seq<Expense>, filter: Option<K>, kind: Expense -> K): (r: seq<Expense>)
    ensures filter.None? ==> r == es
    ensures filter.Some? ==> forall e :: e in r <==> e in es && kind(e) == filter.value
    ensures filter.Some? ==> forall e :: multiset(r)[e] == if kind(e) == filter.value then multiset(es)[e] else 0
  {
    match filter
    case None => es
    case Some(f) =>
      FilterCount(es, HasKind(kind, f));
      Filter(es, HasKind(kind, f))
  }

  /** The filter keeps the original order: it distributes over concatenation. */
  lemma FilteredConcat<K>(a: seq<Expense>, b: seq<Expense>, filter: Option<K>, kind: Expense -> K)
    ensures Filtered(a + b, filter, kind) == Filtered(a, filter, kind) + Filtered(b, filter, kind)
  {
    if filter.Some? {
      FilterConcat(a, b, HasKind(kind, filter.value));
    }
  }

  /** A single expense is kept exactly when it has the chosen type. */
  lemma FilteredOne<K>(e: Expense, f: K, kind: Expense -> K)
    ensures Filtered([e], Some(f), kind) == if kind(e) == f then [e] else []
  {
    assert [e][1..] == [];
  }

  /** A filter and the expenses it leaves out together make up the whole list. */
  lemma FilteredSplit<K>(es: seq<Expense>, f: K, kind: Expense -> K)
    ensures Total(es) == Total(Filtered(es, Some(f), kind)) + Total(Filter(es, (e: Expense) => kind(e) != f))
  {
    SumByComplement(es, HasKind(kind, f), (e: Expense) => kind(e) != f, Amount);
  }

  /** Amount per day of the month, for the days that have an expense (`expensesByDay`). */
  function ByDay(es: seq<Expense>): map<int, real>
  {
    if es == [] then map[]
    else
      var m := ByDay(es[..|es| - 1]);
      var e := es[|es| - 1];
      m[e.date.day := (if e.date.day in m then m[e.date.day] else 0.0) + e.amount]
  }

  /** Builds the per-day amounts the way the view does, one expense at a time. */
  method ExpensesByDay(filtered: seq<Expense>) returns (dict: map<int, real>)
    ensures dict == ByDay(filtered)
  {
    dict := map[];
    var k := 0;
    while k < |filtered|
      invariant 0 <= k <= |filtered|
      invariant dict == ByDay(filtered[..k])
    {
      assert filtered[..k + 1][..k] == filtered[..k];
      var day := filtered[k].date.day;
      dict := dict[day := (if day in dict then dict[day] else 0.0) + filtered[k].amount];
      k := k + 1;
    }
    assert filtered[..k] == filtered;
  }

  /** A day has an entry exactly when some expense falls on it, and the entry is that day's total. */
  lemma {:induction false} ByDayEntries(es: seq<Expense>)
    ensures forall d :: d in ByDay(es) <==> exists e :: e in es && e.date.day == d
    ensures forall d :: d in ByDay(es) ==> ByDay(es)[d] == DayTotal(es, d)
  {
    if es != [] {
      var init := es[..|es| - 1];
      var e := es[|es| - 1];
      ByDayEntries(init);
      assert es == init + [e];
      forall d
        ensures d in ByDay(es) <==> exists x :: x in es && x.date.day == d
      {
        if d in ByDay(init) {
          var x :| x in init && x.date.day == d;
          assert x in es;
        }
        if exists x :: x in es && x.date.day == d {
          var x :| x in es && x.date.day == d;
          if x != e {
            assert x in init;
          }
        }
      }
      forall d | d !in ByDay(init)
        ensures DayTotal(init, d) == 0.0
      {
        DayTotalAbsent(init, d);
      }
    }
  }

  lemma {:induction false} DayTotalAbsent(es: seq<Expense>, d: int)
    requires forall e :: e in es ==> e.date.day != d
    ensures DayTotal(es, d) == 0.0
  {
    if es != [] {
      assert forall e :: e in es[..|es| - 1] ==> e in es;
      DayTotalAbsent(es[..|es| - 1], d);
      assert es[|es| - 1] in es;
    }
  }

  lemma HasElement(s: set<int>)
    requires s != {}
    ensures exists x :: x in s
  {
    if forall x :: x !in s {
      assert false;
    }
  }

  /** The sum of a map's values, in any order. */
  ghost function SumValues(m: map<int, real>): real
    decreases |m|
  {
    if m.Keys == {} then 0.0
    else
      HasElement(m.Keys);
      var k :| k in m.Keys;
      m[k] + SumValues(m - {k})
  }

  /** The sum of the values does not depend on which key is taken first. */
  lemma {:induction false} SumValuesAt(m: map<int, real>, k: int)
    requires k in m
    ensures SumValues(m) == m[k] + SumValues(m - {k})
    decreases |m|
  {
    var j :| j in m && SumValues(m) == m[j] + SumValues(m - {j});
    if j != k {
      var rest := m - {j} - {k};
      assert m - {j} - {k} == m - {k} - {j};
      assert |m - {j}| < |m|;
      SumValuesAt(m - {j}, k);
      assert |m - {k}| < |m|;
      SumValuesAt(m - {k}, j);
    }
  }

  lemma SumValuesUpdate(m: map<int, real>, k: int, v: real)
    ensures SumValues(m[k := v]) == SumValues(m) - (if k in m then m[k] else 0.0) + v
  {
    SumValuesAt(m[k := v], k);
    assert m[k := v] - {k} == m - {k};
    if k in m {
      SumValuesAt(m, k);
    } else {
      assert m - {k} == m;
    }
  }

  /** The per-day amounts add up to the total of the list. */
  lemma {:induction false} ByDaySum(es: seq<Expense>)
    ensures SumValues(ByDay(es)) == Total(es)
  {
    if es != [] {
      var init := es[..|es| - 1];
      var e := es[|es| - 1];
      ByDaySum(init);
      SumValuesUpdate(ByDay(init), e.date.day, (if e.date.day in ByDay(init) then ByDay(init)[e.date.day] else 0.0) + e.amount);
    }
  }

  /** `dailyAverage`: 0 with no active day, else the per-day amounts' sum over the number of active days. */
  ghost function DailyAverage(byDay: map<int, real>): real
  {
    if |byDay| == 0 then 0.0 else SumValues(byDay) / (|byDay| as real)
  }

  /** The average is the list's total over the number of days that have an expense, and 0 for no expenses. */
  lemma DailyAverageOfExpenses(es: seq<Expense>)
    ensures es == [] ==> DailyAverage(ByDay(es)) == 0.0
    ensures es != [] ==> |ByDay(es)| > 0 && DailyAverage(ByDay(es)) == Total(es) / (|ByDay(es)| as real)
  {
    ByDaySum(es);
    ByDayEntries(es);
    if es != [] {
      assert es[0] in es;
      assert es[0].date.day in ByDay(es);
    }
  }

  /** Latest first (`$0.date > $1.date`). */
  function ExpenseDateDesc(a: Expense, b: Expense): bool
  {
    NotBefore(a.date, b.date)
  }

  function OnSameDayAs(date: Date): Expense -> bool
  {
    (e: Expense) => SameDay(e.date, date)
  }

  /** `expensesForDay`: the filtered expenses of that day, latest first. */
  function ExpensesForDay(filtered: seq<Expense>, date: Date): seq<Expense>
  {
    SortBy(Filter(filtered, OnSameDayAs(date)), ExpenseDateDesc)
  }

  /** The day sheet shows each expense of that day as often as the list has it, and no other, latest first. */
  lemma ExpensesForDayFacts(filtered: seq<Expense>, date: Date)
    ensures multiset(ExpensesForDay(filtered, date)) == multiset(Filter(filtered, OnSameDayAs(date)))
    ensures forall e :: e in ExpensesForDay(filtered, date) <==> e in filtered && SameDay(e.date, date)
    ensures var r := ExpensesForDay(filtered, date);
      forall i, j :: 0 <= i < j < |r| ==> NotBefore(r[i].date, r[j].date)
  {
    assert TotalPreorder(ExpenseDateDesc);
    SortByFacts(Filter(filtered, OnSameDayAs(date)), ExpenseDateDesc);
  }

  /** The month's category breakdown covers the filtered list: its entries add up to the filtered total. */
  lemma MonthCategoryData<K>(es: seq<Expense>, filter: Option<K>, kind: Expense -> K)
    ensures SumBy(CategoryTotals(Filtered(es, filter, kind)), EntryAmount) == Total(Filtered(es, filter, kind))
    ensures var cd := CategoryTotals(Filtered(es, filter, kind));
      forall i, j :: 0 <= i < j < |cd| ==> cd[i].category != cd[j].category && cd[i].amount >= cd[j].amount
  {
    CategoryTotalsSum(Filtered(es, filter, kind));
    CategoryTotalsOrdered(Filtered(es, filter, kind));
  }

  /** The month's day groups partition the filtered list, latest day first. */
  lemma MonthGroupedExpenses<K>(es: seq<Expense>, filter: Option<K>, kind: Expense -> K)
    ensures var gs := GroupByDay(Filtered(es, filter, kind));
      multiset(Flatten(GroupContents(gs))) == multiset(Filtered(es, filter, kind))
      && forall i, j :: 0 <= i < j < |gs| ==> NotBefore(gs[i].date, gs[j].date) && gs[i].date != gs[j].date
  {
    GroupByDayFacts(Filtered(es, filter, kind));
  }

  /** Position of the first expense with identifier `id`, or `|s|` (`firstIndex(where: { $0.id == id })`). */
  function FirstWithId(s: seq<Expense>, id: Option<string>): (i: nat)
    ensures i <= |s|
    ensures i < |s| ==> s[i].id == id
    ensures forall k :: 0 <= k < i ==> s[k].id != id
  {
    if s == [] then 0 else if s[0].id == id then 0 else 1 + FirstWithId(s[1..], id)
  }

  /** Removes the first expense whose identifier equals `id` (two missing ids count as equal). */
  function RemoveFirstWithId(s: seq<Expense>, id: Option<string>): seq<Expense>
  {
    var i := FirstWithId(s, id);
    if i == |s| then s else s[..i] + s[i + 1..]
  }

  /**
   * Exactly one element goes when some element has the identifier, and
   * it is the first such; the rest keep their order. With no such
   * element nothing changes.
   */
  lemma RemoveFirstWithIdFacts(s: seq<Expense>, id: Option<string>)
    ensures (exists k :: 0 <= k < |s| && s[k].id == id) ==>
      var i := FirstWithId(s, id);
      && i < |s|
      && RemoveFirstWithId(s, id) == s[..i] + s[i + 1..]
      && multiset(RemoveFirstWithId(s, id)) + multiset{s[i]} == multiset(s)
    ensures (forall k :: 0 <= k < |s| ==> s[k].id != id) ==> RemoveFirstWithId(s, id) == s
  {
    var i := FirstWithId(s, id);
    if i < |s| {
      assert RemoveFirstWithId(s, id) == s[..i] + s[i + 1..];
      RemoveAt(s, i);
    }
  }

  /** Taking out the element at `i` leaves the rest, with `s[i]` the one multiset element gone. */
  lemma RemoveAt(s: seq<Expense>, i: nat)
    requires i < |s|
    ensures multiset(s[..i] + s[i + 1..]) + multiset{s[i]} == multiset(s)
  {
    assert s == s[..i] + [s[i]] + s[i + 1..];
  }

  /** The local list after removing each target's identifier in turn. */
  function RemoveAllWithIds(s: seq<Expense>, targets: seq<Expense>): seq<Expense>
  {
    if targets == [] then s
    else RemoveFirstWithId(RemoveAllWithIds(s, targets[..|targets| - 1]), targets[|targets| - 1].id)
  }

  /** One more target: one more removal, after the earlier ones. */
  lemma RemoveAllStep(s: seq<Expense>, targets: seq<Expense>, i: nat)
    requires i < |targets|
    ensures RemoveAllWithIds(s, targets[..i + 1]) == RemoveFirstWithId(RemoveAllWithIds(s, targets[..i]), targets[i].id)
  {
    assert targets[..i + 1][..i] == targets[..i];
  }

  lemma {:induction false} RemoveAllWithIdsShrinks(s: seq<Expense>, targets: seq<Expense>)
    ensures multiset(RemoveAllWithIds(s, targets)) <= multiset(s)
    ensures |s| - |targets| <= |RemoveAllWithIds(s, targets)| <= |s|
  {
    if targets != [] {
      var n := |targets| - 1;
      RemoveAllWithIdsShrinks(s, targets[..n]);
      RemoveFirstWithIdFacts(RemoveAllWithIds(s, targets[..n]), targets[n].id);
    }
  }

  /** First weekday column of the month grid: Sunday is 0; 0 when the month's start is unknown. */
  function FirstDayOffset(weekday: Option<int>): (r: int)
    ensures weekday.Some? && 1 <= weekday.value <= 7 ==> 0 <= r <= 6 && r == weekday.value - 1
    ensures weekday.None? ==> r == 0
  {
    match weekday
    case None => 0
    case Some(w) => w - 1
  }

  /** The month the view shows: the parsed "yyyy-MM" id, or `now` when it does not parse (`dateFromID`). */
  function DateFromID(parsed: Option<Date>, now: Date): (d: Date)
    ensures parsed.Some? ==> d == parsed.value
    ensures parsed.None? ==> d == now
  {
    parsed.GetOr(now)
  }

  /** `formatMonthTitle`: the rendered "MMMM yyyy" title, or the id itself when it does not parse. */
  function FormatMonthTitle(id: string, parse: string -> Option<Date>, render: Date -> string): (t: string)
    ensures parse(id).None? ==> t == id
    ensures parse(id).Some? ==> t == render(parse(id).value)
  {
    match parse(id)
    case None => id
    case Some(d) => render(d)
  }

  /** The month view's own palette: as the record's for the six known categories, gray for "Other", blue otherwise. */
  function MonthCategoryColor(category: string): (c: Color)
  {
    match category
    case "Food" => Orange
    case "Transport" => Blue
    case "Shopping" => Purple
    case "Entertainment" => Pink
    case "Health" => Red
    case "Bills" => Yellow
    case "Other" => Gray
    case _ => Blue
  }

  /**
   * The month view agrees with the record's colours on the six known
   * categories and "Other", and differs on every other category: blue
   * where the record says gray.
   */
  lemma MonthCategoryColorVersusRecord(c: string)
    ensures c in KnownCategories || c == "Other" ==> MonthCategoryColor(c) == CategoryColor(c)
    ensures c !in KnownCategories && c != "Other" ==> MonthCategoryColor(c) == Blue && CategoryColor(c) == Gray
  {
  }

  /** The view's state: the month's expenses as fetched, and whether they are still loading. */
  class MonthDetailState {
    var expenses: seq<Expense>
    var isLoading: bool

    constructor ()
      ensures expenses == [] && isLoading
    {
      expenses := [];
      isLoading := true;
    }

    /** The fetch callback: take the delivered expenses and stop loading. */
    method OnMonthExpensesFetched(fetched: seq<Expense>)
      modifies this
      ensures expenses == fetched && !isLoading
    {
      expenses := fetched;
      isLoading := false;
    }

    /**
     * `deleteExpenses(at:in:)`: for each offset, ask the repository to
     * delete that row of the group and drop the first local expense with
     * the same identifier.
     */
    method DeleteExpenses(offsets: seq<nat>, group: TransactionGroup, repository: ExpenseRepository)
      requires IsIndexSet(offsets) && InRange(offsets, group.expenses)
      modifies this`expenses, repository`deleteRequests
      ensures repository.deleteRequests == old(repository.deleteRequests) + DeleteIds(Pick(group.expenses, offsets))
      ensures expenses == RemoveAllWithIds(old(expenses), Pick(group.expenses, offsets))
    {
      var targets := Pick(group.expenses, offsets);
      var i := 0;
      while i < |offsets|
        invariant 0 <= i <= |offsets|
        invariant repository.deleteRequests == old(repository.deleteRequests) + DeleteIds(targets[..i])
        invariant expenses == RemoveAllWithIds(old(expenses), targets[..i])
      {
        var expenseToDelete := group.expenses[offsets[i]];
        assert expenseToDelete == targets[i];
        DeleteIdsStep(old(repository.deleteRequests), targets, i);
        RemoveAllStep(old(expenses), targets, i);
        repository.Delete(expenseToDelete);
        ghost var before := expenses;
        var index := FirstWithId(expenses, expenseToDelete.id);
        if index < |expenses| {
          expenses := expenses[..index] + expenses[index + 1..];
        }
        assert expenses == RemoveFirstWithId(before, expenseToDelete.id);
        i := i + 1;
      }
      assert targets[..i] == targets;
    }
  }
}
