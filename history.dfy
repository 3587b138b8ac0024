/**
 * The history screen (Expenses/Views/HistoryView.swift): the stats
 * ledger grouped by year, the years and the months inside each latest
 * first, and the month label.
 */
module History {
  import opened Wrappers
  import opened Seqs
  import opened Sorting
  import opened Text
  import opened ExpenseModel
  import opened Repository

  /** One year's section: the year (the first four characters of the ids) and its months. */
  datatype YearGroup = YearGroup(id: string, months: seq<MonthlyStats>)

  /** The year of a stats entry: the first four characters of its id, a missing id read as "". */
  function YearKey(s: MonthlyStats): (y: string)
    ensures |y| <= 4 && |y| <= |StatKey(s)| && y == StatKey(s)[..|y|]
  {
    Prefix(StatKey(s), 4)
  }

  /** Latest year first (`$0.id > $1.id`). */
  function YearDesc(a: string, b: string): bool
  {
    LexLe(b, a)
  }

  lemma YearDescIsTotalPreorder()
    ensures TotalPreorder(YearDesc)
  {
    forall a: string, b: string
      ensures YearDesc(a, b) || YearDesc(b, a)
    {
      LexLeTotal(a, b);
    }
    forall a: string, b: string, c: string | YearDesc(a, b) && YearDesc(b, c)
      ensures YearDesc(a, c)
    {
      LexLeTransitive(c, b, a);
    }
  }

  function YearsDescending(stats: seq<MonthlyStats>): seq<string>
  {
    SortBy(DistinctKeys(stats, YearKey), YearDesc)
  }

  /** `groupedStats`: one group per year, years latest first, months in each latest first. */
  function GroupedStats(stats: seq<MonthlyStats>): (gs: seq<YearGroup>)
    ensures |gs| == |YearsDescending(stats)|
    ensures forall i :: 0 <= i < |gs| ==>
      gs[i] == YearGroup(YearsDescending(stats)[i], SortBy(Members(stats, YearKey, YearsDescending(stats)[i]), StatIdDesc))
  {
    var years := YearsDescending(stats);
    seq(|years|, i requires 0 <= i < |years| =>
      YearGroup(years[i], SortBy(Members(stats, YearKey, years[i]), StatIdDesc)))
  }

  function MonthsOf(gs: seq<YearGroup>): (r: seq<seq<MonthlyStats>>)
    ensures |r| == |gs|
    ensures forall i :: 0 <= i < |gs| ==> r[i] == gs[i].months
  {
    seq(|gs|, i requires 0 <= i < |gs| => gs[i].months)
  }

  lemma {:induction false} FlattenRearranged(a: seq<seq<MonthlyStats>>, b: seq<seq<MonthlyStats>>)
    requires |a| == |b|
    requires forall i :: 0 <= i < |a| ==> multiset(a[i]) == multiset(b[i])
    ensures multiset(Flatten(a)) == multiset(Flatten(b))
  {
    if a != [] {
      var n := |a| - 1;
      FlattenRearranged(a[..n], b[..n]);
    }
  }

  /** Every entry lands in exactly one year group: the groups together are the ledger rearranged. */
  lemma GroupedStatsPartition(stats: seq<MonthlyStats>)
    ensures multiset(Flatten(MonthsOf(GroupedStats(stats)))) == multiset(stats)
    ensures |Flatten(MonthsOf(GroupedStats(stats)))| == |stats|
  {
    var keys := DistinctKeys(stats, YearKey);
    var years := YearsDescending(stats);
    YearDescIsTotalPreorder();
    SortByFacts(keys, YearDesc);
    var gs := GroupedStats(stats);
    forall i | 0 <= i < |gs|
      ensures multiset(MonthsOf(gs)[i]) == multiset(GroupsFor(stats, YearKey, years)[i])
    {
    }
    FlattenRearranged(MonthsOf(gs), GroupsFor(stats, YearKey, years));
    GroupsForPartition(stats, YearKey, years);
    assert |multiset(Flatten(MonthsOf(gs)))| == |multiset(stats)|;
  }

  /**
   * Years are strictly decreasing; within a group the months are sorted
   * by id, latest first; every month of a group has the group's year as
   * the prefix of its id, and every entry of that year is in the group.
   */
  lemma GroupedStatsOrder(stats: seq<MonthlyStats>)
    ensures var gs := GroupedStats(stats);
      forall i, j :: 0 <= i < j < |gs| ==> LexLe(gs[j].id, gs[i].id) && gs[i].id != gs[j].id
    ensures var gs := GroupedStats(stats);
      forall g, i, j :: g in gs && 0 <= i < j < |g.months| ==> LexLe(StatKey(g.months[j]), StatKey(g.months[i]))
    ensures var gs := GroupedStats(stats);
      forall g, s :: g in gs && s in g.months ==> s in stats && YearKey(s) == g.id
    ensures var gs := GroupedStats(stats);
      forall g, s :: g in gs && s in stats && YearKey(s) == g.id ==> s in g.months
  {
    var keys := DistinctKeys(stats, YearKey);
    YearDescIsTotalPreorder();
    SortByFacts(keys, YearDesc);
    StatIdDescIsTotalPreorder();
    var gs := GroupedStats(stats);
    forall g | g in gs
      ensures SortedBy(g.months, StatIdDesc)
      ensures forall s :: s in g.months <==> s in stats && YearKey(s) == g.id
    {
      var i :| 0 <= i < |gs| && gs[i] == g;
      SortByFacts(Members(stats, YearKey, g.id), StatIdDesc);
    }
  }

  /** The label of a month row: the rendered month of a parsable id, otherwise "" (`formatMonth`). */
  function FormatMonth(id: Option<string>, parse: string -> Option<Date>, render: Date -> string): (t: string)
    ensures id.None? ==> t == ""
    ensures id.Some? && parse(id.value).None? ==> t == ""
    ensures id.Some? && parse(id.value).Some? ==> t == render(parse(id.value).value)
  {
    match id
    case None => ""
    case Some(text) =>
      match parse(text)
      case None => ""
      case Some(date) => render(date)
  }
}
