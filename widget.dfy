/**
 * The home-screen widget snapshot (Expenses/Managers/WidgetDataManager+Save.swift):
 * the current month's total, the cumulative spending curve up to today,
 * and the month's name, written into the app group's shared defaults.
 *
 * The clock, the calendar and the date formatter are parameters: `now`
 * is the moment of the save, `days` the number of days in its month and
 * `formattedMonth` the full month name the formatter produces.
 */
module WidgetSnapshot {
  import opened Wrappers
  import opened ExpenseModel
  import opened Ledger

  /** The payload the widget reads (Expenses/Models/WidgetData.swift). */
  datatype WidgetData = WidgetData(totalAmount: real, monthName: string, dailyPoints: seq<real>, lastUpdated: Date)

  /** The app group both the app and the widget open. */
  const SuiteName: string := "group.com.adeshhemwani.Expenses"

  /** The key the snapshot is stored under. */
  const WidgetDataKey: string := "widgetData"

  /** The amount of the expenses dated on a day in 1..n, the ones the buckets can hold. */
  function WithinDaysTotal(es: seq<Expense>, n: int): real
  {
    if es == [] then 0.0
    else
      var d := es[|es| - 1].date.day;
      WithinDaysTotal(es[..|es| - 1], n) + (if 1 <= d <= n then es[|es| - 1].amount else 0.0)
  }

  /** Per-day buckets, bucket `i` for day `i + 1`. */
  function Buckets(es: seq<Expense>, days: nat): (b: seq<real>)
    ensures |b| == days
    ensures forall i :: 0 <= i < days ==> b[i] == DayTotal(es, i + 1)
  {
    seq(days, i => DayTotal(es, i + 1))
  }

  /** The sum of a run of points. */
  function SumOf(p: seq<real>): real
  {
    if p == [] then 0.0 else SumOf(p[..|p| - 1]) + p[|p| - 1]
  }

  /** The running totals of a run of points. */
  function RunningSums(p: seq<real>): (r: seq<real>)
    ensures |r| == |p|
  {
    if p == [] then [] else RunningSums(p[..|p| - 1]) + [SumOf(p)]
  }

  function Min(a: int, b: int): int
  {
    if a < b then a else b
  }

  /** ASCII upper-casing (`uppercased()`); other characters are kept. */
  function Uppercased(s: string): (r: string)
    ensures |r| == |s|
  {
    if s == [] then []
    else
      var c := s[0];
      [if 'a' <= c <= 'z' then (c as int - 32) as char else c] + Uppercased(s[1..])
  }

  /** The snapshot a save at `now` builds from `expenses`. */
  function SnapshotOf(expenses: seq<Expense>, now: Date, days: nat, formattedMonth: string): WidgetData
    requires now.day >= 0
  {
    var points := Buckets(CurrentMonth(expenses, now), days);
    WidgetData(MonthTotal(expenses, now), Uppercased(formattedMonth),
               RunningSums(points[..Min(now.day, days)]), now)
  }

  /** Entry `i` of the running totals is the sum of the first `i + 1` points. */
  lemma {:induction false} RunningSumsEntries(p: seq<real>)
    ensures forall i :: 0 <= i < |p| ==> RunningSums(p)[i] == SumOf(p[..i + 1])
  {
    if p != [] {
      var n := |p| - 1;
      RunningSumsEntries(p[..n]);
      assert p[..n + 1] == p;
      forall i | 0 <= i < n
        ensures RunningSums(p)[i] == SumOf(p[..i + 1])
      {
        assert p[..n][..i + 1] == p[..i + 1];
      }
    }
  }

  /** With no negative point, the running totals never go down. */
  lemma {:induction false} RunningSumsMonotone(p: seq<real>)
    requires forall i :: 0 <= i < |p| ==> p[i] >= 0.0
    ensures forall i, j :: 0 <= i <= j < |p| ==> RunningSums(p)[i] <= RunningSums(p)[j]
  {
    if p != [] {
      var n := |p| - 1;
      RunningSumsMonotone(p[..n]);
      RunningSumsEntries(p);
      RunningSumsEntries(p[..n]);
      assert p[..n + 1] == p;
      assert forall i :: 0 <= i < n ==> RunningSums(p)[i] == RunningSums(p[..n])[i];
      assert RunningSums(p)[n] == SumOf(p);
      if n > 0 {
        assert p[..n][..n] == p[..n];
        assert RunningSums(p[..n])[n - 1] == SumOf(p[..n]);
      }
    }
  }

  lemma {:induction false} WithinDaysStep(es: seq<Expense>, n: nat)
    ensures WithinDaysTotal(es, n + 1) == WithinDaysTotal(es, n) + DayTotal(es, n + 1)
  {
    if es != [] {
      WithinDaysStep(es[..|es| - 1], n);
    }
  }

  /** The buckets hold exactly the amounts of the expenses whose day is in range. */
  lemma {:induction false} BucketsSum(es: seq<Expense>, n: nat)
    ensures SumOf(Buckets(es, n)) == WithinDaysTotal(es, n)
  {
    if n == 0 {
      WithinDaysNone(es);
    } else {
      BucketsSum(es, n - 1);
      assert Buckets(es, n)[..n - 1] == Buckets(es, n - 1);
      WithinDaysStep(es, n - 1);
    }
  }

  lemma {:induction false} WithinDaysNone(es: seq<Expense>)
    ensures WithinDaysTotal(es, 0) == 0.0
  {
    if es != [] {
      WithinDaysNone(es[..|es| - 1]);
    }
  }

  /** When every day is in 1..n, the buckets hold the whole total. */
  lemma {:induction false} WithinDaysAll(es: seq<Expense>, n: int)
    requires forall e :: e in es ==> 1 <= e.date.day <= n
    ensures WithinDaysTotal(es, n) == Total(es)
  {
    if es != [] {
      var k := |es| - 1;
      assert forall e :: e in es[..k] ==> e in es;
      WithinDaysAll(es[..k], n);
      assert es[k] in es;
      assert es[..k] + [es[k]] == es;
      TotalConcat(es[..k], [es[k]]);
      assert Total([es[k]]) == es[k].amount by {
        assert [es[k]][..0] == [];
      }
    }
  }

  /**
   * The snapshot's curve has one point per day up to today (never past
   * the month's end), point `i` is what was spent on days 1..i+1, and the
   * total is the current month's.
   */
  lemma SnapshotCurve(expenses: seq<Expense>, now: Date, days: nat, formattedMonth: string)
    requires now.day >= 0
    ensures var w := SnapshotOf(expenses, now, days, formattedMonth);
      && |w.dailyPoints| == Min(now.day, days)
      && (forall i :: 0 <= i < |w.dailyPoints| ==>
            w.dailyPoints[i] == WithinDaysTotal(CurrentMonth(expenses, now), i + 1))
      && w.totalAmount == MonthTotal(expenses, now)
      && w.lastUpdated == now
  {
    var cm := CurrentMonth(expenses, now);
    var points := Buckets(cm, days)[..Min(now.day, days)];
    RunningSumsEntries(points);
    forall i | 0 <= i < |points|
      ensures RunningSums(points)[i] == WithinDaysTotal(cm, i + 1)
    {
      assert points[..i + 1] == Buckets(cm, i + 1);
      BucketsSum(cm, i + 1);
    }
  }

  /** With no negative amount the curve never goes down. */
  lemma SnapshotCurveMonotone(expenses: seq<Expense>, now: Date, days: nat, formattedMonth: string)
    requires now.day >= 0
    requires forall e :: e in expenses ==> e.amount >= 0.0
    ensures var p := SnapshotOf(expenses, now, days, formattedMonth).dailyPoints;
      forall i, j :: 0 <= i <= j < |p| ==> p[i] <= p[j]
  {
    var cm := CurrentMonth(expenses, now);
    var b := Buckets(cm, days);
    forall i | 0 <= i < days
      ensures b[i] >= 0.0
    {
      DayTotalNonNegative(cm, i + 1);
    }
    RunningSumsMonotone(b[..Min(now.day, days)]);
  }

  /**
   * When it is at least day one of the month and no current-month expense
   * is dated after today, the curve ends at the month's total.
   */
  lemma SnapshotCurveEndsAtTotal(expenses: seq<Expense>, now: Date, days: nat, formattedMonth: string)
    requires 1 <= now.day <= days
    requires forall e :: e in expenses && SameMonth(e.date, now) ==> 1 <= e.date.day <= now.day
    ensures var w := SnapshotOf(expenses, now, days, formattedMonth);
      |w.dailyPoints| == now.day && w.dailyPoints[now.day - 1] == w.totalAmount
  {
    SnapshotCurve(expenses, now, days, formattedMonth);
    WithinDaysAll(CurrentMonth(expenses, now), now.day);
  }

  /** Upper-casing leaves no lower-case ASCII letter and is idempotent. */
  lemma {:induction false} UppercasedFacts(s: string)
    ensures forall i :: 0 <= i < |s| ==> !('a' <= Uppercased(s)[i] <= 'z')
    ensures Uppercased(Uppercased(s)) == Uppercased(s)
    ensures forall i :: 0 <= i < |s| && !('a' <= s[i] <= 'z') ==> Uppercased(s)[i] == s[i]
  {
    if s != [] {
      UppercasedFacts(s[1..]);
      assert Uppercased(Uppercased(s))[1..] == Uppercased(Uppercased(s)[1..]);
      assert Uppercased(s)[1..] == Uppercased(s[1..]);
    }
  }

  /** Lunch of 450 on 5 March with "now" later that day: one point per day, flat until the fifth. */
  lemma SnapshotExample()
    ensures var now := Date(2024, 3, 5, 43200);
      var w := SnapshotOf([Expense(None, "Lunch", 450.0, Date(2024, 3, 5, 3600), "Food")], now, 31, "March");
      w.dailyPoints == [0.0, 0.0, 0.0, 0.0, 450.0] && w.totalAmount == 450.0 && w.monthName == "MARCH"
  {
    var now := Date(2024, 3, 5, 43200);
    var e := Expense(None, "Lunch", 450.0, Date(2024, 3, 5, 3600), "Food");
    var cm := CurrentMonth([e], now);
    assert cm == [e];
    assert [e][..0] == [];
    assert Total([e]) == 450.0 by {
      assert Total([e]) == Total([]) + Amount(e);
    }
    SnapshotCurve([e], now, 31, "March");
    var p := SnapshotOf([e], now, 31, "March").dailyPoints;
    forall n: int
      ensures WithinDaysTotal([e], n) == if 5 <= n then 450.0 else 0.0
    {
      assert WithinDaysTotal([e], n) == WithinDaysTotal([], n) + (if 1 <= 5 <= n then 450.0 else 0.0);
    }
    assert |p| == 5;
    assert p[0] == 0.0 && p[1] == 0.0 && p[2] == 0.0 && p[3] == 0.0 && p[4] == 450.0;
    assert p == [0.0, 0.0, 0.0, 0.0, 450.0];
    assert "March"[1..] == "arch" && "arch"[1..] == "rch" && "rch"[1..] == "ch" && "ch"[1..] == "h" && "h"[1..] == "";
  }

  /** Builds the snapshot the way `save(expenses:)` does: fill the day buckets, then accumulate. */
  method BuildSnapshot(expenses: seq<Expense>, now: Date, days: nat, formattedMonth: string) returns (data: WidgetData)
    requires now.day >= 0
    ensures data == SnapshotOf(expenses, now, days, formattedMonth)
  {
    var current := CurrentMonth(expenses, now);
    var total := Total(current);

    var dailyPoints := new real[days](_ => 0.0);
    var k := 0;
    while k < |current|
      invariant 0 <= k <= |current|
      invariant forall j :: 0 <= j < days ==> dailyPoints[j] == DayTotal(current[..k], j + 1)
    {
      assert current[..k + 1][..k] == current[..k];
      var day := current[k].date.day;
      if 1 <= day <= days {
        dailyPoints[day - 1] := dailyPoints[day - 1] + current[k].amount;
      }
      k := k + 1;
    }
    assert current[..k] == current;
    assert dailyPoints[..] == Buckets(current, days);

    var cumulativePoints: seq<real> := [];
    var runningTotal := 0.0;
    var m := Min(now.day, days);
    var i := 0;
    while i < m
      invariant 0 <= i <= m
      invariant runningTotal == SumOf(dailyPoints[..i])
      invariant cumulativePoints == RunningSums(dailyPoints[..i])
    {
      assert dailyPoints[..i + 1][..i] == dailyPoints[..i];
      runningTotal := runningTotal + dailyPoints[i];
      cumulativePoints := cumulativePoints + [runningTotal];
      i := i + 1;
    }
    assert dailyPoints[..m] == Buckets(current, days)[..m];

    data := WidgetData(total, Uppercased(formattedMonth), cumulativePoints, now);
  }

  /**
   * The app group's shared defaults as the widget sees them, and the
   * timeline reloads requested of the widget centre.
   */
  class WidgetDataManager {
    /** Whether the app group's defaults can be opened (`UserDefaults(suiteName:)` is not nil). */
    const suiteAvailable: bool
    /** The app group's defaults. */
    var defaults: map<string, WidgetData>
    /** Number of `reloadAllTimelines()` calls. */
    var reloads: nat

    constructor (suiteAvailable: bool, defaults: map<string, WidgetData>)
      ensures this.suiteAvailable == suiteAvailable && this.defaults == defaults && reloads == 0
    {
      this.suiteAvailable := suiteAvailable;
      this.defaults := defaults;
      reloads := 0;
    }

    /**
     * `save(expenses:)`: builds the snapshot and, when it encodes, stores
     * it under "widgetData" (if the app group opens) and asks for a reload.
     */
    method Save(expenses: seq<Expense>, now: Date, days: nat, formattedMonth: string, encodes: bool)
      requires now.day >= 0
      modifies this
      ensures defaults == if encodes && suiteAvailable
        then old(defaults)[WidgetDataKey := SnapshotOf(expenses, now, days, formattedMonth)]
        else old(defaults)
      ensures reloads == old(reloads) + (if encodes then 1 else 0)
    {
      var data := BuildSnapshot(expenses, now, days, formattedMonth);
      if encodes {
        if suiteAvailable {
          defaults := defaults[WidgetDataKey := data];
        }
        reloads := reloads + 1;
      }
    }
  }
}
