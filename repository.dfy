/**
 * The per-user expense repository (Expenses/Repositories/ExpenseRepository.swift):
 * the live list of the latest expenses with its current-month total, the
 * per-month stats ledger, and the remote add and delete requests it issues.
 *
 * The two store listeners are modelled by the methods their callbacks
 * run: `OnExpensesEvent` and `OnStatsEvent` take what the listener
 * delivers. Remote writes are recorded as requests, in the order issued.
 */
module Repository {
  import opened Wrappers
  import opened ExpenseModel
  import opened Ledger
  import opened Seqs
  import opened Sorting
  import opened Text
  import opened NumberParsing

  /** One month's stored total (`MonthlyStats`); the id is the "yyyy-MM" document id. */
  datatype MonthlyStats = MonthlyStats(id: Option<string>, total: real)

  /** A document of a listener snapshot: its id and its data. */
  datatype Document = Document(documentID: string, data: map<string, FieldValue>)

  /** What a snapshot listener hands its callback: an error, or a snapshot, which may be missing. */
  datatype ListenerEvent = ListenerError(message: string) | Delivered(snapshot: Option<seq<Document>>)

  /** The documents of a delivered event; a missing snapshot counts as none (`?? []`). */
  function Documents(event: ListenerEvent): seq<Document>
    requires event.Delivered?
  {
    event.snapshot.GetOr([])
  }

  /** The expenses that decode, in feed order (`compactMap { try? document.data(as:) }`). */
  function DecodeAll(docs: seq<Document>): (r: seq<Expense>)
    ensures |r| <= |docs|
  {
    if docs == [] then []
    else
      var last := docs[|docs| - 1];
      match Decode(last.documentID, last.data)
      case None => DecodeAll(docs[..|docs| - 1])
      case Some(e) => DecodeAll(docs[..|docs| - 1]) + [e]
  }

  lemma {:induction false} DecodeAllConcat(a: seq<Document>, b: seq<Document>)
    ensures DecodeAll(a + b) == DecodeAll(a) + DecodeAll(b)
  {
    if b == [] {
      assert a + b == a;
    } else {
      assert (a + b)[..|a + b| - 1] == a + b[..|b| - 1];
      DecodeAllConcat(a, b[..|b| - 1]);
    }
  }

  /** An expense is in the decoded list exactly when some document decodes to it. */
  lemma {:induction false} DecodeAllMembers(docs: seq<Document>, e: Expense)
    ensures e in DecodeAll(docs) <==>
      exists i :: 0 <= i < |docs| && Decode(docs[i].documentID, docs[i].data) == Some(e)
  {
    if docs != [] {
      var init := docs[..|docs| - 1];
      DecodeAllMembers(init, e);
      if e in DecodeAll(docs) && e !in DecodeAll(init) {
        var n := |docs| - 1;
        assert Decode(docs[n].documentID, docs[n].data) == Some(e);
      }
      if exists i :: 0 <= i < |docs| && Decode(docs[i].documentID, docs[i].data) == Some(e) {
        var i :| 0 <= i < |docs| && Decode(docs[i].documentID, docs[i].data) == Some(e);
        if i < |docs| - 1 {
          assert docs[i] == init[i];
        }
      }
    }
  }

  /** The documents the store holds for expenses written with their ids. */
  function StoredDocuments(es: seq<Expense>, ids: seq<string>): (docs: seq<Document>)
    requires |ids| == |es|
    ensures |docs| == |es|
    ensures forall i :: 0 <= i < |es| ==> docs[i] == Document(ids[i], Encode(es[i]))
  {
    if es == [] then []
    else StoredDocuments(es[..|es| - 1], ids[..|ids| - 1]) + [Document(ids[|ids| - 1], Encode(es[|es| - 1]))]
  }

  /** The expenses with the ids the store gave them. */
  function WithIds(es: seq<Expense>, ids: seq<string>): (r: seq<Expense>)
    requires |ids| == |es|
    ensures |r| == |es|
    ensures forall i :: 0 <= i < |es| ==> r[i] == es[i].(id := Some(ids[i]))
  {
    if es == [] then []
    else WithIds(es[..|es| - 1], ids[..|ids| - 1]) + [es[|es| - 1].(id := Some(ids[|ids| - 1]))]
  }

  /** A push of stored expenses decodes to exactly those expenses, in feed order, with the document ids. */
  lemma DecodeStored(es: seq<Expense>, ids: seq<string>)
    requires |ids| == |es|
    ensures |DecodeAll(StoredDocuments(es, ids))| == |es|
    ensures forall i :: 0 <= i < |es| ==> DecodeAll(StoredDocuments(es, ids))[i] == es[i].(id := Some(ids[i]))
  {
    DecodeStoredWithIds(es, ids);
  }

  lemma {:induction false} DecodeStoredWithIds(es: seq<Expense>, ids: seq<string>)
    requires |ids| == |es|
    ensures DecodeAll(StoredDocuments(es, ids)) == WithIds(es, ids)
  {
    if es != [] {
      var n := |es| - 1;
      DecodeStoredWithIds(es[..n], ids[..n]);
      DecodeStoredLast(es, ids);
    }
  }

  lemma DecodeStoredLast(es: seq<Expense>, ids: seq<string>)
    requires |ids| == |es| > 0
    ensures var n := |es| - 1;
      DecodeAll(StoredDocuments(es, ids)) == DecodeAll(StoredDocuments(es[..n], ids[..n])) + [es[n].(id := Some(ids[n]))]
  {
    var n := |es| - 1;
    var d := Document(ids[n], Encode(es[n]));
    assert StoredDocuments(es, ids) == StoredDocuments(es[..n], ids[..n]) + [d];
    DecodeEncode(es[n], ids[n]);
    DecodeAllSnoc(StoredDocuments(es[..n], ids[..n]), d, es[n].(id := Some(ids[n])));
  }

  lemma DecodeAllSnoc(prev: seq<Document>, d: Document, e: Expense)
    requires Decode(d.documentID, d.data) == Some(e)
    ensures DecodeAll(prev + [d]) == DecodeAll(prev) + [e]
  {
    assert (prev + [d])[..|prev|] == prev;
  }

  /** The part of the repository a push of the expenses listener sets. */
  datatype LiveState = LiveState(expenses: seq<Expense>, currentMonthTotal: real)

  /**
   * The state after one expenses-listener event: an error leaves
   * everything as it was; a snapshot replaces the list and recomputes
   * the current-month total.
   */
  function ApplyExpensesEvent(s: LiveState, event: ListenerEvent, now: Date): LiveState
  {
    match event
    case ListenerError(_) => s
    case Delivered(_) =>
      var es := DecodeAll(Documents(event));
      LiveState(es, MonthTotal(es, now))
  }

  /** A push replaces the list outright: the state before it plays no part. */
  lemma PushReplaces(s: LiveState, t: LiveState, event: ListenerEvent, now: Date)
    requires event.Delivered?
    ensures ApplyExpensesEvent(s, event, now) == ApplyExpensesEvent(t, event, now)
    ensures ApplyExpensesEvent(s, event, now).expenses == DecodeAll(Documents(event))
  {
  }

  /** Delivering the same push twice leaves the same state as delivering it once. */
  lemma PushIdempotent(s: LiveState, event: ListenerEvent, now: Date)
    ensures ApplyExpensesEvent(ApplyExpensesEvent(s, event, now), event, now) == ApplyExpensesEvent(s, event, now)
  {
  }

  /** A listener error leaves the list, its total and the stats ledger as they were. */
  lemma ListenerErrorKeepsState(s: LiveState, stats: seq<MonthlyStats>, message: string, now: Date)
    ensures ApplyExpensesEvent(s, ListenerError(message), now) == s
    ensures ApplyStatsEvent(stats, ListenerError(message)) == stats
  {
  }

  /** After any event the stored total is the current month's total of the stored list, if it was before. */
  lemma TotalStaysCurrent(s: LiveState, event: ListenerEvent, now: Date)
    requires s.currentMonthTotal == MonthTotal(s.expenses, now)
    ensures ApplyExpensesEvent(s, event, now).currentMonthTotal == MonthTotal(ApplyExpensesEvent(s, event, now).expenses, now)
  {
  }

  /**
   * The stats total as read from a document's "total" field: a double is
   * kept, an integer converted, numeric text parsed, and anything else,
   * a missing field included, read as 0.
   */
  function CoerceTotal(value: Option<FieldValue>): real
  {
    match value
    case Some(DoubleValue(t)) => t
    case Some(IntValue(i)) => i as real
    case Some(StringValue(text)) => ParseDouble(text).GetOr(0.0)
    case _ => 0.0
  }

  lemma CoerceTotalCases(t: real, i: int, text: string)
    ensures CoerceTotal(Some(DoubleValue(t))) == t
    ensures CoerceTotal(Some(IntValue(i))) == i as real
    ensures ParseDouble(text).Some? ==> CoerceTotal(Some(StringValue(text))) == ParseDouble(text).value
    ensures ParseDouble(text).None? ==> CoerceTotal(Some(StringValue(text))) == 0.0
    ensures CoerceTotal(None) == 0.0 && CoerceTotal(Some(OtherValue)) == 0.0
  {
  }

  function StatOf(doc: Document): MonthlyStats
  {
    MonthlyStats(Some(doc.documentID), CoerceTotal(if "total" in doc.data then Some(doc.data["total"]) else None))
  }

  /** One stats entry per document, in feed order. */
  function StatsOf(docs: seq<Document>): (r: seq<MonthlyStats>)
    ensures |r| == |docs|
    ensures forall i :: 0 <= i < |docs| ==> r[i] == StatOf(docs[i])
  {
    if docs == [] then [] else StatsOf(docs[..|docs| - 1]) + [StatOf(docs[|docs| - 1])]
  }

  /** The sort key of a stats entry: its id, a missing one read as "". */
  function StatKey(s: MonthlyStats): string
  {
    s.id.GetOr("")
  }

  /** Descending by id: `($0.id ?? "") > ($1.id ?? "")` with ties allowed. */
  function StatIdDesc(a: MonthlyStats, b: MonthlyStats): bool
  {
    LexLe(StatKey(b), StatKey(a))
  }

  lemma StatIdDescIsTotalPreorder()
    ensures TotalPreorder(StatIdDesc)
  {
    forall a: MonthlyStats, b: MonthlyStats
      ensures StatIdDesc(a, b) || StatIdDesc(b, a)
    {
      LexLeTotal(StatKey(a), StatKey(b));
    }
    forall a: MonthlyStats, b: MonthlyStats, c: MonthlyStats | StatIdDesc(a, b) && StatIdDesc(b, c)
      ensures StatIdDesc(a, c)
    {
      LexLeTransitive(StatKey(c), StatKey(b), StatKey(a));
    }
  }

  /** The stats ledger after a push: one entry per document, sorted by id descending. */
  function SortedStats(docs: seq<Document>): seq<MonthlyStats>
  {
    SortBy(StatsOf(docs), StatIdDesc)
  }

  /** A stats push keeps every document as exactly one entry and orders the entries by id, descending. */
  lemma SortedStatsFacts(docs: seq<Document>)
    ensures |SortedStats(docs)| == |docs|
    ensures multiset(SortedStats(docs)) == multiset(StatsOf(docs))
    ensures forall i, j :: 0 <= i < j < |docs| ==> LexLe(StatKey(SortedStats(docs)[j]), StatKey(SortedStats(docs)[i]))
  {
    StatIdDescIsTotalPreorder();
    SortByFacts(StatsOf(docs), StatIdDesc);
  }

  /** The stats ledger after an event: an error leaves it as it was. */
  function ApplyStatsEvent(stats: seq<MonthlyStats>, event: ListenerEvent): seq<MonthlyStats>
  {
    match event
    case ListenerError(_) => stats
    case Delivered(_) => SortedStats(Documents(event))
  }

  /** The ids a run of deletes sends to the store: only expenses with an id are sent. */
  function DeleteIds(es: seq<Expense>): (ids: seq<string>)
    ensures |ids| <= |es|
  {
    if es == [] then []
    else
      var last := es[|es| - 1];
      DeleteIds(es[..|es| - 1]) + (if last.id.Some? then [last.id.value] else [])
  }

  /** One more expense to delete: its request, if any, comes after the earlier ones. */
  lemma DeleteIdsStep(sent: seq<string>, targets: seq<Expense>, i: nat)
    requires i < |targets|
    ensures sent + DeleteIds(targets[..i + 1]) == sent + DeleteIds(targets[..i]) + DeleteIds([targets[i]])
  {
    assert targets[..i + 1][..i] == targets[..i];
    assert [targets[i]][..0] == [];
  }

  /** When every expense has an id, each one sends exactly one delete, for its own id, in order. */
  lemma {:induction false} DeleteIdsOfIdentified(es: seq<Expense>)
    requires forall e :: e in es ==> e.id.Some?
    ensures |DeleteIds(es)| == |es|
    ensures forall i :: 0 <= i < |es| ==> DeleteIds(es)[i] == es[i].id.value
  {
    if es != [] {
      var n := |es| - 1;
      assert forall e :: e in es[..n] ==> e in es;
      DeleteIdsOfIdentified(es[..n]);
      assert es[n] in es;
    }
  }

  class ExpenseRepository {
    const userId: string
    var expenses: seq<Expense>
    var currentMonthTotalAmount: real
    var allStats: seq<MonthlyStats>
    /** Expenses sent to the store with `addDocument`, oldest first. */
    var addRequests: seq<Expense>
    /** Document ids sent a `delete`, oldest first. */
    var deleteRequests: seq<string>

    /** A repository for `userId` before either listener has delivered anything. */
    constructor (userId: string)
      ensures this.userId == userId
      ensures expenses == [] && currentMonthTotalAmount == 0.0 && allStats == []
      ensures addRequests == [] && deleteRequests == []
    {
      this.userId := userId;
      expenses := [];
      currentMonthTotalAmount := 0.0;
      allStats := [];
      addRequests := [];
      deleteRequests := [];
    }

    function Live(): LiveState
      reads this
    {
      LiveState(expenses, currentMonthTotalAmount)
    }

    /** The expenses listener's callback (`fetchExpenses`), with "now" as a parameter. */
    method OnExpensesEvent(event: ListenerEvent, now: Date)
      modifies this
      ensures Live() == ApplyExpensesEvent(old(Live()), event, now)
      ensures allStats == old(allStats)
      ensures addRequests == old(addRequests) && deleteRequests == old(deleteRequests)
    {
      if event.ListenerError? {
        return;
      }
      expenses := DecodeAll(event.snapshot.GetOr([]));
      CalculateCurrentMonthTotal(now);
    }

    /** Recomputes the total of the expenses dated in the month and year of `now`. */
    method CalculateCurrentMonthTotal(now: Date)
      modifies this`currentMonthTotalAmount
      ensures currentMonthTotalAmount == MonthTotal(expenses, now)
    {
      currentMonthTotalAmount := Total(Filter(expenses, InMonthOf(now)));
    }

    /** The stats listener's callback (`fetchAllStats`): coerce every total, then sort by id. */
    method OnStatsEvent(event: ListenerEvent)
      modifies this`allStats
      ensures allStats == ApplyStatsEvent(old(allStats), event)
    {
      if event.ListenerError? {
        return;
      }
      allStats := StatsOf(event.snapshot.GetOr([]));
      allStats := SortBy(allStats, StatIdDesc);
    }

    /** Sends `expense` to the store; a failure is only logged, and the local list is not touched. */
    method AddExpense(expense: Expense)
      modifies this`addRequests
      ensures addRequests == old(addRequests) + [expense]
    {
      addRequests := addRequests + [expense];
    }

    /** Deletes the expense's document; an expense without an id sends nothing. */
    method Delete(expense: Expense)
      modifies this`deleteRequests
      ensures deleteRequests == old(deleteRequests) + DeleteIds([expense])
    {
      if expense.id.None? {
        return;
      }
      deleteRequests := deleteRequests + [expense.id.value];
    }

    /** Deletes the listed rows of `expenses` (`deleteExpense(at:)`), one `Delete` per offset. */
    method DeleteExpense(offsets: seq<nat>)
      requires IsIndexSet(offsets) && InRange(offsets, expenses)
      modifies this`deleteRequests
      ensures deleteRequests == old(deleteRequests) + DeleteIds(Pick(expenses, offsets))
    {
      var targets := Pick(expenses, offsets);
      var i := 0;
      while i < |targets|
        invariant 0 <= i <= |targets|
        invariant deleteRequests == old(deleteRequests) + DeleteIds(targets[..i])
      {
        DeleteIdsStep(old(deleteRequests), targets, i);
        Delete(targets[i]);
        i := i + 1;
      }
      assert targets[..i] == targets;
    }
  }
}
