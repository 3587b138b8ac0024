/**
 * The main expense list (Expenses/Views/ExpenseListView.swift): the
 * month-over-month badge and the deletion of rows from a day group. Its
 * day groups are `Grouping.GroupByDay` of the repository's list and its
 * total split is `Formatting.FormattedTotal`.
 *
 * The percentage itself is not computed by any repository member, so
 * the badge takes it as a parameter.
 */
module ExpenseList {
  import opened Wrappers
  import opened Seqs
  import opened ExpenseModel
  import opened Grouping
  import opened Repository

  datatype Arrow = UpRight | DownRight
  datatype Tint = RedTint | GreenTint

  /** The badge under the total: its arrow, its whole-percent label and its tint. */
  datatype Badge = Badge(arrow: Arrow, percent: nat, tint: Tint)

  /** `Int(x)`: the integer part, cut toward zero. */
  function TruncateTowardZero(x: real): (n: int)
    ensures x >= 0.0 ==> n == x.Floor
    ensures x < 0.0 ==> n == -((-x).Floor)
  {
    if x >= 0.0 then x.Floor else -((-x).Floor)
  }

  function Abs(n: int): nat
  {
    if n < 0 then -n else n
  }

  /** The badge for a month-over-month change, or none when there is no percentage. */
  function BadgeFor(percentage: Option<real>): (b: Option<Badge>)
  {
    match percentage
    case None => None
    case Some(p) =>
      Some(Badge(if p > 0.0 then UpRight else DownRight, Abs(TruncateTowardZero(p)), if p > 0.0 then RedTint else GreenTint))
  }

  /**
   * A badge shows exactly when there is a percentage; an increase shows
   * an up arrow in red, anything else (no change included) a down arrow
   * in green, and the label is the whole part of the change's size.
   */
  lemma BadgeRule(percentage: Option<real>)
    ensures BadgeFor(percentage).Some? <==> percentage.Some?
    ensures percentage.Some? ==>
      var b := BadgeFor(percentage).value;
      var p := percentage.value;
      && (b.arrow == UpRight <==> p > 0.0)
      && (b.tint == RedTint <==> b.arrow == UpRight)
      && b.percent == (if p >= 0.0 then p else -p).Floor
      && b.percent as real <= (if p >= 0.0 then p else -p) < b.percent as real + 1.0
  {
  }

  /** `deleteExpenses(at:in:)`: one repository delete per offset, for the group's row at that offset. */
  method DeleteExpenses(offsets: seq<nat>, group: TransactionGroup, repository: ExpenseRepository)
    requires IsIndexSet(offsets) && InRange(offsets, group.expenses)
    modifies repository`deleteRequests
    ensures repository.deleteRequests == old(repository.deleteRequests) + DeleteIds(Pick(group.expenses, offsets))
  {
    var targets := Pick(group.expenses, offsets);
    var i := 0;
    while i < |offsets|
      invariant 0 <= i <= |offsets|
      invariant repository.deleteRequests == old(repository.deleteRequests) + DeleteIds(targets[..i])
    {
      var expenseToDelete := group.expenses[offsets[i]];
      DeleteIdsStep(old(repository.deleteRequests), targets, i);
      repository.Delete(expenseToDelete);
      i := i + 1;
    }
    assert targets[..i] == targets;
  }

  /** Rows that came from the store all have an id, so each offset sends exactly one delete, for that row's id. */
  lemma DeletesOnePerOffset(offsets: seq<nat>, group: TransactionGroup)
    requires InRange(offsets, group.expenses)
    requires forall e :: e in group.expenses ==> e.id.Some?
    ensures |DeleteIds(Pick(group.expenses, offsets))| == |offsets|
    ensures forall i :: 0 <= i < |offsets| ==>
      DeleteIds(Pick(group.expenses, offsets))[i] == group.expenses[offsets[i]].id.value
  {
    var targets := Pick(group.expenses, offsets);
    forall e | e in targets
      ensures e.id.Some?
    {
      var k :| 0 <= k < |targets| && targets[k] == e;
      assert group.expenses[offsets[k]] in group.expenses;
    }
    DeleteIdsOfIdentified(targets);
  }
}
