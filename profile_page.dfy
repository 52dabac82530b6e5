/** The statistics of the profile page (src/pages/ProfilePage.tsx), computed over the
    whole task list. */
module ProfilePage {
  import opened Types
  import opened TaskStats

  datatype ProfileStats = ProfileStats(totalTasks: nat, completedTasks: nat, pendingTasks: nat, totalExpenses: int)

  /** Completed counts completed, approved and paid; pending counts pending and in progress. */
  function Stats(ts: seq<Task>): (r: ProfileStats)
    ensures r.totalTasks == |ts|
    ensures r.completedTasks == Count(ts, DoneStatuses) && r.pendingTasks == Count(ts, OpenStatuses)
    ensures r.completedTasks + r.pendingTasks == r.totalTasks
    ensures r.completedTasks == 0 <==> forall i :: 0 <= i < |ts| ==> ts[i].status !in DoneStatuses
    ensures r.pendingTasks == 0 <==> forall i :: 0 <= i < |ts| ==> ts[i].status !in OpenStatuses
    ensures r.totalExpenses == Total(CategoryBreakdown(ts))
  {
    PartitionCounts(ts, DoneStatuses, OpenStatuses);
    CountZero(ts, DoneStatuses);
    CountZero(ts, OpenStatuses);
    ProfileStats(|ts|, Count(ts, DoneStatuses), Count(ts, OpenStatuses), SumTotals(ts))
  }

  /** The four per-category sums of the financial summary. */
  function CategoryBreakdown(ts: seq<Task>): (r: Expenses)
    ensures forall c :: Amount(r, c) == SumCategory(ts, c)
    ensures Total(r) == SumTotals(ts)
  {
    SumByCategory(ts);
    Expenses(SumCategory(ts, Food), SumCategory(ts, Accommodation), SumCategory(ts, Water), SumCategory(ts, Other))
  }

  /** `Math.round(completed / total * 100)`, or 0 with no tasks, in exact arithmetic:
      the integer nearest to completed·100/total, halves rounded up. */
  function CompletionPercent(ts: seq<Task>): (r: nat)
    ensures |ts| == 0 ==> r == 0
    ensures |ts| > 0 ==> 2 * |ts| * r <= 200 * Stats(ts).completedTasks + |ts| < 2 * |ts| * (r + 1)
    ensures r <= 100
    ensures Stats(ts).completedTasks == 0 ==> r == 0
    ensures |ts| > 0 && Stats(ts).completedTasks == |ts| ==> r == 100
  {
    if |ts| == 0 then 0
    else
      RoundedShare(Stats(ts).completedTasks, |ts|);
      RoundHalfUp(Stats(ts).completedTasks, |ts|)
  }

  function RoundHalfUp(done: nat, total: nat): nat
    requires total > 0
  {
    (200 * done + total) / (2 * total)
  }

  lemma {:induction false} MulMonotone(a: nat, b: nat, c: nat)
    requires b <= c
    ensures a * b <= a * c
  {
    if a > 0 {
      MulMonotone(a - 1, b, c);
      assert a * b == (a - 1) * b + b;
      assert a * c == (a - 1) * c + c;
    }
  }

  lemma DivBounds(x: nat, m: nat)
    requires m > 0
    ensures m * (x / m) <= x < m * (x / m) + m
  {
  }

  lemma RoundedShare(done: nat, total: nat)
    requires 0 < total && done <= total
    ensures 2 * total * RoundHalfUp(done, total) <= 200 * done + total < 2 * total * (RoundHalfUp(done, total) + 1)
    ensures RoundHalfUp(done, total) <= 100
    ensures done == 0 ==> RoundHalfUp(done, total) == 0
    ensures done == total ==> RoundHalfUp(done, total) == 100
  {
    var x := 200 * done + total;
    var m := 2 * total;
    var r := RoundHalfUp(done, total);
    assert r == x / m;
    DivBounds(x, m);
    assert m * (r + 1) == m * r + m;
    assert x <= m * 100 + total;
    if r >= 101 {
      MulMonotone(m, 101, r);
      assert false;
    }
    if done == 0 && r >= 1 {
      MulMonotone(m, 1, r);
      assert false;
    }
    if done == total && r <= 99 {
      MulMonotone(m, r + 1, 100);
      assert false;
    }
  }

  /** "Payments pending approval" (shown to admins only): the expense totals of the approved
      tasks; together with the other tasks' totals it makes the grand total. */
  function PaymentsPendingApproval(ts: seq<Task>): (r: int)
    ensures r + SumTotals(WithStatusIn(ts, AllStatuses - {Approved})) == SumTotals(ts)
  {
    SumSplit(ts, {Approved}, AllStatuses - {Approved});
    assert {Approved} + (AllStatuses - {Approved}) == AllStatuses;
    FilterAll(ts);
    SumTotals(WithStatusIn(ts, {Approved}))
  }

  /** With no negative expense field, the pending payments lie between 0 and the grand total. */
  lemma PaymentsPendingBounded(ts: seq<Task>)
    requires NonNegative(ts)
    ensures 0 <= PaymentsPendingApproval(ts) <= SumTotals(ts)
  {
    SumFilterBounded(ts, {Approved});
  }

  /** The admin-only payments panel. */
  function PaymentsPanel(user: Option<User>, ts: seq<Task>): (r: Option<int>)
    ensures r.Some? <==> IsAdmin(user)
    ensures r.Some? ==> r.value == PaymentsPendingApproval(ts)
  {
    if IsAdmin(user) then Some(PaymentsPendingApproval(ts)) else None
  }
}
