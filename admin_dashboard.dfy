/** The statistics and the "needing attention" list of the admin dashboard
    (src/pages/AdminDashboard.tsx). */
module AdminDashboard {
  import opened Types
  import opened TaskStats

  datatype AdminStats = AdminStats(totalTasks: nat, completedTasks: nat, pendingPayments: nat, totalExpenses: int)

  /** Statuses of the tasks an admin has to act on: approve or pay. */
  const NeedsAction: set<Status> := {Completed, Approved}

  /** Completed counts completed, approved and paid tasks; pending payments count approved tasks. */
  function Stats(ts: seq<Task>): (r: AdminStats)
    ensures r.totalTasks == |ts|
    ensures r.completedTasks == Count(ts, DoneStatuses) && r.pendingPayments == Count(ts, {Approved})
    ensures r.pendingPayments <= r.completedTasks <= r.totalTasks
    ensures r.completedTasks == r.pendingPayments + Count(ts, {Completed, Paid})
    ensures r.totalExpenses == SumCategory(ts, Food) + SumCategory(ts, Accommodation)
      + SumCategory(ts, Water) + SumCategory(ts, Other)
  {
    CountSplit(ts, {Approved}, {Completed, Paid});
    assert {Approved} + {Completed, Paid} == DoneStatuses;
    SumByCategory(ts);
    AdminStats(|ts|, Count(ts, DoneStatuses), Count(ts, {Approved}), SumTotals(ts))
  }

  /** `tasks.filter(completed or approved).slice(0, 3)`: the first three such tasks in list order. */
  function TasksNeedingAction(ts: seq<Task>): (r: seq<Task>)
    ensures |r| == Min(3, Count(ts, NeedsAction))
    ensures r <= WithStatusIn(ts, NeedsAction)
    ensures forall i :: 0 <= i < |r| ==> r[i] in ts && r[i].status in NeedsAction
    ensures Count(ts, NeedsAction) <= 3 ==> r == WithStatusIn(ts, NeedsAction)
    ensures r == [] <==> forall i :: 0 <= i < |ts| ==> ts[i].status !in NeedsAction
  {
    CountZero(ts, NeedsAction);
    var f := WithStatusIn(ts, NeedsAction);
    f[..Min(3, |f|)]
  }

  /** Once three tasks in a prefix need action, tasks after it never reach the list:
      addTask appends, so the list shows the oldest such tasks, not the newest. */
  lemma NeedingActionIgnoresLaterTasks(a: seq<Task>, b: seq<Task>)
    requires Count(a, NeedsAction) >= 3
    ensures TasksNeedingAction(a + b) == TasksNeedingAction(a)
  {
    FilterAppend(a, b, NeedsAction);
    var fa := WithStatusIn(a, NeedsAction);
    var fb := WithStatusIn(b, NeedsAction);
    assert (fa + fb)[..3] == fa[..3];
  }
}
