/** The filters, counts and sums over the task list that the profile page, both
    dashboards and the charts compute. Each is defined on the last element, as
    `filter` and `reduce` walk the list from the front and append. */
module TaskStats {
  import opened Types
  import AppStore

  /** `tasks.filter(task => task.status is one of ss)`. */
  function WithStatusIn(ts: seq<Task>, ss: set<Status>): (r: seq<Task>)
    ensures |r| <= |ts|
    ensures forall i :: 0 <= i < |r| ==> r[i].status in ss && r[i] in ts
    ensures forall i :: 0 <= i < |ts| && ts[i].status in ss ==> ts[i] in r
  {
    if ts == [] then []
    else WithStatusIn(ts[..|ts| - 1], ss) + (if ts[|ts| - 1].status in ss then [ts[|ts| - 1]] else [])
  }

  /** `tasks.filter(...).length`. */
  function Count(ts: seq<Task>, ss: set<Status>): nat {
    |WithStatusIn(ts, ss)|
  }

  /** `tasks.reduce((acc, task) => acc + total of task.expenses, 0)`. */
  function SumTotals(ts: seq<Task>): int {
    if ts == [] then 0 else SumTotals(ts[..|ts| - 1]) + TaskTotal(ts[|ts| - 1])
  }

  /** `tasks.reduce((acc, task) => acc + task.expenses.<c>, 0)`. */
  function SumCategory(ts: seq<Task>, c: Category): int {
    if ts == [] then 0 else SumCategory(ts[..|ts| - 1], c) + Amount(ts[|ts| - 1].expenses, c)
  }

  /** Every expense field of every task is at least 0 (what the input coercion aims at,
      though a typed negative number gets through). */
  predicate NonNegative(ts: seq<Task>) {
    forall i :: 0 <= i < |ts| ==> NoNegativeField(ts[i].expenses)
  }

  predicate NoNegativeField(e: Expenses) {
    e.food >= 0 && e.accommodation >= 0 && e.water >= 0 && e.other >= 0
  }

  /** The positions of the list whose task has a status in ss. */
  function Positions(ts: seq<Task>, ss: set<Status>): set<int> {
    set i | 0 <= i < |ts| && ts[i].status in ss
  }

  /** The count is the number of positions whose task has a status in the set, so each
      matching task is counted once, duplicates included. */
  lemma {:induction false} CountPositions(ts: seq<Task>, ss: set<Status>)
    ensures Count(ts, ss) == |Positions(ts, ss)|
  {
    if ts != [] {
      var n := |ts| - 1;
      CountPositions(ts[..n], ss);
      PositionsOfInit(ts, ss);
      assert Count(ts, ss) == Count(ts[..n], ss) + (if ts[n].status in ss then 1 else 0);
    }
  }

  lemma PositionsOfInit(ts: seq<Task>, ss: set<Status>)
    requires ts != []
    ensures var n := |ts| - 1;
      n !in Positions(ts[..n], ss)
      && Positions(ts, ss) == Positions(ts[..n], ss) + (if ts[n].status in ss then {n} else {})
  {
    var n := |ts| - 1;
    assert Positions(ts[..n], ss) == set i | 0 <= i < n && ts[i].status in ss;
  }

  lemma LastOfAppend(ts: seq<Task>, t: Task)
    ensures (ts + [t])[..|ts|] == ts && (ts + [t])[|ts|] == t
  {
  }

  /** Filtering keeps the order: the filter of a concatenation is the concatenation of the filters. */
  lemma {:induction false} FilterAppend(a: seq<Task>, b: seq<Task>, ss: set<Status>)
    ensures WithStatusIn(a + b, ss) == WithStatusIn(a, ss) + WithStatusIn(b, ss)
  {
    if b == [] {
      assert a + b == a;
    } else {
      var b' := b[..|b| - 1];
      assert (a + b)[..|a + b| - 1] == a + b';
      FilterAppend(a, b', ss);
    }
  }

  /** Disjoint status sets split a count. */
  lemma {:induction false} CountSplit(ts: seq<Task>, a: set<Status>, b: set<Status>)
    requires a !! b
    ensures Count(ts, a + b) == Count(ts, a) + Count(ts, b)
  {
    if ts != [] {
      CountSplit(ts[..|ts| - 1], a, b);
    }
  }

  /** Filtering on every status keeps every task. */
  lemma {:induction false} FilterAll(ts: seq<Task>)
    ensures WithStatusIn(ts, AllStatuses) == ts
  {
    if ts != [] {
      FilterAll(ts[..|ts| - 1]);
      EveryStatusListed(ts[|ts| - 1].status);
      assert ts == ts[..|ts| - 1] + [ts[|ts| - 1]];
    }
  }

  /** A larger status set never counts fewer tasks. */
  lemma {:induction false} CountMonotone(ts: seq<Task>, a: set<Status>, b: set<Status>)
    requires a <= b
    ensures Count(ts, a) <= Count(ts, b)
  {
    if ts != [] {
      CountMonotone(ts[..|ts| - 1], a, b);
    }
  }

  /** The buckets of a partition of the five statuses add up to the number of tasks. */
  lemma PartitionCounts(ts: seq<Task>, a: set<Status>, b: set<Status>)
    requires a !! b && a + b == AllStatuses
    ensures Count(ts, a) + Count(ts, b) == |ts|
  {
    CountSplit(ts, a, b);
    FilterAll(ts);
  }

  /** A count is zero exactly when no task has one of the statuses. */
  lemma CountZero(ts: seq<Task>, ss: set<Status>)
    ensures Count(ts, ss) == 0 <==> forall i :: 0 <= i < |ts| ==> ts[i].status !in ss
  {
    if Count(ts, ss) != 0 {
      var r := WithStatusIn(ts, ss);
      assert r[0] in ts;
    }
  }

  /** The grand total is the sum of the four category sums. */
  lemma {:induction false} SumByCategory(ts: seq<Task>)
    ensures SumTotals(ts) == SumCategory(ts, Food) + SumCategory(ts, Accommodation)
      + SumCategory(ts, Water) + SumCategory(ts, Other)
  {
    if ts != [] {
      SumByCategory(ts[..|ts| - 1]);
    }
  }

  lemma {:induction false} SumAppend(a: seq<Task>, b: seq<Task>)
    ensures SumTotals(a + b) == SumTotals(a) + SumTotals(b)
  {
    if b == [] {
      assert a + b == a;
    } else {
      var b' := b[..|b| - 1];
      assert (a + b)[..|a + b| - 1] == a + b';
      SumAppend(a, b');
    }
  }

  /** Disjoint status sets split the expense total of the filtered tasks. */
  lemma {:induction false} SumSplit(ts: seq<Task>, a: set<Status>, b: set<Status>)
    requires a !! b
    ensures SumTotals(WithStatusIn(ts, a + b)) == SumTotals(WithStatusIn(ts, a)) + SumTotals(WithStatusIn(ts, b))
  {
    if ts != [] {
      var init := ts[..|ts| - 1];
      var t := ts[|ts| - 1];
      SumSplit(init, a, b);
      SumAppend(WithStatusIn(init, a + b), if t.status in a + b then [t] else []);
      SumAppend(WithStatusIn(init, a), if t.status in a then [t] else []);
      SumAppend(WithStatusIn(init, b), if t.status in b then [t] else []);
    }
  }

  lemma {:induction false} SumNonNegative(ts: seq<Task>)
    requires NonNegative(ts)
    ensures SumTotals(ts) >= 0
  {
    if ts != [] {
      SumNonNegative(ts[..|ts| - 1]);
    }
  }

  lemma {:induction false} FilterNonNegative(ts: seq<Task>, ss: set<Status>)
    requires NonNegative(ts)
    ensures NonNegative(WithStatusIn(ts, ss))
  {
    var r := WithStatusIn(ts, ss);
    forall i | 0 <= i < |r|
      ensures NoNegativeField(r[i].expenses)
    {
      assert r[i] in ts;
    }
  }

  /** With non-negative expenses, the total over some statuses is between 0 and the grand total. */
  lemma SumFilterBounded(ts: seq<Task>, ss: set<Status>)
    requires NonNegative(ts)
    ensures 0 <= SumTotals(WithStatusIn(ts, ss)) <= SumTotals(ts)
  {
    var rest := AllStatuses - ss;
    assert ss * AllStatuses + rest == AllStatuses;
    SumSplit(ts, ss * AllStatuses, rest);
    FilterAll(ts);
    assert ss * AllStatuses == ss by {
      forall s | s in ss ensures s in AllStatuses {
        EveryStatusListed(s);
      }
    }
    FilterNonNegative(ts, ss);
    FilterNonNegative(ts, rest);
    SumNonNegative(WithStatusIn(ts, ss));
    SumNonNegative(WithStatusIn(ts, rest));
  }

  /** Appending a task adds it to the buckets of its status and its total to the sum. */
  lemma AppendTask(ts: seq<Task>, t: Task, ss: set<Status>)
    ensures Count(ts + [t], ss) == Count(ts, ss) + (if t.status in ss then 1 else 0)
    ensures SumTotals(ts + [t]) == SumTotals(ts) + TaskTotal(t)
  {
    LastOfAppend(ts, t);
  }

  /** addTask adds one pending task, leaves the completed count alone and adds the
      draft's expenses to the total. */
  lemma AddTaskStats(ts: seq<Task>, d: AppStore.TaskDraft, now: nat)
    ensures Count(ts + [AppStore.NewTask(d, now)], {Pending}) == Count(ts, {Pending}) + 1
    ensures Count(ts + [AppStore.NewTask(d, now)], DoneStatuses) == Count(ts, DoneStatuses)
    ensures SumTotals(ts + [AppStore.NewTask(d, now)]) == SumTotals(ts) + Total(d.expenses)
  {
    AppendTask(ts, AppStore.NewTask(d, now), {Pending});
    AppendTask(ts, AppStore.NewTask(d, now), DoneStatuses);
  }

  /** Two lists that agree on every status agree on every count. */
  lemma {:induction false} SameStatusesSameCount(a: seq<Task>, b: seq<Task>, ss: set<Status>)
    requires |a| == |b| && forall i :: 0 <= i < |a| ==> a[i].status == b[i].status
    ensures Count(a, ss) == Count(b, ss)
  {
    if a != [] {
      var n := |a| - 1;
      assert forall i :: 0 <= i < n ==> a[..n][i].status == b[..n][i].status;
      SameStatusesSameCount(a[..n], b[..n], ss);
      assert a[n].status == b[n].status;
      assert Count(a, ss) == Count(a[..n], ss) + (if a[n].status in ss then 1 else 0);
      assert Count(b, ss) == Count(b[..n], ss) + (if b[n].status in ss then 1 else 0);
    }
  }

  /** Two lists that agree on every task's expenses have the same grand total. */
  lemma {:induction false} SameExpensesSameSum(a: seq<Task>, b: seq<Task>)
    requires |a| == |b| && forall i :: 0 <= i < |a| ==> a[i].expenses == b[i].expenses
    ensures SumTotals(a) == SumTotals(b)
  {
    if a != [] {
      SameExpensesSameSum(a[..|a| - 1], b[..|b| - 1]);
    }
  }

  /** Expense edits, images and assignment leave every status count as it was;
      progress, status, image and assignment edits leave the expense total as it was. */
  lemma UpdateKeepsStats(ts: seq<Task>, id: string, e: AppStore.Edit, ss: set<Status>)
    ensures !e.SetProgress? && !e.SetStatus? ==> Count(AppStore.UpdateWhereId(ts, id, e), ss) == Count(ts, ss)
    ensures !e.MergeExpenses? ==> SumTotals(AppStore.UpdateWhereId(ts, id, e)) == SumTotals(ts)
  {
    var r := AppStore.UpdateWhereId(ts, id, e);
    if !e.SetProgress? && !e.SetStatus? {
      SameStatusesSameCount(r, ts, ss);
    }
    if !e.MergeExpenses? {
      SameExpensesSameSum(r, ts);
    }
  }
}
