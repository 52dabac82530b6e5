/** The statistics, the recent tasks and the places shown on the team leader
    dashboard (src/pages/LeaderDashboard.tsx). */
module LeaderDashboard {
  import opened Types
  import opened TaskStats

  datatype LeaderStats = LeaderStats(totalTasks: nat, completedTasks: nat, inProgressTasks: nat, totalExpenses: int)

  /** Completed counts completed, approved and paid tasks; in progress counts in-progress tasks. */
  function Stats(ts: seq<Task>): (r: LeaderStats)
    ensures r.totalTasks == |ts|
    ensures r.completedTasks == Count(ts, DoneStatuses) && r.inProgressTasks == Count(ts, {InProgress})
    ensures r.completedTasks + r.inProgressTasks + Count(ts, {Pending}) == r.totalTasks
    ensures r.completedTasks + r.inProgressTasks <= r.totalTasks
    ensures r.totalExpenses == SumCategory(ts, Food) + SumCategory(ts, Accommodation)
      + SumCategory(ts, Water) + SumCategory(ts, Other)
  {
    CountSplit(ts, DoneStatuses, {InProgress});
    assert DoneStatuses + {InProgress} + {Pending} == AllStatuses;
    PartitionCounts(ts, DoneStatuses + {InProgress}, {Pending});
    SumByCategory(ts);
    LeaderStats(|ts|, Count(ts, DoneStatuses), Count(ts, {InProgress}), SumTotals(ts))
  }

  /** `seq.slice(0, k)`: the first k elements, or all of them when there are fewer. */
  function Take<T>(s: seq<T>, k: nat): (r: seq<T>)
    ensures |r| == Min(k, |s|)
    ensures r <= s
  {
    s[..Min(k, |s|)]
  }

  /** `tasks.slice(0, 3)`. */
  function RecentTasks(ts: seq<Task>): (r: seq<Task>)
    ensures |r| == Min(3, |ts|) && r <= ts
  {
    Take(ts, 3)
  }

  /** `places.slice(0, 4)`. */
  function ShownPlaces(places: seq<Place>): (r: seq<Place>)
    ensures |r| == Min(4, |places|) && r <= places
  {
    Take(places, 4)
  }

  /** With three tasks or more, a newly added task is not among the "recent" ones:
      the list is append-ordered and the slice takes its front. */
  lemma NewTaskNotRecent(ts: seq<Task>, t: Task)
    requires |ts| >= 3
    ensures RecentTasks(ts + [t]) == RecentTasks(ts)
  {
    assert (ts + [t])[..3] == ts[..3];
  }
}
