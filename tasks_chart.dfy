/** The "Tasks by Location" bar chart (src/components/stats/TasksChart.tsx): one row
    per place, with the completed, in-progress and pending counts of its tasks. */
module TasksChart {
  import opened Types
  import opened TaskStats

  /** `tasks.filter(task => task.placeId === id)`. */
  function AtPlace(ts: seq<Task>, id: string): (r: seq<Task>)
    ensures |r| <= |ts|
    ensures forall i :: 0 <= i < |r| ==> r[i].placeId == id && r[i] in ts
    ensures forall i :: 0 <= i < |ts| && ts[i].placeId == id ==> ts[i] in r
  {
    if ts == [] then []
    else AtPlace(ts[..|ts| - 1], id) + (if ts[|ts| - 1].placeId == id then [ts[|ts| - 1]] else [])
  }

  /** Filtering a list with one more task at the end adds that task at the end exactly
      when it is at the place, so the filter keeps order and multiplicity. */
  lemma AtPlaceAppend(ts: seq<Task>, t: Task, id: string)
    ensures AtPlace(ts + [t], id) == AtPlace(ts, id) + (if t.placeId == id then [t] else [])
  {
    assert (ts + [t])[..|ts|] == ts;
  }

  /** `name.split(' ')[0]`: everything before the first space. */
  function FirstWord(s: string): (r: string)
    ensures r <= s
    ensures ' ' !in r
    ensures |r| == |s| || s[|r|] == ' '
  {
    if s == [] || s[0] == ' ' then [] else [s[0]] + FirstWord(s[1..])
  }

  datatype ChartRow = ChartRow(name: string, completed: nat, inProgress: nat, pending: nat)

  /** The row of one place. Every task at the place falls in exactly one of the three bars. */
  function RowFor(p: Place, ts: seq<Task>): (r: ChartRow)
    ensures r.name == FirstWord(p.name)
    ensures r.name <= p.name && ' ' !in r.name
    ensures r.completed == Count(AtPlace(ts, p.id), DoneStatuses)
    ensures r.inProgress == Count(AtPlace(ts, p.id), {InProgress})
    ensures r.pending == Count(AtPlace(ts, p.id), {Pending})
    ensures r.completed + r.inProgress + r.pending == |AtPlace(ts, p.id)|
    ensures r.inProgress + r.pending == Count(AtPlace(ts, p.id), OpenStatuses)
  {
    var here := AtPlace(ts, p.id);
    CountSplit(here, {InProgress}, {Pending});
    assert {InProgress} + {Pending} == OpenStatuses;
    PartitionCounts(here, DoneStatuses, OpenStatuses);
    ChartRow(FirstWord(p.name), Count(here, DoneStatuses), Count(here, {InProgress}), Count(here, {Pending}))
  }

  /** `places.map(place => row)`: one row per place, in the order of the places. */
  function ChartData(places: seq<Place>, ts: seq<Task>): (r: seq<ChartRow>)
    ensures |r| == |places|
    ensures forall i :: 0 <= i < |places| ==> r[i] == RowFor(places[i], ts)
  {
    if places == [] then [] else [RowFor(places[0], ts)] + ChartData(places[1..], ts)
  }

  /** Number of tasks drawn in a chart, summed over the rows and the bars. */
  function Drawn(rows: seq<ChartRow>): nat {
    if rows == [] then 0 else rows[0].completed + rows[0].inProgress + rows[0].pending + Drawn(rows[1..])
  }

  /** Number of places carrying the id. */
  function Matches(places: seq<Place>, id: string): nat {
    if places == [] then 0 else (if places[0].id == id then 1 else 0) + Matches(places[1..], id)
  }

  predicate DistinctIds(places: seq<Place>) {
    forall i, j :: 0 <= i < j < |places| ==> places[i].id != places[j].id
  }

  predicate KnownPlace(places: seq<Place>, id: string) {
    exists i :: 0 <= i < |places| && places[i].id == id
  }

  /** With distinct place ids, an id matches one place if it is known and none otherwise. */
  lemma {:induction false} MatchesDistinct(places: seq<Place>, id: string)
    requires DistinctIds(places)
    ensures Matches(places, id) == (if KnownPlace(places, id) then 1 else 0)
  {
    if places != [] {
      var rest := places[1..];
      MatchesDistinct(rest, id);
      if places[0].id == id {
        assert !KnownPlace(rest, id) by {
          forall j | 0 <= j < |rest| ensures rest[j].id != id {
            assert rest[j] == places[j + 1];
          }
        }
      } else {
        assert KnownPlace(places, id) <==> KnownPlace(rest, id) by {
          if KnownPlace(places, id) {
            var i :| 0 <= i < |places| && places[i].id == id;
            assert rest[i - 1].id == id;
          }
          if KnownPlace(rest, id) {
            var j :| 0 <= j < |rest| && rest[j].id == id;
            assert places[j + 1].id == id;
          }
        }
      }
    }
  }

  /** One more task adds one to the chart for each place carrying its place id. */
  lemma {:induction false} DrawnAppend(places: seq<Place>, ts: seq<Task>, t: Task)
    ensures Drawn(ChartData(places, ts + [t])) == Drawn(ChartData(places, ts)) + Matches(places, t.placeId)
  {
    if places != [] {
      var p := places[0];
      LastOfAppend(ts, t);
      DrawnAppend(places[1..], ts, t);
      var after := ChartData(places, ts + [t]);
      var before := ChartData(places, ts);
      assert after[1..] == ChartData(places[1..], ts + [t]);
      assert before[1..] == ChartData(places[1..], ts);
      assert |AtPlace(ts + [t], p.id)| == |AtPlace(ts, p.id)| + (if t.placeId == p.id then 1 else 0);
      assert Drawn(after) == after[0].completed + after[0].inProgress + after[0].pending + Drawn(after[1..]);
      assert Drawn(before) == before[0].completed + before[0].inProgress + before[0].pending + Drawn(before[1..]);
    }
  }

  /** When place ids are distinct and every task is at a known place, the bars of the
      chart account for every task exactly once. */
  lemma {:induction false} ChartCountsEveryTask(places: seq<Place>, ts: seq<Task>)
    requires DistinctIds(places)
    requires forall i :: 0 <= i < |ts| ==> KnownPlace(places, ts[i].placeId)
    ensures Drawn(ChartData(places, ts)) == |ts|
  {
    if ts == [] {
      DrawnNoTasks(places);
    } else {
      var init := ts[..|ts| - 1];
      var t := ts[|ts| - 1];
      assert ts == init + [t];
      ChartCountsEveryTask(places, init);
      DrawnAppend(places, init, t);
      MatchesDistinct(places, t.placeId);
    }
  }

  lemma {:induction false} DrawnNoTasks(places: seq<Place>)
    ensures Drawn(ChartData(places, [])) == 0
  {
    if places != [] {
      DrawnNoTasks(places[1..]);
      assert ChartData(places, [])[1..] == ChartData(places[1..], []);
    }
  }

  /** A task whose place id names no place changes no row of the chart. */
  lemma UnknownPlaceIgnored(places: seq<Place>, ts: seq<Task>, t: Task)
    requires !KnownPlace(places, t.placeId)
    ensures ChartData(places, ts + [t]) == ChartData(places, ts)
  {
    LastOfAppend(ts, t);
    forall i | 0 <= i < |places|
      ensures RowFor(places[i], ts + [t]) == RowFor(places[i], ts)
    {
      assert AtPlace(ts + [t], places[i].id) == AtPlace(ts, places[i].id);
    }
  }
}
