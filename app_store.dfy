/** The domain store: the seeded places, team members and weekday music, the task
    list, and the task operations that replace it (src/context/AppContext.tsx). */
module AppStore {
  import opened Types
  import JsText

  const InitialPlaces: seq<Place> := [
    Place("place-1", "Tirupati Balaji Temple", "Tirupati, Andhra Pradesh",
      "One of the most visited religious sites in the world dedicated to Lord Venkateswara.",
      Some("https://images.unsplash.com/photo-1466442929976-97f336a657be")),
    Place("place-2", "Meenakshi Amman Temple", "Madurai, Tamil Nadu",
      "Historic Hindu temple dedicated to Meenakshi, a form of Parvati.",
      Some("https://images.unsplash.com/photo-1473177104440-ffee2f376098")),
    Place("place-3", "Ramanathaswamy Temple", "Rameswaram, Tamil Nadu",
      "Famous pilgrimage site dedicated to Lord Shiva.",
      Some("https://images.unsplash.com/photo-1472396961693-142e6e269027")),
    Place("place-4", "Padmanabhaswamy Temple", "Thiruvananthapuram, Kerala",
      "Ancient temple dedicated to Lord Vishnu.",
      Some("https://images.unsplash.com/photo-1469041797191-50ace28483c3"))
  ]

  const InitialTeamMembers: seq<TeamMember> := [
    TeamMember("member-1", "Arjun Sharma", "Photographer", Some("https://i.pravatar.cc/150?u=member-1")),
    TeamMember("member-2", "Priya Patel", "Coordinator", Some("https://i.pravatar.cc/150?u=member-2")),
    TeamMember("member-3", "Rahul Kumar", "Guide", Some("https://i.pravatar.cc/150?u=member-3")),
    TeamMember("member-4", "Deepa Nair", "Assistant", Some("https://i.pravatar.cc/150?u=member-4"))
  ]

  const InitialTasks: seq<Task> := [
    Task("task-1", "Temple Photography Session",
      "Capture high-quality photographs of the temple architecture and surroundings",
      "place-1", Some("member-1"), Finite(60), InProgress, "2025-05-10", "2025-05-20",
      Some("https://images.unsplash.com/photo-1466442929976-97f336a657be"), None,
      Expenses(2000, 5000, 500, 1000)),
    Task("task-2", "Visitor Guide Creation",
      "Create an informative guide for temple visitors",
      "place-2", Some("member-3"), Finite(30), InProgress, "2025-05-05", "2025-05-25",
      Some("https://images.unsplash.com/photo-1473177104440-ffee2f376098"), None,
      Expenses(1500, 4000, 300, 500)),
    Task("task-3", "Ritual Documentation",
      "Document and explain various rituals performed at the temple",
      "place-3", None, Finite(0), Pending, "2025-05-20", "2025-06-10",
      None, None,
      Expenses(0, 0, 0, 0))
  ]

  const DayMusicTable: seq<DayMusic> := [
    DayMusic("Monday", "Lord Shiva", "https://www.youtube.com/watch?v=AcmH-gLM5VY"),
    DayMusic("Tuesday", "Lord Hanuman", "https://www.youtube.com/watch?v=AETFvQonfV8"),
    DayMusic("Wednesday", "Lord Ganesha", "https://www.youtube.com/watch?v=M9PQ3q4fFE0"),
    DayMusic("Thursday", "Lord Vishnu", "https://www.youtube.com/watch?v=J4lU1t9K6-k"),
    DayMusic("Friday", "Goddess Lakshmi", "https://www.youtube.com/watch?v=LsXdZzc7vBg"),
    DayMusic("Saturday", "Lord Venkateswara", "https://www.youtube.com/watch?v=PhMcLBrGNmA"),
    DayMusic("Sunday", "Lord Surya", "https://www.youtube.com/watch?v=HRlqNmhXNGc")
  ]

  /** Weekday names indexed by `Date.getDay()`, Sunday being 0. */
  const WeekDays: seq<string> := ["Sunday", "Monday", "Tuesday", "Wednesday", "Thursday", "Friday", "Saturday"]

  // ---------------------------------------------------------------------------
  // Music of the day

  /** `find` on the music table: the index of the first entry for the day, if any. */
  function FindDay(table: seq<DayMusic>, day: string): (r: Option<nat>)
    ensures r.Some? ==> r.value < |table| && table[r.value].day == day
    ensures r.Some? ==> forall j :: 0 <= j < r.value ==> table[j].day != day
    ensures r.None? <==> forall j :: 0 <= j < |table| ==> table[j].day != day
  {
    if table == [] then None
    else if table[0].day == day then Some(0)
    else match FindDay(table[1..], day)
      case None => None
      case Some(i) => Some(i + 1)
  }

  /** The first entry for the given weekday, falling back to the first entry of the table. */
  function TodaysMusic(table: seq<DayMusic>, weekday: nat): (m: DayMusic)
    requires |table| > 0 && weekday < 7
    ensures m in table
    ensures (exists j :: 0 <= j < |table| && table[j].day == WeekDays[weekday]) ==> m.day == WeekDays[weekday]
    ensures (exists j :: 0 <= j < |table| && table[j].day == WeekDays[weekday]) ==>
      (exists k :: 0 <= k < |table| && m == table[k] && (forall l :: 0 <= l < k ==> table[l].day != WeekDays[weekday]))
    ensures (forall j :: 0 <= j < |table| ==> table[j].day != WeekDays[weekday]) ==> m == table[0]
  {
    match FindDay(table, WeekDays[weekday])
    case Some(i) => table[i]
    case None => table[0]
  }

  /** The seeded table names every weekday, so the fallback is never taken. */
  lemma EveryWeekdayHasMusic(weekday: nat)
    requires weekday < 7
    ensures FindDay(DayMusicTable, WeekDays[weekday]).Some?
    ensures TodaysMusic(DayMusicTable, weekday).day == WeekDays[weekday]
  {
    var i := (weekday + 6) % 7;
    assert DayMusicTable[i].day == WeekDays[weekday];
  }

  /** Monday (weekday 1) plays the music of Lord Shiva. */
  lemma MondayIsLordShiva()
    ensures TodaysMusic(DayMusicTable, 1).deity == "Lord Shiva"
  {
    assert DayMusicTable[0].day == WeekDays[1];
  }

  // ---------------------------------------------------------------------------
  // Edits of a single task

  /** Progress to status: 100 or more is completed, above 0 is in progress, anything
      else (0, a negative value, NaN) is pending. No clamping. */
  function DeriveStatus(p: Number): (s: Status)
    ensures s == Completed <==> p.Finite? && p.value >= 100
    ensures s == InProgress <==> p.Finite? && 0 < p.value < 100
    ensures s == Pending <==> p.NaN? || p.value <= 0
  {
    if p.Finite? && p.value >= 100 then Completed
    else if p.Finite? && p.value > 0 then InProgress
    else Pending
  }

  /** A `Partial<Expenses>`: `None` is a field the caller did not supply. */
  datatype ExpensesPatch = ExpensesPatch(food: Option<int>, accommodation: Option<int>, water: Option<int>, other: Option<int>)

  function PatchField(p: ExpensesPatch, c: Category): Option<int> {
    match c
    case Food => p.food
    case Accommodation => p.accommodation
    case Water => p.water
    case Other => p.other
  }

  /** `{ ...old, ...patch }`: supplied fields replace the old ones, the others stay. */
  function Merge(e: Expenses, p: ExpensesPatch): (r: Expenses)
    ensures forall c :: PatchField(p, c).Some? ==> Amount(r, c) == PatchField(p, c).value
    ensures forall c :: PatchField(p, c).None? ==> Amount(r, c) == Amount(e, c)
  {
    Expenses(
      if p.food.Some? then p.food.value else e.food,
      if p.accommodation.Some? then p.accommodation.value else e.accommodation,
      if p.water.Some? then p.water.value else e.water,
      if p.other.Some? then p.other.value else e.other)
  }

  /** A patch supplying all four fields. */
  function FullPatch(e: Expenses): ExpensesPatch {
    ExpensesPatch(Some(e.food), Some(e.accommodation), Some(e.water), Some(e.other))
  }

  /** Merging a full patch yields exactly the patch's values, whatever was there before. */
  lemma MergeFullPatch(prior: Expenses, e: Expenses)
    ensures Merge(prior, FullPatch(e)) == e
  {
    assert forall c :: Amount(Merge(prior, FullPatch(e)), c) == Amount(e, c);
  }

  datatype ImageSlot = StartImage | EndImage

  /** One of the five changes the store applies to the tasks whose id matches. */
  datatype Edit =
    | SetProgress(progress: Number)
    | SetStatus(status: Status)
    | MergeExpenses(patch: ExpensesPatch)
    | SetImage(slot: ImageSlot, url: string)
    | Assign(member: string)

  /** The object spread `{ ...task, ... }` of each operation. */
  function Apply(t: Task, e: Edit): (r: Task)
    ensures r.id == t.id
    ensures e.SetProgress? ==>
      r.progress == e.progress && r.status == DeriveStatus(e.progress)
      && r.(progress := t.progress, status := t.status) == t
    ensures e.SetStatus? ==> r.status == e.status && r.(status := t.status) == t
    ensures e.MergeExpenses? ==> r.expenses == Merge(t.expenses, e.patch) && r.(expenses := t.expenses) == t
    ensures e.SetImage? && e.slot == StartImage ==> r.startImage == Some(e.url) && r.(startImage := t.startImage) == t
    ensures e.SetImage? && e.slot == EndImage ==> r.endImage == Some(e.url) && r.(endImage := t.endImage) == t
    ensures e.Assign? ==> r.assignedTo == Some(e.member) && r.(assignedTo := t.assignedTo) == t
  {
    match e
    case SetProgress(p) => t.(progress := p, status := DeriveStatus(p))
    case SetStatus(s) => t.(status := s)
    case MergeExpenses(patch) => t.(expenses := Merge(t.expenses, patch))
    case SetImage(StartImage, url) => t.(startImage := Some(url))
    case SetImage(EndImage, url) => t.(endImage := Some(url))
    case Assign(m) => t.(assignedTo := Some(m))
  }

  /** Applying the same edit twice is the same as applying it once. */
  lemma ApplyIdempotent(t: Task, e: Edit)
    ensures Apply(Apply(t, e), e) == Apply(t, e)
  {
  }

  // ---------------------------------------------------------------------------
  // Update by id over the task list

  /** `prev.map(task => task.id === id ? edited : task)`. */
  function UpdateWhereId(ts: seq<Task>, id: string, e: Edit): (r: seq<Task>)
    ensures |r| == |ts|
    ensures forall i :: 0 <= i < |ts| ==> r[i] == (if ts[i].id == id then Apply(ts[i], e) else ts[i])
  {
    if ts == [] then []
    else [if ts[0].id == id then Apply(ts[0], e) else ts[0]] + UpdateWhereId(ts[1..], id, e)
  }

  /** An id that no task carries changes nothing. */
  lemma UnknownIdIsNoop(ts: seq<Task>, id: string, e: Edit)
    requires forall i :: 0 <= i < |ts| ==> ts[i].id != id
    ensures UpdateWhereId(ts, id, e) == ts
  {
  }

  /** Every update by id is idempotent; for `SetStatus` this is the source's
      "calling updateTaskStatus twice equals calling it once". */
  lemma UpdateIdempotent(ts: seq<Task>, id: string, e: Edit)
    ensures UpdateWhereId(UpdateWhereId(ts, id, e), id, e) == UpdateWhereId(ts, id, e)
  {
    var once := UpdateWhereId(ts, id, e);
    forall i | 0 <= i < |ts|
      ensures UpdateWhereId(once, id, e)[i] == once[i]
    {
      ApplyIdempotent(ts[i], e);
    }
  }

  /** The ids, in order, never change under an update. */
  lemma UpdateKeepsIds(ts: seq<Task>, id: string, e: Edit, i: nat)
    requires i < |ts|
    ensures |UpdateWhereId(ts, id, e)| == |ts| && UpdateWhereId(ts, id, e)[i].id == ts[i].id
  {
  }

  /** Editing progress re-derives the status of every matching task, so an
      `approved` or `paid` task drops back as soon as its progress is saved. */
  lemma ProgressOverridesStatus(ts: seq<Task>, id: string, p: Number, i: nat)
    requires i < |ts| && ts[i].id == id
    ensures UpdateWhereId(ts, id, SetProgress(p))[i].status == DeriveStatus(p)
    ensures p.Finite? && p.value < 100 ==> UpdateWhereId(ts, id, SetProgress(p))[i].status !in {Approved, Paid}
  {
  }

  // ---------------------------------------------------------------------------
  // New tasks

  /** `Omit<Task, "id" | "status" | "progress">`: what the caller of addTask supplies. */
  datatype TaskDraft = TaskDraft(
    title: string,
    description: string,
    placeId: string,
    assignedTo: Option<string>,
    startDate: string,
    endDate: string,
    startImage: Option<string>,
    endImage: Option<string>,
    expenses: Expenses)

  /** The caller-supplied part of a task. */
  function DraftOf(t: Task): TaskDraft {
    TaskDraft(t.title, t.description, t.placeId, t.assignedTo, t.startDate, t.endDate,
      t.startImage, t.endImage, t.expenses)
  }

  /** The id `task-${Date.now()}` for a millisecond count. */
  function TaskId(now: nat): string {
    "task-" + JsText.DecimalString(now)
  }

  /** The task addTask builds: the draft's fields, a fresh id, pending at progress 0. */
  function NewTask(d: TaskDraft, now: nat): (t: Task)
    ensures DraftOf(t) == d
    ensures t.id == TaskId(now)
    ensures t.status == Pending && t.progress == Finite(0)
    ensures DeriveStatus(t.progress) == t.status
  {
    Task(TaskId(now), d.title, d.description, d.placeId, d.assignedTo, Finite(0), Pending,
      d.startDate, d.endDate, d.startImage, d.endImage, d.expenses)
  }

  /** The millisecond count can be read back from the id of a new task. */
  lemma TaskIdEncodesClock(now: nat)
    ensures TaskId(now)[..5] == "task-"
    ensures JsText.ParseInt(TaskId(now)[5..]) == Finite(now)
  {
    JsText.ParseIntDecimal(now);
    assert TaskId(now)[5..] == JsText.DecimalString(now);
  }

  // ---------------------------------------------------------------------------
  // The store

  /** The state of the domain provider: immutable seed data, the task list and the
      music of the day. */
  class Store {
    const places: seq<Place> := InitialPlaces
    const teamMembers: seq<TeamMember> := InitialTeamMembers
    const dayMusic: seq<DayMusic> := DayMusicTable
    var tasks: seq<Task>
    var currentDayMusic: DayMusic

    /** The first render: seeded tasks, the first music entry. */
    constructor ()
      ensures tasks == InitialTasks && currentDayMusic == DayMusicTable[0]
    {
      tasks := InitialTasks;
      currentDayMusic := DayMusicTable[0];
    }

    /** The mount effect: the music for today's weekday (0 = Sunday). */
    method SelectTodaysMusic(weekday: nat)
      requires weekday < 7
      modifies this`currentDayMusic
      ensures currentDayMusic == TodaysMusic(dayMusic, weekday)
      ensures currentDayMusic.day == WeekDays[weekday]
    {
      EveryWeekdayHasMusic(weekday);
      currentDayMusic := TodaysMusic(dayMusic, weekday);
    }

    /** Appends one new task; the earlier tasks stay as they were. */
    method AddTask(d: TaskDraft, now: nat)
      modifies this`tasks
      ensures tasks == old(tasks) + [NewTask(d, now)]
      ensures |tasks| == |old(tasks)| + 1 && tasks[..|old(tasks)|] == old(tasks)
      ensures tasks[|tasks| - 1].status == Pending && DraftOf(tasks[|tasks| - 1]) == d
    {
      tasks := tasks + [NewTask(d, now)];
    }

    method UpdateTaskProgress(id: string, progress: Number)
      modifies this`tasks
      ensures tasks == UpdateWhereId(old(tasks), id, SetProgress(progress))
      ensures forall i :: 0 <= i < |tasks| && tasks[i].id == id ==>
        tasks[i].progress == progress && tasks[i].status == DeriveStatus(progress)
    {
      tasks := UpdateWhereId(tasks, id, SetProgress(progress));
    }

    method UpdateTaskStatus(id: string, status: Status)
      modifies this`tasks
      ensures tasks == UpdateWhereId(old(tasks), id, SetStatus(status))
      ensures forall i :: 0 <= i < |tasks| ==>
        tasks[i] == old(tasks)[i].(status := if old(tasks)[i].id == id then status else old(tasks)[i].status)
    {
      tasks := UpdateWhereId(tasks, id, SetStatus(status));
    }

    method UpdateTaskExpenses(id: string, patch: ExpensesPatch)
      modifies this`tasks
      ensures tasks == UpdateWhereId(old(tasks), id, MergeExpenses(patch))
      ensures forall i :: 0 <= i < |tasks| && tasks[i].id == id ==>
        tasks[i].expenses == Merge(old(tasks)[i].expenses, patch)
    {
      tasks := UpdateWhereId(tasks, id, MergeExpenses(patch));
    }

    method UploadTaskImage(id: string, slot: ImageSlot, url: string)
      modifies this`tasks
      ensures tasks == UpdateWhereId(old(tasks), id, SetImage(slot, url))
    {
      tasks := UpdateWhereId(tasks, id, SetImage(slot, url));
    }

    method AssignTask(id: string, member: string)
      modifies this`tasks
      ensures tasks == UpdateWhereId(old(tasks), id, Assign(member))
    {
      tasks := UpdateWhereId(tasks, id, Assign(member));
    }
  }
}
