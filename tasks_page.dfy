/** The task management page (src/pages/TasksPage.tsx): the create-task form of the
    leader, the status tabs and the cards each tab lists. */
module TasksPage {
  import opened Types
  import opened AppStore
  import opened TaskStats
  import TaskCard

  // ---------------------------------------------------------------------------
  // The create-task form

  datatype FormField = Title | Description | PlaceId | StartDate | EndDate

  /** The five text fields of the form; all start empty. */
  class NewTaskForm {
    var title: string
    var description: string
    var placeId: string
    var startDate: string
    var endDate: string

    function Field(f: FormField): string
      reads this
    {
      match f
      case Title => title
      case Description => description
      case PlaceId => placeId
      case StartDate => startDate
      case EndDate => endDate
    }

    predicate Blank()
      reads this
    {
      forall f :: Field(f) == ""
    }

    constructor ()
      ensures Blank()
    {
      title, description, placeId, startDate, endDate := "", "", "", "", "";
    }

    /** `{ ...prev, [name]: value }`: the named field takes the value, the others stay. */
    method HandleChange(field: FormField, value: string)
      modifies this
      ensures Field(field) == value
      ensures forall f :: f != field ==> Field(f) == old(Field(f))
    {
      match field
      case Title => title := value;
      case Description => description := value;
      case PlaceId => placeId := value;
      case StartDate => startDate := value;
      case EndDate => endDate := value;
    }

    /** What the form hands to addTask: its fields, zero expenses, no member, no images. */
    function Draft(): (d: TaskDraft)
      reads this
      ensures d.title == Field(Title) && d.description == Field(Description) && d.placeId == Field(PlaceId)
      ensures d.startDate == Field(StartDate) && d.endDate == Field(EndDate)
      ensures d.expenses == NoExpenses && d.assignedTo.None? && d.startImage.None? && d.endImage.None?
    {
      TaskDraft(title, description, placeId, None, startDate, endDate, None, None, NoExpenses)
    }

    /** "Create Task": adds the task whatever the fields hold (there is no validation),
        then clears the form. */
    method HandleCreateTask(store: Store, now: nat)
      modifies this, store`tasks
      ensures store.tasks == old(store.tasks) + [NewTask(old(Draft()), now)]
      ensures Blank()
    {
      store.AddTask(Draft(), now);
      title, description, placeId, startDate, endDate := "", "", "", "", "";
    }
  }

  /** addTask puts a pending task with zero expenses at the end of the list, blank fields included. */
  lemma CreatedTaskIsPendingAndFree(ts: seq<Task>, d: TaskDraft, now: nat)
    requires d.expenses == NoExpenses
    ensures Count(ts + [NewTask(d, now)], {Pending}) == Count(ts, {Pending}) + 1
    ensures SumTotals(ts + [NewTask(d, now)]) == SumTotals(ts)
  {
    AddTaskStats(ts, d, now);
  }

  /** The create button is offered to everyone who is not an admin. */
  predicate CreateTaskOffered(user: Option<User>) {
    !IsAdmin(user)
  }

  /** The create button shows for team leaders and for a page rendered with nobody logged in. */
  lemma CreateTaskOfferedToLeaders(user: Option<User>)
    ensures CreateTaskOffered(user) <==> user.None? || user.value.role == Leader
    ensures CreateTaskOffered(user) <==> !(ApprovedTab in VisibleTabs(IsAdmin(user)))
  {
  }

  // ---------------------------------------------------------------------------
  // Tabs

  datatype Tab = All | PendingTab | InProgressTab | CompletedTab | ApprovedTab | PaidTab

  /** The status a tab filters on; `All` filters on none. */
  function TabStatus(tab: Tab): (r: Option<Status>)
    ensures r.None? <==> tab == All
  {
    match tab
    case All => None
    case PendingTab => Some(Pending)
    case InProgressTab => Some(InProgress)
    case CompletedTab => Some(Completed)
    case ApprovedTab => Some(Approved)
    case PaidTab => Some(Paid)
  }

  /** The tab triggers in display order: the approved and paid tabs only for admins. */
  function VisibleTabs(isAdmin: bool): (r: seq<Tab>)
    ensures ApprovedTab in r <==> isAdmin
    ensures PaidTab in r <==> isAdmin
    ensures |r| == if isAdmin then 6 else 4
    ensures forall tab :: tab != ApprovedTab && tab != PaidTab ==> tab in r
  {
    var base := [All, PendingTab, InProgressTab, CompletedTab];
    forall tab | tab != ApprovedTab && tab != PaidTab
      ensures tab in base
    {
      assert tab == base[if tab == All then 0 else if tab == PendingTab then 1 else if tab == InProgressTab then 2 else 3];
    }
    base + (if isAdmin then [ApprovedTab, PaidTab] else [])
  }

  /** The tasks a tab lists, in list order. */
  function TabTasks(ts: seq<Task>, tab: Tab): (r: seq<Task>)
    ensures tab == All ==> r == ts
    ensures tab != All ==> forall i :: 0 <= i < |r| ==> r[i].status == TabStatus(tab).value && r[i] in ts
    ensures tab != All ==> forall i :: 0 <= i < |ts| && ts[i].status == TabStatus(tab).value ==> ts[i] in r
  {
    match TabStatus(tab)
    case None => ts
    case Some(s) => WithStatusIn(ts, {s})
  }

  /** A tab keeps the order of the list: the cards of a concatenation are the cards of
      its first part followed by those of its second. */
  lemma TabKeepsOrder(a: seq<Task>, b: seq<Task>, tab: Tab)
    ensures TabTasks(a + b, tab) == TabTasks(a, tab) + TabTasks(b, tab)
  {
    if tab != All {
      FilterAppend(a, b, {TabStatus(tab).value});
    }
  }

  /** `tasks.some(task => task.status === s)`. */
  function HasStatus(ts: seq<Task>, s: Status): (r: bool)
    ensures r <==> exists i :: 0 <= i < |ts| && ts[i].status == s
  {
    if ts == [] then false
    else if ts[0].status == s then true
    else
      var rest := HasStatus(ts[1..], s);
      assert rest ==> exists i :: 0 <= i < |ts| && ts[i].status == s by {
        if rest {
          var j :| 0 <= j < |ts[1..]| && ts[1..][j].status == s;
          assert ts[j + 1].status == s;
        }
      }
      assert (exists i :: 0 <= i < |ts| && ts[i].status == s) ==> rest by {
        if exists i :: 0 <= i < |ts| && ts[i].status == s {
          var i :| 0 <= i < |ts| && ts[i].status == s;
          assert ts[1..][i - 1].status == s;
        }
      }
      rest
  }

  /** The "no tasks" box: on `All` when the list is empty, on a status tab when no task
      has the status. */
  predicate EmptyMessageShown(ts: seq<Task>, tab: Tab) {
    match TabStatus(tab)
    case None => |ts| == 0
    case Some(s) => !HasStatus(ts, s)
  }

  /** The empty box is shown exactly when the tab lists no card. */
  lemma EmptyMessageIffNoCards(ts: seq<Task>, tab: Tab)
    ensures EmptyMessageShown(ts, tab) <==> TabTasks(ts, tab) == []
  {
    if tab != All {
      CountZero(ts, {TabStatus(tab).value});
    }
  }

  /** The five status tabs list every task exactly once between them. */
  lemma StatusTabsPartition(ts: seq<Task>)
    ensures |TabTasks(ts, PendingTab)| + |TabTasks(ts, InProgressTab)| + |TabTasks(ts, CompletedTab)|
      + |TabTasks(ts, ApprovedTab)| + |TabTasks(ts, PaidTab)| == |ts|
  {
    CountSplit(ts, {Pending}, {InProgress});
    CountSplit(ts, {Completed}, {Approved});
    CountSplit(ts, {Completed, Approved}, {Paid});
    assert {Pending} + {InProgress} == OpenStatuses;
    assert {Completed} + {Approved} == {Completed, Approved};
    assert {Completed, Approved} + {Paid} == DoneStatuses;
    PartitionCounts(ts, DoneStatuses, OpenStatuses);
  }

  // ---------------------------------------------------------------------------
  // Cards

  /** The view mode a tab gives its cards: the admin-only tabs always use the admin view. */
  function CardView(isAdmin: bool, tab: Tab): TaskCard.ViewMode {
    if tab == ApprovedTab || tab == PaidTab || isAdmin then TaskCard.AdminView else TaskCard.LeaderView
  }

  /** On every tab the user can see, cards use the admin view exactly for admins. */
  lemma CardViewFollowsRole(isAdmin: bool, tab: Tab)
    requires tab in VisibleTabs(isAdmin)
    ensures CardView(isAdmin, tab) == (if isAdmin then TaskCard.AdminView else TaskCard.LeaderView)
  {
  }

  /** Position k holds the first element whose key is the id. */
  predicate FirstWithKey<T>(xs: seq<T>, key: T -> string, id: string, k: nat)
    requires k < |xs|
  {
    key(xs[k]) == id && forall l :: 0 <= l < k ==> key(xs[l]) != id
  }

  /** `xs.find(x => key(x) === id)`: the first element whose key is the id. */
  function Find<T>(xs: seq<T>, key: T -> string, id: string): (r: Option<T>)
    ensures r.Some? ==> exists k :: 0 <= k < |xs| && xs[k] == r.value && FirstWithKey(xs, key, id, k)
    ensures r.None? <==> forall i :: 0 <= i < |xs| ==> key(xs[i]) != id
  {
    if xs == [] then None
    else if key(xs[0]) == id then Some(xs[0])
    else
      var r := Find(xs[1..], key, id);
      assert r.Some? ==> exists k :: 0 <= k < |xs| && xs[k] == r.value && FirstWithKey(xs, key, id, k) by {
        if r.Some? {
          var k :| 0 <= k < |xs[1..]| && xs[1..][k] == r.value && FirstWithKey(xs[1..], key, id, k);
          assert xs[k + 1] == r.value;
          assert forall l :: 0 <= l < k + 1 ==> key(xs[l]) != id by {
            forall l | 0 <= l < k + 1 ensures key(xs[l]) != id {
              if l > 0 { assert xs[l] == xs[1..][l - 1]; }
            }
          }
        }
      }
      assert r.None? <==> forall i :: 0 <= i < |xs| ==> key(xs[i]) != id by {
        if r.None? {
          forall i | 0 <= i < |xs| ensures key(xs[i]) != id {
            if i > 0 { assert xs[i] == xs[1..][i - 1]; }
          }
        }
      }
      r
  }

  function PlaceKey(p: Place): string { p.id }

  function MemberKey(m: TeamMember): string { m.id }

  datatype CardProps = CardProps(task: Task, view: TaskCard.ViewMode, place: Option<Place>, member: Option<TeamMember>)

  /** The props of one card: its place by id, and its member when the task is assigned. */
  function CardFor(t: Task, view: TaskCard.ViewMode, places: seq<Place>, members: seq<TeamMember>): (r: CardProps)
    ensures r.task == t && r.view == view
    ensures r.place == Find(places, PlaceKey, t.placeId)
    ensures r.place.Some? ==> r.place.value in places && r.place.value.id == t.placeId
    ensures r.place.None? <==> forall i :: 0 <= i < |places| ==> places[i].id != t.placeId
    ensures TaskCard.Unassigned(t) ==> r.member.None?
    ensures !TaskCard.Unassigned(t) ==> r.member == Find(members, MemberKey, t.assignedTo.value)
    ensures r.member.Some? ==> r.member.value in members && r.member.value.id == t.assignedTo.value
    ensures !TaskCard.Unassigned(t) ==>
      (r.member.None? <==> forall i :: 0 <= i < |members| ==> members[i].id != t.assignedTo.value)
  {
    CardProps(t, view, Find(places, PlaceKey, t.placeId),
      if TaskCard.Unassigned(t) then None else Find(members, MemberKey, t.assignedTo.value))
  }
}
