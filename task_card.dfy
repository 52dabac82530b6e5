/** One task card (src/components/TaskCard.tsx): its badge, the controls of the leader
    and the admin view, and the card's local edit state with the handlers that write
    it back to the store. */
module TaskCard {
  import opened Types
  import opened JsText
  import opened AppStore

  // ---------------------------------------------------------------------------
  // Input coercion

  /** `n || 0` on a number: NaN (and 0) become 0. */
  function Coerce(n: Number): (r: int)
    ensures n.NaN? ==> r == 0
    ensures n.Finite? ==> r == n.value
  {
    match n
    case NaN => 0
    case Finite(v) => v
  }

  /** `parseInt(value) || 0`: what an expense field receives from its input text. */
  function ParseExpense(text: string): (r: int)
    ensures DigitPrefix(Unsigned(text), RadixOf(text)) == [] ==> r == 0
    ensures ParseInt(text).Finite? ==> r == ParseInt(text).value
    ensures r < 0 ==> Negative(text)
  {
    Coerce(ParseInt(text))
  }

  /** A decimal amount typed in the field is stored as that amount. */
  lemma ParseExpenseDecimal(n: nat)
    ensures ParseExpense(DecimalString(n)) == n
  {
    ParseIntDecimal(n);
  }

  /** A negative amount gets through: nothing but the `min="0"` hint of the input stops it. */
  lemma ParseExpenseNegative(n: nat)
    ensures ParseExpense("-" + DecimalString(n)) == -(n as int)
  {
    ParseIntNegativeDecimal(n);
  }

  /** Text without a leading digit or sign (an emptied field, say) becomes 0. */
  lemma ParseExpenseNonNumeric(text: string)
    requires var t := TrimStart(text); t == [] || (t[0] != '-' && t[0] != '+' && !IsDigitIn(t[0], 10))
    ensures ParseExpense(text) == 0
  {
    NoDigitsIsNaN(text);
  }

  // ---------------------------------------------------------------------------
  // The status badge

  /** The badge classes of each status. */
  function StatusColor(s: Status): string {
    match s
    case Pending => "bg-yellow-100 text-yellow-800"
    case InProgress => "bg-blue-100 text-blue-800"
    case Completed => "bg-green-100 text-green-800"
    case Approved => "bg-purple-100 text-purple-800"
    case Paid => "bg-devotional-gold/20 text-devotional-maroon"
  }

  /** The first letter of the colour name in a badge class. */
  function ColorInitial(s: Status): char {
    match s
    case Pending => 'y'
    case InProgress => 'b'
    case Completed => 'g'
    case Approved => 'p'
    case Paid => 'd'
  }

  lemma ColorInitialAt3(s: Status)
    ensures |StatusColor(s)| > 3 && StatusColor(s)[3] == ColorInitial(s)
  {
    var c := StatusColor(s);
    match s
    case Pending => assert c == "bg-yellow-100 text-yellow-800";
    case InProgress => assert c == "bg-blue-100 text-blue-800";
    case Completed => assert c == "bg-green-100 text-green-800";
    case Approved => assert c == "bg-purple-100 text-purple-800";
    case Paid => assert c == "bg-devotional-gold/20 text-devotional-maroon";
  }

  /** Every status has its own badge colour. */
  lemma StatusColorsDistinct(a: Status, b: Status)
    requires a != b
    ensures StatusColor(a) != StatusColor(b)
  {
    ColorInitialAt3(a);
    ColorInitialAt3(b);
  }

  const UpperLetters: string := "ABCDEFGHIJKLMNOPQRSTUVWXYZ"

  /** ASCII `toUpperCase` of one character: a lower-case letter becomes the upper-case
      letter at the same place in the alphabet. */
  function Upper(c: char): (r: char)
    ensures 'a' <= c <= 'z' ==> 'A' <= r <= 'Z'
    ensures 'a' <= c <= 'z' ==> r == UpperLetters[c as int - 'a' as int]
    ensures !('a' <= c <= 'z') ==> r == c
  {
    if 'a' <= c <= 'z' then (c as int - 32) as char else c
  }

  /** ASCII `toLowerCase` of one character. */
  function Lower(c: char): (r: char)
    ensures 'A' <= c <= 'Z' ==> 'a' <= r <= 'z'
    ensures !('A' <= c <= 'Z') ==> r == c
  {
    if 'A' <= c <= 'Z' then (c as int + 32) as char else c
  }

  /** `s.charAt(0).toUpperCase() + s.slice(1)`. */
  function Capitalize(s: string): (r: string)
    ensures |r| == |s|
    ensures s != [] ==> r[1..] == s[1..]
    ensures s != [] ==> r[0] == Upper(s[0])
  {
    if s == [] then [] else [Upper(s[0])] + s[1..]
  }

  /** The badge text: the stored status name with its first letter in upper case. */
  function StatusLabel(s: Status): string {
    Capitalize(StatusName(s))
  }

  /** The five badge texts, written out. */
  function BadgeText(s: Status): string {
    match s
    case Pending => "Pending"
    case InProgress => "In-progress"
    case Completed => "Completed"
    case Approved => "Approved"
    case Paid => "Paid"
  }

  lemma BadgeTextIsLabel(s: Status)
    ensures StatusLabel(s) == BadgeText(s)
  {
    match s
    case Pending => CapitalizedAs("pending", 'P', "Pending");
    case InProgress => CapitalizedAs("in-progress", 'I', "In-progress");
    case Completed => CapitalizedAs("completed", 'C', "Completed");
    case Approved => CapitalizedAs("approved", 'A', "Approved");
    case Paid => CapitalizedAs("paid", 'P', "Paid");
  }

  lemma CapitalizedAs(n: string, u: char, l: string)
    requires n != [] && Upper(n[0]) == u && l == [u] + n[1..]
    ensures Capitalize(n) == l
  {
  }

  /** The badge shows "In-progress" (the hyphen stays), and lowering the first letter
      gives back the stored status name, so no two statuses share a label. */
  lemma StatusLabels(s: Status)
    ensures StatusLabel(s) == BadgeText(s)
    ensures var l := StatusLabel(s); [Lower(l[0])] + l[1..] == StatusName(s)
  {
    BadgeTextIsLabel(s);
    match s
    case Pending => Decapitalized("Pending", "pending");
    case InProgress => Decapitalized("In-progress", "in-progress");
    case Completed => Decapitalized("Completed", "completed");
    case Approved => Decapitalized("Approved", "approved");
    case Paid => Decapitalized("Paid", "paid");
  }

  lemma Decapitalized(l: string, n: string)
    requires l != [] && n != [] && Lower(l[0]) == n[0] && l[1..] == n[1..]
    ensures [Lower(l[0])] + l[1..] == n
  {
    assert n == [n[0]] + n[1..];
  }

  // ---------------------------------------------------------------------------
  // Controls of the two views

  datatype ViewMode = LeaderView | AdminView

  datatype Control = UpdateProgress | AssignMember | ViewImages | ApproveTask | ProcessPayment

  /** `!task.assignedTo`: no member, or the empty string. */
  predicate Unassigned(t: Task) {
    t.assignedTo.None? || t.assignedTo.value == ""
  }

  /** The buttons of the card footer, in display order. */
  function Controls(view: ViewMode, t: Task): (r: seq<Control>)
    ensures UpdateProgress in r <==> view == LeaderView
    ensures AssignMember in r <==> view == LeaderView && Unassigned(t)
    ensures ViewImages in r <==> view == AdminView
    ensures ApproveTask in r <==> view == AdminView && t.status == Completed
    ensures ProcessPayment in r <==> view == AdminView && t.status == Approved
    ensures !(ApproveTask in r && ProcessPayment in r)
  {
    match view
    case LeaderView => [UpdateProgress] + (if Unassigned(t) then [AssignMember] else [])
    case AdminView =>
      [ViewImages]
      + (if t.status == Completed then [ApproveTask] else [])
      + (if t.status == Approved then [ProcessPayment] else [])
  }

  /** The status an admin button sets: approve a completed task, pay an approved one. */
  function AdminTarget(view: ViewMode, t: Task): (r: Option<Status>)
    ensures r.Some? <==> ApproveTask in Controls(view, t) || ProcessPayment in Controls(view, t)
  {
    if view == AdminView && t.status == Completed then Some(Approved)
    else if view == AdminView && t.status == Approved then Some(Paid)
    else None
  }

  /** The admin buttons only move a task one step forward on its path. */
  lemma AdminStepsForward(view: ViewMode, t: Task)
    requires AdminTarget(view, t).Some?
    ensures Rank(AdminTarget(view, t).value) == Rank(t.status) + 1
    ensures AdminTarget(view, t).value in {Approved, Paid}
  {
  }

  // ---------------------------------------------------------------------------
  // Saving the dialog

  /** The task list after "Save Changes": progress first, then all four expense fields. */
  function Saved(ts: seq<Task>, id: string, p: Number, e: Expenses): (r: seq<Task>)
    ensures |r| == |ts|
    ensures forall i :: 0 <= i < |ts| && ts[i].id == id ==>
      r[i] == ts[i].(progress := p, status := DeriveStatus(p), expenses := e)
    ensures forall i :: 0 <= i < |ts| && ts[i].id != id ==> r[i] == ts[i]
  {
    var r := UpdateWhereId(UpdateWhereId(ts, id, SetProgress(p)), id, MergeExpenses(FullPatch(e)));
    forall i | 0 <= i < |ts| && ts[i].id == id
      ensures r[i].expenses == e
    {
      MergeFullPatch(Apply(ts[i], SetProgress(p)).expenses, e);
    }
    r
  }

  /** `https://images.unsplash.com/photo-${Date.now()}`. */
  function MockUrl(now: nat): string {
    "https://images.unsplash.com/photo-" + DecimalString(now)
  }

  /** A card: the task it was rendered for, its view mode, and the dialog's local state,
      seeded from the task on the first render. */
  class Card {
    const task: Task
    const view: ViewMode
    var progress: Number
    var expenses: Expenses

    constructor (task: Task, view: ViewMode)
      ensures this.task == task && this.view == view
      ensures progress == task.progress && expenses == task.expenses
    {
      this.task := task;
      this.view := view;
      progress := task.progress;
      expenses := task.expenses;
    }

    /** The total shown under the expense inputs. */
    function TotalExpenses(): int
      reads this
    {
      Total(expenses)
    }

    /** `setProgress(parseInt(value))`: no clamping, NaN kept. */
    method HandleProgressChange(text: string)
      modifies this`progress
      ensures progress == ParseInt(text)
    {
      progress := ParseInt(text);
    }

    /** One field takes the coerced input; the total moves by the difference. */
    method HandleExpenseChange(c: Category, text: string)
      modifies this`expenses
      ensures expenses == WithAmount(old(expenses), c, ParseExpense(text))
      ensures TotalExpenses() == old(TotalExpenses()) - Amount(old(expenses), c) + ParseExpense(text)
    {
      expenses := WithAmount(expenses, c, ParseExpense(text));
    }

    /** "Save Changes": saveProgress, then saveExpenses with the whole local record. */
    method SaveChanges(store: Store)
      modifies store`tasks
      ensures store.tasks == Saved(old(store.tasks), task.id, progress, expenses)
    {
      store.UpdateTaskProgress(task.id, progress);
      store.UpdateTaskExpenses(task.id, FullPatch(expenses));
    }

    /** handleStatusChange: the admin buttons call it with their target. */
    method HandleStatusChange(store: Store, status: Status)
      modifies store`tasks
      ensures store.tasks == UpdateWhereId(old(store.tasks), task.id, SetStatus(status))
    {
      store.UpdateTaskStatus(task.id, status);
    }

    /** The member picked in the select is assigned at once. */
    method HandleAssignMember(store: Store, memberId: string)
      modifies store`tasks
      ensures store.tasks == UpdateWhereId(old(store.tasks), task.id, Assign(memberId))
    {
      store.AssignTask(task.id, memberId);
    }

    /** With no file chosen nothing happens; otherwise a mock URL built from the clock
        goes into the slot. */
    method HandleImageUpload(store: Store, slot: ImageSlot, hasFile: bool, now: nat)
      modifies store`tasks
      ensures !hasFile ==> store.tasks == old(store.tasks)
      ensures hasFile ==> store.tasks == UpdateWhereId(old(store.tasks), task.id, SetImage(slot, MockUrl(now)))
    {
      if hasFile {
        store.UploadTaskImage(task.id, slot, MockUrl(now));
      }
    }
  }

  /** Saving a card whose progress was never touched still re-derives the status, so an
      approved or paid task under 100% falls back to in progress or pending. */
  lemma SaveResetsApproval(ts: seq<Task>, i: nat, e: Expenses)
    requires i < |ts| && ts[i].status in {Approved, Paid}
    requires ts[i].progress.Finite? && ts[i].progress.value < 100
    ensures Saved(ts, ts[i].id, ts[i].progress, e)[i].status in {InProgress, Pending}
  {
  }
}
