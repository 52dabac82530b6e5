/** The records shared by the stores, the pages and the charts of the dashboard. */
module Types {

  datatype Option<+T> = None | Some(value: T)

  /** A JavaScript number as the core produces it: an integer, or NaN
      (what `parseInt` returns for text without digits). */
  datatype Number = Finite(value: int) | NaN

  datatype Role = Admin | Leader

  datatype User = User(id: string, name: string, email: string, role: Role, avatar: Option<string>)

  datatype Place = Place(id: string, name: string, location: string, description: string, image: Option<string>)

  datatype TeamMember = TeamMember(id: string, name: string, role: string, avatar: Option<string>)

  datatype DayMusic = DayMusic(day: string, deity: string, musicUrl: string)

  /** The five task statuses; the intended forward path is the declaration order. */
  datatype Status = Pending | InProgress | Completed | Approved | Paid

  /** The four expense fields of a task; their total is derived, never stored. */
  datatype Expenses = Expenses(food: int, accommodation: int, water: int, other: int)

  datatype Category = Food | Accommodation | Water | Other

  datatype Task = Task(
    id: string,
    title: string,
    description: string,
    placeId: string,
    assignedTo: Option<string>,
    progress: Number,
    status: Status,
    startDate: string,
    endDate: string,
    startImage: Option<string>,
    endImage: Option<string>,
    expenses: Expenses)

  const AllStatuses: set<Status> := {Pending, InProgress, Completed, Approved, Paid}

  lemma EveryStatusListed(s: Status)
    ensures s in AllStatuses
  {
  }

  /** Statuses counted as "completed" by the dashboards and the profile page. */
  const DoneStatuses: set<Status> := {Completed, Approved, Paid}

  /** Statuses counted as "pending" by the profile page. */
  const OpenStatuses: set<Status> := {Pending, InProgress}

  /** The string the source stores for a status. */
  function StatusName(s: Status): string {
    match s
    case Pending => "pending"
    case InProgress => "in-progress"
    case Completed => "completed"
    case Approved => "approved"
    case Paid => "paid"
  }

  /** Position of a status on the path pending, in-progress, completed, approved, paid. */
  function Rank(s: Status): nat {
    match s
    case Pending => 0
    case InProgress => 1
    case Completed => 2
    case Approved => 3
    case Paid => 4
  }

  function Amount(e: Expenses, c: Category): int {
    match c
    case Food => e.food
    case Accommodation => e.accommodation
    case Water => e.water
    case Other => e.other
  }

  /** The expenses with one field replaced. */
  function WithAmount(e: Expenses, c: Category, v: int): (r: Expenses)
    ensures Amount(r, c) == v
    ensures forall d :: d != c ==> Amount(r, d) == Amount(e, d)
  {
    match c
    case Food => e.(food := v)
    case Accommodation => e.(accommodation := v)
    case Water => e.(water := v)
    case Other => e.(other := v)
  }

  /** food + accommodation + water + other. */
  function Total(e: Expenses): int {
    e.food + e.accommodation + e.water + e.other
  }

  function TaskTotal(t: Task): int {
    Total(t.expenses)
  }

  const NoExpenses: Expenses := Expenses(0, 0, 0, 0)

  /** `user?.role === "admin"`. */
  predicate IsAdmin(user: Option<User>) {
    user.Some? && user.value.role == Admin
  }

  function Min(a: int, b: int): int {
    if a <= b then a else b
  }
}
