# Devotional task dashboard — a Dafny model of its core

The dashboard keeps a list of work tasks at devotional places. Each task has a status
(pending, in-progress, completed, approved, paid), a progress percentage, four expense
fields and two image slots. Team leaders create tasks, report progress, expenses and
images, and assign team members. Admins approve completed tasks and mark approved ones
as paid. The pages and charts summarise the list.

The model has these parts:

- **`Types`** (`types.dfy`): the records, the five statuses and expense arithmetic. A
  JavaScript number is either an integer or NaN.
- **`JsText`** (`js_text.dfy`): `parseInt` without a radix argument, and the decimal
  rendering of a millisecond count.
- **`AppStore`** (`app_store.dfy`, from `src/context/AppContext.tsx`): the domain store.
  - It is a class with a task-list field and the six operations that replace it.
  - The music of the day is picked from the weekday.
  - Each update by id is a pure map over a first-order `Edit`.
- **`AuthStore`** (`auth_store.dfy`, from `src/context/AuthContext.tsx`): the identity store.
  - It is a class holding the current user, the loading flag and the persisted slot.
  - Credentials are checked against two hard-coded accounts.
- **`TaskStats`** (`task_stats.dfy`): the status filters, counts and expense sums. The
  pages and charts share them.
- **`ProfilePage`**, **`AdminDashboard`** and **`LeaderDashboard`**: the statistics of
  the three pages.
- **`TasksChart`** and **`ExpensesChart`**: the data behind the two charts.
- **`TaskCard`** (`task_card.dfy`): one task card.
  - The badge and the footer controls of each view.
  - A class for the card's local edit state, whose handlers call the store.
- **`TasksPage`** (`tasks_page.dfy`): the task management page.
  - The create-task form, as a class.
  - The status tabs and the props of each card.

Inputs that come from outside the program are parameters:

- `Date.now()` is `now: nat`.
- `new Date().getDay()` is `weekday`.
- Whether a file was chosen is `hasFile`.
- The contents of local storage before start-up is the `slot` argument of the `Auth` constructor.

## Model

| member | source | states |
|---|---|---|
| AppStore.FindDay | src/context/AppContext.tsx:207 | `find` on the music table returns the first entry whose day matches, or none exactly when no entry matches |
| AppStore.TodaysMusic | src/context/AppContext.tsx:203-207 | the chosen entry belongs to the table; when the table has an entry for today's weekday it is the first such entry, otherwise it is the first entry of the table |
| AppStore.EveryWeekdayHasMusic | src/context/AppContext.tsx:123-159 | the seeded table covers all seven weekdays, so the fallback to entry 0 is never taken |
| AppStore.MondayIsLordShiva | src/context/AppContext.tsx:123-159 | weekday 1 (Monday) plays the music of Lord Shiva |
| AppStore.DeriveStatus | src/context/AppContext.tsx:231 | completed iff progress ≥ 100; in-progress iff 0 < progress < 100; pending for 0, negative values and NaN; no clamping |
| AppStore.Merge | src/context/AppContext.tsx:254 | supplied expense fields replace the old values; unsupplied ones keep theirs |
| AppStore.MergeFullPatch | src/context/AppContext.tsx:254 | a patch carrying all four fields yields exactly those values, whatever was there before |
| AppStore.Apply | src/context/AppContext.tsx:227-232 | each edit changes only its own fields and keeps the id; progress also re-derives the status; an image edit sets only its slot |
| AppStore.ApplyIdempotent | src/context/AppContext.tsx:242 | applying the same edit twice equals applying it once |
| AppStore.UpdateWhereId | src/context/AppContext.tsx:224-234 | the length and order are kept; every task with the id is edited; every other task is unchanged |
| AppStore.UnknownIdIsNoop | src/context/AppContext.tsx:240-243 | an id that no task carries leaves the list unchanged |
| AppStore.UpdateIdempotent | src/context/AppContext.tsx:239-243 | every update by id, `updateTaskStatus` included, is idempotent on the whole list |
| AppStore.UpdateKeepsIds | src/context/AppContext.tsx:249-257 | the ids of the list, in order, survive any update |
| AppStore.ProgressOverridesStatus | src/context/AppContext.tsx:229-231 | saving a progress overwrites any earlier status, so an approved or paid task below 100 loses that status |
| AppStore.NewTask | src/context/AppContext.tsx:212-217 | the new task carries the caller's fields, the id `task-<now>`, status pending and progress 0 |
| AppStore.TaskIdEncodesClock | src/context/AppContext.tsx:214 | the clock value can be read back from a new task's id with `parseInt` |
| AppStore.Store.constructor | src/context/AppContext.tsx:195-199 | the store starts with the seeded tasks and the first music entry |
| AppStore.Store.SelectTodaysMusic | src/context/AppContext.tsx:201-209 | the mount effect stores the music whose day is today's weekday |
| AppStore.Store.AddTask | src/context/AppContext.tsx:211-219 | one pending task is appended; the earlier tasks are unchanged |
| AppStore.Store.UpdateTaskProgress | src/context/AppContext.tsx:223-235 | the matching tasks get the progress and its derived status |
| AppStore.Store.UpdateTaskStatus | src/context/AppContext.tsx:239-244 | the matching tasks get the status, whichever of the five it is; nothing else changes |
| AppStore.Store.UpdateTaskExpenses | src/context/AppContext.tsx:248-258 | the matching tasks' expenses become the merge of the old ones and the patch |
| AppStore.Store.UploadTaskImage | src/context/AppContext.tsx:262-272 | the matching tasks get the URL in the chosen slot |
| AppStore.Store.AssignTask | src/context/AppContext.tsx:276-281 | the matching tasks get the member id |
| JsText.TrimStart | src/components/TaskCard.tsx:71 | the leading white space that `parseInt` skips is removed, and nothing else |
| JsText.DigitPrefix | src/components/TaskCard.tsx:80 | the longest prefix made of digits of the radix |
| JsText.ParseInt | src/components/TaskCard.tsx:71 | NaN exactly when no digit follows the sign and the prefix; a negative result only after a minus sign |
| JsText.DecimalString | src/context/AppContext.tsx:214 | the template rendering of a count: non-empty, all decimal digits, no leading zero |
| JsText.DecimalDigitsValue | src/context/AppContext.tsx:214 | the digits of a rendered count read back as that count |
| JsText.ParseIntDecimal | src/components/TaskCard.tsx:71 | `parseInt` of a rendered count is the count |
| JsText.ParseIntNegativeDecimal | src/components/TaskCard.tsx:80 | `parseInt` of a minus sign followed by a rendered count is its negation |
| JsText.PlainDigits | src/components/TaskCard.tsx:71 | a plain run of decimal digits has no sign and no hex prefix, and is read whole |
| JsText.MinusPlainDigits | src/components/TaskCard.tsx:80 | after a minus sign, a plain run of decimal digits is read whole |
| JsText.ParseDigits | src/components/TaskCard.tsx:71 | `parseInt` of a plain run of decimal digits is its value |
| JsText.ParseNegativeDigits | src/components/TaskCard.tsx:80 | `parseInt` of a minus sign and a run of decimal digits is the negated value |
| JsText.DigitPrefixWhole | src/components/TaskCard.tsx:71 | text made only of digits is its own digit prefix |
| JsText.NoDigitsIsNaN | src/components/TaskCard.tsx:71 | text whose first non-space character is neither a sign nor a digit parses to NaN |
| JsText.SameTrimSameParse | src/components/TaskCard.tsx:71 | `parseInt` depends only on the text after its leading white space |
| JsText.LeadingSpaceIgnored | src/components/TaskCard.tsx:71 | one more leading white-space character does not change the reading |
| JsText.PlusSignIgnored | src/components/TaskCard.tsx:71 | a plus sign in front of unsigned, unpadded text does not change the reading |
| AuthStore.CheckCredentials | src/context/AuthContext.tsx:62-75 | the admin pair yields the admin user and the leader pair the leader user; any other pair yields nothing |
| AuthStore.LoginRole | src/context/AuthContext.tsx:45-71 | only the admin pair logs in with the admin role, only the leader pair with the leader role |
| AuthStore.RegisteredUser | src/context/AuthContext.tsx:98-104 | the new user has exactly the given name, email and role, and the id `user-<now>` |
| AuthStore.Auth.constructor | src/context/AuthContext.tsx:25-26 | no user and loading at the first render |
| AuthStore.Auth.Restore | src/context/AuthContext.tsx:28-35 | a stored user is restored, otherwise none stays; loading ends |
| AuthStore.Auth.Login | src/context/AuthContext.tsx:38-83 | true iff the pair matches an account; that account becomes the user and the stored record; a failed login changes neither; loading ends |
| AuthStore.Auth.Register | src/context/AuthContext.tsx:86-117 | always true; the new user becomes the user and the stored record; loading ends |
| AuthStore.Auth.Logout | src/context/AuthContext.tsx:119-123 | the user is none and the stored record is removed |
| AuthStore.RestartAfterLogout | src/context/AuthContext.tsx:28-35 | after a logout, a fresh start restores nobody |
| TaskStats.WithStatusIn | src/pages/TasksPage.tsx:213-214 | the filter keeps exactly the tasks whose status is in the set |
| TaskStats.CountPositions | src/pages/AdminDashboard.tsx:16-22 | `filter(...).length` (`Count`) is the number of positions whose task has one of the statuses |
| TaskStats.FilterAppend | src/pages/AdminDashboard.tsx:34-36 | the filter of a concatenation is the concatenation of the filters, so order is kept |
| TaskStats.CountSplit | src/pages/AdminDashboard.tsx:16-22 | disjoint status sets add their counts |
| TaskStats.FilterAll | src/pages/ProfilePage.tsx:21 | filtering on all five statuses keeps the whole list |
| TaskStats.CountMonotone | src/pages/LeaderDashboard.tsx:21-28 | a larger status set never counts fewer tasks |
| TaskStats.PartitionCounts | src/pages/ProfilePage.tsx:21-31 | the buckets of a partition of the statuses add up to the number of tasks |
| TaskStats.CountZero | src/pages/TasksPage.tsx:232 | a count is zero exactly when no task has one of the statuses |
| TaskStats.SumByCategory | src/pages/ProfilePage.tsx:33-40 | the `reduce` of per-task totals (`SumTotals`) equals the sum of the four per-category reduces (`SumCategory`) |
| TaskStats.SumAppend | src/pages/ProfilePage.tsx:33-40 | the expense sum of a concatenation is the sum of the parts |
| TaskStats.SumSplit | src/pages/ProfilePage.tsx:196-205 | disjoint status sets add their expense sums |
| TaskStats.SumNonNegative | src/pages/AdminDashboard.tsx:24-31 | without negative fields the grand total is at least 0 |
| TaskStats.FilterNonNegative | src/pages/ProfilePage.tsx:197 | filtering keeps the absence of negative fields |
| TaskStats.SumFilterBounded | src/pages/ProfilePage.tsx:196-205 | without negative fields, the sum over some statuses lies between 0 and the grand total |
| TaskStats.AppendTask | src/context/AppContext.tsx:219 | an appended task adds to the count of its status and adds its total to the sum |
| TaskStats.AddTaskStats | src/context/AppContext.tsx:211-219 | addTask adds one pending task, leaves the completed count alone and adds the draft's expenses |
| TaskStats.SameStatusesSameCount | src/context/AppContext.tsx:249-257 | lists that agree on every status agree on every count |
| TaskStats.SameExpensesSameSum | src/context/AppContext.tsx:240-243 | lists that agree on every task's expenses have the same total |
| TaskStats.UpdateKeepsStats | src/context/AppContext.tsx:248-281 | expense, image and assignment edits keep every count; progress, status, image and assignment edits keep the total |
| ProfilePage.Stats | src/pages/ProfilePage.tsx:21-40 | total is the list length; completed is the count of completed, approved and paid tasks and pending the count of pending and in-progress tasks, which together make the total; each is zero iff no task is in its bucket; the expense total is the sum of the categories |
| ProfilePage.CategoryBreakdown | src/pages/ProfilePage.tsx:168-186 | each of the four fields is the `reduce` of its own category over the tasks, and the four add up to the grand total |
| ProfilePage.CompletionPercent | src/pages/ProfilePage.tsx:134-136 | 0 with no tasks; otherwise the integer nearest to completed·100/total, halves up, within 0..100; 0 when nothing is completed and 100 when everything is |
| ProfilePage.RoundedShare | src/pages/ProfilePage.tsx:135 | the rounding brackets the exact share and lies in 0..100, with 0 and 100 at the ends |
| ProfilePage.PaymentsPendingApproval | src/pages/ProfilePage.tsx:196-205 | the approved tasks' totals plus the other tasks' totals make the grand total |
| ProfilePage.PaymentsPendingBounded | src/pages/ProfilePage.tsx:196-205 | without negative fields the amount lies between 0 and the grand total |
| ProfilePage.PaymentsPanel | src/pages/ProfilePage.tsx:191-210 | the panel shows exactly for admins, with the pending payments |
| AdminDashboard.Stats | src/pages/AdminDashboard.tsx:15-31 | total is the list length; completed is the count of completed, approved and paid tasks; pendingPayments is the count of approved tasks; pendingPayments ≤ completed ≤ total; the expenses are the sum of the categories |
| AdminDashboard.TasksNeedingAction | src/pages/AdminDashboard.tsx:34-36 | a prefix of the completed-or-approved filter, of length min(3, its size): the first three such tasks in list order; empty iff no task needs action |
| AdminDashboard.NeedingActionIgnoresLaterTasks | src/pages/AdminDashboard.tsx:34-36 | once three earlier tasks need action, later (newer) tasks never reach the list |
| LeaderDashboard.Stats | src/pages/LeaderDashboard.tsx:21-37 | completed is the count of completed, approved and paid tasks and inProgress the count of in-progress tasks; with the pending count they make the total; the expenses are the sum of the categories |
| LeaderDashboard.Take | src/pages/LeaderDashboard.tsx:40 | `slice(0, k)` is the prefix of length min(k, n) |
| LeaderDashboard.RecentTasks | src/pages/LeaderDashboard.tsx:40 | the prefix of length min(3, n) of the task list |
| LeaderDashboard.ShownPlaces | src/pages/LeaderDashboard.tsx:88 | the prefix of length min(4, n) of the places |
| LeaderDashboard.NewTaskNotRecent | src/pages/LeaderDashboard.tsx:40 | with three tasks or more, an appended task is not among the "recent" ones |
| TasksChart.AtPlace | src/components/stats/TasksChart.tsx:20 | exactly the tasks whose place id is the place's id |
| TasksChart.AtPlaceAppend | src/components/stats/TasksChart.tsx:20 | filtering a list with one more task adds that task at the end exactly when it is at the place, so order and multiplicity are kept |
| TasksChart.FirstWord | src/components/stats/TasksChart.tsx:30 | the prefix of the name up to its first space, with no space in it |
| TasksChart.RowFor | src/components/stats/TasksChart.tsx:20-34 | the row's name is the place name's first word; each bar counts the place's tasks in its bucket (completed, approved or paid; in progress; pending); the three bars add up to the place's task count |
| TasksChart.ChartData | src/components/stats/TasksChart.tsx:19-35 | one row per place, in the order of the places |
| TasksChart.MatchesDistinct | src/components/stats/TasksChart.tsx:20 | with distinct place ids, a task's place id matches one place if it is known and none otherwise |
| TasksChart.DrawnAppend | src/components/stats/TasksChart.tsx:19-27 | one more task adds one bar unit per place carrying its place id |
| TasksChart.DrawnNoTasks | src/components/stats/TasksChart.tsx:19-27 | with no tasks all bars are empty |
| TasksChart.ChartCountsEveryTask | src/components/stats/TasksChart.tsx:19-35 | with distinct place ids and only known places, the bars account for every task exactly once |
| TasksChart.UnknownPlaceIgnored | src/components/stats/TasksChart.tsx:20 | a task whose place id names no place changes no row |
| ExpensesChart.CategoryTotals | src/components/stats/ExpensesChart.tsx:18-28 | each field of the fold is that category's sum over the tasks; the four add up to the grand total |
| ExpensesChart.KeepPositive | src/components/stats/ExpensesChart.tsx:36 | keeps exactly the slices with a value above 0 |
| ExpensesChart.KeepPositiveOrdered | src/components/stats/ExpensesChart.tsx:36 | the filter keeps the order of the slices |
| ExpensesChart.AllSlices | src/components/stats/ExpensesChart.tsx:31-35 | the four slices in the order Food, Accommodation, Water, Other, each with its category's total |
| ExpensesChart.ChartData | src/components/stats/ExpensesChart.tsx:31-36 | at most four slices, in the fixed order; each value is above 0 and is its category's total; a category appears iff its total is above 0 |
| ExpensesChart.ShownWithTotal | src/components/stats/ExpensesChart.tsx:31-36 | a category has a slice exactly when its total is positive |
| ExpensesChart.SliceColor | src/components/stats/ExpensesChart.tsx:59 | slice i takes one of the four colours: for i < 4 exactly `COLORS[i]` |
| ExpensesChart.SliceColorCycles | src/components/stats/ExpensesChart.tsx:59 | `index % COLORS.length`: the colours repeat every four slices |
| ExpensesChart.SliceColorsDistinct | src/components/stats/ExpensesChart.tsx:59 | no two slices of the chart share a colour |
| ExpensesChart.ColorFollowsPosition | src/components/stats/ExpensesChart.tsx:59 | the colour follows the position, not the category: with no food spending, accommodation takes the first colour |
| ExpensesChart.ChartOfTasks | src/components/stats/ExpensesChart.tsx:18-36 | over a task list, a category is drawn, with its sum, exactly when its sum is positive |
| TaskCard.Coerce | src/components/TaskCard.tsx:80 | `n \|\| 0`: NaN becomes 0, any other number is kept |
| TaskCard.ParseExpense | src/components/TaskCard.tsx:80 | 0 when no digit follows the sign and prefix ("", "-", "+", "0x", "abc"); otherwise the number `parseInt` reads; negative only after a minus sign |
| TaskCard.ParseExpenseDecimal | src/components/TaskCard.tsx:80 | a typed decimal amount is stored as that amount |
| TaskCard.ParseExpenseNegative | src/components/TaskCard.tsx:80 | a negative amount is not coerced to 0 |
| TaskCard.ParseExpenseNonNumeric | src/components/TaskCard.tsx:80 | text with no leading sign or digit becomes 0 |
| TaskCard.ColorInitialAt3 | src/components/TaskCard.tsx:112-127 | each badge class names its colour right after `bg-`, with a different initial per status |
| TaskCard.StatusColorsDistinct | src/components/TaskCard.tsx:112-127 | `getStatusColor` (modelled by `StatusColor`) gives the five statuses five distinct badge classes |
| TaskCard.Upper | src/components/TaskCard.tsx:141 | ASCII upper-casing: a lower-case letter becomes the upper-case letter at the same place in the alphabet, other characters are kept |
| TaskCard.Capitalize | src/components/TaskCard.tsx:141 | only the first character is upper-cased; the length and the rest are kept |
| TaskCard.StatusLabels | src/components/TaskCard.tsx:141 | the badge text (`StatusLabel`) is "Pending", "In-progress", "Completed", "Approved" or "Paid" (`BadgeText`); lowering its first letter gives back the stored status, so labels are distinct |
| TaskCard.BadgeTextIsLabel | src/components/TaskCard.tsx:141 | capitalising each stored status name gives the written-out badge text |
| TaskCard.Controls | src/components/TaskCard.tsx:214-467 | leader view: update always, assign iff no member is set; admin view: images always, approve iff completed, pay iff approved, never both |
| TaskCard.AdminTarget | src/components/TaskCard.tsx:451-467 | an admin button sets a status exactly when approve or pay is offered |
| TaskCard.AdminStepsForward | src/components/TaskCard.tsx:451-467 | approve sets approved and pay sets paid: one step forward on the status path |
| TaskCard.Saved | src/components/TaskCard.tsx:342-345 | after saving, the matching tasks have the card's progress, its derived status and all four card expenses; the other tasks are unchanged |
| TaskCard.SaveResetsApproval | src/components/TaskCard.tsx:342-345 | saving an approved or paid task below 100% sends it back to in-progress or pending |
| TaskCard.Card.constructor | src/components/TaskCard.tsx:62-68 | the local progress and expenses start as the task's |
| TaskCard.Card.HandleProgressChange | src/components/TaskCard.tsx:70-73 | the local progress becomes `parseInt` of the text, NaN included, unclamped |
| TaskCard.Card.HandleExpenseChange | src/components/TaskCard.tsx:79-82 | only the edited field changes, to the coerced input; the displayed total (`TotalExpenses`, the sum at lines 109-110) moves by the difference |
| TaskCard.Card.SaveChanges | src/components/TaskCard.tsx:75-86 | "Save Changes" updates the progress, then all four expense fields |
| TaskCard.Card.HandleStatusChange | src/components/TaskCard.tsx:101-103 | the store sets the status of the card's task |
| TaskCard.Card.HandleAssignMember | src/components/TaskCard.tsx:105-107 | the picked member is assigned to the card's task |
| TaskCard.Card.HandleImageUpload | src/components/TaskCard.tsx:88-99 | no file, no change; otherwise the mock URL built from the clock goes into the chosen slot |
| TasksPage.NewTaskForm.constructor | src/pages/TasksPage.tsx:39-45 | the five fields start empty |
| TasksPage.NewTaskForm.HandleChange | src/pages/TasksPage.tsx:47-56 | the named field takes the value; the others stay |
| TasksPage.NewTaskForm.Draft | src/pages/TasksPage.tsx:59-67 | the form's five fields, zero expenses, no member, no images |
| TasksPage.NewTaskForm.HandleCreateTask | src/pages/TasksPage.tsx:58-76 | the task is appended whatever the fields hold, then the form is blank again |
| TasksPage.CreateTaskOfferedToLeaders | src/pages/TasksPage.tsx:83-87 | the create button (`CreateTaskOffered`) shows exactly when the user is not an admin: a leader or nobody, the same users who do not see the approved tab |
| TasksPage.CreatedTaskIsPendingAndFree | src/pages/TasksPage.tsx:58-67 | a created task adds one pending task and nothing to the expense total |
| TasksPage.TabStatus | src/pages/TasksPage.tsx:176-181 | every tab but "All" filters on a status |
| TasksPage.VisibleTabs | src/pages/TasksPage.tsx:176-181 | the approved and paid tabs exist iff the user is an admin; the other four always exist |
| TasksPage.TabTasks | src/pages/TasksPage.tsx:213-214 | a status tab lists exactly the tasks with its status; "All" lists the whole list |
| TasksPage.TabKeepsOrder | src/pages/TasksPage.tsx:242-243 | a tab keeps the order of the task list |
| TasksPage.HasStatus | src/pages/TasksPage.tsx:232 | `some` holds iff a task has the status |
| TasksPage.EmptyMessageIffNoCards | src/pages/TasksPage.tsx:203-351 | the "no tasks" box (`EmptyMessageShown`: an empty list on "All", no task with the status elsewhere) shows iff the tab lists no card |
| TasksPage.StatusTabsPartition | src/pages/TasksPage.tsx:211-357 | the five status tabs list every task exactly once between them |
| TasksPage.CardViewFollowsRole | src/pages/TasksPage.tsx:196-344 | the view a tab gives its cards (`CardView`: admin on the approved and paid tabs, else by role) is the admin view exactly for admins on every visible tab |
| TasksPage.Find | src/pages/TasksPage.tsx:187-189 | `find` by id, used for the place and for the member: the first element whose id matches, or none exactly when no element has the id |
| TasksPage.CardFor | src/pages/TasksPage.tsx:186-199 | a card gets its task and view; its place is the first place with the task's place id, and none exactly when no place has it; an unassigned task gets no member, an assigned one the first member with its id, and none exactly when no member has it |
| Types.WithAmount | src/components/TaskCard.tsx:81 | `{ ...prev, [type]: value }`: one field replaced, the others kept |

## Left out

- Rendering, styling, dialogs, icons, routing and toast notifications are not modelled. They carry no logic beyond the gates modelled in `TaskCard.Controls`, `TasksPage.VisibleTabs` and `TasksPage.CreateTaskOffered`.
- The team-member lookup that builds the assignment toast (src/context/AppContext.tsx:283-284) is not modelled, because it only feeds a toast.
- The `try`/`catch` paths of login and register are not modelled. Nothing in their bodies can throw once local storage is a field. Login and register are treated as atomic steps, not as promises.
- JSON serialisation of the stored user is not modelled. The slot holds the user value, so malformed JSON is out of scope.
- JavaScript numbers are modelled as integers or NaN.
  - Fractions, infinities, -0 and the precision loss of large values are not modelled.
  - The completion percentage uses exact arithmetic. It does not reproduce the floating-point error of `completed / total * 100`.
- `parseInt` is modelled for the decimal and `0x` forms it can read. Its rounding of digit strings longer than a double's precision is not modelled.
- `toLocaleString`, the percentage labels of the pie chart, and `toFixed` are display formatting. They are not modelled.
- The slice names of the pie chart ("Food", "Accommodation", "Water", "Other") are display text. A slice carries its category instead.
- TaskCard.Upper: models ASCII upper-casing only. JavaScript `toUpperCase` also maps non-ASCII letters, which the status names never contain.
- AppStore.TodaysMusic: requires a non-empty table. The source always passes the seeded seven-entry table, and the empty case would read an undefined entry.
- AppStore.ExpensesPatch: a field present but explicitly `undefined` in a `Partial` spreads as `undefined`. The model treats every field as either supplied with a number or absent.
- TaskCard.Card.HandleAssignMember: the assign dialog's own "Assign Member" button does nothing. The select's change handler assigns at once, and only that handler is modelled.
- The `default` branch of `getStatusColor` is not modelled. Statuses are typed, so it is unreachable.
- `leaderTasks` and `userTasks` are the whole task list in the source (src/pages/LeaderDashboard.tsx:17-18, src/pages/ProfilePage.tsx:18). The statistics are therefore stated over the whole list.
- `AdminDashboard.TasksNeedingAction` and `LeaderDashboard.RecentTasks` take the front of the list. addTask appends, so these are the oldest tasks. The lemmas `NeedingActionIgnoresLaterTasks` and `NewTaskNotRecent` state this, and the model keeps the behaviour as written.
