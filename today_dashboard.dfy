/**
 * The "today" dashboard page: it lists the tasks that are not completed and
 * fall due within the current local day, earliest first, and lets the user
 * mark one complete, after which the list is fetched again.
 *
 * The day window is given as two instants (start of today, start of
 * tomorrow); the tasks table is a sequence of rows; the query's loading,
 * error and data state is the state of `TodayPage`.
 */
module TodayDashboard {
  import opened Wrappers
  import CreateTask

  /** A row of `tasks` as the page reads and updates it; `dueAt` is the
      stored instant. */
  datatype Task = Task(
    id: string,
    taskType: string,
    applicationId: string,
    dueAt: int,
    status: string,
    description: Option<string>,
    completedAt: Option<int>)

  // ---------------------------------------------------------------------------
  // The selection rule of the query
  // ---------------------------------------------------------------------------

  /** status <> 'completed', due_at >= startOfDay and due_at < startOfNextDay. */
  predicate DueToday(t: Task, startOfDay: int, startOfNextDay: int)
  {
    t.status != "completed" && startOfDay <= t.dueAt < startOfNextDay
  }

  /** The rows the three filters keep, in table order. */
  function SelectToday(rows: seq<Task>, startOfDay: int, startOfNextDay: int): (r: seq<Task>)
    ensures forall t :: multiset(r)[t] == if DueToday(t, startOfDay, startOfNextDay) then multiset(rows)[t] else 0
    ensures forall t :: t in r <==> t in rows && DueToday(t, startOfDay, startOfNextDay)
  {
    if rows == [] then []
    else
      assert rows == [rows[0]] + rows[1..];
      (if DueToday(rows[0], startOfDay, startOfNextDay) then [rows[0]] else [])
      + SelectToday(rows[1..], startOfDay, startOfNextDay)
  }

  /** Non-decreasing in `dueAt`. */
  predicate SortedByDue(s: seq<Task>)
  {
    forall i, j :: 0 <= i < j < |s| ==> s[i].dueAt <= s[j].dueAt
  }

  /** Inserts `t` into a sequence sorted by `dueAt`. */
  function InsertByDue(t: Task, s: seq<Task>): (r: seq<Task>)
    requires SortedByDue(s)
    ensures SortedByDue(r)
    ensures multiset(r) == multiset(s) + multiset{t}
  {
    if s == [] then [t]
    else if t.dueAt <= s[0].dueAt then [t] + s
    else
      var rest := InsertByDue(t, s[1..]);
      assert s == [s[0]] + s[1..];
      assert forall x :: x in rest ==> s[0].dueAt <= x.dueAt by {
        forall x | x in rest ensures s[0].dueAt <= x.dueAt {
          assert x in multiset(rest);
          assert x in s[1..] || x == t;
        }
      }
      [s[0]] + rest
  }

  /** The rows ordered by `dueAt`, ascending. */
  function SortByDue(s: seq<Task>): (r: seq<Task>)
    ensures SortedByDue(r)
    ensures multiset(r) == multiset(s)
  {
    if s == [] then []
    else
      assert s == [s[0]] + s[1..];
      InsertByDue(s[0], SortByDue(s[1..]))
  }

  /** The list the page shows: exactly the rows due today and not
      completed, each as often as in the table, earliest first. Rows with the
      same due time come in the order this model picks; the database leaves
      that order open. */
  function TodayList(rows: seq<Task>, startOfDay: int, startOfNextDay: int): (r: seq<Task>)
    ensures SortedByDue(r)
    ensures forall t :: multiset(r)[t] == if DueToday(t, startOfDay, startOfNextDay) then multiset(rows)[t] else 0
    ensures forall t :: t in r <==> t in rows && DueToday(t, startOfDay, startOfNextDay)
  {
    var picked := SelectToday(rows, startOfDay, startOfNextDay);
    var r := SortByDue(picked);
    assert forall t :: t in r <==> t in picked by {
      forall t ensures t in r <==> t in picked {
        assert t in r <==> multiset(r)[t] > 0;
        assert t in picked <==> multiset(picked)[t] > 0;
      }
    }
    r
  }

  /** The window is half-open: a task due at the last instant before the
      start of tomorrow is listed, one due at that start is not. */
  lemma WindowIsHalfOpen(rows: seq<Task>, startOfDay: int, startOfNextDay: int, t: Task)
    requires t in rows && t.status != "completed" && startOfDay < startOfNextDay
    ensures t.dueAt == startOfNextDay - 1 ==> t in TodayList(rows, startOfDay, startOfNextDay)
    ensures t.dueAt == startOfNextDay ==> t !in TodayList(rows, startOfDay, startOfNextDay)
    ensures t.dueAt == startOfDay ==> t in TodayList(rows, startOfDay, startOfNextDay)
  {
  }

  /** Two consecutive days never list the same row, and together they list
      what the two-day window lists. */
  lemma ConsecutiveDays(t: Task, a: int, b: int, c: int)
    requires a <= b <= c
    ensures !(DueToday(t, a, b) && DueToday(t, b, c))
    ensures DueToday(t, a, c) <==> DueToday(t, a, b) || DueToday(t, b, c)
  {
  }

  /** The boundary example: with the day [0, 86400000) in ms, a pending task
      due at 23:59:59 is listed and one due at 00:00:01 tomorrow is not. */
  lemma DayBoundaryExample()
    ensures
      var late := Task("a", "call", "11111111-1111-1111-1111-111111111111", 86399000, "pending", None, None);
      var early := Task("b", "email", "11111111-1111-1111-1111-111111111111", 86401000, "pending", None, None);
      TodayList([late, early], 0, 86400000) == [late]
  {
  }

  // ---------------------------------------------------------------------------
  // Mark complete
  // ---------------------------------------------------------------------------

  /** The update: the row whose id is `taskId` gets status "completed" and
      `completedAt`; every other field of it and every other row stay. */
  function MarkedComplete(rows: seq<Task>, taskId: string, now: int): (r: seq<Task>)
    ensures |r| == |rows|
    ensures forall i :: 0 <= i < |rows| ==>
      r[i] == if rows[i].id == taskId then rows[i].(status := "completed", completedAt := Some(now)) else rows[i]
  {
    if rows == [] then []
    else
      [if rows[0].id == taskId then rows[0].(status := "completed", completedAt := Some(now)) else rows[0]]
      + MarkedComplete(rows[1..], taskId, now)
  }

  /** Once marked complete, a task is in no day's list. */
  lemma MarkedTaskLeavesList(rows: seq<Task>, taskId: string, now: int, startOfDay: int, startOfNextDay: int)
    ensures forall t :: t in TodayList(MarkedComplete(rows, taskId, now), startOfDay, startOfNextDay) ==> t.id != taskId
  {
  }

  /** Every other listed task stays listed after the update. */
  lemma OtherTasksStayListed(rows: seq<Task>, taskId: string, now: int, startOfDay: int, startOfNextDay: int, t: Task)
    requires t in TodayList(rows, startOfDay, startOfNextDay) && t.id != taskId
    ensures t in TodayList(MarkedComplete(rows, taskId, now), startOfDay, startOfNextDay)
  {
  }

  /** The alert shown when the update fails: the error's message, or a
      default when the message is empty. */
  function AlertText(message: string): (r: string)
    ensures r != ""
    ensures message != "" ==> r == message
    ensures message == "" ==> r == "Failed to update task"
  {
    if message != "" then message else "Failed to update task"
  }

  // ---------------------------------------------------------------------------
  // Display rules
  // ---------------------------------------------------------------------------

  const GrayBadge := "bg-gray-100 text-gray-800"

  /** The classes of the type badge. */
  function TypeBadgeColor(taskType: string): (r: string)
    ensures taskType == "call" ==> r == "bg-blue-100 text-blue-800"
    ensures taskType == "email" ==> r == "bg-green-100 text-green-800"
    ensures taskType == "review" ==> r == "bg-purple-100 text-purple-800"
    ensures taskType !in {"call", "email", "review"} ==> r == GrayBadge
  {
    match taskType
    case "call" => "bg-blue-100 text-blue-800"
    case "email" => "bg-green-100 text-green-800"
    case "review" => "bg-purple-100 text-purple-800"
    case _ => GrayBadge
  }

  /** A type gets a colour of its own exactly when the endpoint accepts it,
      and the three accepted types get three different colours. */
  lemma TypeBadgeMatchesAcceptedTypes(taskType: string)
    ensures TypeBadgeColor(taskType) != GrayBadge <==> taskType in CreateTask.ValidTaskTypes
    ensures TypeBadgeColor("call") != TypeBadgeColor("email")
      && TypeBadgeColor("email") != TypeBadgeColor("review")
      && TypeBadgeColor("call") != TypeBadgeColor("review")
  {
  }

  /** The statuses a task row can hold. */
  const KnownStatuses: set<string> := {"pending", "in_progress", "completed"}

  /** The classes of the status badge. */
  function StatusBadgeColor(status: string): (r: string)
    ensures status == "pending" ==> r == "bg-yellow-100 text-yellow-800"
    ensures status == "in_progress" ==> r == "bg-blue-100 text-blue-800"
    ensures status == "completed" ==> r == "bg-green-100 text-green-800"
    ensures status !in KnownStatuses ==> r == GrayBadge
  {
    match status
    case "pending" => "bg-yellow-100 text-yellow-800"
    case "in_progress" => "bg-blue-100 text-blue-800"
    case "completed" => "bg-green-100 text-green-800"
    case _ => GrayBadge
  }

  /** A status gets a colour of its own exactly when it is one of the three,
      and a freshly created task shows the pending colour. */
  lemma StatusBadgeMatchesKnownStatuses(status: string)
    ensures StatusBadgeColor(status) != GrayBadge <==> status in KnownStatuses
    ensures StatusBadgeColor("pending") == "bg-yellow-100 text-yellow-800"
  {
  }

  /** The id column: the first eight characters (all of a shorter id) and "...". */
  function ShortId(applicationId: string): (r: string)
    ensures |applicationId| >= 8 ==> r == applicationId[..8] + "..."
    ensures |applicationId| < 8 ==> r == applicationId + "..."
  {
    (if |applicationId| < 8 then applicationId else applicationId[..8]) + "..."
  }

  /** Any two full UUIDs that differ in their first group show different ids. */
  lemma ShortIdKeepsFirstGroup(a: string, b: string)
    requires |a| == 36 && |b| == 36 && a[..8] != b[..8]
    ensures ShortId(a) != ShortId(b)
  {
    assert ShortId(a)[..8] == a[..8];
    assert ShortId(b)[..8] == b[..8];
  }

  /** The description column: the description, or "-" when it is absent or empty. */
  function DescriptionText(description: Option<string>): (r: string)
    ensures r != ""
    ensures description.Some? && description.value != "" ==> r == description.value
    ensures description.None? || description.value == "" ==> r == "-"
  {
    if description.Some? && description.value != "" then description.value else "-"
  }

  /** The decimal digits of `n`, without leading zeros. */
  function Decimal(n: nat): (r: string)
    ensures |r| > 0
    ensures forall i :: 0 <= i < |r| ==> '0' <= r[i] <= '9'
    ensures r[0] == '0' ==> n == 0
  {
    if n < 10 then ["0123456789"[n]] else Decimal(n / 10) + ["0123456789"[n % 10]]
  }

  /** The number a string of decimal digits denotes. */
  function DigitsValue(s: string): nat
    requires forall i :: 0 <= i < |s| ==> '0' <= s[i] <= '9'
  {
    if |s| == 0 then 0 else DigitsValue(s[..|s| - 1]) * 10 + (s[|s| - 1] as int - '0' as int)
  }

  /** Reading the digits back gives the count that was written. */
  lemma {:induction false} DecimalValue(n: nat)
    ensures DigitsValue(Decimal(n)) == n
  {
    var r := Decimal(n);
    if n < 10 {
      assert r[..0] == [];
    } else {
      DecimalValue(n / 10);
      assert r[..|r| - 1] == Decimal(n / 10);
    }
  }

  /** "task" for exactly one, "tasks" otherwise. */
  function Noun(count: nat): (r: string)
    ensures r == "task" <==> count == 1
    ensures r == "tasks" <==> count != 1
  {
    if count == 1 then "task" else "tasks"
  }

  /** The count line, shown only when there is at least one task. */
  function CountLine(count: nat): (r: Option<string>)
    ensures r.Some? <==> count > 0
    ensures r.Some? ==> r.value == "Showing " + Decimal(count) + " " + Noun(count) + " due today"
  {
    if count > 0 then Some("Showing " + Decimal(count) + " " + Noun(count) + " due today") else None
  }

  // ---------------------------------------------------------------------------
  // Rendering
  // ---------------------------------------------------------------------------

  /** The error the query holds: an Error object with its message, or some other thrown value. */
  datatype FetchError = ErrorObject(message: string) | OtherThrown

  /** One table row as displayed; the due time's clock formatting is not modelled. */
  datatype RowView = RowView(
    typeLabel: string,
    typeClass: string,
    shortId: string,
    dueAt: int,
    status: string,
    statusClass: string,
    description: string,
    taskId: string)

  datatype ListView = EmptyState | TaskTable(rows: seq<RowView>)

  /** What the page shows below its header. */
  datatype View = View(
    spinner: bool,
    errorBox: Option<string>,
    list: Option<ListView>,
    countLine: Option<string>)

  function RowOf(t: Task): RowView
  {
    RowView(t.taskType, TypeBadgeColor(t.taskType), ShortId(t.applicationId), t.dueAt,
            t.status, StatusBadgeColor(t.status), DescriptionText(t.description), t.id)
  }

  function ErrorText(e: FetchError): string
  {
    match e
    case ErrorObject(m) => "Error: " + m
    case OtherThrown => "Error: Failed to fetch tasks"
  }

  /** The render branches: the spinner while loading, the error box when
      the query failed, and the list region only when neither holds; inside
      it the empty state exactly for zero tasks, else the table, with the
      count line. */
  function Render(isLoading: bool, error: Option<FetchError>, tasks: seq<Task>): (v: View)
    ensures v.spinner <==> isLoading
    ensures v.errorBox.Some? <==> error.Some?
    ensures error.Some? && error.value.ErrorObject? ==> v.errorBox == Some("Error: " + error.value.message)
    ensures error.Some? && error.value.OtherThrown? ==> v.errorBox == Some("Error: Failed to fetch tasks")
    ensures v.list.Some? <==> !isLoading && error.None?
    ensures v.list == Some(EmptyState) <==> !isLoading && error.None? && |tasks| == 0
    ensures v.list.Some? && v.list.value.TaskTable? ==>
      |v.list.value.rows| == |tasks| && |tasks| > 0
      && forall i :: 0 <= i < |tasks| ==> v.list.value.rows[i] == RowOf(tasks[i])
    ensures v.countLine.Some? <==> !isLoading && error.None? && |tasks| > 0
    ensures v.countLine == (if !isLoading && error.None? then CountLine(|tasks|) else None)
  {
    var listShown := !isLoading && error.None?;
    View(
      isLoading,
      if error.Some? then Some(ErrorText(error.value)) else None,
      if !listShown then None
      else if |tasks| == 0 then Some(EmptyState)
      else Some(TaskTable(seq(|tasks|, i requires 0 <= i < |tasks| => RowOf(tasks[i])))),
      if listShown then CountLine(|tasks|) else None)
  }

  /** When the query is not both loading and failed, which is how the page
      drives it, exactly one of spinner, error box, empty state and table shows. */
  lemma OneBranchShows(isLoading: bool, error: Option<FetchError>, tasks: seq<Task>)
    requires !(isLoading && error.Some?)
    ensures BranchesShown(Render(isLoading, error, tasks)) == 1
  {
  }

  /** How many of spinner, error box, empty state and table a view shows. */
  function BranchesShown(v: View): nat
  {
    (if v.spinner then 1 else 0) + (if v.errorBox.Some? then 1 else 0)
    + (if v.list == Some(EmptyState) then 1 else 0)
    + (if v.list.Some? && v.list.value.TaskTable? then 1 else 0)
  }

  /** A page in its invariant shows exactly one branch for its query state. */
  lemma PageShowsOneBranch(page: TodayPage)
    requires page.Valid()
    ensures BranchesShown(Render(page.isLoading, page.error, page.data)) == 1
  {
    OneBranchShows(page.isLoading, page.error, page.data);
  }

  // ---------------------------------------------------------------------------
  // The page
  // ---------------------------------------------------------------------------

  /** The page together with the table it reads and updates. */
  class TodayPage {
    var table: seq<Task>
    var isLoading: bool
    var error: Option<FetchError>
    var data: seq<Task>

    /** The page never holds a loading query and an error at once. */
    predicate Valid()
      reads this
    {
      !(isLoading && error.Some?)
    }

    /** On mount the query is loading and the list defaults to empty. */
    constructor (initial: seq<Task>)
      ensures Valid()
      ensures table == initial && isLoading && error == None && data == []
    {
      table := initial;
      isLoading := true;
      error := None;
      data := [];
    }

    /** One run of the query for the window [startOfDay, startOfNextDay):
        on success the list is `TodayList` of the table; on failure the
        error is kept and the previous list stays. */
    method Fetch(startOfDay: int, startOfNextDay: int, failure: Option<FetchError>)
      requires Valid()
      modifies this
      ensures Valid()
      ensures table == old(table) && !isLoading && error == failure
      ensures failure.None? ==> data == TodayList(table, startOfDay, startOfNextDay)
      ensures failure.Some? ==> data == old(data)
    {
      isLoading := false;
      error := failure;
      if failure.None? {
        data := TodayList(table, startOfDay, startOfNextDay);
      }
    }

    /** The mark-complete action. A failed update changes nothing, raises
        the alert and triggers no refetch; a successful one updates the row
        and refetches the list, which then no longer holds the task. */
    method MarkComplete(taskId: string, now: int, updateError: Option<string>,
                        startOfDay: int, startOfNextDay: int, refetchFailure: Option<FetchError>)
      returns (alert: Option<string>, refetched: bool)
      requires Valid()
      modifies this
      ensures Valid()
      ensures updateError.Some? ==>
        alert == Some(AlertText(updateError.value)) && !refetched
        && table == old(table) && isLoading == old(isLoading) && error == old(error) && data == old(data)
      ensures updateError.None? ==>
        alert == None && refetched && table == MarkedComplete(old(table), taskId, now)
        && !isLoading && error == refetchFailure
        && (refetchFailure.None? ==> data == TodayList(table, startOfDay, startOfNextDay))
        && (refetchFailure.Some? ==> data == old(data))
      ensures updateError.None? && refetchFailure.None? ==> forall t :: t in data ==> t.id != taskId
    {
      match updateError
      case Some(message) =>
        alert, refetched := Some(AlertText(message)), false;
      case None =>
        table := MarkedComplete(table, taskId, now);
        Fetch(startOfDay, startOfNextDay, refetchFailure);
        MarkedTaskLeavesList(old(table), taskId, now, startOfDay, startOfNextDay);
        alert, refetched := None, true;
    }
  }
}
