/** The history page: the search, user, status and date filters over the
    task list, the expansion of multi-message tasks into one row per
    message, and when the retry and undo buttons are offered. Instants are
    milliseconds; the local midnights the date presets compare with are
    given, since they come from the browser's clock and time zone. */
module History {
  import opened Wrappers
  import opened Text
  import opened Schema
  import FrontEntities

  /** `dateRangePreset`. */
  datatype DatePreset = AllDates | Today | Yesterday | Last7Days | Last30Days | Custom

  /** Local midnight today, and the midnights 1, 7 and 30 days before. */
  datatype Midnights = Midnights(today: int, yesterday: int, weekAgo: int, monthAgo: int)

  /** The custom range's inputs: the start instant of the "from" date and
      the local midnight of the "to" date, each absent when left empty. */
  datatype CustomRange = CustomRange(from: Option<int>, toDay: Option<int>)

  /** The filter bar's state. */
  datatype Filters = Filters(
    search: string,
    user: string,
    status: string,
    preset: DatePreset,
    range: CustomRange)

  /** `filterDateTo + 'T23:59:59'`: the last second of the "to" day. */
  function EndOfDay(dayStart: int): (r: int)
    ensures r - dayStart == 86_399_000
  {
    dayStart + 86_399_000
  }

  /** `new Date(task.scheduledAt || task.createdAt)`. */
  function TaskDate(t: TaskRecord): int {
    if t.scheduledAt.Some? then t.scheduledAt.value else t.createdAt
  }

  predicate DateMatches(d: int, preset: DatePreset, m: Midnights, range: CustomRange) {
    match preset
    case AllDates => true
    case Today => d >= m.today
    case Yesterday => d >= m.yesterday && d < m.today
    case Last7Days => d >= m.weekAgo
    case Last30Days => d >= m.monthAgo
    case Custom =>
      (range.from.None? || d >= range.from.value)
      && (range.toDay.None? || d <= EndOfDay(range.toDay.value))
  }

  /** One task passes when its name contains the search (ignoring case),
      the user and status filters are empty or equal, and its date fits. */
  predicate Passes(t: TaskRecord, f: Filters, m: Midnights) {
    Contains(Lower(t.name), Lower(f.search))
    && (f.user == [] || t.createdByUsername == f.user)
    && (f.status == [] || StatusName(t.status) == f.status)
    && DateMatches(TaskDate(t), f.preset, m, f.range)
  }

  /** `filteredTasks`. */
  function Filtered(tasks: seq<TaskRecord>, f: Filters, m: Midnights): (r: seq<TaskRecord>)
    ensures |r| <= |tasks|
  {
    if tasks == [] then []
    else (if Passes(tasks[0], f, m) then [tasks[0]] else []) + Filtered(tasks[1..], f, m)
  }

  /** The shown tasks are exactly those passing every filter. */
  lemma {:induction false} FilteredMembers(tasks: seq<TaskRecord>, f: Filters, m: Midnights)
    ensures forall t :: t in Filtered(tasks, f, m) <==> t in tasks && Passes(t, f, m)
  {
    if tasks != [] {
      FilteredMembers(tasks[1..], f, m);
      assert tasks == [tasks[0]] + tasks[1..];
    }
  }

  /** The custom range includes both ends, the "to" day up to 23:59:59. */
  lemma CustomRangeInclusive(from: int, toDay: int, d: int)
    ensures DateMatches(d, Custom, Midnights(0, 0, 0, 0), CustomRange(Some(from), Some(toDay)))
            <==> from <= d <= toDay + 86_399_000
  {
  }

  /** The status filter's option values, as the page lists them. */
  const StatusOptions: seq<string> :=
    ["", "completed", "partially completed", "processing", "pending", "failed", "undone", "expired"]

  /** The "Partially Completed" option's value has a space where stored
      statuses have an underscore, so choosing it hides every task. */
  lemma PartiallyCompletedOptionMatchesNothing(tasks: seq<TaskRecord>, f: Filters, m: Midnights)
    requires f.status == StatusOptions[2]
    ensures Filtered(tasks, f, m) == []
  {
    forall st: TaskStatus ensures StatusName(st) != StatusOptions[2] {
      if st == PartiallyCompleted {
        assert StatusName(st)[9] != StatusOptions[2][9];
      }
    }
    NonePass(tasks, f, m);
  }

  /** When no task passes the filters, nothing is shown. */
  lemma {:induction false} NonePass(tasks: seq<TaskRecord>, f: Filters, m: Midnights)
    requires forall t :: t in tasks ==> !Passes(t, f, m)
    ensures Filtered(tasks, f, m) == []
  {
    if tasks != [] {
      assert tasks[0] in tasks;
      NonePass(tasks[1..], f, m);
    }
  }

  /** The option values with the stored spelling `partially_completed`. */
  const CorrectedStatusOptions: seq<string> :=
    ["", "completed", "partially_completed", "processing", "pending", "failed", "undone", "expired"]

  /** With the stored spelling, every non-empty option selects exactly the
      tasks in that status. */
  lemma CorrectedOptionsMatch(k: nat)
    requires 0 < k < |CorrectedStatusOptions|
    ensures exists st :: StatusName(st) == CorrectedStatusOptions[k]
              && forall t: TaskRecord :: (StatusName(t.status) == CorrectedStatusOptions[k] <==> t.status == st)
  {
    var st := ParseStatus(CorrectedStatusOptions[k]);
    assert st.Some?;
    forall t: TaskRecord ensures StatusName(t.status) == CorrectedStatusOptions[k] <==> t.status == st.value {
      var _ := ParseStatus(StatusName(t.status));
    }
  }

  // -------------------------------------------------------------- rows

  /** One table row: the task as spread, with its key, shown name, the
      parent's id for a part, and the text and media it shows. */
  datatype Row = Row(
    uniqueKey: string,
    name: string,
    parentTaskId: Option<string>,
    isVirtualPart: bool,
    text: string,
    mediaUrl: string,
    task: TaskRecord)

  /** `msg.mediaUrl || (msg.mediaUrls ? msg.mediaUrls[0] : null)`. */
  function PartMedia(msg: MessageDoc): string {
    FrontEntities.OrElse(msg.mediaUrl, if |msg.mediaUrls| > 0 then msg.mediaUrls[0] else "")
  }

  function PartRow(t: TaskRecord, i: nat): Row
    requires i < |t.content.messages|
  {
    var msg := t.content.messages[i];
    Row(t.taskId + "-part-" + NatToString(i), t.name + " (Part " + NatToString(i + 1) + ")",
        Some(t.taskId), true, msg.text, PartMedia(msg), t)
  }

  predicate IsExpanded(t: TaskRecord) {
    t.taskType == MultiMessageTask && |t.content.messages| > 0
  }

  /** The rows of one task. */
  function TaskRows(t: TaskRecord): (r: seq<Row>)
    ensures IsExpanded(t) ==> |r| == |t.content.messages|
                              && forall i :: 0 <= i < |r| ==> r[i] == PartRow(t, i)
    ensures !IsExpanded(t) ==> r == [Row(t.taskId, t.name, None, false, t.content.text, t.content.mediaUrl, t)]
  {
    if IsExpanded(t) then seq(|t.content.messages|, i requires 0 <= i < |t.content.messages| => PartRow(t, i))
    else [Row(t.taskId, t.name, None, false, t.content.text, t.content.mediaUrl, t)]
  }

  /** `displayTasks`: the rows of every filtered task, in order. */
  function DisplayRows(tasks: seq<TaskRecord>): seq<Row> {
    if tasks == [] then [] else TaskRows(tasks[0]) + DisplayRows(tasks[1..])
  }

  /** A multi-message task gives one row per message, each keyed
      `taskId-part-i`, named `name (Part i+1)` and pointing at its parent;
      the parts of one task have distinct keys and every action on a part
      addresses the parent task. */
  lemma PartRows(t: TaskRecord, i: nat, j: nat)
    requires IsExpanded(t) && i < j < |t.content.messages|
    ensures TaskRows(t)[i].uniqueKey != TaskRows(t)[j].uniqueKey
    ensures TaskRows(t)[i].parentTaskId == Some(t.taskId) && TaskRows(t)[i].task.taskId == t.taskId
    ensures TaskRows(t)[i].text == t.content.messages[i].text
  {
    var prefix := t.taskId + "-part-";
    var a, b := PartRow(t, i).uniqueKey, PartRow(t, j).uniqueKey;
    assert a == prefix + NatToString(i) && b == prefix + NatToString(j);
    assert a[|prefix|..] == NatToString(i);
    assert b[|prefix|..] == NatToString(j);
    NatToStringValue(i);
    NatToStringValue(j);
  }

  /** The number of rows: one per task, except one per message for the
      expanded tasks. */
  function RowCount(tasks: seq<TaskRecord>): nat {
    if tasks == [] then 0
    else (if IsExpanded(tasks[0]) then |tasks[0].content.messages| else 1) + RowCount(tasks[1..])
  }

  lemma {:induction false} DisplayRowCount(tasks: seq<TaskRecord>)
    ensures |DisplayRows(tasks)| == RowCount(tasks) >= |tasks|
  {
    if tasks != [] {
      DisplayRowCount(tasks[1..]);
    }
  }

  // ----------------------------------------------------------- actions

  /** Retry is offered on a failed task to the user who created it. */
  predicate CanRetry(row: Row, currentUser: Option<string>) {
    row.task.status == Failed && currentUser.Some? && row.task.createdByUsername == currentUser.value
  }

  /** Undo is offered on a completed or partially completed task. */
  predicate CanUndo(row: Row) {
    row.task.status == Completed || row.task.status == PartiallyCompleted
  }

  /** The two buttons never appear together, and a part row offers the
      same buttons as its task's own row would. */
  lemma ActionsExclusive(t: TaskRecord, i: nat, currentUser: Option<string>)
    requires IsExpanded(t) && i < |t.content.messages|
    ensures !(CanRetry(TaskRows(t)[i], currentUser) && CanUndo(TaskRows(t)[i]))
    ensures var whole := Row(t.taskId, t.name, None, false, t.content.text, t.content.mediaUrl, t);
      CanRetry(TaskRows(t)[i], currentUser) == CanRetry(whole, currentUser)
      && CanUndo(TaskRows(t)[i]) == CanUndo(whole)
  {
  }
}
