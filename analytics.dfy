/** The analytics page: reading Telegram's chart JSON into chart points,
    the engagement totals over every delivery receipt, the per-task sums of
    the activity list, and the success/failure chart rows. */
module Analytics {
  import opened Wrappers
  import opened Text
  import opened Schema

  // ------------------------------------------------------- chart graphs

  /** A column `["key", v1, v2, ...]`. */
  datatype Column = Column(key: string, values: seq<int>)

  /** A graph object: its `columns` and its optional `names` table. */
  datatype Graph = Graph(columns: Option<seq<Column>>, names: Option<map<string, string>>)

  /** A point's field: the x value's date label, a number, or `undefined`
      when the column is shorter than the x column. */
  datatype Cell = DateLabel(ts: int) | Num(v: int) | Undefined

  type Point = map<string, Cell>

  /** `columns.find(c => c[0] === 'x')`. */
  function FindX(cols: seq<Column>): (r: Option<Column>)
    ensures r.Some? ==> r.value in cols && r.value.key == "x"
    ensures r.None? <==> forall c :: c in cols ==> c.key != "x"
  {
    if cols == [] then None
    else if cols[0].key == "x" then Some(cols[0])
    else FindX(cols[1..])
  }

  /** `names ? names[key] : key`, lower-cased; `None` where `names` lacks
      the key and `toLowerCase` is called on `undefined`. */
  function FieldName(key: string, names: Option<map<string, string>>): Option<string> {
    if names.None? then Some(Lower(key))
    else if key in names.value then Some(Lower(names.value[key]))
    else None
  }

  /** `col[index + 1]`. */
  function CellAt(c: Column, i: nat): Cell {
    if i < |c.values| then Num(c.values[i]) else Undefined
  }

  /** Every non-x column has a name to lower-case. */
  predicate NamesResolve(cols: seq<Column>, names: Option<map<string, string>>) {
    forall c :: c in cols && c.key != "x" ==> FieldName(c.key, names).Some?
  }

  /** Point `i`: the date, then the `forEach` over the columns assigning each
      non-x column's cell under its name; a later column overwrites an
      earlier one of the same name. */
  function PointFor(cols: seq<Column>, names: Option<map<string, string>>, ts: int, i: nat): Result<Point, string> {
    if cols == [] then Ok(map["date" := DateLabel(ts)])
    else
      var c := cols[|cols| - 1];
      match PointFor(cols[..|cols| - 1], names, ts, i)
      case Err(e) => Err(e)
      case Ok(p) =>
        if c.key == "x" then Ok(p)
        else match FieldName(c.key, names)
          case None => Err("Cannot read properties of undefined (reading 'toLowerCase')")
          case Some(n) => Ok(p[n := CellAt(c, i)])
  }

  /** The points of the first `n` x values. */
  function PointsFor(cols: seq<Column>, names: Option<map<string, string>>, xs: seq<int>): Result<seq<Point>, string> {
    if xs == [] then Ok([])
    else match PointsFor(cols, names, xs[..|xs| - 1])
      case Err(e) => Err(e)
      case Ok(ps) =>
        match PointFor(cols, names, xs[|xs| - 1], |xs| - 1)
        case Err(e) => Err(e)
        case Ok(p) => Ok(ps + [p])
  }

  /** `parseTelegramGraph`. */
  function ParseGraph(g: Graph): Result<seq<Point>, string> {
    if g.columns.None? then Ok([])
    else match FindX(g.columns.value)
      case None => Ok([])
      case Some(x) => PointsFor(g.columns.value, g.names, x.values)
  }

  /** Without columns, or without an x column, there are no points. */
  lemma NoXNoPoints(g: Graph)
    requires g.columns.None? || forall c :: c in g.columns.value ==> c.key != "x"
    ensures ParseGraph(g) == Ok([])
  {
  }

  lemma {:induction false} PointForOk(cols: seq<Column>, names: Option<map<string, string>>, ts: int, i: nat)
    ensures PointFor(cols, names, ts, i).Ok? <==> NamesResolve(cols, names)
  {
    if cols != [] {
      PointForOk(cols[..|cols| - 1], names, ts, i);
      assert cols == cols[..|cols| - 1] + [cols[|cols| - 1]];
    }
  }

  /** A column's cell lands under its name unless a later column has the
      same name. */
  lemma {:induction false} PointForField(cols: seq<Column>, names: Option<map<string, string>>, ts: int, i: nat, k: nat)
    requires NamesResolve(cols, names)
    requires k < |cols| && cols[k].key != "x"
    requires forall m :: k < m < |cols| && cols[m].key != "x" ==>
               FieldName(cols[m].key, names) != FieldName(cols[k].key, names)
    ensures PointFor(cols, names, ts, i).Ok?
    ensures FieldName(cols[k].key, names).value in PointFor(cols, names, ts, i).value
    ensures PointFor(cols, names, ts, i).value[FieldName(cols[k].key, names).value] == CellAt(cols[k], i)
  {
    PointForOk(cols, names, ts, i);
    var init := cols[..|cols| - 1];
    assert forall c :: c in init ==> c in cols;
    PointForOk(init, names, ts, i);
    if k < |init| {
      PointForField(init, names, ts, i, k);
      assert cols[|cols| - 1] in cols;
    }
  }

  /** The date stays unless some column is itself named `date`. */
  lemma {:induction false} PointForDate(cols: seq<Column>, names: Option<map<string, string>>, ts: int, i: nat)
    requires NamesResolve(cols, names)
    requires forall c :: c in cols && c.key != "x" ==> FieldName(c.key, names) != Some("date")
    ensures PointFor(cols, names, ts, i).Ok? && "date" in PointFor(cols, names, ts, i).value
    ensures PointFor(cols, names, ts, i).value["date"] == DateLabel(ts)
  {
    PointForOk(cols, names, ts, i);
    if cols != [] {
      var init := cols[..|cols| - 1];
      assert forall c :: c in init ==> c in cols;
      PointForDate(init, names, ts, i);
      assert cols[|cols| - 1] in cols;
    }
  }

  lemma {:induction false} PointsForShape(cols: seq<Column>, names: Option<map<string, string>>, xs: seq<int>)
    ensures PointsFor(cols, names, xs).Ok? <==> xs == [] || NamesResolve(cols, names)
    ensures PointsFor(cols, names, xs).Ok? ==>
              var ps := PointsFor(cols, names, xs).value;
              |ps| == |xs| && forall i :: 0 <= i < |xs| ==> PointFor(cols, names, xs[i], i) == Ok(ps[i])
  {
    if xs != [] {
      var init := xs[..|xs| - 1];
      PointsForShape(cols, names, init);
      PointForOk(cols, names, xs[|xs| - 1], |xs| - 1);
      if PointsFor(cols, names, xs).Ok? {
        var ps := PointsFor(cols, names, xs).value;
        forall i | 0 <= i < |xs| ensures PointFor(cols, names, xs[i], i) == Ok(ps[i]) {
          if i < |init| {
            assert xs[i] == init[i];
          }
        }
      }
    }
  }

  /** A graph with an x column gives one point per x value, in order, and
      fails only when `names` lacks a column's key and there is a point to
      build. */
  lemma ParseGraphShape(g: Graph)
    requires g.columns.Some? && FindX(g.columns.value).Some?
    ensures var xs := FindX(g.columns.value).value.values;
      (ParseGraph(g).Ok? <==> xs == [] || NamesResolve(g.columns.value, g.names))
      && (ParseGraph(g).Ok? ==> |ParseGraph(g).value| == |xs|)
  {
    PointsForShape(g.columns.value, g.names, FindX(g.columns.value).value.values);
  }

  /** Point `i` holds column `k`'s `i`-th value under the column's
      lower-cased name, unless a later column takes the same name. */
  lemma ParseGraphField(g: Graph, i: nat, k: nat)
    requires g.columns.Some? && FindX(g.columns.value).Some? && ParseGraph(g).Ok?
    requires i < |FindX(g.columns.value).value.values|
    requires k < |g.columns.value| && g.columns.value[k].key != "x"
    requires forall m :: k < m < |g.columns.value| && g.columns.value[m].key != "x" ==>
               FieldName(g.columns.value[m].key, g.names) != FieldName(g.columns.value[k].key, g.names)
    ensures var cols := g.columns.value; var name := FieldName(cols[k].key, g.names);
      i < |ParseGraph(g).value| && name.Some? && name.value in ParseGraph(g).value[i]
      && ParseGraph(g).value[i][name.value] == CellAt(cols[k], i)
  {
    var cols := g.columns.value;
    var xs := FindX(cols).value.values;
    PointsForShape(cols, g.names, xs);
    PointForField(cols, g.names, xs[i], i, k);
  }

  // ---------------------------------------------------------- engagement

  datatype MetricKind = Views | Forwards | Replies | Reactions

  /** `msg.metrics?.<kind> || 0`; stored receipts carry every counter. */
  function MetricOf(r: Receipt, kind: MetricKind): int {
    match kind
    case Views => r.metrics.views
    case Forwards => r.metrics.forwards
    case Replies => r.metrics.replies
    case Reactions => r.metrics.reactions
  }

  /** One task's `sentMessages.reduce((a, m) => a + (m.metrics?.<kind> || 0), 0)`. */
  function ReceiptSum(rs: seq<Receipt>, kind: MetricKind): int {
    if rs == [] then 0 else ReceiptSum(rs[..|rs| - 1], kind) + MetricOf(rs[|rs| - 1], kind)
  }

  /** The page-wide total: every receipt of every task. */
  function TotalOf(tasks: seq<TaskRecord>, kind: MetricKind): int {
    if tasks == [] then 0 else TotalOf(tasks[..|tasks| - 1], kind) + ReceiptSum(tasks[|tasks| - 1].sentMessages, kind)
  }

  /** The nested `forEach` over tasks and their receipts, adding into the
      four running totals. */
  method Totals(tasks: seq<TaskRecord>) returns (views: int, forwards: int, replies: int, reactions: int)
    ensures views == TotalOf(tasks, Views) && forwards == TotalOf(tasks, Forwards)
    ensures replies == TotalOf(tasks, Replies) && reactions == TotalOf(tasks, Reactions)
  {
    views, forwards, replies, reactions := 0, 0, 0, 0;
    var i := 0;
    while i < |tasks|
      invariant 0 <= i <= |tasks|
      invariant views == TotalOf(tasks[..i], Views) && forwards == TotalOf(tasks[..i], Forwards)
      invariant replies == TotalOf(tasks[..i], Replies) && reactions == TotalOf(tasks[..i], Reactions)
    {
      assert tasks[..i + 1][..i] == tasks[..i];
      var rs := tasks[i].sentMessages;
      var j := 0;
      while j < |rs|
        invariant 0 <= j <= |rs|
        invariant views == TotalOf(tasks[..i], Views) + ReceiptSum(rs[..j], Views)
        invariant forwards == TotalOf(tasks[..i], Forwards) + ReceiptSum(rs[..j], Forwards)
        invariant replies == TotalOf(tasks[..i], Replies) + ReceiptSum(rs[..j], Replies)
        invariant reactions == TotalOf(tasks[..i], Reactions) + ReceiptSum(rs[..j], Reactions)
      {
        assert rs[..j + 1][..j] == rs[..j];
        var m := rs[j].metrics;
        views := views + m.views;
        forwards := forwards + m.forwards;
        replies := replies + m.replies;
        reactions := reactions + m.reactions;
        j := j + 1;
      }
      assert rs[..|rs|] == rs;
      i := i + 1;
    }
    assert tasks[..|tasks|] == tasks;
  }

  /** The totals add up over any split of the task list. */
  lemma {:induction false} TotalAppend(a: seq<TaskRecord>, b: seq<TaskRecord>, kind: MetricKind)
    ensures TotalOf(a + b, kind) == TotalOf(a, kind) + TotalOf(b, kind)
  {
    if b != [] {
      TotalAppend(a, b[..|b| - 1], kind);
      assert (a + b)[..|a + b| - 1] == a + b[..|b| - 1];
    } else {
      assert a + b == a;
    }
  }

  predicate CountersNonNegative(tasks: seq<TaskRecord>) {
    forall i, j :: 0 <= i < |tasks| && 0 <= j < |tasks[i].sentMessages| ==>
      var m := tasks[i].sentMessages[j].metrics;
      m.views >= 0 && m.forwards >= 0 && m.replies >= 0 && m.reactions >= 0
  }

  lemma {:induction false} ReceiptSumNonNegative(rs: seq<Receipt>, kind: MetricKind)
    requires forall j :: 0 <= j < |rs| ==> MetricOf(rs[j], kind) >= 0
    ensures ReceiptSum(rs, kind) >= 0
  {
    if rs != [] {
      ReceiptSumNonNegative(rs[..|rs| - 1], kind);
    }
  }

  /** With no negative counters, each task's sum in the activity list is
      within the page-wide total. */
  lemma {:induction false} TaskSumWithinTotal(tasks: seq<TaskRecord>, kind: MetricKind, k: nat)
    requires CountersNonNegative(tasks) && k < |tasks|
    ensures 0 <= ReceiptSum(tasks[k].sentMessages, kind) <= TotalOf(tasks, kind)
  {
    var init := tasks[..|tasks| - 1];
    var last := tasks[|tasks| - 1];
    ReceiptSumNonNegative(last.sentMessages, kind);
    ReceiptSumNonNegative(tasks[k].sentMessages, kind);
    TotalNonNegative(init, kind);
    if k < |init| {
      TaskSumWithinTotal(init, kind, k);
    }
  }

  lemma {:induction false} TotalNonNegative(tasks: seq<TaskRecord>, kind: MetricKind)
    requires CountersNonNegative(tasks)
    ensures TotalOf(tasks, kind) >= 0
  {
    if tasks != [] {
      TotalNonNegative(tasks[..|tasks| - 1], kind);
      ReceiptSumNonNegative(tasks[|tasks| - 1].sentMessages, kind);
    }
  }

  /** A row of the activity list: a task with its views and reactions. */
  datatype ActivityRow = ActivityRow(task: TaskRecord, views: int, reactions: int)

  /** `tasks.slice(0, 10)` with each task's receipt sums. */
  function RecentActivity(tasks: seq<TaskRecord>): (r: seq<ActivityRow>)
    ensures |r| == if |tasks| < 10 then |tasks| else 10
    ensures forall i :: 0 <= i < |r| ==>
      r[i].task == tasks[i] && r[i].views == ReceiptSum(tasks[i].sentMessages, Views)
      && r[i].reactions == ReceiptSum(tasks[i].sentMessages, Reactions)
  {
    var n := if |tasks| < 10 then |tasks| else 10;
    seq(n, i requires 0 <= i < n =>
      ActivityRow(tasks[i], ReceiptSum(tasks[i].sentMessages, Views), ReceiptSum(tasks[i].sentMessages, Reactions)))
  }

  // ---------------------------------------------------------- bar chart

  /** `{ name, success, failed, date }` for one task. */
  datatype ChartRow = ChartRow(name: string, success: int, failed: int, createdAt: int)

  function RowOf(t: TaskRecord): ChartRow {
    ChartRow(t.name, t.results.success, t.results.failed, t.createdAt)
  }

  /** `tasks.slice().reverse().map(...)`: the rows in reverse list order;
      the reversal works on a copy, so the task list keeps its order. */
  function ChartData(tasks: seq<TaskRecord>): (r: seq<ChartRow>)
    ensures |r| == |tasks|
  {
    if tasks == [] then [] else ChartData(tasks[1..]) + [RowOf(tasks[0])]
  }

  lemma {:induction false} ChartDataAt(tasks: seq<TaskRecord>)
    ensures forall i :: 0 <= i < |tasks| ==> ChartData(tasks)[i] == RowOf(tasks[|tasks| - 1 - i])
  {
    if tasks != [] {
      ChartDataAt(tasks[1..]);
    }
  }

  /** The list arrives newest first; the chart then runs oldest first. */
  lemma ChartOldestFirst(tasks: seq<TaskRecord>)
    requires forall i, j :: 0 <= i < j < |tasks| ==> tasks[i].createdAt >= tasks[j].createdAt
    ensures forall i, j :: 0 <= i < j < |tasks| ==> ChartData(tasks)[i].createdAt <= ChartData(tasks)[j].createdAt
  {
    ChartDataAt(tasks);
  }
}
