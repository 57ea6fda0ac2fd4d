/**
 * The project details hook: one project with its tasks, and the time entries
 * logged against it, condensed into total hours, revenue, hours per task
 * (most worked first) and an activity chart of hours per day (oldest first).
 * The two query answers are parameters.
 */
module ProjectDetails {
  import opened Common
  import opened Grouping

  datatype TaskRow = TaskRow(id: string, name: string, status: string)

  /** The `projects` row with its embedded `tasks(*)`. */
  datatype ProjectRow = ProjectRow(id: string, name: string, hourlyRate: Option<real>, tasks: seq<TaskRow>)

  /** The selected columns `total_hours, clock_in, task_id` of a time entry; `clock_in` is its ISO text. */
  datatype TimeRow = TimeRow(totalHours: Option<real>, clockIn: string, taskId: Option<string>)

  datatype TaskStats = TaskStats(id: string, name: string, status: string, totalHours: real)

  datatype ChartPoint = ChartPoint(date: string, hours: real)

  datatype Details = Details(project: ProjectRow, totalHours: real, totalRevenue: real,
                             taskStats: seq<TaskStats>, activityChart: seq<ChartPoint>)

  /** A query answer: its data, or the message of its error. */
  datatype Fetched<T> = Ok(value: T) | Err(message: string)

  /** `e.total_hours || 0`. */
  function Hours(e: TimeRow): real {
    NumOr(e.totalHours, 0.0)
  }

  function HoursOf(): TimeRow -> real {
    (e: TimeRow) => Hours(e)
  }

  /** `if (e.task_id)`: the task of an entry, when it has a non-empty one. */
  function TaskOf(e: TimeRow): (r: Option<string>)
    ensures r.Some? <==> e.taskId.Some? && e.taskId.value != ""
    ensures r.Some? ==> r == e.taskId
  {
    if e.taskId.Some? && e.taskId.value != "" then e.taskId else None
  }

  /** `e.clock_in.split('T')[0]`: the date part of the entry's start. */
  function DateOf(e: TimeRow): (d: string)
    ensures 'T' !in d
  {
    DatePart(e.clockIn)
  }

  function DateKey(): TimeRow -> string {
    (e: TimeRow) => DateOf(e)
  }

  // ---------------------------------------------------------------------------
  // Totals

  /** `totalHours * (hourly_rate || 0)`. */
  function Revenue(project: ProjectRow, entries: seq<TimeRow>): real {
    Total(entries, HoursOf()) * NumOr(project.hourlyRate, 0.0)
  }

  // ---------------------------------------------------------------------------
  // Hours per task

  /** The hours of the entries whose task is `id`. */
  function TaskHours(entries: seq<TimeRow>, id: string): real {
    if entries == [] then 0.0
    else
      var e := entries[|entries| - 1];
      TaskHours(entries[..|entries| - 1], id) + (if TaskOf(e) == Some(id) then Hours(e) else 0.0)
  }

  ghost predicate HasTask(entries: seq<TimeRow>, id: string) {
    exists i :: 0 <= i < |entries| && TaskOf(entries[i]) == Some(id)
  }

  lemma TaskHoursStep(entries: seq<TimeRow>, e: TimeRow, id: string)
    ensures TaskHours(entries + [e], id) == TaskHours(entries, id) + (if TaskOf(e) == Some(id) then Hours(e) else 0.0)
    ensures HasTask(entries + [e], id) <==> HasTask(entries, id) || TaskOf(e) == Some(id)
  {
    assert (entries + [e])[..|entries + [e]| - 1] == entries;
    if HasTask(entries + [e], id) {
      var i :| 0 <= i < |entries + [e]| && TaskOf((entries + [e])[i]) == Some(id);
      if i < |entries| {
        assert (entries + [e])[i] == entries[i];
      }
    }
    if HasTask(entries, id) {
      var i :| 0 <= i < |entries| && TaskOf(entries[i]) == Some(id);
      assert (entries + [e])[i] == entries[i];
    }
    if TaskOf(e) == Some(id) {
      assert (entries + [e])[|entries|] == e;
    }
  }

  /** A task no entry is logged against has no hours; in particular a task with an empty id. */
  lemma {:induction false} TaskHoursAbsent(entries: seq<TimeRow>, id: string)
    requires !HasTask(entries, id)
    ensures TaskHours(entries, id) == 0.0
    decreases |entries|
  {
    if entries != [] {
      var init := entries[..|entries| - 1];
      var e := entries[|entries| - 1];
      assert entries == init + [e];
      TaskHoursStep(init, e, id);
      TaskHoursAbsent(init, id);
    }
  }

  /** `m` is the task map built from `entries`. */
  ghost predicate TaskMapOf(entries: seq<TimeRow>, m: map<string, real>) {
    && (forall id :: id in m <==> HasTask(entries, id))
    && (forall id :: id in m ==> m[id] == TaskHours(entries, id))
  }

  /** The map after one more entry: its task's hours grow by the entry's. */
  function AddTask(m: map<string, real>, e: TimeRow): map<string, real> {
    if TaskOf(e).Some? then
      var t := TaskOf(e).value;
      m[t := (if t in m then m[t] else 0.0) + Hours(e)]
    else m
  }

  lemma TaskMapStep(entries: seq<TimeRow>, e: TimeRow, m: map<string, real>)
    requires TaskMapOf(entries, m)
    ensures TaskMapOf(entries + [e], AddTask(m, e))
  {
    var m' := AddTask(m, e);
    forall id
      ensures id in m' <==> HasTask(entries + [e], id)
      ensures id in m' ==> m'[id] == TaskHours(entries + [e], id)
    {
      TaskHoursStep(entries, e, id);
      if id !in m {
        TaskHoursAbsent(entries, id);
      }
    }
  }

  /** The `forEach` that fills `taskMap`: each entry with a task adds its hours to that task's. */
  method TaskMap(entries: seq<TimeRow>) returns (m: map<string, real>)
    ensures forall id :: id in m <==> HasTask(entries, id)
    ensures forall id :: id in m ==> m[id] == TaskHours(entries, id)
  {
    m := map[];
    var i := 0;
    ghost var seen: seq<TimeRow> := [];
    while i < |entries|
      invariant 0 <= i <= |entries| && seen == entries[..i]
      invariant TaskMapOf(seen, m)
    {
      var e := entries[i];
      TaskMapStep(seen, e, m);
      if e.taskId.Some? && e.taskId.value != "" {
        var t := e.taskId.value;
        m := m[t := (if t in m then m[t] else 0.0) + Hours(e)];
      }
      PrefixStep(entries, i);
      seen := seen + [e];
      i := i + 1;
    }
    PrefixAll(entries);
  }

  /** `taskMap.get(t.id) || 0`: the task's row. */
  function StatOf(t: TaskRow, m: map<string, real>): TaskStats {
    TaskStats(t.id, t.name, t.status, if t.id in m then m[t.id] else 0.0)
  }

  function Stats(tasks: seq<TaskRow>, m: map<string, real>): (r: seq<TaskStats>)
    ensures |r| == |tasks|
    ensures forall j :: 0 <= j < |tasks| ==> r[j] == StatOf(tasks[j], m)
  {
    seq(|tasks|, j requires 0 <= j < |tasks| => StatOf(tasks[j], m))
  }

  /** Out of the task map, every task's row holds the hours logged against it, 0 when there are none. */
  lemma StatHours(entries: seq<TimeRow>, m: map<string, real>, t: TaskRow)
    requires TaskMapOf(entries, m)
    ensures StatOf(t, m) == TaskStats(t.id, t.name, t.status, TaskHours(entries, t.id))
  {
    if t.id !in m {
      TaskHoursAbsent(entries, t.id);
    }
  }

  predicate MostHoursFirst(s: seq<TaskStats>) {
    forall i, j :: 0 <= i < j < |s| ==> s[i].totalHours >= s[j].totalHours
  }

  /** Places `x` after every row with at least its hours. */
  function InsertByHours(x: TaskStats, s: seq<TaskStats>): (r: seq<TaskStats>)
    requires MostHoursFirst(s)
    ensures |r| == |s| + 1 && (r[0] == x || (s != [] && r[0] == s[0]))
    ensures MostHoursFirst(r)
    ensures multiset(r) == multiset(s) + multiset{x}
  {
    if s == [] then [x]
    else if s[0].totalHours < x.totalHours then [x] + s
    else
      var rest := InsertByHours(x, s[1..]);
      KeepHead(x, s, rest);
      [s[0]] + rest
  }

  /** A row with no more hours than the head of sorted rows goes into their tail. */
  lemma KeepHead(x: TaskStats, s: seq<TaskStats>, rest: seq<TaskStats>)
    requires s != [] && MostHoursFirst(s) && x.totalHours <= s[0].totalHours
    requires MostHoursFirst(rest) && |rest| >= 1 && (rest[0] == x || (|s| > 1 && rest[0] == s[1]))
    requires multiset(rest) == multiset(s[1..]) + multiset{x}
    ensures MostHoursFirst([s[0]] + rest)
    ensures multiset([s[0]] + rest) == multiset(s) + multiset{x}
  {
    assert s == [s[0]] + s[1..];
  }

  /** `.sort((a, b) => b.total_hours - a.total_hours)`, as the stable insertion of each row in turn. */
  function SortByHours(s: seq<TaskStats>): (r: seq<TaskStats>)
    ensures MostHoursFirst(r)
    ensures multiset(r) == multiset(s)
  {
    if s == [] then []
    else
      assert s == s[..|s| - 1] + [s[|s| - 1]];
      InsertByHours(s[|s| - 1], SortByHours(s[..|s| - 1]))
  }

  // ---------------------------------------------------------------------------
  // Hours per day

  /** `names` and `m` are the chart map built from `entries`: its dates in creation order and their hours. */
  ghost predicate ChartMapOf(entries: seq<TimeRow>, dates: seq<string>, m: map<string, real>) {
    && dates == Keys(entries, DateKey())
    && (forall d :: d in m <==> d in dates)
    && (forall d :: d in m ==> m[d] == SumWhere(entries, DateKey(), HoursOf(), d))
  }

  /** The hours of day `d` so far, 0 before its first entry. */
  function DayHours(m: map<string, real>, d: string): real {
    if d in m then m[d] else 0.0
  }

  lemma ChartMapStep(entries: seq<TimeRow>, e: TimeRow, dates: seq<string>, m: map<string, real>,
                     dates': seq<string>, m': map<string, real>)
    requires ChartMapOf(entries, dates, m)
    requires dates' == if DateOf(e) in m then dates else dates + [DateOf(e)]
    requires m' == m[DateOf(e) := DayHours(m, DateOf(e)) + Hours(e)]
    ensures ChartMapOf(entries + [e], dates', m')
  {
    KeysStep(entries, e, DateKey());
    forall d | d in m'
      ensures m'[d] == SumWhere(entries + [e], DateKey(), HoursOf(), d)
    {
      SumWhereStep(entries, e, DateKey(), HoursOf(), d);
      if d == DateOf(e) && d !in m {
        KeysFacts(entries, DateKey());
        SumWhereAbsent(entries, DateKey(), HoursOf(), d);
      }
    }
  }

  /** The `forEach` that fills `chartMap`; `dates` is the order in which its keys were created. */
  method ChartMap(entries: seq<TimeRow>) returns (dates: seq<string>, m: map<string, real>)
    ensures dates == Keys(entries, DateKey())
    ensures forall d :: d in m <==> d in dates
    ensures forall d :: d in m ==> m[d] == SumWhere(entries, DateKey(), HoursOf(), d)
  {
    dates, m := [], map[];
    var i := 0;
    ghost var seen: seq<TimeRow> := [];
    while i < |entries|
      invariant 0 <= i <= |entries| && seen == entries[..i]
      invariant ChartMapOf(seen, dates, m)
    {
      var e := entries[i];
      var date := DateOf(e);
      ghost var dates0, m0 := dates, m;
      if date !in m {
        dates := dates + [date];
      }
      m := m[date := DayHours(m, date) + Hours(e)];
      ChartMapStep(seen, e, dates0, m0, dates, m);
      PrefixStep(entries, i);
      seen := seen + [e];
      i := i + 1;
    }
    PrefixAll(entries);
  }

  /** `Array.from(chartMap.entries()).map(([date, hours]) => ({ date, hours }))`. */
  function Points(dates: seq<string>, m: map<string, real>): (r: seq<ChartPoint>)
    requires forall j :: 0 <= j < |dates| ==> dates[j] in m
    ensures |r| == |dates|
    ensures forall j :: 0 <= j < |dates| ==> r[j] == ChartPoint(dates[j], m[dates[j]])
  {
    seq(|dates|, j requires 0 <= j < |dates| => ChartPoint(dates[j], m[dates[j]]))
  }

  /** Code-point order on texts: a proper prefix comes first, otherwise the first differing character decides. */
  predicate TextBefore(a: string, b: string) {
    if a == [] then b != []
    else if b == [] then false
    else if a[0] != b[0] then a[0] < b[0]
    else TextBefore(a[1..], b[1..])
  }

  lemma {:induction false} TextBeforeIrreflexive(a: string)
    ensures !TextBefore(a, a)
  {
    if a != [] {
      TextBeforeIrreflexive(a[1..]);
    }
  }

  lemma {:induction false} TextBeforeTotal(a: string, b: string)
    ensures a == b || TextBefore(a, b) || TextBefore(b, a)
  {
    if a != [] && b != [] && a[0] == b[0] {
      TextBeforeTotal(a[1..], b[1..]);
      if a[1..] == b[1..] {
        assert a == [a[0]] + a[1..] && b == [b[0]] + b[1..];
      }
    }
  }

  lemma {:induction false} TextBeforeTransitive(a: string, b: string, c: string)
    requires TextBefore(a, b) && TextBefore(b, c)
    ensures TextBefore(a, c)
  {
    if a != [] && a[0] == b[0] && b[0] == c[0] {
      TextBeforeTransitive(a[1..], b[1..], c[1..]);
    }
  }

  lemma {:induction false} TextBeforeAsymmetric(a: string, b: string)
    requires TextBefore(a, b)
    ensures !TextBefore(b, a)
  {
    if a != [] && a[0] == b[0] {
      TextBeforeAsymmetric(a[1..], b[1..]);
    }
  }

  predicate EarliestFirst(s: seq<ChartPoint>) {
    forall i, j :: 0 <= i < j < |s| ==> TextBefore(s[i].date, s[j].date)
  }

  /** Places `x` before the first point of a later date. */
  function InsertByDate(x: ChartPoint, s: seq<ChartPoint>): (r: seq<ChartPoint>)
    requires EarliestFirst(s)
    requires forall k :: 0 <= k < |s| ==> s[k].date != x.date
    ensures |r| == |s| + 1 && (r[0] == x || (s != [] && r[0] == s[0]))
    ensures EarliestFirst(r)
    ensures multiset(r) == multiset(s) + multiset{x}
  {
    if s == [] then [x]
    else if TextBefore(x.date, s[0].date) then
      BeforeAll(x, s);
      [x] + s
    else
      assert TextBefore(s[0].date, x.date) by {
        TextBeforeTotal(x.date, s[0].date);
      }
      var rest := InsertByDate(x, s[1..]);
      InsertAfterHead(x, s, rest);
      [s[0]] + rest
  }

  /** A point after the head of sorted points goes into their tail. */
  lemma InsertAfterHead(x: ChartPoint, s: seq<ChartPoint>, rest: seq<ChartPoint>)
    requires s != [] && EarliestFirst(s) && TextBefore(s[0].date, x.date)
    requires EarliestFirst(rest) && |rest| >= 1 && (rest[0] == x || (|s| > 1 && rest[0] == s[1]))
    requires multiset(rest) == multiset(s[1..]) + multiset{x}
    ensures EarliestFirst([s[0]] + rest)
    ensures multiset([s[0]] + rest) == multiset(s) + multiset{x}
  {
    assert s == [s[0]] + s[1..];
    BeforeAll(s[0], rest);
  }

  /** A point before the first of sorted points is before all of them. */
  lemma BeforeAll(x: ChartPoint, s: seq<ChartPoint>)
    requires EarliestFirst(s) && (s != [] ==> TextBefore(x.date, s[0].date))
    ensures EarliestFirst([x] + s)
  {
    forall k | 0 < k < |s| ensures TextBefore(x.date, s[k].date) {
      TextBeforeTransitive(x.date, s[0].date, s[k].date);
    }
  }

  predicate DistinctDates(s: seq<ChartPoint>) {
    forall i, j :: 0 <= i < j < |s| ==> s[i].date != s[j].date
  }

  /** `.sort((a, b) => a.date.localeCompare(b.date))` on points of distinct dates. */
  function SortByDate(s: seq<ChartPoint>): (r: seq<ChartPoint>)
    requires DistinctDates(s)
    ensures EarliestFirst(r)
    ensures multiset(r) == multiset(s)
  {
    if s == [] then []
    else
      var init := s[..|s| - 1];
      var x := s[|s| - 1];
      assert s == init + [x];
      var sorted := SortByDate(init);
      assert forall k :: 0 <= k < |sorted| ==> sorted[k].date != x.date by {
        forall k | 0 <= k < |sorted| ensures sorted[k].date != x.date {
          assert sorted[k] in multiset(init);
        }
      }
      InsertByDate(x, sorted)
  }

  /** The distinct dates make points of distinct dates. */
  lemma PointsDistinct(entries: seq<TimeRow>, dates: seq<string>, m: map<string, real>)
    requires dates == Keys(entries, DateKey()) && forall d :: d in m <==> d in dates
    ensures DistinctDates(Points(dates, m))
  {
    KeysFacts(entries, DateKey());
  }

  // ---------------------------------------------------------------------------
  // The hook

  /** Each task's row with the hours logged against it, in the project's order. */
  ghost function TaskStatsOf(tasks: seq<TaskRow>, entries: seq<TimeRow>): (r: seq<TaskStats>)
    ensures |r| == |tasks|
  {
    seq(|tasks|, j requires 0 <= j < |tasks| => TaskStats(tasks[j].id, tasks[j].name, tasks[j].status, TaskHours(entries, tasks[j].id)))
  }

  /** `taskStats`: every task of the project with its hours, most worked first. */
  method RankTasks(tasks: seq<TaskRow>, entries: seq<TimeRow>) returns (r: seq<TaskStats>)
    ensures |r| == |tasks| && MostHoursFirst(r)
    ensures multiset(r) == multiset(TaskStatsOf(tasks, entries))
  {
    var m := TaskMap(entries);
    var stats := Stats(tasks, m);
    forall j | 0 <= j < |tasks| ensures stats[j] == TaskStatsOf(tasks, entries)[j] {
      StatHours(entries, m, tasks[j]);
    }
    assert stats == TaskStatsOf(tasks, entries);
    r := SortByHours(stats);
    assert |r| == |multiset(r)| == |multiset(stats)| == |stats|;
  }

  /** `activityChart`: one point per day with entries, holding that day's hours, earliest day first. */
  method ActivityChart(entries: seq<TimeRow>) returns (chart: seq<ChartPoint>)
    ensures |chart| == |Keys(entries, DateKey())| && EarliestFirst(chart)
    ensures forall c :: c in chart <==>
      c.date in Keys(entries, DateKey()) && c.hours == SumWhere(entries, DateKey(), HoursOf(), c.date)
  {
    var dates, cm := ChartMap(entries);
    PointsDistinct(entries, dates, cm);
    var points := Points(dates, cm);
    chart := SortByDate(points);
    ChartContents(entries, dates, cm, points, chart);
  }

  /** Everything the hook derives from the project and its entries. */
  method Condense(p: ProjectRow, entries: seq<TimeRow>) returns (d: Details)
    ensures d.project == p
    ensures d.totalHours == Total(entries, HoursOf()) && d.totalRevenue == Revenue(p, entries)
    ensures |d.taskStats| == |p.tasks| && MostHoursFirst(d.taskStats)
    ensures multiset(d.taskStats) == multiset(TaskStatsOf(p.tasks, entries))
    ensures |d.activityChart| == |Keys(entries, DateKey())| && EarliestFirst(d.activityChart)
    ensures forall c :: c in d.activityChart <==>
      c.date in Keys(entries, DateKey()) && c.hours == SumWhere(entries, DateKey(), HoursOf(), c.date)
  {
    var totalHours := Total(entries, HoursOf());
    var stats := RankTasks(p.tasks, entries);
    var chart := ActivityChart(entries);
    d := Details(p, totalHours, totalHours * NumOr(p.hourlyRate, 0.0), stats, chart);
  }

  lemma ChartContents(entries: seq<TimeRow>, dates: seq<string>, m: map<string, real>,
                      points: seq<ChartPoint>, chart: seq<ChartPoint>)
    requires dates == Keys(entries, DateKey())
    requires forall d :: d in m <==> d in dates
    requires forall d :: d in m ==> m[d] == SumWhere(entries, DateKey(), HoursOf(), d)
    requires points == Points(dates, m) && multiset(chart) == multiset(points)
    ensures |chart| == |dates|
    ensures forall c :: c in chart <==> c.date in dates && c.hours == SumWhere(entries, DateKey(), HoursOf(), c.date)
  {
    assert |chart| == |multiset(chart)| == |multiset(points)| == |points|;
    forall c
      ensures c in chart <==> c.date in dates && c.hours == SumWhere(entries, DateKey(), HoursOf(), c.date)
    {
      assert c in chart <==> c in multiset(points);
      if c.date in dates && c.hours == SumWhere(entries, DateKey(), HoursOf(), c.date) {
        var j :| 0 <= j < |dates| && dates[j] == c.date;
        assert points[j] == c;
      }
    }
  }

  class ProjectDetailsHook {
    var project: Option<Details>
    var isLoading: bool
    var error: Option<string>

    constructor ()
      ensures project.None? && isLoading && error.None?
    {
      project := None;
      isLoading := true;
      error := None;
    }

    /**
     * The effect on `projectId`: nothing without an id. Otherwise an error of
     * either query becomes the message and leaves the project as it was; two
     * answers replace it by the condensed details. Loading always ends, and a
     * success does not clear an earlier message.
     */
    method Fetch(projectId: Option<string>, projectAnswer: Fetched<ProjectRow>, entriesAnswer: Fetched<Option<seq<TimeRow>>>)
      returns (entries: seq<TimeRow>)
      modifies this
      ensures projectId.None? || projectId.value == "" ==>
        project == old(project) && isLoading == old(isLoading) && error == old(error)
      ensures projectId.Some? && projectId.value != "" && (projectAnswer.Err? || entriesAnswer.Err?) ==>
        && project == old(project) && !isLoading
        && error == Some(if projectAnswer.Err? then projectAnswer.message else entriesAnswer.message)
      ensures projectId.Some? && projectId.value != "" && projectAnswer.Ok? && entriesAnswer.Ok? ==>
        && entries == (if entriesAnswer.value.Some? then entriesAnswer.value.value else [])
        && project.Some? && project.value.project == projectAnswer.value
        && project.value.totalHours == Total(entries, HoursOf())
        && project.value.totalRevenue == Revenue(projectAnswer.value, entries)
        && |project.value.taskStats| == |projectAnswer.value.tasks| && MostHoursFirst(project.value.taskStats)
        && multiset(project.value.taskStats) == multiset(TaskStatsOf(projectAnswer.value.tasks, entries))
        && |project.value.activityChart| == |Keys(entries, DateKey())| && EarliestFirst(project.value.activityChart)
        && (forall c :: c in project.value.activityChart <==>
              c.date in Keys(entries, DateKey()) && c.hours == SumWhere(entries, DateKey(), HoursOf(), c.date))
        && !isLoading && error == old(error)
    {
      entries := [];
      if projectId.None? || projectId.value == "" {
        return;
      }
      isLoading := true;
      if projectAnswer.Err? {
        error := Some(projectAnswer.message);
      } else if entriesAnswer.Err? {
        error := Some(entriesAnswer.message);
      } else {
        entries := if entriesAnswer.value.Some? then entriesAnswer.value.value else [];
        var d := Condense(projectAnswer.value, entries);
        project := Some(d);
      }
      isLoading := false;
    }
  }

  /** Entries without a task count toward the total and toward no task. */
  lemma {:induction false} UntaskedCountOnlyInTotal(entries: seq<TimeRow>, e: TimeRow, id: string)
    requires TaskOf(e).None?
    ensures Total(entries + [e], HoursOf()) == Total(entries, HoursOf()) + Hours(e)
    ensures TaskHours(entries + [e], id) == TaskHours(entries, id)
  {
    TotalStep(entries, e, HoursOf());
    TaskHoursStep(entries, e, id);
  }
}
