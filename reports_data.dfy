/**
 * The report source: the query built from the report filters, one condition
 * per active filter, and the rows of the answer flattened into report entries
 * with defaults for every missing name, colour and rate. Instants are integer
 * milliseconds; the local start and end of a day are parameters.
 */
module ReportsData {
  import opened Common

  /** A report row as every report view receives it. */
  datatype ReportEntry = ReportEntry(
    id: string, userId: string, clockIn: int, clockOut: Option<int>, totalHours: Option<real>,
    status: string, description: Option<string>, projectId: Option<string>, taskId: Option<string>,
    userName: string, userAvatar: Option<string>, projectName: string, projectColor: Option<string>,
    projectHourlyRate: real, taskName: string, estimatedHours: Option<real>)

  /** The embedded rows `projects(name, hourly_rate, color)`, `profiles(full_name, avatar_url)`, `tasks(name, estimated_hours)`. */
  datatype ProjectRef = ProjectRef(name: Option<string>, hourlyRate: Option<real>, color: Option<string>)
  datatype ProfileRef = ProfileRef(fullName: Option<string>, avatarUrl: Option<string>)
  datatype TaskRef = TaskRef(name: Option<string>, estimatedHours: Option<real>)

  /** A stored time entry with whatever of its project, profile and task the query could embed. */
  datatype EntryRow = EntryRow(
    id: string, organizationId: string, userId: string, clockIn: int, clockOut: Option<int>,
    totalHours: Option<real>, status: string, description: Option<string>,
    projectId: Option<string>, taskId: Option<string>,
    project: Option<ProjectRef>, profile: Option<ProfileRef>, task: Option<TaskRef>)

  /** The filters of the reports page; `"all"` (and for the task also `""`) means no filter. */
  datatype ReportFilters = ReportFilters(startDate: Option<int>, endDate: Option<int>,
                                         projectId: string, userId: string, taskId: string)

  datatype Column = OrganizationColumn | ProjectColumn | UserColumn | TaskColumn

  /** One condition added to the query: `eq`, `gte('clock_in', …)` or `lte('clock_in', …)`. */
  datatype Condition = Eq(column: Column, value: string) | ClockInFrom(t: int) | ClockInUntil(t: int)

  predicate Holds(c: Condition, row: EntryRow) {
    match c
    case Eq(OrganizationColumn, v) => row.organizationId == v
    case Eq(ProjectColumn, v) => row.projectId == Some(v)
    case Eq(UserColumn, v) => row.userId == v
    case Eq(TaskColumn, v) => row.taskId == Some(v)
    case ClockInFrom(t) => row.clockIn >= t
    case ClockInUntil(t) => row.clockIn <= t
  }

  predicate HoldsAll(query: seq<Condition>, row: EntryRow) {
    forall j :: 0 <= j < |query| ==> Holds(query[j], row)
  }

  lemma HoldsAllAppend(query: seq<Condition>, c: Condition, row: EntryRow)
    ensures HoldsAll(query + [c], row) <==> HoldsAll(query, row) && Holds(c, row)
  {
    if HoldsAll(query, row) && Holds(c, row) {
      forall j | 0 <= j < |query + [c]|
        ensures Holds((query + [c])[j], row)
      {
        if j < |query| {
          assert (query + [c])[j] == query[j];
        }
      }
    }
    if HoldsAll(query + [c], row) {
      forall j | 0 <= j < |query|
        ensures Holds(query[j], row)
      {
        assert (query + [c])[j] == query[j];
      }
      assert (query + [c])[|query|] == c;
    }
  }

  /**
   * The rows a report selects: those of the organization whose start lies from
   * the start of the start day to the end of the end day, both inclusive, and
   * that match each project, user and task filter that is set.
   */
  predicate Selected(organizationId: string, f: ReportFilters, startOfDay: int -> int, endOfDay: int -> int, row: EntryRow) {
    && row.organizationId == organizationId
    && (f.startDate.Some? ==> row.clockIn >= startOfDay(f.startDate.value))
    && (f.endDate.Some? ==> row.clockIn <= endOfDay(f.endDate.value))
    && (f.projectId != "all" ==> row.projectId == Some(f.projectId))
    && (f.userId != "all" ==> row.userId == f.userId)
    && (f.taskId != "" && f.taskId != "all" ==> row.taskId == Some(f.taskId))
  }

  /** With every filter off a report selects the whole organization. */
  lemma NoFilterSelectsOrganization(organizationId: string, startOfDay: int -> int, endOfDay: int -> int, row: EntryRow)
    ensures Selected(organizationId, ReportFilters(None, None, "all", "all", "all"), startOfDay, endOfDay, row)
      <==> row.organizationId == organizationId
  {
  }

  /** Formats a row: the defaults of `|| "Desconocido"`, `|| "Sin Proyecto"`, `|| "#cbd5e1"`, `|| 0`, `|| ""` and `|| null`. */
  function Format(row: EntryRow): (e: ReportEntry)
    ensures e.id == row.id && e.userId == row.userId && e.clockIn == row.clockIn && e.clockOut == row.clockOut
    ensures e.totalHours == row.totalHours && e.status == row.status && e.projectId == row.projectId && e.taskId == row.taskId
  {
    var profileName := if row.profile.Some? then row.profile.value.fullName else None;
    var avatar := if row.profile.Some? then row.profile.value.avatarUrl else None;
    var projectName := if row.project.Some? then row.project.value.name else None;
    var color := if row.project.Some? then row.project.value.color else None;
    var rate := if row.project.Some? then row.project.value.hourlyRate else None;
    var taskName := if row.task.Some? then row.task.value.name else None;
    var estimate := if row.task.Some? then row.task.value.estimatedHours else None;
    ReportEntry(
      row.id, row.userId, row.clockIn, row.clockOut, row.totalHours, row.status, row.description,
      row.projectId, row.taskId,
      TextOr(profileName, UnknownUser),
      if avatar.Some? && avatar.value != "" then avatar else None,
      TextOr(projectName, NoProject),
      Some(TextOr(color, DefaultColor)),
      NumOr(rate, 0.0),
      TextOr(taskName, ""),
      if estimate.Some? && estimate.value != 0.0 then estimate else None)
  }

  const UnknownUser: string := "Desconocido"
  const NoProject: string := "Sin Proyecto"
  const DefaultColor: string := "#cbd5e1"

  /** What the defaults guarantee of every formatted row. */
  lemma FormatDefaults(row: EntryRow)
    ensures Format(row).userName != "" && Format(row).projectName != ""
    ensures Format(row).projectColor.Some? && Format(row).projectColor.value != ""
    ensures row.project.None? ==>
      Format(row).projectName == NoProject && Format(row).projectColor == Some(DefaultColor) && Format(row).projectHourlyRate == 0.0
    ensures row.profile.None? ==> Format(row).userName == UnknownUser && Format(row).userAvatar.None?
    ensures row.task.None? ==> Format(row).taskName == "" && Format(row).estimatedHours.None?
    ensures Format(row).estimatedHours.None? || Format(row).estimatedHours.value != 0.0
  {
  }

  function Formatted(rows: seq<EntryRow>): (r: seq<ReportEntry>)
    ensures |r| == |rows|
    ensures forall k :: 0 <= k < |rows| ==> r[k] == Format(rows[k])
  {
    seq(|rows|, k requires 0 <= k < |rows| => Format(rows[k]))
  }

  predicate NewestFirst(rows: seq<EntryRow>) {
    forall i, j :: 0 <= i < j < |rows| ==> rows[i].clockIn >= rows[j].clockIn
  }

  /** Formatting keeps the newest-first order the query asks for. */
  lemma FormattedKeepsOrder(rows: seq<EntryRow>)
    requires NewestFirst(rows)
    ensures forall i, j :: 0 <= i < j < |rows| ==> Formatted(rows)[i].clockIn >= Formatted(rows)[j].clockIn
  {
  }

  /** `total_hours || 0`. */
  function Hours(e: ReportEntry): real {
    NumOr(e.totalHours, 0.0)
  }

  /** `(total_hours || 0) * (project_hourly_rate || 0)`. */
  function Amount(e: ReportEntry): real {
    Hours(e) * e.projectHourlyRate
  }

  function HoursOf(): ReportEntry -> real {
    (e: ReportEntry) => Hours(e)
  }

  function AmountOf(): ReportEntry -> real {
    (e: ReportEntry) => Amount(e)
  }

  function ProjectNameOf(): ReportEntry -> string {
    (e: ReportEntry) => e.projectName
  }

  function UserNameOf(): ReportEntry -> string {
    (e: ReportEntry) => e.userName
  }

  class ReportSource {
    var data: seq<ReportEntry>
    var isLoading: bool

    constructor ()
      ensures data == [] && !isLoading
    {
      data := [];
      isLoading := false;
    }

    /** The query of `fetchReport`, one condition added after another as each filter applies. */
    static method BuildQuery(organizationId: string, f: ReportFilters, startOfDay: int -> int, endOfDay: int -> int)
      returns (query: seq<Condition>)
      ensures 1 <= |query| <= 6 && query[0] == Eq(OrganizationColumn, organizationId)
      ensures forall row :: HoldsAll(query, row) <==> Selected(organizationId, f, startOfDay, endOfDay, row)
    {
      query := [Eq(OrganizationColumn, organizationId)];
      forall row
        ensures HoldsAll(query, row) <==> row.organizationId == organizationId
      {
        assert Holds(query[0], row) <==> row.organizationId == organizationId;
      }
      if f.startDate.Some? {
        AppendsConjunct(query, ClockInFrom(startOfDay(f.startDate.value)));
        query := query + [ClockInFrom(startOfDay(f.startDate.value))];
      }
      if f.endDate.Some? {
        AppendsConjunct(query, ClockInUntil(endOfDay(f.endDate.value)));
        query := query + [ClockInUntil(endOfDay(f.endDate.value))];
      }
      if f.projectId != "all" {
        AppendsConjunct(query, Eq(ProjectColumn, f.projectId));
        query := query + [Eq(ProjectColumn, f.projectId)];
      }
      if f.userId != "all" {
        AppendsConjunct(query, Eq(UserColumn, f.userId));
        query := query + [Eq(UserColumn, f.userId)];
      }
      if f.taskId != "" && f.taskId != "all" {
        AppendsConjunct(query, Eq(TaskColumn, f.taskId));
        query := query + [Eq(TaskColumn, f.taskId)];
      }
    }

    /**
     * `fetchReport`: nothing without an organization. Otherwise an answered
     * query replaces the data (`NoData` giving none) and an error keeps it.
     */
    method FetchReport(organization: Option<string>, f: ReportFilters, startOfDay: int -> int, endOfDay: int -> int,
                       answer: Answer<seq<EntryRow>>) returns (query: Option<seq<Condition>>)
      modifies this
      ensures organization.None? ==> query.None? && data == old(data) && isLoading == old(isLoading)
      ensures organization.Some? ==>
        && query.Some?
        && (forall row :: HoldsAll(query.value, row) <==> Selected(organization.value, f, startOfDay, endOfDay, row))
        && !isLoading
        && data == match answer
                   case Failed => old(data)
                   case NoData => []
                   case Data(rows) => Formatted(rows)
    {
      if organization.None? {
        return None;
      }
      isLoading := true;
      var q := BuildQuery(organization.value, f, startOfDay, endOfDay);
      query := Some(q);
      match answer {
        case Failed =>
        case NoData => data := [];
        case Data(rows) => data := Formatted(rows);
      }
      isLoading := false;
    }
  }

  lemma AppendsConjunct(query: seq<Condition>, c: Condition)
    ensures forall row :: HoldsAll(query + [c], row) <==> HoldsAll(query, row) && Holds(c, row)
  {
    forall row
      ensures HoldsAll(query + [c], row) <==> HoldsAll(query, row) && Holds(c, row)
    {
      HoldsAllAppend(query, c, row);
    }
  }
}
