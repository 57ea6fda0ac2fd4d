/**
 * The project list of the current organization with the stats derived from
 * each project's tasks, the role rule that decides which projects a user
 * sees, and the create and delete operations that update the list after a
 * successful write. The answers of the store are parameters.
 */
module Projects {
  import opened Common
  import Tasks
  import OrgMembers

  datatype ProjectStatus = Active | Archived

  datatype Project = Project(id: string, organizationId: string, name: string, color: string,
                             hourlyRate: real, status: ProjectStatus, createdAt: string)

  /** The task columns the project query embeds: `tasks(id, status, estimated_hours)`. */
  datatype TaskRow = TaskRow(id: string, status: Tasks.TaskStatus, estimatedHours: Option<real>)

  /** A project row as the query returns it; `tasks` may be missing. */
  datatype ProjectRow = ProjectRow(project: Project, tasks: Option<seq<TaskRow>>)

  datatype Stats = Stats(totalTasks: nat, completedTasks: nat, progress: int, totalEstimatedHours: real)

  datatype ProjectWithStats = ProjectWithStats(project: Project, stats: Stats)

  /** `tasks.filter(t => t.status === 'completed').length`. */
  function CountCompleted(ts: seq<TaskRow>): (n: nat)
    ensures n <= |ts|
    ensures n == 0 <==> forall k :: 0 <= k < |ts| ==> ts[k].status != Tasks.Completed
    ensures n == |ts| <==> forall k :: 0 <= k < |ts| ==> ts[k].status == Tasks.Completed
  {
    if ts == [] then 0
    else CountCompleted(ts[..|ts| - 1]) + (if ts[|ts| - 1].status == Tasks.Completed then 1 else 0)
  }

  /** `t.estimated_hours || 0`. */
  function Estimate(t: TaskRow): real {
    t.estimatedHours.GetOr(0.0)
  }

  /** `tasks.reduce((acc, t) => acc + (t.estimated_hours || 0), 0)`. */
  function SumEstimated(ts: seq<TaskRow>): real {
    if ts == [] then 0.0 else SumEstimated(ts[..|ts| - 1]) + Estimate(ts[|ts| - 1])
  }

  lemma {:induction false} SumEstimatedAppend(a: seq<TaskRow>, b: seq<TaskRow>)
    ensures SumEstimated(a + b) == SumEstimated(a) + SumEstimated(b)
    decreases |b|
  {
    if b == [] {
      assert a + b == a;
    } else {
      assert (a + b)[..|a + b| - 1] == a + b[..|b| - 1];
      SumEstimatedAppend(a, b[..|b| - 1]);
    }
  }

  /** A task without an estimate adds exactly what a task estimated at 0 adds. */
  lemma {:induction false} MissingEstimateIsZero(ts: seq<TaskRow>, k: int)
    requires 0 <= k < |ts| && ts[k].estimatedHours.None?
    ensures SumEstimated(ts[k := ts[k].(estimatedHours := Some(0.0))]) == SumEstimated(ts)
  {
    var us := ts[k := ts[k].(estimatedHours := Some(0.0))];
    assert ts == ts[..k] + [ts[k]] + ts[k + 1..];
    assert us == ts[..k] + [us[k]] + ts[k + 1..];
    SumEstimatedAppend(ts[..k] + [ts[k]], ts[k + 1..]);
    SumEstimatedAppend(ts[..k], [ts[k]]);
    SumEstimatedAppend(ts[..k] + [us[k]], ts[k + 1..]);
    SumEstimatedAppend(ts[..k], [us[k]]);
    assert SumEstimated([ts[k]]) == SumEstimated([us[k]]) by {
      assert [ts[k]][..0] == [] && [us[k]][..0] == [];
    }
  }

  /** Estimates that are never negative sum to a non-negative total. */
  lemma {:induction false} SumEstimatedNonNegative(ts: seq<TaskRow>)
    requires forall k :: 0 <= k < |ts| ==> Estimate(ts[k]) >= 0.0
    ensures SumEstimated(ts) >= 0.0
  {
    if ts != [] {
      SumEstimatedNonNegative(ts[..|ts| - 1]);
    }
  }

  /** `totalTasks > 0 ? Math.round((completed / total) * 100) : 0`. */
  function Progress(completed: nat, total: nat): (p: int)
    requires completed <= total
    ensures 0 <= p <= 100
    ensures total > 0 ==> (p as real) - 0.5 <= 100.0 * (completed as real) / (total as real) < (p as real) + 0.5
    ensures total == 0 ==> p == 0
  {
    if total > 0 then
      var x := 100.0 * (completed as real) / (total as real);
      assert x <= 100.0;
      RoundHalfUp(x)
    else 0
  }

  /** All tasks done is 100 %, none done is 0 %. */
  lemma ProgressEnds(total: nat)
    ensures total > 0 ==> Progress(total, total) == 100
    ensures Progress(0, total) == 0
  {
    if total > 0 {
      assert 100.0 * (total as real) / (total as real) == 100.0;
    }
  }

  /** Completing one more task never lowers the progress. */
  lemma ProgressMonotone(c1: nat, c2: nat, total: nat)
    requires c1 <= c2 <= total
    ensures Progress(c1, total) <= Progress(c2, total)
  {
    if total > 0 {
      var x1 := 100.0 * (c1 as real) / (total as real);
      var x2 := 100.0 * (c2 as real) / (total as real);
      assert x1 <= x2 by {
        assert 100.0 * (c1 as real) <= 100.0 * (c2 as real);
      }
    }
  }

  /**
   * Below 200 tasks a project reads 100 % only when every task is done; up to
   * 200 tasks it reads 0 % only when none is.
   */
  lemma ProgressExact(completed: nat, total: nat)
    requires 0 < total && completed <= total
    ensures total < 200 ==> (Progress(completed, total) == 100 <==> completed == total)
    ensures total <= 200 ==> (Progress(completed, total) == 0 <==> completed == 0)
  {
    var t := total as real;
    var x := 100.0 * (completed as real) / t;
    if total < 200 && completed < total {
      assert x <= 100.0 * ((total - 1) as real) / t;
      assert 100.0 * ((total - 1) as real) / t == 100.0 - 100.0 / t;
      assert 100.0 / t > 0.5;
    }
    if total <= 200 && completed > 0 {
      assert x * t == 100.0 * (completed as real);
      assert x * t >= 100.0;
      assert x >= 0.5;
    }
  }

  /** The stats of one project row; a missing task list counts as empty. */
  function StatsOf(tasks: Option<seq<TaskRow>>): (s: Stats)
    ensures var ts := tasks.GetOr([]);
      && s.totalTasks == |ts|
      && s.completedTasks == CountCompleted(ts)
      && s.completedTasks <= s.totalTasks
      && 0 <= s.progress <= 100
      && s.progress == Progress(s.completedTasks, s.totalTasks)
      && s.totalEstimatedHours == SumEstimated(ts)
  {
    var ts := tasks.GetOr([]);
    Stats(|ts|, CountCompleted(ts), Progress(CountCompleted(ts), |ts|), SumEstimated(ts))
  }

  /** The stats a newly created project starts with. */
  const ZeroStats: Stats := Stats(0, 0, 0, 0.0)

  /** A new project's stats are the stats of a project without tasks. */
  lemma NewProjectStats()
    ensures StatsOf(None) == ZeroStats && StatsOf(Some([])) == ZeroStats
  {
  }

  /** `data.map(p => ({ ...projectData, stats }))`. */
  function WithStats(rows: seq<ProjectRow>): (r: seq<ProjectWithStats>)
    ensures |r| == |rows|
    ensures forall k :: 0 <= k < |rows| ==> r[k] == ProjectWithStats(rows[k].project, StatsOf(rows[k].tasks))
  {
    seq(|rows|, k requires 0 <= k < |rows| => ProjectWithStats(rows[k].project, StatsOf(rows[k].tasks)))
  }

  /** Owners and admins see every active project of the organization. */
  predicate SeesAll(role: Option<OrgMembers.Role>) {
    role == Some(OrgMembers.Owner) || role == Some(OrgMembers.Admin)
  }

  /**
   * The answer whose rows become the list: the organization's active projects
   * for owners and admins; for anyone else the assigned projects, or, when
   * there are none, the organization's active projects again.
   */
  function Visible(role: Option<OrgMembers.Role>, orgProjects: Answer<seq<ProjectRow>>,
                   assignments: Answer<seq<ProjectRow>>): (r: Answer<seq<ProjectRow>>)
    ensures SeesAll(role) ==> r == orgProjects
    ensures !SeesAll(role) && assignments.Data? && |assignments.value| > 0 ==> r == assignments
    ensures !SeesAll(role) && assignments.Failed? ==> r.Failed?
    ensures !SeesAll(role) && (assignments.NoData? || assignments == Data([])) ==> r == orgProjects
  {
    if SeesAll(role) then orgProjects
    else if assignments.Failed? then Failed
    else if assignments.Data? && |assignments.value| > 0 then assignments
    else orgProjects
  }

  /** Every project a member is shown was either assignments or, with no assignment at all, fetched for the organization. */
  lemma MemberSeesAssignedOrAll(role: Option<OrgMembers.Role>, orgProjects: Answer<seq<ProjectRow>>,
                                assignments: Answer<seq<ProjectRow>>)
    requires !SeesAll(role) && Visible(role, orgProjects, assignments).Data?
    ensures var shown := Visible(role, orgProjects, assignments).value;
      (assignments.Data? && |assignments.value| > 0 && shown == assignments.value)
      || ((assignments.NoData? || assignments == Data([])) && orgProjects == Data(shown))
  {
  }

  function HasOtherId(id: string): ProjectWithStats -> bool {
    (p: ProjectWithStats) => p.project.id != id
  }

  /** `prev.filter(p => p.id !== projectId)`. */
  function Without(ps: seq<ProjectWithStats>, id: string): seq<ProjectWithStats> {
    Filter(ps, HasOtherId(id))
  }

  /** Deleting removes exactly the projects with that id and keeps the others in their order. */
  lemma DeleteRemovesOnlyThatId(ps: seq<ProjectWithStats>, id: string)
    ensures forall p :: p in Without(ps, id) <==> p in ps && p.project.id != id
    ensures Without(ps, id) == Filter(ps, HasOtherId(id))
  {
    forall p
      ensures p in Without(ps, id) <==> p in ps && p.project.id != id
    {
      FilterIff(ps, HasOtherId(id), p);
    }
  }

  /** The defaults of `createProject`'s optional arguments. */
  const DefaultColor: string := "#3b82f6"
  const DefaultRate: real := 0.0

  class ProjectList {
    var projects: seq<ProjectWithStats>
    var isLoading: bool

    constructor ()
      ensures projects == [] && isLoading
    {
      projects := [];
      isLoading := true;
    }

    /**
     * The effect on the organization, user and role. `orgProjects` is the
     * answer to the organization's active-project query and `assignments` the
     * projects reached through the user's assignment rows.
     */
    method Fetch(organization: Option<string>, user: Option<string>, role: Option<OrgMembers.Role>,
                 orgProjects: Answer<seq<ProjectRow>>, assignments: Answer<seq<ProjectRow>>)
      modifies this
      ensures !isLoading
      ensures organization.None? || user.None? ==> projects == []
      ensures organization.Some? && user.Some? ==>
        match Visible(role, orgProjects, assignments)
        case Failed => projects == []
        case NoData => projects == old(projects)
        case Data(rows) => projects == WithStats(rows)
    {
      if organization.None? || user.None? {
        projects := [];
        isLoading := false;
        return;
      }
      isLoading := true;
      if SeesAll(role) {
        match orgProjects
        case Failed => projects := [];
        case NoData =>
        case Data(rows) => projects := WithStats(rows);
      } else {
        if assignments.Failed? {
          projects := [];
        } else if assignments.Data? && |assignments.value| > 0 {
          projects := WithStats(assignments.value);
        } else {
          match orgProjects
          case Failed => projects := [];
          case NoData =>
          case Data(rows) => projects := WithStats(rows);
        }
      }
      isLoading := false;
    }

    /**
     * `createProject`: nothing without an organization; otherwise the store's
     * answer (`newId` none on an error) decides whether the project, with
     * zero stats, is appended.
     */
    method Create(organization: Option<string>, name: string, color: string, hourlyRate: real,
                  newId: Option<string>, createdAt: string) returns (r: Option<ProjectWithStats>)
      modifies this`projects
      ensures r.Some? <==> organization.Some? && newId.Some?
      ensures r.Some? ==>
        && r.value.project == Project(newId.value, organization.value, name, color, hourlyRate, Active, createdAt)
        && r.value.stats == ZeroStats
        && projects == old(projects) + [r.value]
      ensures r.None? ==> projects == old(projects)
    {
      if organization.None? || newId.None? {
        return None;
      }
      var made := ProjectWithStats(Project(newId.value, organization.value, name, color, hourlyRate, Active, createdAt), ZeroStats);
      projects := projects + [made];
      r := Some(made);
    }

    /** `deleteProject`: on success the project leaves the list; on an error nothing changes. */
    method Delete(id: string, fail: bool) returns (ok: bool)
      modifies this`projects
      ensures ok == !fail
      ensures projects == if fail then old(projects) else Without(old(projects), id)
    {
      if fail {
        return false;
      }
      projects := Without(projects, id);
      ok := true;
    }
  }
}
