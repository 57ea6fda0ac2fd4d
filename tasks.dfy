/**
 * The task list of a project: loaded by project, and updated in place after
 * each successful write. The rows the store answers with are parameters.
 */
module Tasks {
  import opened Common

  datatype TaskStatus = Active | Completed | Archived

  datatype Task = Task(id: string, projectId: string, name: string, description: Option<string>,
                       estimatedHours: Option<real>, status: TaskStatus, createdAt: string)

  /** The ids of a list, in order. */
  function Ids(ts: seq<Task>): (r: seq<string>)
    ensures |r| == |ts|
    ensures forall k :: 0 <= k < |ts| ==> r[k] == ts[k].id
  {
    seq(|ts|, k requires 0 <= k < |ts| => ts[k].id)
  }

  /** `prev.map(t => t.id === id ? { ...t, status } : t)`. */
  function WithStatus(ts: seq<Task>, id: string, status: TaskStatus): (r: seq<Task>)
    ensures |r| == |ts|
    ensures forall k :: 0 <= k < |ts| ==> r[k] == if ts[k].id == id then ts[k].(status := status) else ts[k]
  {
    seq(|ts|, k requires 0 <= k < |ts| => if ts[k].id == id then ts[k].(status := status) else ts[k])
  }

  /** `prev.map(t => t.id === id ? row : t)`. */
  function Replaced(ts: seq<Task>, id: string, row: Task): (r: seq<Task>)
    ensures |r| == |ts|
    ensures forall k :: 0 <= k < |ts| ==> r[k] == if ts[k].id == id then row else ts[k]
  {
    seq(|ts|, k requires 0 <= k < |ts| => if ts[k].id == id then row else ts[k])
  }

  function HasOtherId(id: string): Task -> bool {
    (t: Task) => t.id != id
  }

  /** `prev.filter(t => t.id !== id)`. */
  function Without(ts: seq<Task>, id: string): seq<Task> {
    Filter(ts, HasOtherId(id))
  }

  /** A status change keeps the tasks, their order and everything but the status of the matching one. */
  lemma StatusChangeKeepsShape(ts: seq<Task>, id: string, status: TaskStatus)
    ensures Ids(WithStatus(ts, id, status)) == Ids(ts)
    ensures forall k :: 0 <= k < |ts| ==> WithStatus(ts, id, status)[k].(status := ts[k].status) == ts[k]
    ensures forall k :: 0 <= k < |ts| && ts[k].id == id ==> WithStatus(ts, id, status)[k].status == status
  {
  }

  /** Deleting removes exactly the tasks with that id and keeps the others in order. */
  lemma DeleteRemovesOnlyThatId(ts: seq<Task>, id: string)
    ensures forall t :: t in Without(ts, id) <==> t in ts && t.id != id
    ensures id !in Ids(Without(ts, id))
  {
    forall t
      ensures t in Without(ts, id) <==> t in ts && t.id != id
    {
      FilterIff(ts, HasOtherId(id), t);
    }
  }

  /** Deleting an id that is not in the list changes nothing. */
  lemma DeleteMissingId(ts: seq<Task>, id: string)
    requires id !in Ids(ts)
    ensures Without(ts, id) == ts
  {
    FilterAll(ts, HasOtherId(id));
  }

  class TaskList {
    var tasks: seq<Task>
    var isLoading: bool

    constructor ()
      ensures tasks == [] && !isLoading
    {
      tasks := [];
      isLoading := false;
    }

    /**
     * The effect on a project id: with no id (or the empty one) nothing is fetched;
     * otherwise the answer replaces the list, and an error (`None`) keeps it.
     */
    method Load(projectId: Option<string>, result: Option<seq<Task>>)
      modifies this
      ensures projectId.None? || projectId.value == "" ==> tasks == old(tasks) && isLoading == old(isLoading)
      ensures projectId.Some? && projectId.value != "" ==>
        tasks == (if result.Some? then result.value else old(tasks)) && !isLoading
    {
      if projectId.None? || projectId.value == "" {
        return;
      }
      isLoading := true;
      if result.Some? {
        tasks := result.value;
      }
      isLoading := false;
    }

    /** `createTask`: the stored row goes first; on an error nothing changes and the result is none. */
    method Create(created: Option<Task>) returns (r: Option<Task>)
      modifies this`tasks
      ensures r == created
      ensures tasks == if created.Some? then [created.value] + old(tasks) else old(tasks)
    {
      if created.None? {
        return None;
      }
      tasks := [created.value] + tasks;
      r := created;
    }

    /** `updateTaskStatus`. */
    method UpdateStatus(id: string, status: TaskStatus, fail: bool) returns (ok: bool)
      modifies this`tasks
      ensures ok == !fail
      ensures tasks == if fail then old(tasks) else WithStatus(old(tasks), id, status)
    {
      if fail {
        return false;
      }
      tasks := WithStatus(tasks, id, status);
      ok := true;
    }

    /** `updateTask`: the row the store returns replaces the matching task. */
    method Update(id: string, row: Option<Task>) returns (r: Option<Task>)
      modifies this`tasks
      ensures r == row
      ensures tasks == if row.Some? then Replaced(old(tasks), id, row.value) else old(tasks)
    {
      if row.None? {
        return None;
      }
      tasks := Replaced(tasks, id, row.value);
      r := row;
    }

    /** `deleteTask`. */
    method Delete(id: string, fail: bool) returns (ok: bool)
      modifies this`tasks
      ensures ok == !fail
      ensures tasks == if fail then old(tasks) else Without(old(tasks), id)
    {
      if fail {
        return false;
      }
      tasks := Without(tasks, id);
      ok := true;
    }
  }
}
