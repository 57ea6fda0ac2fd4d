/**
 * The dialog that assigns organization members to a project: a set of chosen
 * member ids that the checkboxes toggle, and a save that compares it with the
 * stored assignment and issues one insert per added id and one delete per
 * removed id.
 */
module ProjectMembers {
  import opened Common

  /** `toggleMember`: the id leaves the set when it is in it, and joins it otherwise. */
  function Toggled(chosen: set<string>, userId: string): set<string> {
    if userId in chosen then chosen - {userId} else chosen + {userId}
  }

  /** Toggling flips the membership of that id and of no other. */
  lemma ToggleFlipsOnlyThatId(chosen: set<string>, userId: string, other: string)
    ensures userId in Toggled(chosen, userId) <==> userId !in chosen
    ensures other != userId ==> (other in Toggled(chosen, userId) <==> other in chosen)
  {
  }

  /** Toggling the same id twice restores the set. */
  lemma ToggleTwice(chosen: set<string>, userId: string)
    ensures Toggled(Toggled(chosen, userId), userId) == chosen
  {
  }

  /** The ids to insert: chosen but not stored. */
  function ToAdd(chosen: set<string>, current: set<string>): (r: set<string>)
    ensures forall id :: id in r <==> id in chosen && id !in current
  {
    chosen - current
  }

  /** The ids to delete: stored but no longer chosen. */
  function ToRemove(chosen: set<string>, current: set<string>): (r: set<string>)
    ensures forall id :: id in r <==> id in current && id !in chosen
  {
    current - chosen
  }

  /** No id is both inserted and deleted. */
  lemma DiffDisjoint(chosen: set<string>, current: set<string>)
    ensures ToAdd(chosen, current) * ToRemove(chosen, current) == {}
  {
  }

  /** Inserting the additions and deleting the removals turns the stored set into the chosen one. */
  lemma DiffApplies(chosen: set<string>, current: set<string>)
    ensures (current + ToAdd(chosen, current)) - ToRemove(chosen, current) == chosen
  {
  }

  /** When nothing changed there is nothing to insert or delete. */
  lemma NoChangeNoCalls(chosen: set<string>)
    ensures ToAdd(chosen, chosen) == {} && ToRemove(chosen, chosen) == {}
  {
  }

  /** The ids of a batch whose call succeeds. */
  function Succeeded(ids: set<string>, fail: string -> bool): (r: set<string>)
    ensures r <= ids
    ensures forall id :: id in r <==> id in ids && !fail(id)
  {
    set id | id in ids && !fail(id)
  }

  /** Taking one more id out of the pending ones adds it to the done ones when its call succeeds. */
  lemma SucceededStep(ids: set<string>, todo: set<string>, id: string, fail: string -> bool)
    requires todo <= ids && id in todo
    ensures Succeeded(ids - (todo - {id}), fail) == Succeeded(ids - todo, fail) + (if fail(id) then {} else {id})
  {
    assert ids - (todo - {id}) == (ids - todo) + {id};
  }

  /** Adding one more successful id to the added ones. */
  lemma AddOne(m0: set<string>, done: set<string>, id: string, before: set<string>)
    requires before == m0 + done
    ensures before + {id} == m0 + (done + {id})
  {
  }

  /** Adding one more successful id to the removed ones. */
  lemma RemoveOne(m0: set<string>, done: set<string>, id: string, before: set<string>)
    requires before == m0 - done
    ensures before - {id} == m0 - (done + {id})
  {
  }

  /** The stored assignments: the member ids of each project. */
  class MemberStore {
    var members: map<string, set<string>>

    constructor ()
      ensures members == map[]
    {
      members := map[];
    }

    function Members(project: string): set<string>
      reads this
    {
      if project in members then members[project] else {}
    }

    /** `getProjectMembers`: the stored ids, or none at all when the query fails. */
    method Get(project: string, fail: bool) returns (ids: set<string>)
      ensures ids == if fail then {} else Members(project)
    {
      ids := if fail then {} else Members(project);
    }

    /** `assignUserToProject`: an id already assigned counts as a success. */
    method Assign(project: string, userId: string, fail: bool) returns (ok: bool)
      modifies this
      ensures ok == !fail
      ensures Members(project) == if ok then old(Members(project)) + {userId} else old(Members(project))
      ensures forall p :: p != project ==> Members(p) == old(Members(p))
    {
      if fail {
        return false;
      }
      members := members[project := Members(project) + {userId}];
      ok := true;
    }

    /** `removeUserFromProject`. */
    method Remove(project: string, userId: string, fail: bool) returns (ok: bool)
      modifies this
      ensures ok == !fail
      ensures Members(project) == if ok then old(Members(project)) - {userId} else old(Members(project))
      ensures forall p :: p != project ==> Members(p) == old(Members(p))
    {
      if fail {
        return false;
      }
      members := members[project := Members(project) - {userId}];
      ok := true;
    }

    /** One insert per id; the ids whose insert succeeds are added. */
    method AssignEach(project: string, ids: set<string>, fail: string -> bool)
      modifies this
      ensures Members(project) == old(Members(project)) + Succeeded(ids, fail)
      ensures forall p :: p != project ==> Members(p) == old(Members(p))
    {
      var todo := ids;
      ghost var m0 := Members(project);
      ghost var done: set<string> := {};
      while todo != {}
        invariant todo <= ids && done == Succeeded(ids - todo, fail)
        invariant Members(project) == m0 + done
        invariant forall p :: p != project ==> Members(p) == old(Members(p))
        decreases |todo|
      {
        var id :| id in todo;
        SucceededStep(ids, todo, id, fail);
        ghost var before := Members(project);
        var ok := Assign(project, id, fail(id));
        if ok {
          AddOne(m0, done, id, before);
          done := done + {id};
        }
        todo := todo - {id};
      }
      assert ids - todo == ids;
    }

    /** One delete per id; the ids whose delete succeeds are removed. */
    method RemoveEach(project: string, ids: set<string>, fail: string -> bool)
      modifies this
      ensures Members(project) == old(Members(project)) - Succeeded(ids, fail)
      ensures forall p :: p != project ==> Members(p) == old(Members(p))
    {
      var todo := ids;
      ghost var m0 := Members(project);
      ghost var done: set<string> := {};
      while todo != {}
        invariant todo <= ids && done == Succeeded(ids - todo, fail)
        invariant Members(project) == m0 - done
        invariant forall p :: p != project ==> Members(p) == old(Members(p))
        decreases |todo|
      {
        var id :| id in todo;
        SucceededStep(ids, todo, id, fail);
        ghost var before := Members(project);
        var ok := Remove(project, id, fail(id));
        if ok {
          RemoveOne(m0, done, id, before);
          done := done + {id};
        }
        todo := todo - {id};
      }
      assert ids - todo == ids;
    }
  }

  class MembersDialog {
    var chosen: set<string>

    constructor ()
      ensures chosen == {}
    {
      chosen := {};
    }

    /**
     * The effect on opening or closing: an open dialog with a project loads the
     * stored ids (a failed query gives none); otherwise the set is cleared.
     */
    method OpenChanged(open: bool, project: Option<string>, store: MemberStore, fail: bool)
      modifies this`chosen
      ensures open && project.Some? ==> chosen == if fail then {} else store.Members(project.value)
      ensures !(open && project.Some?) ==> chosen == {}
    {
      if open && project.Some? {
        chosen := store.Get(project.value, fail);
      } else {
        chosen := {};
      }
    }

    method Toggle(userId: string)
      modifies this`chosen
      ensures chosen == Toggled(old(chosen), userId)
    {
      if userId in chosen {
        chosen := chosen - {userId};
      } else {
        chosen := chosen + {userId};
      }
    }

    /**
     * `handleSave`: re-reads the stored ids, issues the inserts and deletes of the
     * difference, and closes. The store helpers report failures instead of
     * throwing, so the dialog closes whatever the outcome of the calls.
     */
    method Save(project: Option<string>, org: Option<string>, store: MemberStore, readFail: bool,
                addFail: string -> bool, removeFail: string -> bool) returns (closed: bool)
      modifies store
      ensures project.None? || org.None? ==> !closed && store.members == old(store.members)
      ensures project.Some? && org.Some? ==>
        var p := project.value;
        var current := if readFail then {} else old(store.Members(p));
        && closed
        && store.Members(p) == (old(store.Members(p)) + Succeeded(ToAdd(chosen, current), addFail))
                                 - Succeeded(ToRemove(chosen, current), removeFail)
        && (forall q :: q != p ==> store.Members(q) == old(store.Members(q)))
    {
      if project.None? || org.None? {
        return false;
      }
      var p := project.value;
      var current := store.Get(p, readFail);
      var toAdd := ToAdd(chosen, current);
      var toRemove := ToRemove(chosen, current);
      store.AssignEach(p, toAdd, addFail);
      store.RemoveEach(p, toRemove, removeFail);
      closed := true;
    }
  }

  /** With every call succeeding, a save stores exactly the chosen ids. */
  lemma SaveStoresChoice(stored: set<string>, chosen: set<string>)
    ensures (stored + Succeeded(ToAdd(chosen, stored), _ => false)) - Succeeded(ToRemove(chosen, stored), _ => false) == chosen
  {
    assert Succeeded(ToAdd(chosen, stored), _ => false) == ToAdd(chosen, stored);
    assert Succeeded(ToRemove(chosen, stored), _ => false) == ToRemove(chosen, stored);
  }

  /** When the re-read fails nothing is deleted: the stored ids only grow. */
  lemma FailedReadKeepsStored(stored: set<string>, chosen: set<string>, addFail: string -> bool, removeFail: string -> bool)
    ensures stored <= (stored + Succeeded(ToAdd(chosen, {}), addFail)) - Succeeded(ToRemove(chosen, {}), removeFail)
  {
  }
}
