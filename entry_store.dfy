/**
 * The remote `time_entries` and `pauses` tables as the timer sees them: a map
 * from row id to entry, a counter for fresh ids, and the list of pause records.
 * Every write takes a `fail` flag standing for the outcome the network and the
 * database choose; a failed write changes nothing.
 */
module EntryStore {
  import opened Common
  import opened TimeEntry

  /** A row of the `pauses` table; the application only ever writes the kind "break". */
  datatype Pause = Pause(entry: nat, start: int, kind: string)

  /** Ids of the rows of `user` whose status is active or paused. */
  function OpenIdsOf(rows: map<nat, Entry>, user: string): set<nat> {
    set id | id in rows && rows[id].user == user && IsOpen(rows[id])
  }

  /** The row after `update({clock_out, status: "completed", total_hours}).eq("id", id)`. */
  function CloseRow(rows: map<nat, Entry>, id: nat, out: int, total: int, fail: bool): map<nat, Entry> {
    if !fail && id in rows then
      rows[id := rows[id].(clockOut := Some(out), status := Completed, totalHours := Some(total))]
    else rows
  }

  /** The row after `update({status}).eq("id", id)`. */
  function SetStatusRow(rows: map<nat, Entry>, id: nat, status: Status, fail: bool): map<nat, Entry> {
    if !fail && id in rows then rows[id := rows[id].(status := status)] else rows
  }

  /** `s` lists the open rows of `user`, each as stored, in increasing id order. */
  ghost predicate ListsOpen(rows: map<nat, Entry>, user: string, s: seq<Entry>) {
    && (forall i, j :: 0 <= i < j < |s| ==> s[i].id < s[j].id)
    && (forall k :: 0 <= k < |s| ==> s[k].id in rows && rows[s[k].id] == s[k])
    && (forall id :: id in OpenIdsOf(rows, user) <==> exists k :: 0 <= k < |s| && s[k].id == id)
  }

  function IdSet(s: seq<Entry>): set<nat> {
    set k | 0 <= k < |s| :: s[k].id
  }

  /** A list with strictly increasing ids has as many distinct ids as elements. */
  lemma {:induction false} IdSetSize(s: seq<Entry>)
    requires forall i, j :: 0 <= i < j < |s| ==> s[i].id < s[j].id
    ensures |IdSet(s)| == |s|
  {
    if s != [] {
      var t := s[..|s| - 1];
      IdSetSize(t);
      assert IdSet(s) == IdSet(t) + {s[|s| - 1].id};
      assert s[|s| - 1].id !in IdSet(t);
    }
  }

  /** What `maybeSingle()` yields for the open rows of `user`: the row when there is exactly one. */
  ghost function SingleOpenRow(rows: map<nat, Entry>, user: string): Option<Entry> {
    var ids := OpenIdsOf(rows, user);
    if |ids| == 1 then
      var id :| id in ids;
      Some(rows[id])
    else None
  }

  /** Closing a stored row removes exactly that id from every user's open set. */
  lemma CloseRowCloses(rows: map<nat, Entry>, id: nat, out: int, total: int, user: string)
    requires id in rows
    ensures OpenIdsOf(CloseRow(rows, id, out, total, false), user) == OpenIdsOf(rows, user) - {id}
  {
    var after := CloseRow(rows, id, out, total, false);
    forall x | x in OpenIdsOf(rows, user) - {id} ensures x in OpenIdsOf(after, user) {
      assert after[x] == rows[x];
    }
  }

  /** Swapping an open row between active and paused leaves every open set as it was. */
  lemma SetStatusKeepsOpen(rows: map<nat, Entry>, id: nat, status: Status, fail: bool, user: string)
    requires id in rows && IsOpen(rows[id]) && status != Completed
    ensures OpenIdsOf(SetStatusRow(rows, id, status, fail), user) == OpenIdsOf(rows, user)
  {
    var after := SetStatusRow(rows, id, status, fail);
    forall x | x in OpenIdsOf(rows, user) ensures x in OpenIdsOf(after, user) {
      assert x in after;
    }
  }

  /** Inserting an open row under a fresh id adds that id to its owner's open set only. */
  lemma InsertOpen(rows: map<nat, Entry>, n: nat, e: Entry, user: string)
    requires n !in rows && IsOpen(e)
    ensures OpenIdsOf(rows[n := e], user) == if e.user == user then OpenIdsOf(rows, user) + {n} else OpenIdsOf(rows, user)
  {
    var after := rows[n := e];
    forall x | x in OpenIdsOf(rows, user) ensures x in OpenIdsOf(after, user) {
      assert after[x] == rows[x];
    }
  }

  /** `s` lists, in increasing id order, the open rows of `user` with an id below `n`. */
  ghost predicate ScannedTo(rows: map<nat, Entry>, user: string, n: nat, s: seq<Entry>) {
    && (forall i, j :: 0 <= i < j < |s| ==> s[i].id < s[j].id)
    && (forall k :: 0 <= k < |s| ==> s[k].id < n && s[k].id in rows && rows[s[k].id] == s[k])
    && (forall x :: x in OpenIdsOf(rows, user) && x < n <==> exists k :: 0 <= k < |s| && s[k].id == x)
  }

  /** Looking at one more id appends its row when it is an open row of `user`. */
  lemma ScanStep(rows: map<nat, Entry>, user: string, n: nat, s: seq<Entry>, s': seq<Entry>)
    requires ScannedTo(rows, user, n, s)
    requires n in rows ==> rows[n].id == n
    requires s' == if n in rows && rows[n].user == user && IsOpen(rows[n]) then s + [rows[n]] else s
    ensures ScannedTo(rows, user, n + 1, s')
  {
    assert forall k :: 0 <= k < |s| ==> s'[k] == s[k];
    forall x | x in OpenIdsOf(rows, user) && x < n + 1
      ensures exists k :: 0 <= k < |s'| && s'[k].id == x
    {
      if x == n {
        assert s'[|s'| - 1].id == x;
      } else {
        var k :| 0 <= k < |s| && s[k].id == x;
        assert s'[k].id == x;
      }
    }
  }

  /** A scan past every stored id lists all open rows of `user`. */
  lemma ScanDone(rows: map<nat, Entry>, user: string, n: nat, s: seq<Entry>)
    requires ScannedTo(rows, user, n, s)
    requires forall id :: id in rows ==> id < n
    ensures ListsOpen(rows, user, s)
  {
  }

  class Store {
    var rows: map<nat, Entry>
    var nextId: nat
    var pauses: seq<Pause>

    ghost predicate Valid()
      reads this
    {
      forall id :: id in rows ==> id < nextId && rows[id].id == id
    }

    constructor ()
      ensures Valid() && rows == map[] && nextId == 0 && pauses == []
    {
      rows := map[];
      nextId := 0;
      pauses := [];
    }

    function OpenIds(user: string): set<nat>
      reads this
    {
      OpenIdsOf(rows, user)
    }

    /** `select(...).eq("user_id", user).in("status", ["active", "paused"])`. */
    method SelectOpen(user: string, fail: bool) returns (r: Option<seq<Entry>>)
      requires Valid()
      ensures fail <==> r.None?
      ensures r.Some? ==> ListsOpen(rows, user, r.value)
    {
      if fail {
        return None;
      }
      var acc: seq<Entry> := [];
      var id: nat := 0;
      while id < nextId
        invariant id <= nextId
        invariant ScannedTo(rows, user, id, acc)
      {
        ghost var before := acc;
        if id in rows && rows[id].user == user && IsOpen(rows[id]) {
          acc := acc + [rows[id]];
        }
        ScanStep(rows, user, id, before, acc);
        id := id + 1;
      }
      ScanDone(rows, user, nextId, acc);
      return Some(acc);
    }

    /** The same query ended by `maybeSingle()` (or `single()`): data only when exactly one row matches. */
    method SelectSingleOpen(user: string, fail: bool) returns (r: Option<Entry>)
      requires Valid()
      ensures r == if fail then None else SingleOpenRow(rows, user)
    {
      var all := SelectOpen(user, fail);
      if all.None? {
        return None;
      }
      var s := all.value;
      IdSetSize(s);
      assert IdSet(s) == OpenIdsOf(rows, user) by {
        forall x | x in OpenIdsOf(rows, user) ensures x in IdSet(s) {
          var k :| 0 <= k < |s| && s[k].id == x;
        }
      }
      if |s| == 1 {
        assert OpenIdsOf(rows, user) == {s[0].id} by {
          assert IdSet(s) == {s[0].id};
        }
        r := Some(s[0]);
      } else {
        r := None;
      }
    }

    method Close(id: nat, out: int, total: int, fail: bool) returns (ok: bool)
      requires Valid()
      modifies this`rows
      ensures Valid()
      ensures ok == !fail
      ensures rows == CloseRow(old(rows), id, out, total, fail)
    {
      rows := CloseRow(rows, id, out, total, fail);
      ok := !fail;
    }

    /** The update followed by `select().maybeSingle()`: the updated row when the write succeeds. */
    method SetStatus(id: nat, status: Status, fail: bool) returns (r: Option<Entry>)
      requires Valid()
      modifies this`rows
      ensures Valid()
      ensures rows == SetStatusRow(old(rows), id, status, fail)
      ensures r == if !fail && id in old(rows) then Some(rows[id]) else None
    {
      rows := SetStatusRow(rows, id, status, fail);
      r := if !fail && id in rows then Some(rows[id]) else None;
    }

    /** Insert of a new active entry followed by `select()`: the stored row on success. */
    method Insert(user: string, org: string, project: Option<string>, task: Option<string>, clockIn: int, date: string, fail: bool)
      returns (r: Option<Entry>)
      requires Valid()
      modifies this`rows, this`nextId
      ensures Valid()
      ensures fail ==> r.None? && rows == old(rows) && nextId == old(nextId)
      ensures !fail ==>
        && r == Some(Entry(old(nextId), user, org, project, task, clockIn, date, None, Active, None))
        && old(nextId) !in old(rows)
        && rows == old(rows)[old(nextId) := r.value]
        && nextId == old(nextId) + 1
    {
      if fail {
        return None;
      }
      var e := Entry(nextId, user, org, project, task, clockIn, date, None, Active, None);
      rows := rows[nextId := e];
      nextId := nextId + 1;
      r := Some(e);
    }

    method InsertPause(entry: nat, start: int, fail: bool)
      modifies this`pauses
      ensures pauses == if fail then old(pauses) else old(pauses) + [Pause(entry, start, "break")]
    {
      if !fail {
        pauses := pauses + [Pause(entry, start, "break")];
      }
    }
  }
}
