/**
 * The older variant of the timer hook: the same clock-in, clock-out, pause and
 * elapsed-time ticker, without the zombie rule and without the sweep of open
 * entries before a clock-in.
 */
module TimeTrackingLegacy {
  import opened Common
  import opened TimeEntry
  import opened EntryStore
  import TimeTracking

  class LegacyTracker {
    const user: Option<string>
    const org: Option<string>
    const store: Store
    var active: Option<Entry>
    var elapsed: int
    var loading: bool

    ghost predicate Valid()
      reads this, store
    {
      store.Valid() && (active.Some? ==> user.Some? && IsOpen(active.value))
    }

    constructor (user: Option<string>, org: Option<string>, store: Store)
      requires store.Valid()
      ensures Valid()
      ensures this.user == user && this.org == org && this.store == store
      ensures active.None? && elapsed == 0 && loading
    {
      this.user := user;
      this.org := org;
      this.store := store;
      active := None;
      elapsed := 0;
      loading := true;
    }

    /** `fetchActiveEntry`: whatever single open row the query returns becomes the current entry. */
    method FetchActive(now: int, fail: bool)
      requires Valid()
      modifies this`active, this`elapsed, this`loading
      ensures Valid()
      ensures user.None? ==> active == old(active) && elapsed == old(elapsed) && loading == old(loading)
      ensures user.Some? ==>
        var row := if fail then None else SingleOpenRow(store.rows, user.value);
        && !loading
        && active == row
        && elapsed == (if row.Some? then TimeTracking.Elapsed(row.value, now) else 0)
    {
      if user.None? {
        return;
      }
      var row := store.SelectSingleOpen(user.value, fail);
      if row.Some? {
        TimeTracking.SingleOpenRowIsOpen(store.rows, user.value);
        active := row;
        elapsed := TimeTracking.Elapsed(row.value, now);
      } else {
        active := None;
        elapsed := 0;
      }
      loading := false;
    }

    /** A tick of the 1-second interval, which exists only while the entry runs. */
    method ElapsedTick(now: int)
      requires Valid()
      modifies this`elapsed
      ensures elapsed == if active.Some? && active.value.status == Active then TimeTracking.Elapsed(active.value, now) else old(elapsed)
    {
      if active.Some? && active.value.status == Active {
        elapsed := TimeTracking.Elapsed(active.value, now);
      }
    }

    /** `clockIn`: insert a new active entry, closing nothing first; `nowText` is `now` as `toISOString()` gives it. */
    method ClockIn(project: Option<string>, task: Option<string>, now: int, nowText: string, fail: bool)
      requires Valid()
      modifies this`active, store`rows, store`nextId
      ensures Valid()
      ensures elapsed == old(elapsed) && loading == old(loading)
      ensures user.None? || org.None? || fail ==>
        active == old(active) && store.rows == old(store.rows) && store.nextId == old(store.nextId)
      ensures user.Some? && org.Some? && !fail ==>
        var made := Entry(old(store.nextId), user.value, org.value, TimeTracking.OrNull(project), TimeTracking.OrNull(task), now, DatePart(nowText), None, Active, None);
        && active == Some(made)
        && store.rows == old(store.rows)[made.id := made]
        && store.OpenIds(user.value) == old(store.OpenIds(user.value)) + {made.id}
        && made.id !in old(store.OpenIds(user.value))
        && (old(store.OpenIds(user.value)) != {} ==> |store.OpenIds(user.value)| >= 2)
    {
      if user.None? || org.None? {
        return;
      }
      var made := store.Insert(user.value, org.value, TimeTracking.OrNull(project), TimeTracking.OrNull(task), now, DatePart(nowText), fail);
      if made.Some? {
        InsertOpen(old(store.rows), made.value.id, made.value, user.value);
        if old(store.OpenIds(user.value)) != {} {
          var other :| other in old(store.OpenIds(user.value));
          GrowsPastOne(old(store.OpenIds(user.value)), made.value.id, other);
        }
        active := made;
      }
    }

    /** `clockOut`, with the same stored hours as the newer hook. */
    method ClockOut(now: int, fail: bool)
      requires Valid()
      modifies this`active, this`elapsed, store`rows
      ensures Valid()
      ensures loading == old(loading)
      ensures old(active).None? ==> active == old(active) && elapsed == old(elapsed) && store.rows == old(store.rows)
      ensures old(active).Some? ==>
        var e := old(active).value;
        && store.rows == CloseRow(old(store.rows), e.id, now, Round2Hours(DiffSeconds(now, e.clockIn)), fail)
        && (if fail then active == old(active) && elapsed == old(elapsed) else active.None? && elapsed == 0)
    {
      if active.None? {
        return;
      }
      var e := active.value;
      var ok := store.Close(e.id, now, Round2Hours(DiffSeconds(now, e.clockIn)), fail);
      if !ok {
        return;
      }
      active := None;
      elapsed := 0;
    }

    /** `togglePause`: swap active and paused, recording a break when pausing. */
    method TogglePause(now: int, pauseFail: bool, updateFail: bool)
      requires Valid()
      modifies this`active, store`rows, store`pauses
      ensures Valid()
      ensures elapsed == old(elapsed) && loading == old(loading)
      ensures old(active).None? ==>
        active == old(active) && store.rows == old(store.rows) && store.pauses == old(store.pauses)
      ensures old(active).Some? ==>
        var e := old(active).value;
        var next := if e.status == Active then Paused else Active;
        && store.pauses == (if next == Paused && !pauseFail then old(store.pauses) + [Pause(e.id, now, "break")] else old(store.pauses))
        && store.rows == SetStatusRow(old(store.rows), e.id, next, updateFail)
        && active == (if !updateFail && e.id in old(store.rows) then Some(store.rows[e.id]) else old(active))
    {
      if active.None? {
        return;
      }
      var e := active.value;
      var next := if e.status == Active then Paused else Active;
      if next == Paused {
        store.InsertPause(e.id, now, pauseFail);
      }
      var row := store.SetStatus(e.id, next, updateFail);
      if row.Some? {
        active := row;
      }
    }
  }

  /** Adding a new id to a non-empty set gives at least two elements. */
  lemma GrowsPastOne(before: set<nat>, freshId: nat, open: nat)
    requires open in before && freshId !in before
    ensures |before + {freshId}| >= 2
  {
    assert {open, freshId} <= before + {freshId};
    assert |{open, freshId}| == 2;
    SubsetSize({open, freshId}, before + {freshId});
  }

  lemma {:induction false} SubsetSize(a: set<nat>, b: set<nat>)
    requires a <= b
    ensures |a| <= |b|
    decreases |b|
  {
    if a != {} {
      var x :| x in a;
      SubsetSize(a - {x}, b - {x});
    }
  }
}
