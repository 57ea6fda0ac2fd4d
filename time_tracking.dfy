/**
 * The timer state machine of the application: one current entry per user,
 * clock-in with a sweep of orphaned open entries, clock-out, pause and resume,
 * the zombie rule with its keep-or-fix decision, and the tickers that keep
 * the elapsed time and the reminders going.
 *
 * The remote table is an `EntryStore.Store`. Readings of the clock and the
 * outcome of every remote call are parameters of the methods, and each timer
 * or browser event is a method call of its own.
 */
module TimeTracking {
  import opened Common
  import opened TimeEntry
  import opened EntryStore

  /** The locally held state of the timer as the user interface sees it. */
  datatype TimerState = TimerState(active: Option<Entry>, zombie: Option<Entry>, elapsed: int, loading: bool)

  /** `calculateElapsedTime`: the paused branch and the running branch compute the same thing. */
  function Elapsed(e: Entry, now: int): int {
    if e.status == Paused then DiffSeconds(now, e.clockIn) else DiffSeconds(now, e.clockIn)
  }

  /** The elapsed time depends on the clock-in instant only, never on the status. */
  lemma ElapsedIgnoresStatus(e: Entry, s: Status, now: int)
    ensures Elapsed(e.(status := s), now) == Elapsed(e, now)
    ensures Elapsed(e, now) >= 0 <==> now - e.clockIn > -MsPerSecond
  {
  }

  /**
   * The outcome of one `fetchActiveEntry` once the query has produced `row`: a
   * zombie is parked in the zombie slot and leaves the current entry alone, any
   * other row becomes the current entry, and no row clears the current entry.
   */
  function AfterFetch(v: TimerState, row: Option<Entry>, now: int): (w: TimerState)
    ensures !w.loading
    ensures row.None? ==> w.active.None? && w.elapsed == 0 && w.zombie == v.zombie
    ensures row.Some? && IsZombie(row.value, now) ==>
      w.zombie == row && w.active == v.active && w.elapsed == v.elapsed
    ensures row.Some? && !IsZombie(row.value, now) ==>
      w.active == row && w.elapsed == Elapsed(row.value, now) && w.zombie == v.zombie
  {
    match row
    case None => v.(active := None, elapsed := 0, loading := false)
    case Some(e) =>
      if IsZombie(e, now) then v.(zombie := Some(e), loading := false)
      else v.(active := Some(e), elapsed := Elapsed(e, now), loading := false)
  }

  /** `projectId || null`: an absent or empty id is stored as no id. */
  function OrNull(id: Option<string>): (r: Option<string>)
    ensures r.Some? <==> id.Some? && id.value != ""
    ensures r.Some? ==> r == id
  {
    if id.Some? && id.value != "" then id else None
  }

  /** The entry a successful clock-out leaves in the table. */
  function Closed(e: Entry, out: int): Entry {
    e.(clockOut := Some(out), status := Completed, totalHours := Some(Round2Hours(DiffSeconds(out, e.clockIn))))
  }

  // ---------------------------------------------------------------------------
  // The sweep of orphaned open entries done by `clockIn`

  /**
   * The table after the first `n` steps of the sweep over `orphans`: every step
   * writes the shared `clock_out` instant `at`, and the hours of step `k` use the
   * clock reading `clock(k)` taken at that step; `fail(k)` is the outcome of its write.
   */
  function Swept(rows: map<nat, Entry>, orphans: seq<Entry>, at: int, clock: nat -> int, fail: nat -> bool, n: nat): map<nat, Entry>
    requires n <= |orphans|
  {
    if n == 0 then rows
    else
      var e := orphans[n - 1];
      CloseRow(Swept(rows, orphans, at, clock, fail, n - 1), e.id, at, Round2Hours(DiffSeconds(clock(n - 1), e.clockIn)), fail(n - 1))
  }

  /** The ids of the first `n` orphans. */
  function OrphanIds(orphans: seq<Entry>, n: nat): set<nat>
    requires n <= |orphans|
  {
    if n == 0 then {} else OrphanIds(orphans, n - 1) + {orphans[n - 1].id}
  }

  lemma {:induction false} OrphanIdsHas(orphans: seq<Entry>, n: nat, k: nat)
    requires k < n <= |orphans|
    ensures orphans[k].id in OrphanIds(orphans, n)
  {
    if k < n - 1 {
      OrphanIdsHas(orphans, n - 1, k);
    }
  }

  /** Later sweep steps keep the ids of the table and every row no later step names. */
  lemma {:induction false} SweptFrame(rows: map<nat, Entry>, orphans: seq<Entry>, at: int, clock: nat -> int, fail: nat -> bool, m: nat, n: nat)
    requires m <= n <= |orphans|
    ensures Swept(rows, orphans, at, clock, fail, n).Keys == Swept(rows, orphans, at, clock, fail, m).Keys
    ensures forall id :: id in Swept(rows, orphans, at, clock, fail, m) && (forall k :: m <= k < n ==> orphans[k].id != id) ==>
      Swept(rows, orphans, at, clock, fail, n)[id] == Swept(rows, orphans, at, clock, fail, m)[id]
  {
    if n > m {
      SweptFrame(rows, orphans, at, clock, fail, m, n - 1);
    }
  }

  /** The sweep writes only rows already in the table. */
  lemma {:induction false} SweptKeys(rows: map<nat, Entry>, orphans: seq<Entry>, at: int, clock: nat -> int, fail: nat -> bool, n: nat)
    requires n <= |orphans|
    ensures Swept(rows, orphans, at, clock, fail, n).Keys == rows.Keys
  {
    if n > 0 {
      SweptKeys(rows, orphans, at, clock, fail, n - 1);
    }
  }

  /** With no failed write, the first `n` steps close exactly the first `n` orphans. */
  lemma {:induction false} SweptOpen(rows: map<nat, Entry>, user: string, orphans: seq<Entry>, at: int, clock: nat -> int, fail: nat -> bool, n: nat)
    requires n <= |orphans|
    requires forall k :: 0 <= k < |orphans| ==> orphans[k].id in rows
    requires forall k :: 0 <= k < n ==> !fail(k)
    ensures OpenIdsOf(Swept(rows, orphans, at, clock, fail, n), user) == OpenIdsOf(rows, user) - OrphanIds(orphans, n)
  {
    if n > 0 {
      SweptOpen(rows, user, orphans, at, clock, fail, n - 1);
      SweptKeys(rows, orphans, at, clock, fail, n - 1);
      var e := orphans[n - 1];
      CloseOneMore(Swept(rows, orphans, at, clock, fail, n - 1), rows, user, e.id, at,
                   Round2Hours(DiffSeconds(clock(n - 1), e.clockIn)), OrphanIds(orphans, n - 1));
    }
  }

  /** Closing one more row of a table whose open rows are those of `rows` but `done` removes that row too. */
  lemma CloseOneMore(prev: map<nat, Entry>, rows: map<nat, Entry>, user: string, id: nat, out: int, total: int, done: set<nat>)
    requires id in prev && OpenIdsOf(prev, user) == OpenIdsOf(rows, user) - done
    ensures OpenIdsOf(CloseRow(prev, id, out, total, false), user) == OpenIdsOf(rows, user) - (done + {id})
  {
    CloseRowCloses(prev, id, out, total, user);
  }

  /** A sweep over all open entries of a user whose writes all succeed leaves that user nothing open. */
  lemma SweepClosesAll(rows: map<nat, Entry>, user: string, orphans: seq<Entry>, at: int, clock: nat -> int, fail: nat -> bool)
    requires ListsOpen(rows, user, orphans)
    requires forall k :: 0 <= k < |orphans| ==> !fail(k)
    ensures OpenIdsOf(Swept(rows, orphans, at, clock, fail, |orphans|), user) == {}
  {
    SweptOpen(rows, user, orphans, at, clock, fail, |orphans|);
    forall id | id in OpenIdsOf(rows, user) ensures id in OrphanIds(orphans, |orphans|) {
      var k :| 0 <= k < |orphans| && orphans[k].id == id;
      OrphanIdsHas(orphans, |orphans|, k);
    }
  }

  /**
   * Every orphan whose write succeeds ends up completed with the shared `clock_out`
   * and with the hours measured at its own step.
   */
  lemma SweptRow(rows: map<nat, Entry>, user: string, orphans: seq<Entry>, at: int, clock: nat -> int, fail: nat -> bool, k: nat)
    requires ListsOpen(rows, user, orphans)
    requires k < |orphans| && !fail(k)
    ensures var e := orphans[k];
      var s := Swept(rows, orphans, at, clock, fail, |orphans|);
      e.id in s && s[e.id] == e.(clockOut := Some(at), status := Completed, totalHours := Some(Round2Hours(DiffSeconds(clock(k), e.clockIn))))
  {
    var e := orphans[k];
    SweptFrame(rows, orphans, at, clock, fail, 0, k);
    SweptFrame(rows, orphans, at, clock, fail, k + 1, |orphans|);
  }

  // ---------------------------------------------------------------------------
  // The hour and half-hour chime

  /**
   * One second of the chime ticker while the timer runs: it fires in minute 0 or
   * 30 unless it already fired in that minute, and any other minute clears the
   * marker. Returns whether it fires and the new marker.
   */
  function ChimeStep(marker: Option<int>, minute: int): (r: (bool, Option<int>))
    ensures r.0 <==> (minute == 0 || minute == 30) && marker != Some(minute)
    ensures minute != 0 && minute != 30 ==> r.1 == None
    ensures (minute == 0 || minute == 30) ==> r.1 == Some(minute)
  {
    if (minute == 0 || minute == 30) && marker != Some(minute) then (true, Some(minute))
    else if minute != 0 && minute != 30 then (false, None)
    else (false, marker)
  }

  /** The number of chimes over a run of ticks, starting from `marker`. */
  function Chimes(marker: Option<int>, minutes: seq<int>): nat
    decreases |minutes|
  {
    if minutes == [] then 0
    else
      var (fire, next) := ChimeStep(marker, minutes[0]);
      (if fire then 1 else 0) + Chimes(next, minutes[1..])
  }

  /**
   * Over a run of consecutive ticks all in the same minute 0 or 30 the chime
   * fires once, or not at all when it already fired in that minute.
   */
  lemma {:induction false} OneChimePerRun(marker: Option<int>, minutes: seq<int>, m: int)
    requires m == 0 || m == 30
    requires forall i :: 0 <= i < |minutes| ==> minutes[i] == m
    ensures Chimes(marker, minutes) == if minutes == [] || marker == Some(m) then 0 else 1
    decreases |minutes|
  {
    if minutes != [] {
      OneChimePerRun(Some(m), minutes[1..], m);
    }
  }

  /** Leaving the key minute and coming back to it rings again. */
  lemma ChimeAgainAfterLeaving(marker: Option<int>, m: int, other: int)
    requires m == 0 || m == 30
    requires other != 0 && other != 30
    ensures Chimes(marker, [m, other, m]) == if marker == Some(m) then 1 else 2
  {
    assert [m, other, m][1..] == [other, m];
    assert [other, m][1..] == [m];
    assert [m][1..] == [];
    assert Chimes(None, [m]) == 1;
    assert Chimes(Some(m), [other, m]) == 1;
    assert Chimes(None, [other, m]) == 1;
  }

  // ---------------------------------------------------------------------------
  // The timer

  /** Every clock reading and remote outcome one `clockIn` call depends on. */
  datatype ClockInWorld = ClockInWorld(
    outNow: int,            // reading taken by the preceding clock-out
    outFail: bool,          // outcome of that clock-out's write
    queryFail: bool,        // outcome of the query for open entries
    sweepNow: int,          // the one `clock_out` written on every orphan
    stepNow: nat -> int,    // reading taken at step k of the sweep
    sweepFail: nat -> bool, // outcome of the write at step k
    insertNow: int,         // clock-in instant of the new entry
    insertText: string,     // the same instant as `toISOString()` gives it
    insertFail: bool)       // outcome of the insert

  datatype FixOutcome = NoZombie | Rejected | Fixed | WriteFailed

  class Tracker {
    const user: Option<string>
    const org: Option<string>
    const store: Store
    var active: Option<Entry>
    var zombie: Option<Entry>
    var elapsed: int
    var loading: bool
    var lastChime: Option<int>

    /** The current and the parked entry are open entries, held only while someone is signed in. */
    ghost predicate Valid()
      reads this, store
    {
      && store.Valid()
      && (active.Some? ==> user.Some? && IsOpen(active.value))
      && (zombie.Some? ==> user.Some? && IsOpen(zombie.value))
      && (lastChime == None || lastChime == Some(0) || lastChime == Some(30))
    }

    function State(): TimerState
      reads this
    {
      TimerState(active, zombie, elapsed, loading)
    }

    constructor (user: Option<string>, org: Option<string>, store: Store)
      requires store.Valid()
      ensures Valid()
      ensures this.user == user && this.org == org && this.store == store
      ensures State() == TimerState(None, None, 0, true) && lastChime == None
    {
      this.user := user;
      this.org := org;
      this.store := store;
      active := None;
      zombie := None;
      elapsed := 0;
      loading := true;
      lastChime := None;
    }

    /** `fetchActiveEntry` with the clock reading `now` and the query outcome `fail`. */
    method FetchActive(now: int, fail: bool)
      requires Valid()
      modifies this`active, this`zombie, this`elapsed, this`loading
      ensures Valid()
      ensures user.None? ==> State() == old(State())
      ensures user.Some? ==>
        State() == AfterFetch(old(State()), if fail then None else SingleOpenRow(store.rows, user.value), now)
    {
      if user.None? {
        return;
      }
      var row := store.SelectSingleOpen(user.value, fail);
      if row.Some? {
        SingleOpenRowIsOpen(store.rows, user.value);
      }
      var w := AfterFetch(State(), row, now);
      active, zombie, elapsed, loading := w.active, w.zombie, w.elapsed, w.loading;
    }

    /** `clockOut`: close the current entry with the reading `now`. */
    method ClockOut(now: int, fail: bool)
      requires Valid()
      modifies this`active, this`elapsed, store`rows
      ensures Valid()
      ensures zombie == old(zombie) && loading == old(loading)
      ensures old(active).None? ==> active == old(active) && elapsed == old(elapsed) && store.rows == old(store.rows)
      ensures old(active).Some? ==>
        var e := old(active).value;
        && store.rows == CloseRow(old(store.rows), e.id, now, Round2Hours(DiffSeconds(now, e.clockIn)), fail)
        && (if fail then active == old(active) && elapsed == old(elapsed) else active.None? && elapsed == 0)
    {
      if active.None? {
        return;
      }
      var e := active.value;
      var ok := store.Close(e.id, now, Round2Hours(DiffSeconds(now, e.clockIn)), fail);
      if ok {
        active := None;
        elapsed := 0;
      }
    }

    /**
     * `clockIn`: without a user and an organization nothing happens. Otherwise the
     * current entry is clocked out, every open entry of the user still in the table
     * is closed, and a new active entry is inserted and becomes the current entry.
     * `afterOut` is the table after the clock-out and `orphans` the open entries
     * the sweep found there.
     */
    method ClockIn(project: Option<string>, task: Option<string>, w: ClockInWorld)
      returns (ghost afterOut: map<nat, Entry>, ghost orphans: seq<Entry>)
      requires Valid()
      modifies this`active, this`elapsed, store`rows, store`nextId
      ensures Valid()
      ensures zombie == old(zombie) && loading == old(loading)
      ensures user.None? || org.None? ==>
        active == old(active) && elapsed == old(elapsed) && store.rows == old(store.rows) && store.nextId == old(store.nextId)
      ensures user.Some? && org.Some? ==>
        && afterOut == (if old(active).None? then old(store.rows)
                        else CloseRow(old(store.rows), old(active).value.id, w.outNow,
                                      Round2Hours(DiffSeconds(w.outNow, old(active).value.clockIn)), w.outFail))
        && (if w.queryFail then orphans == [] else ListsOpen(afterOut, user.value, orphans))
        && var swept := Swept(afterOut, orphans, w.sweepNow, w.stepNow, w.sweepFail, |orphans|);
           var kept := if old(active).Some? && !w.outFail then None else old(active);
           var made := Entry(old(store.nextId), user.value, org.value, OrNull(project), OrNull(task), w.insertNow, DatePart(w.insertText), None, Active, None);
           && elapsed == (if old(active).Some? && !w.outFail then 0 else old(elapsed))
           && (if w.insertFail then store.rows == swept && active == kept
               else store.rows == swept[made.id := made] && active == Some(made))
      ensures user.Some? && org.Some? && !w.queryFail && !w.insertFail && (forall k: nat :: !w.sweepFail(k)) ==>
        active.Some? && active.value.status == Active && store.OpenIds(user.value) == {active.value.id}
    {
      afterOut, orphans := store.rows, [];
      if user.None? || org.None? {
        return;
      }
      var entry0 := active;
      if active.Some? {
        ClockOut(w.outNow, w.outFail);
      }
      assert active == (if entry0.Some? && !w.outFail then None else entry0);
      afterOut := store.rows;
      orphans := StartSession(user.value, org.value, project, task, w);
    }

    /**
     * The part of `clockIn` after the clock-out: query the user's open entries,
     * close them, insert the new active entry and make it the current one.
     */
    method StartSession(u: string, o: string, project: Option<string>, task: Option<string>, w: ClockInWorld)
      returns (ghost orphans: seq<Entry>)
      requires Valid() && user == Some(u)
      modifies this`active, store`rows, store`nextId
      ensures Valid()
      ensures if w.queryFail then orphans == [] else ListsOpen(old(store.rows), u, orphans)
      ensures var swept := Swept(old(store.rows), orphans, w.sweepNow, w.stepNow, w.sweepFail, |orphans|);
        var made := Entry(old(store.nextId), u, o, OrNull(project), OrNull(task), w.insertNow, DatePart(w.insertText), None, Active, None);
        if w.insertFail then store.rows == swept && active == old(active)
        else store.rows == swept[made.id := made] && active == Some(made)
      ensures !w.queryFail && !w.insertFail && (forall k: nat :: !w.sweepFail(k)) ==>
        active.Some? && active.value.status == Active && store.OpenIds(u) == {active.value.id}
    {
      ghost var before := store.rows;
      var found := store.SelectOpen(u, w.queryFail);
      var list := if found.Some? then found.value else [];
      orphans := list;
      CloseOrphans(list, w);
      ghost var swept := store.rows;
      if !w.queryFail && (forall k: nat :: !w.sweepFail(k)) {
        SweepClosesAll(before, u, list, w.sweepNow, w.stepNow, w.sweepFail);
      }
      var made := store.Insert(u, o, OrNull(project), OrNull(task), w.insertNow, DatePart(w.insertText), w.insertFail);
      if made.Some? {
        active := made;
        InsertOpen(swept, made.value.id, made.value, u);
      }
    }

    /** The loop of `clockIn` that closes the open entries it found, one write per entry. */
    method CloseOrphans(list: seq<Entry>, w: ClockInWorld)
      requires store.Valid()
      modifies store`rows
      ensures store.Valid()
      ensures store.rows == Swept(old(store.rows), list, w.sweepNow, w.stepNow, w.sweepFail, |list|)
    {
      var k := 0;
      while k < |list|
        invariant 0 <= k <= |list|
        invariant store.Valid()
        invariant store.rows == Swept(old(store.rows), list, w.sweepNow, w.stepNow, w.sweepFail, k)
      {
        var e := list[k];
        var _ := store.Close(e.id, w.sweepNow, Round2Hours(DiffSeconds(w.stepNow(k), e.clockIn)), w.sweepFail(k));
        k := k + 1;
      }
    }

    /** `togglePause`: swap active and paused, recording a break when pausing. */
    method TogglePause(now: int, pauseFail: bool, updateFail: bool)
      requires Valid()
      modifies this`active, store`rows, store`pauses
      ensures Valid()
      ensures zombie == old(zombie) && elapsed == old(elapsed) && loading == old(loading)
      ensures old(active).None? ==>
        active == old(active) && store.rows == old(store.rows) && store.pauses == old(store.pauses)
      ensures old(active).Some? ==>
        var e := old(active).value;
        var next := if e.status == Active then Paused else Active;
        && store.pauses == (if next == Paused && !pauseFail then old(store.pauses) + [Pause(e.id, now, "break")] else old(store.pauses))
        && store.rows == SetStatusRow(old(store.rows), e.id, next, updateFail)
        && active == (if !updateFail && e.id in old(store.rows) then Some(store.rows[e.id]) else old(active))
        && active.value.status in {Active, Paused}
    {
      if active.None? {
        return;
      }
      var e := active.value;
      var next := if e.status == Active then Paused else Active;
      if next == Paused {
        store.InsertPause(e.id, now, pauseFail);
      }
      var row := store.SetStatus(e.id, next, updateFail);
      if row.Some? {
        active := row;
      }
    }

    /** `keepZombieTime`: the parked entry becomes the current entry and the dialog closes. */
    method KeepZombie(now: int)
      requires Valid()
      modifies this`active, this`zombie, this`elapsed
      ensures Valid()
      ensures old(zombie).None? ==> State() == old(State())
      ensures old(zombie).Some? ==>
        State() == old(State()).(active := old(zombie), zombie := None, elapsed := Elapsed(old(zombie).value, now))
    {
      if zombie.Some? {
        var z := zombie.value;
        active := zombie;
        elapsed := Elapsed(z, now);
        zombie := None;
      }
    }

    /**
     * `fixZombieTime`: close the parked entry at `newEnd` unless its whole-second
     * duration is negative; on success the dialog closes and the entry is fetched
     * again with the reading `fetchNow` and the query outcome `fetchFail`.
     */
    method FixZombie(newEnd: int, writeFail: bool, fetchNow: int, fetchFail: bool) returns (outcome: FixOutcome)
      requires Valid()
      modifies this`active, this`zombie, this`elapsed, this`loading, store`rows
      ensures Valid()
      ensures outcome == (if old(zombie).None? then NoZombie
                          else if DiffSeconds(newEnd, old(zombie).value.clockIn) < 0 then Rejected
                          else if writeFail then WriteFailed
                          else Fixed)
      ensures outcome != Fixed ==> State() == old(State()) && store.rows == old(store.rows)
      ensures outcome == Fixed ==>
        var z := old(zombie).value;
        && store.rows == CloseRow(old(store.rows), z.id, newEnd, Round2Hours(DiffSeconds(newEnd, z.clockIn)), false)
        && State() == AfterFetch(old(State()).(zombie := None), if fetchFail then None else SingleOpenRow(store.rows, user.value), fetchNow)
    {
      if zombie.None? {
        return NoZombie;
      }
      var z := zombie.value;
      var seconds := DiffSeconds(newEnd, z.clockIn);
      if seconds < 0 {
        return Rejected;
      }
      var ok := store.Close(z.id, newEnd, Round2Hours(seconds), writeFail);
      if !ok {
        return WriteFailed;
      }
      zombie := None;
      FetchActive(fetchNow, fetchFail);
      outcome := Fixed;
    }

    /** The elapsed-time effect: the computation on a change of entry and every 1-second tick. */
    method ElapsedTick(now: int)
      requires Valid()
      modifies this`elapsed
      ensures Valid()
      ensures elapsed == if active.Some? && active.value.status == Active then Elapsed(active.value, now) else old(elapsed)
    {
      if active.Some? && active.value.status == Active {
        elapsed := Elapsed(active.value, now);
      }
    }

    /** The tab becoming visible or hidden. */
    method VisibilityChange(visible: bool, now: int)
      requires Valid()
      modifies this`elapsed
      ensures Valid()
      ensures elapsed == if visible && active.Some? then Elapsed(active.value, now) else old(elapsed)
    {
      if visible && active.Some? {
        elapsed := Elapsed(active.value, now);
      }
    }

    /** One second of the chime ticker in minute `minute` of the hour. */
    method ChimeTick(minute: int) returns (chime: bool)
      requires Valid()
      requires 0 <= minute < 60
      modifies this`lastChime
      ensures Valid()
      ensures active.Some? && active.value.status == Active ==> (chime, lastChime) == ChimeStep(old(lastChime), minute)
      ensures !(active.Some? && active.value.status == Active) ==> !chime && lastChime == old(lastChime)
    {
      chime := false;
      if active.Some? && active.value.status == Active {
        chime, lastChime := ChimeStep(lastChime, minute).0, ChimeStep(lastChime, minute).1;
      }
    }

    /** One tick of the 15-minute idle reminder: it sounds when nothing runs and the tab is visible. */
    method IdleTick(visible: bool) returns (remind: bool)
      ensures remind <==> active.None? && visible
    {
      remind := active.None? && visible;
    }
  }

  /** The row `maybeSingle()` returns is an open entry of the user asked for. */
  lemma SingleOpenRowIsOpen(rows: map<nat, Entry>, user: string)
    requires SingleOpenRow(rows, user).Some?
    ensures SingleOpenRow(rows, user).value.user == user && IsOpen(SingleOpenRow(rows, user).value)
  {
  }

  /** `fixZombieTime` turns an end time down exactly when it lies a full second or more before the start. */
  lemma FixRejectsIff(newEnd: int, start: int)
    ensures DiffSeconds(newEnd, start) < 0 <==> newEnd <= start - MsPerSecond
  {
  }
}
