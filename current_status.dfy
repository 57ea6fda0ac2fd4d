/**
 * The current-session card: the `HH:MM:SS` clock, the project and task
 * pickers whose values become the arguments of a clock-in, the finish button
 * and the status badge.
 */
module CurrentStatus {
  import opened Common
  import opened TimeEntry
  import opened EntryStore
  import opened TimeTracking

  /** JavaScript's `a % b` for a positive divisor: the remainder takes the sign of `a`. */
  function JsRem(a: int, b: int): (r: int)
    requires b > 0
    ensures a >= 0 ==> r == a % b
    ensures -b < r < b
  {
    a - b * TruncDiv(a, b)
  }

  /** The three fields `formatTime` prints: hours, minutes of the hour, seconds of the minute. */
  function ClockFields(seconds: int): (int, int, int) {
    (seconds / 3600, JsRem(seconds, 3600) / 60, JsRem(seconds, 60))
  }

  /** `formatTime`: each field as a decimal, left-padded with '0' to two characters. */
  function FormatTime(seconds: int): string {
    var (h, m, s) := ClockFields(seconds);
    PadStart2(IntToString(h)) + ":" + PadStart2(IntToString(m)) + ":" + PadStart2(IntToString(s))
  }

  /** The fields of a non-negative duration are in range and add back up to it. */
  lemma ClockFieldsSplit(seconds: int)
    requires seconds >= 0
    ensures var (h, m, s) := ClockFields(seconds);
      && h >= 0 && 0 <= m < 60 && 0 <= s < 60
      && h * 3600 + m * 60 + s == seconds
  {
  }

  lemma FormatTimePadded(seconds: int)
    requires seconds >= 0
    ensures var (h, m, s) := ClockFields(seconds);
      FormatTime(seconds) == Pad2(h) + ":" + Pad2(m) + ":" + Pad2(s)
  {
  }

  predicate AllDigits(s: string) {
    forall i :: 0 <= i < |s| ==> IsDigit(s[i])
  }

  /** The hour, minute and second texts of a clock reading `H…H:MM:SS`. */
  function ClockTexts(t: string): (string, string, string)
    requires |t| >= 7
  {
    (t[..|t| - 6], t[|t| - 5..|t| - 3], t[|t| - 2..])
  }

  function ClockValue(hs: string, ms: string, ss: string): nat
    requires AllDigits(hs) && AllDigits(ms) && AllDigits(ss)
  {
    DigitsValue(hs) * 3600 + DigitsValue(ms) * 60 + DigitsValue(ss)
  }

  /** Reads `H…H:MM:SS` back: one digit or more, a colon, two digits, a colon, two digits. */
  function ParseClock(t: string): Option<int> {
    if |t| >= 7 && t[|t| - 3] == ':' && t[|t| - 6] == ':' then
      var (hs, ms, ss) := ClockTexts(t);
      if AllDigits(hs) && AllDigits(ms) && AllDigits(ss) then Some(ClockValue(hs, ms, ss)) else None
    else None
  }

  /** Every field has two digits or more, so the clock has at least 8 characters, exactly 8 below 100 hours. */
  lemma FormatTimeLength(seconds: int)
    requires seconds >= 0
    ensures |FormatTime(seconds)| >= 8
    ensures |FormatTime(seconds)| == 8 <==> seconds < 360000
  {
    var (h, m, s) := ClockFields(seconds);
    FormatTimePadded(seconds);
    Pad2Value(h);
    Pad2Value(m);
    Pad2Value(s);
  }

  lemma ClockTextsOf(ph: string, pm: string, ps: string)
    requires |pm| == 2 && |ps| == 2 && |ph| >= 1
    ensures var t := ph + ":" + pm + ":" + ps;
      |t| >= 7 && t[|t| - 3] == ':' && t[|t| - 6] == ':' && ClockTexts(t) == (ph, pm, ps)
  {
    var t := ph + ":" + pm + ":" + ps;
    assert t[..|t| - 6] == ph;
    assert t[|t| - 5..|t| - 3] == pm;
    assert t[|t| - 2..] == ps;
  }

  /** Three padded fields read back as the duration they describe. */
  lemma ParsePadded(h: nat, m: nat, s: nat)
    requires m < 100 && s < 100
    ensures ParseClock(Pad2(h) + ":" + Pad2(m) + ":" + Pad2(s)) == Some(h * 3600 + m * 60 + s)
  {
    Pad2Value(h);
    Pad2Value(m);
    Pad2Value(s);
    ClockTextsOf(Pad2(h), Pad2(m), Pad2(s));
    assert AllDigits(Pad2(h)) && AllDigits(Pad2(m)) && AllDigits(Pad2(s));
    assert ClockValue(Pad2(h), Pad2(m), Pad2(s)) == h * 3600 + m * 60 + s;
  }

  /** The printed clock reads back as the duration it was printed from. */
  lemma ClockRoundTrip(seconds: int)
    requires seconds >= 0
    ensures ParseClock(FormatTime(seconds)) == Some(seconds)
  {
    var f := ClockFields(seconds);
    ClockFieldsSplit(seconds);
    FormatTimePadded(seconds);
    ReadsBackPadded(FormatTime(seconds), seconds, f.0, f.1, f.2);
  }

  /** A text of three padded fields reads back as the duration they add up to. */
  lemma ReadsBackPadded(t: string, seconds: int, h: nat, m: nat, s: nat)
    requires m < 60 && s < 60 && seconds == h * 3600 + m * 60 + s
    requires t == Pad2(h) + ":" + Pad2(m) + ":" + Pad2(s)
    ensures ParseClock(t) == Some(seconds)
  {
    ParsePadded(h, m, s);
  }

  /** The badge of the card. */
  function Badge(status: Status): (text: string)
    ensures text == "Pausado" <==> status == Paused
  {
    if status == Paused then "Pausado" else "En Vivo"
  }

  /** The project the task picker loads tasks for: none until a real project is chosen. */
  function TaskQueryProject(project: string): (r: Option<string>)
    ensures r.Some? <==> project != "" && project != "none"
    ensures r.Some? ==> r.value == project
  {
    if project != "" && project != "none" then Some(project) else None
  }

  /** A picker value as a `clockIn` argument: "none" means no id, anything else is passed on. */
  function PickerArg(value: string): (r: Option<string>)
    ensures r.None? <==> value == "none"
    ensures r.Some? ==> r.value == value
  {
    if value == "none" then None else Some(value)
  }

  /** The stored id of a picker value: the explicit "none" and the untouched "" both store no id. */
  lemma PickerStoresId(value: string)
    ensures OrNull(PickerArg(value)).None? <==> value == "none" || value == ""
    ensures OrNull(PickerArg(value)).Some? ==> OrNull(PickerArg(value)).value == value
  {
  }

  /** A session lasting more than half an hour is celebrated. */
  const CelebrateSeconds: int := 1800

  class Card {
    var project: string
    var task: string

    constructor ()
      ensures project == "" && task == ""
    {
      project := "";
      task := "";
    }

    /** Choosing a project clears the chosen task. */
    method SelectProject(value: string)
      modifies this
      ensures project == value && task == ""
    {
      project := value;
      task := "";
    }

    method SelectTask(value: string)
      modifies this`task
      ensures task == value && project == old(project)
    {
      task := value;
    }

    /** "Iniciar Sesión". */
    method Start(t: Tracker, w: ClockInWorld) returns (ghost afterOut: map<nat, Entry>, ghost orphans: seq<Entry>)
      requires t.Valid()
      modifies t`active, t`elapsed, t.store`rows, t.store`nextId
      ensures t.Valid()
      ensures t.zombie == old(t.zombie) && t.loading == old(t.loading)
      ensures t.user.None? || t.org.None? ==>
        && t.active == old(t.active) && t.elapsed == old(t.elapsed)
        && t.store.rows == old(t.store.rows) && t.store.nextId == old(t.store.nextId)
      ensures t.user.Some? && t.org.Some? ==>
        && afterOut == (if old(t.active).None? then old(t.store.rows)
                        else CloseRow(old(t.store.rows), old(t.active).value.id, w.outNow,
                                      Round2Hours(DiffSeconds(w.outNow, old(t.active).value.clockIn)), w.outFail))
        && (if w.queryFail then orphans == [] else ListsOpen(afterOut, t.user.value, orphans))
        && var swept := Swept(afterOut, orphans, w.sweepNow, w.stepNow, w.sweepFail, |orphans|);
           var kept := if old(t.active).Some? && !w.outFail then None else old(t.active);
           var made := Entry(old(t.store.nextId), t.user.value, t.org.value, OrNull(PickerArg(project)), OrNull(PickerArg(task)),
                             w.insertNow, DatePart(w.insertText), None, Active, None);
           && t.elapsed == (if old(t.active).Some? && !w.outFail then 0 else old(t.elapsed))
           && (if w.insertFail then t.store.rows == swept && t.active == kept
               else t.store.rows == swept[made.id := made] && t.active == Some(made))
      ensures t.user.Some? && t.org.Some? && !w.insertFail ==>
        t.active.Some? && t.active.value.project == OrNull(PickerArg(project)) && t.active.value.task == OrNull(PickerArg(task))
    {
      afterOut, orphans := t.ClockIn(PickerArg(project), PickerArg(task), w);
    }

    /** `handleFinish`: celebrate a long session, then always clock out. */
    method Finish(t: Tracker, now: int, fail: bool) returns (celebrate: bool)
      requires t.Valid()
      modifies t`active, t`elapsed, t.store`rows
      ensures t.Valid()
      ensures celebrate <==> old(t.elapsed) > CelebrateSeconds
      ensures t.zombie == old(t.zombie) && t.loading == old(t.loading)
      ensures old(t.active).None? ==> t.active == old(t.active) && t.elapsed == old(t.elapsed) && t.store.rows == old(t.store.rows)
      ensures old(t.active).Some? ==>
        var e := old(t.active).value;
        && t.store.rows == CloseRow(old(t.store.rows), e.id, now, Round2Hours(DiffSeconds(now, e.clockIn)), fail)
        && (if fail then t.active == old(t.active) && t.elapsed == old(t.elapsed) else t.active.None? && t.elapsed == 0)
    {
      celebrate := t.elapsed > CelebrateSeconds;
      t.ClockOut(now, fail);
    }
  }
}
