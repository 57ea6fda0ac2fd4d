/**
 * The full-screen focus page: its shorter clock, the rule that leaves the page
 * when nothing is running, and its finish button.
 */
module FocusMode {
  import opened Common
  import opened TimeEntry
  import opened EntryStore
  import opened TimeTracking
  import CurrentStatus

  /** The focus clock: `MM:SS`, preceded by the unpadded hours and ':' once an hour has passed. */
  function FormatFocus(seconds: int): string {
    var (h, m, s) := CurrentStatus.ClockFields(seconds);
    (if h > 0 then IntToString(h) + ":" else "") + PadStart2(IntToString(m)) + ":" + PadStart2(IntToString(s))
  }

  /** The focus clock of a non-negative duration, in terms of the padded fields. */
  lemma FocusPadded(seconds: int)
    requires seconds >= 0
    ensures var f := CurrentStatus.ClockFields(seconds);
      FormatFocus(seconds) == (if f.0 > 0 then NatToString(f.0) + ":" else "") + Pad2(f.1) + ":" + Pad2(f.2)
  {
    var f := CurrentStatus.ClockFields(seconds);
    CurrentStatus.ClockFieldsSplit(seconds);
    FieldText(f.0);
    FieldText(f.1);
    FieldText(f.2);
  }

  /** A field that is not negative prints without a sign. */
  lemma FieldText(n: int)
    requires n >= 0
    ensures IntToString(n) == NatToString(n) && PadStart2(IntToString(n)) == Pad2(n)
  {
  }

  lemma NoHoursUnderAnHour(seconds: int)
    requires 0 <= seconds < 3600
    ensures CurrentStatus.ClockFields(seconds).0 == 0
  {
  }

  /** Under an hour the focus clock is `MM:SS`: five characters, the last five of the card's clock. */
  lemma FocusUnderAnHour(seconds: int)
    requires 0 <= seconds < 3600
    ensures |FormatFocus(seconds)| == 5
    ensures FormatFocus(seconds) == CurrentStatus.FormatTime(seconds)[3..]
  {
    var f := CurrentStatus.ClockFields(seconds);
    NoHoursUnderAnHour(seconds);
    CurrentStatus.ClockFieldsSplit(seconds);
    FocusPadded(seconds);
    CurrentStatus.FormatTimePadded(seconds);
    Pad2Length(f.0);
    Pad2Length(f.1);
    Pad2Length(f.2);
    AfterHours(Pad2(f.0), Pad2(f.1), Pad2(f.2));
  }

  /** Dropping a two-character hour field and its colon leaves `MM:SS`. */
  lemma AfterHours(h: string, m: string, s: string)
    requires |h| == 2 && |m| == 2 && |s| == 2
    ensures (h + ":" + m + ":" + s)[3..] == "" + m + ":" + s && |"" + m + ":" + s| == 5
  {
    assert h + ":" + m + ":" + s == (h + ":") + (m + ":" + s);
  }

  lemma Pad2Length(n: nat)
    requires n < 100
    ensures |Pad2(n)| == 2
  {
    Pad2Small(n);
  }

  /** From one hour on the hours are printed unpadded in front of `MM:SS`. */
  lemma FocusFromAnHour(seconds: int)
    requires seconds >= 3600
    ensures var f := CurrentStatus.ClockFields(seconds);
      FormatFocus(seconds) == NatToString(f.0) + ":" + Pad2(f.1) + ":" + Pad2(f.2)
  {
    var f := CurrentStatus.ClockFields(seconds);
    CurrentStatus.ClockFieldsSplit(seconds);
    FocusPadded(seconds);
    assert f.0 > 0;
  }

  /** From one hour on the focus clock reads back as the elapsed time. */
  lemma FocusRoundTrip(seconds: int)
    requires seconds >= 3600
    ensures CurrentStatus.ParseClock(FormatFocus(seconds)) == Some(seconds)
  {
    var f := CurrentStatus.ClockFields(seconds);
    CurrentStatus.ClockFieldsSplit(seconds);
    FocusFromAnHour(seconds);
    ReadsBack(FormatFocus(seconds), seconds, f.0, f.1, f.2);
  }

  /** A text of the focus shape reads back as the duration its fields add up to. */
  lemma ReadsBack(t: string, seconds: int, h: nat, m: nat, s: nat)
    requires m < 60 && s < 60 && seconds == h * 3600 + m * 60 + s
    requires t == NatToString(h) + ":" + Pad2(m) + ":" + Pad2(s)
    ensures CurrentStatus.ParseClock(t) == Some(seconds)
  {
    ParseFocusText(h, m, s);
  }

  /** The text `H:MM:SS` with unpadded hours reads back as its duration. */
  lemma ParseFocusText(h: nat, m: nat, s: nat)
    requires m < 100 && s < 100
    ensures CurrentStatus.ParseClock(NatToString(h) + ":" + Pad2(m) + ":" + Pad2(s)) == Some(h * 3600 + m * 60 + s)
  {
    NatToStringRoundTrip(h);
    Pad2Value(m);
    Pad2Value(s);
    CurrentStatus.ClockTextsOf(NatToString(h), Pad2(m), Pad2(s));
    assert CurrentStatus.AllDigits(NatToString(h)) && CurrentStatus.AllDigits(Pad2(m)) && CurrentStatus.AllDigits(Pad2(s));
    assert CurrentStatus.ClockValue(NatToString(h), Pad2(m), Pad2(s)) == h * 3600 + m * 60 + s;
  }

  /** From ten hours on both clocks print the same text. */
  lemma FocusMatchesCardFromTenHours(seconds: int)
    requires seconds >= 36000
    ensures FormatFocus(seconds) == CurrentStatus.FormatTime(seconds)
  {
    var f := CurrentStatus.ClockFields(seconds);
    CurrentStatus.ClockFieldsSplit(seconds);
    CurrentStatus.FormatTimePadded(seconds);
    FocusFromAnHour(seconds);
    NatToStringLength(f.0);
  }

  /** The page content: nothing without a current entry, otherwise the focus clock. */
  function Screen(active: Option<Entry>, elapsed: int): (r: Option<string>)
    ensures r.None? <==> active.None?
    ensures r.Some? ==> r.value == FormatFocus(elapsed)
  {
    if active.None? then None else Some(FormatFocus(elapsed))
  }

  /** A session lasting more than a minute is celebrated. */
  const CelebrateSeconds: int := 60

  /** The exit effect: go back home when there is no entry and the elapsed time is 0. */
  method ExitEffect(t: Tracker) returns (navigateHome: bool)
    ensures navigateHome <==> t.active.None? && t.elapsed == 0
  {
    navigateHome := t.active.None? && t.elapsed == 0;
  }

  /** `handleFinish`: celebrate a session of more than a minute, clock out, go home. */
  method Finish(t: Tracker, now: int, fail: bool) returns (celebrate: bool, navigateHome: bool)
    requires t.Valid()
    modifies t`active, t`elapsed, t.store`rows
    ensures t.Valid()
    ensures celebrate <==> old(t.elapsed) > CelebrateSeconds
    ensures navigateHome
    ensures t.zombie == old(t.zombie) && t.loading == old(t.loading)
    ensures old(t.active).None? ==> t.active == old(t.active) && t.elapsed == old(t.elapsed) && t.store.rows == old(t.store.rows)
    ensures old(t.active).Some? ==>
      var e := old(t.active).value;
      && t.store.rows == CloseRow(old(t.store.rows), e.id, now, Round2Hours(DiffSeconds(now, e.clockIn)), fail)
      && (if fail then t.active == old(t.active) && t.elapsed == old(t.elapsed) else t.active.None? && t.elapsed == 0)
  {
    celebrate := t.elapsed > CelebrateSeconds;
    t.ClockOut(now, fail);
    navigateHome := true;
  }
}
