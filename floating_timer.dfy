/**
 * The floating Picture-in-Picture clock: the frame drawn on its canvas. The
 * drawing itself and the video stream are not part of this model.
 */
module FloatingTimer {
  import opened Common
  import opened TimeEntry
  import CurrentStatus

  /** What one frame shows: the clock text and whether the "PAUSADO" label is drawn. */
  datatype Frame = Frame(clock: string, paused: bool)

  /**
   * The component: nothing without a current entry; otherwise the elapsed time
   * printed by the same `formatTime` as the session card, and the paused label
   * exactly for a paused entry.
   */
  function Render(active: Option<Entry>, elapsed: int): (r: Option<Frame>)
    ensures r.None? <==> active.None?
    ensures r.Some? ==> r.value.clock == CurrentStatus.FormatTime(elapsed)
    ensures r.Some? ==> (r.value.paused <==> active.value.status == Paused)
  {
    if active.None? then None
    else Some(Frame(CurrentStatus.FormatTime(elapsed), active.value.status == Paused))
  }

  /** Below 100 hours the frame's clock has 8 characters and reads back as the elapsed time. */
  lemma RenderedClock(active: Option<Entry>, elapsed: int)
    requires active.Some? && 0 <= elapsed < 360000
    ensures |Render(active, elapsed).value.clock| == 8
    ensures CurrentStatus.ParseClock(Render(active, elapsed).value.clock) == Some(elapsed)
  {
    CurrentStatus.FormatTimeLength(elapsed);
    CurrentStatus.ClockRoundTrip(elapsed);
  }
}
