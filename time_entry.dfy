/**
 * The time entry, the row the whole application revolves around, and the time
 * arithmetic the timer relies on. Instants are integer milliseconds since the
 * epoch; the `date-fns` differences used by the timer truncate toward zero.
 */
module TimeEntry {
  import opened Common

  datatype Status = Active | Paused | Completed

  /**
   * One row of the `time_entries` table. `totalHours` is kept in integer
   * hundredths of an hour (the stored value is always rounded to two decimals).
   * `date` is the date column written at clock-in, the date part of the start's ISO text.
   */
  datatype Entry = Entry(
    id: nat,
    user: string,
    org: string,
    project: Option<string>,
    task: Option<string>,
    clockIn: int,
    date: string,
    clockOut: Option<int>,
    status: Status,
    totalHours: Option<int>)

  predicate IsOpen(e: Entry) {
    e.status != Completed
  }

  const MsPerSecond: int := 1000
  const MsPerHour: int := 3_600_000
  const ZombieHours: int := 12

  /** `differenceInSeconds(later, earlier)`: whole seconds, truncated toward zero. */
  function DiffSeconds(later: int, earlier: int): (s: int)
    ensures later >= earlier ==> 0 <= (later - earlier) - MsPerSecond * s < MsPerSecond
    ensures later < earlier ==> 0 <= MsPerSecond * s - (later - earlier) < MsPerSecond
  {
    TruncDiv(later - earlier, MsPerSecond)
  }

  /** `differenceInHours(later, earlier)`: whole hours, truncated toward zero. */
  function WholeHours(later: int, earlier: int): (h: int)
    ensures later >= earlier ==> 0 <= (later - earlier) - MsPerHour * h < MsPerHour
    ensures later < earlier ==> 0 <= MsPerHour * h - (later - earlier) < MsPerHour
  {
    TruncDiv(later - earlier, MsPerHour)
  }

  /** The zombie rule: at least 12 whole hours since clock-in, and not paused. */
  predicate IsZombie(e: Entry, now: int) {
    WholeHours(now, e.clockIn) >= ZombieHours && e.status != Paused
  }

  /** The 12-hour threshold in milliseconds: the rule flips exactly at 43 200 000 ms. */
  lemma ZombieThreshold(e: Entry, now: int)
    ensures IsZombie(e, now) <==> now - e.clockIn >= ZombieHours * MsPerHour && e.status != Paused
  {
    var h := WholeHours(now, e.clockIn);
    if now - e.clockIn >= ZombieHours * MsPerHour {
      assert MsPerHour * h > (ZombieHours - 1) * MsPerHour;
    } else if now >= e.clockIn {
      assert MsPerHour * h < ZombieHours * MsPerHour;
    }
  }

  /**
   * `Number((seconds / 3600).toFixed(2))` in hundredths of an hour: the magnitude
   * is rounded to the nearest hundredth, ties away from zero, and the sign is kept.
   */
  function Round2Hours(seconds: int): (c: int)
    ensures -18 <= 36 * c - seconds <= 18
    ensures seconds >= 0 ==> c >= 0
  {
    if seconds >= 0 then (seconds + 18) / 36 else -((-seconds + 18) / 36)
  }

  /** The rounding is symmetric about zero, as `toFixed` is. */
  lemma Round2HoursOdd(seconds: int)
    ensures Round2Hours(-seconds) == -Round2Hours(seconds)
  {
  }

  /** Hundredths of an hour agree with the real-valued rounding `Round2` of seconds / 3600. */
  lemma {:induction false} Round2HoursIsRound2(seconds: int)
    ensures (Round2Hours(seconds) as real) / 100.0 == Round2((seconds as real) / 3600.0)
  {
    var a := if seconds >= 0 then seconds else -seconds;
    var n := (a + 18) / 36;
    assert 36 * n <= a + 18 < 36 * n + 36;
    var x := Abs((seconds as real) / 3600.0) * 100.0;
    assert x == (a as real) / 36.0;
    assert (n as real) <= x + 0.5 < (n as real) + 1.0;
    assert RoundHalfUp(x) == n;
  }

  /** An hour and a half is stored as 1.50. */
  lemma NinetyMinutes()
    ensures Round2Hours(5400) == 150
  {
  }

  /** A longer stretch never stores fewer hundredths of an hour. */
  lemma Round2HoursMonotone(s: int, t: int)
    requires s <= t
    ensures Round2Hours(s) <= Round2Hours(t)
  {
  }
}
