/**
 * The dialog shown for a zombie entry: keep the time, or enter the real end
 * time starting from a suggestion four hours after the start. The conversion
 * of an instant to local calendar fields and the parsing of the input back to
 * an instant belong to the browser; they are parameters here.
 */
module ZombieDialog {
  import opened Common
  import opened TimeEntry

  /** The local calendar fields of an instant, as `getFullYear`, `getMonth`, ... return them. */
  datatype LocalDateTime = LocalDateTime(year: int, month0: int, day: int, hours: int, minutes: int, seconds: int)

  const SuggestionOffsetMs: int := 4 * 60 * 60 * 1000

  /** The proposed end of a forgotten entry: four hours after its start. */
  function SuggestedFix(clockIn: int): (t: int)
    ensures WholeHours(t, clockIn) == 4 && DiffSeconds(t, clockIn) == 4 * 3600
  {
    clockIn + SuggestionOffsetMs
  }

  /** The hours the dialog reports: whole hours from the start to now. */
  function HoursRunning(clockIn: int, now: int): int {
    WholeHours(now, clockIn)
  }

  /** `pad`: the floor of the magnitude, left-padded with '0' to two characters. */
  function Pad(n: int): string {
    Pad2(if n < 0 then -n else n)
  }

  /** `pad` keeps the value, always gives two characters or more, and truncates nothing. */
  lemma PadFacts(n: int)
    ensures var a := if n < 0 then -n else n;
      && (forall i :: 0 <= i < |Pad(n)| ==> IsDigit(Pad(n)[i]))
      && DigitsValue(Pad(n)) == a
      && (a < 100 ==> |Pad(n)| == 2)
      && (a >= 100 ==> Pad(n) == NatToString(a))
  {
    var a := if n < 0 then -n else n;
    Pad2Value(a);
    if a >= 100 {
      Pad2Large(a);
    }
  }

  /** `formatDateToLocalISOString`: `Y-MM-DDTHH:mm:ss` with a 1-based month. */
  function FormatLocalIso(d: LocalDateTime): string {
    IntToString(d.year) + "-" + Pad(d.month0 + 1) + "-" + Pad(d.day) + "T" + Pad(d.hours) + ":" + Pad(d.minutes) + ":" + Pad(d.seconds)
  }

  /** `formatForInput`: the first 16 characters (`slice` keeps a shorter string whole). */
  function FormatForInput(d: LocalDateTime): (r: string)
    ensures |r| <= 16
    ensures r <= FormatLocalIso(d)
  {
    var s := FormatLocalIso(d);
    if |s| >= 16 then s[..16] else s
  }

  lemma FourDigits(n: nat)
    requires 1000 <= n <= 9999
    ensures |NatToString(n)| == 4
  {
    NatToStringLength(n / 100);
  }

  /**
   * For a four-digit year and fields below 100 the full text has 19 characters
   * and the input value is exactly `YYYY-MM-DDTHH:mm`.
   */
  lemma InputValueShape(d: LocalDateTime)
    requires 1000 <= d.year <= 9999
    requires 0 <= d.month0 + 1 < 100 && 0 <= d.day < 100 && 0 <= d.hours < 100 && 0 <= d.minutes < 100 && 0 <= d.seconds < 100
    ensures |FormatLocalIso(d)| == 19
    ensures FormatForInput(d) == IntToString(d.year) + "-" + Pad(d.month0 + 1) + "-" + Pad(d.day) + "T" + Pad(d.hours) + ":" + Pad(d.minutes)
    ensures |FormatForInput(d)| == 16
  {
    FourDigits(d.year);
    PadLength(d.month0 + 1);
    PadLength(d.day);
    PadLength(d.hours);
    PadLength(d.minutes);
    PadLength(d.seconds);
    var head := IntToString(d.year) + "-" + Pad(d.month0 + 1) + "-" + Pad(d.day) + "T" + Pad(d.hours) + ":" + Pad(d.minutes);
    assert |head| == 16;
    TakeHead(head, ":", Pad(d.seconds));
  }

  lemma PadLength(n: int)
    requires 0 <= n < 100
    ensures |Pad(n)| == 2
  {
    PadFacts(n);
  }

  /** The first characters of a concatenation, as many as its first part has, are that part. */
  lemma TakeHead(a: string, b: string, c: string)
    ensures (a + b + c)[..|a|] == a
  {
    assert a + b + c == a + (b + c);
  }

  datatype Mode = Initial | Fix

  class Dialog {
    var mode: Mode
    var fixTime: string

    constructor ()
      ensures mode == Initial && fixTime == ""
    {
      mode := Initial;
      fixTime := "";
    }

    /** "Corregir Hora": show the input holding the suggested end time. */
    method FixClick(clockIn: int, toLocal: int -> LocalDateTime)
      modifies this
      ensures mode == Fix
      ensures fixTime == FormatForInput(toLocal(SuggestedFix(clockIn)))
    {
      fixTime := FormatForInput(toLocal(SuggestedFix(clockIn)));
      mode := Fix;
    }

    /** Editing the input. */
    method Edit(value: string)
      modifies this`fixTime
      ensures fixTime == value
    {
      fixTime := value;
    }

    /**
     * "Confirmar y Guardar": hand the entered time, unchecked, to the fix handler
     * and go back to the first screen. Returns the instant passed on.
     */
    method ConfirmFix(parse: string -> int) returns (sent: int)
      modifies this`mode
      ensures sent == parse(fixTime)
      ensures mode == Initial && fixTime == old(fixTime)
    {
      sent := parse(fixTime);
      mode := Initial;
    }

    /** "Volver": back to the first screen, nothing is sent. */
    method Back()
      modifies this`mode
      ensures mode == Initial && fixTime == old(fixTime)
    {
      mode := Initial;
    }

    /** A click outside or Escape: the dialog ignores requests to close. */
    method OpenChange(open: bool)
      ensures mode == old(mode) && fixTime == old(fixTime)
    {
    }
  }
}
