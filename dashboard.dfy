/**
 * The dashboard: the five most recent completed entries, and a chart of the
 * hours worked on each of the last seven days, today last, to which a running
 * session adds its elapsed time; today's hours give the energy label. The
 * formatted dates of the days (`dateStr(k)` is the `yyyy-MM-dd` text of `k`
 * days ago, `dayName(k)` its short weekday name), the one-week cut-off test
 * and the query answer are parameters.
 */
module Dashboard {
  import opened Common
  import opened Grouping

  /** The columns of a `time_entries` row the dashboard reads; `clock_in` is its ISO text. */
  datatype Row = Row(clockIn: string, totalHours: Option<real>, status: string)

  /** One bar of the chart. */
  datatype Day = Day(name: string, dateStr: string, total: real)

  const ChartDays: nat := 7
  const RecentCount: nat := 5

  /** `entry.total_hours || 0`. */
  function Hours(e: Row): real {
    NumOr(e.totalHours, 0.0)
  }

  /** `clock_in.split('T')[0]`. */
  function DateOf(clockIn: string): (d: string)
    ensures 'T' !in d
  {
    DatePart(clockIn)
  }

  // ---------------------------------------------------------------------------
  // The recent and weekly lists

  function IsCompleted(): Row -> bool {
    (e: Row) => e.status == "completed"
  }

  /** `data.filter(e => e.status === 'completed').slice(0, 5)`. */
  function Recent(data: seq<Row>): (r: seq<Row>)
    ensures |r| <= RecentCount
    ensures forall k :: 0 <= k < |r| ==> r[k].status == "completed" && r[k] in data
    ensures |r| < RecentCount ==> forall e :: e in data && e.status == "completed" ==> e in r
  {
    var done := Filter(data, IsCompleted());
    forall e | e in data && e.status == "completed" ensures e in done {
      FilterIff(data, IsCompleted(), e);
    }
    FirstFive(done)
  }

  /** `slice(0, 5)`. */
  function FirstFive(done: seq<Row>): seq<Row> {
    if |done| <= RecentCount then done else done[..RecentCount]
  }

  /** Entries after the fifth completed one do not change the list. */
  lemma RecentKeepsFirstFive(xs: seq<Row>, ys: seq<Row>)
    requires |Filter(xs, IsCompleted())| >= RecentCount
    ensures Recent(xs + ys) == Recent(xs)
  {
    FilterAppend(xs, ys, IsCompleted());
    FirstFiveAppend(Filter(xs, IsCompleted()), Filter(ys, IsCompleted()));
  }

  lemma FirstFiveAppend(a: seq<Row>, b: seq<Row>)
    requires |a| >= RecentCount
    ensures FirstFive(a + b) == FirstFive(a)
  {
    assert (a + b)[..RecentCount] == a[..RecentCount];
  }

  /** The list keeps the order of the answer: the completed entries in front of it come first. */
  lemma RecentInOrder(xs: seq<Row>, ys: seq<Row>)
    requires |Filter(xs, IsCompleted())| < RecentCount
    ensures |Filter(xs, IsCompleted())| <= |Recent(xs + ys)|
    ensures Recent(xs + ys)[..|Filter(xs, IsCompleted())|] == Filter(xs, IsCompleted())
  {
    FilterAppend(xs, ys, IsCompleted());
    FirstFivePrefix(Filter(xs, IsCompleted()), Filter(ys, IsCompleted()));
  }

  lemma FirstFivePrefix(a: seq<Row>, b: seq<Row>)
    requires |a| < RecentCount
    ensures |a| <= |FirstFive(a + b)| && FirstFive(a + b)[..|a|] == a
  {
    assert (a + b)[..|a|] == a;
    if |a + b| > RecentCount {
      assert (a + b)[..RecentCount][..|a|] == a;
    }
  }

  /** `data.filter(e => new Date(e.clock_in) >= sevenDaysAgo)`, the test being a parameter. */
  function Weekly(data: seq<Row>, inWeek: Row -> bool): (r: seq<Row>)
    ensures forall e :: e in r <==> e in data && inWeek(e)
  {
    forall e ensures e in Filter(data, inWeek) <==> e in data && inWeek(e) {
      FilterIff(data, inWeek, e);
    }
    Filter(data, inWeek)
  }

  // ---------------------------------------------------------------------------
  // The chart

  /**
   * A label of each of the chart's days (its date, or its weekday name), oldest
   * first: the day `k` days ago at position `6 - k`.
   */
  function Week(name: int -> string): (keys: seq<string>)
    ensures |keys| == ChartDays
    ensures forall i :: 0 <= i < ChartDays ==> keys[i] == name(ChartDays - 1 - i)
  {
    seq(ChartDays, i requires 0 <= i < ChartDays => name(ChartDays - 1 - i))
  }

  /** `days.find(d => d.dateStr === date)`: the first day of that date. */
  function Slot(keys: seq<string>, date: string): Option<nat>
    decreases |keys|
  {
    if keys == [] then None
    else if keys[0] == date then Some(0)
    else match Slot(keys[1..], date)
      case None => None
      case Some(i) => Some(i + 1)
  }

  /** The hours of the entries whose date finds day `j`. */
  function Bucket(history: seq<Row>, keys: seq<string>, j: int): real {
    if history == [] then 0.0
    else
      var e := history[|history| - 1];
      Bucket(history[..|history| - 1], keys, j) + (if Slot(keys, DateOf(e.clockIn)) == Some(j) then Hours(e) else 0.0)
  }

  lemma BucketStep(history: seq<Row>, e: Row, keys: seq<string>, j: int)
    ensures Bucket(history + [e], keys, j) == Bucket(history, keys, j) + (if Slot(keys, DateOf(e.clockIn)) == Some(j) then Hours(e) else 0.0)
  {
    assert (history + [e])[..|history + [e]| - 1] == history;
  }

  /** What the running session adds to day `j`: its elapsed hours, on the day it started, once it has run a second. */
  function ActiveShare(active: Option<string>, elapsed: int, keys: seq<string>, j: int): real {
    if active.Some? && elapsed > 0 && Slot(keys, DateOf(active.value)) == Some(j) then (elapsed as real) / 3600.0 else 0.0
  }

  /** `days.find(...)` stops exactly at a day of that date, the first. */
  lemma {:induction false} SlotFound(keys: seq<string>, date: string)
    ensures Slot(keys, date).Some? <==> date in keys
    ensures Slot(keys, date).Some? ==> Slot(keys, date).value < |keys| && keys[Slot(keys, date).value] == date
    ensures Slot(keys, date).Some? ==> forall k :: 0 <= k < Slot(keys, date).value ==> keys[k] != date
    decreases |keys|
  {
    if keys != [] && keys[0] != date {
      SlotFound(keys[1..], date);
      assert keys == [keys[0]] + keys[1..];
    }
  }

  /** On days of distinct dates, the day a date finds is the day of that date. */
  lemma SlotOfDistinct(keys: seq<string>, date: string, j: int)
    requires Distinct(keys) && 0 <= j < |keys|
    ensures Slot(keys, date) == Some(j) <==> date == keys[j]
  {
    SlotFound(keys, date);
  }

  /** The `forEach` over the week's entries: each adds its hours to the first day of its date, if there is one. */
  method Tally(history: seq<Row>, names: seq<string>, keys: seq<string>) returns (days: array<Day>)
    requires |names| == |keys|
    ensures fresh(days) && days.Length == |keys|
    ensures forall j :: 0 <= j < |keys| ==> days[j] == Day(names[j], keys[j], Bucket(history, keys, j))
  {
    days := new Day[|keys|](j requires 0 <= j < |keys| => Day(names[j], keys[j], 0.0));
    var i := 0;
    ghost var seen: seq<Row> := [];
    while i < |history|
      invariant 0 <= i <= |history| && seen == history[..i]
      invariant forall j :: 0 <= j < |keys| ==> days[j] == Day(names[j], keys[j], Bucket(seen, keys, j))
    {
      var e := history[i];
      var slot := Slot(keys, DateOf(e.clockIn));
      SlotFound(keys, DateOf(e.clockIn));
      if slot.Some? {
        days[slot.value] := days[slot.value].(total := days[slot.value].total + Hours(e));
      }
      forall j | 0 <= j < |keys| ensures Bucket(seen + [e], keys, j) ==
        Bucket(seen, keys, j) + (if slot == Some(j) then Hours(e) else 0.0) {
        BucketStep(seen, e, keys, j);
      }
      PrefixStep(history, i);
      seen := seen + [e];
      i := i + 1;
    }
    PrefixAll(history);
  }

  /** The running session's elapsed hours go to the first day of its start date, once it has run a second. */
  method AddActive(days: array<Day>, keys: seq<string>, active: Option<string>, elapsed: int)
    requires days.Length == |keys|
    modifies days
    ensures forall j :: 0 <= j < |keys| ==>
      days[j] == old(days[j]).(total := old(days[j].total) + ActiveShare(active, elapsed, keys, j))
  {
    if active.Some? && elapsed > 0 {
      var slot := Slot(keys, DateOf(active.value));
      SlotFound(keys, DateOf(active.value));
      if slot.Some? {
        days[slot.value] := days[slot.value].(total := days[slot.value].total + (elapsed as real) / 3600.0);
      }
    }
  }

  /** `days.map(d => ({ ...d, total: Number(d.total.toFixed(2)) }))`. */
  function Rounded(days: seq<Day>): (r: seq<Day>)
    ensures |r| == |days|
    ensures forall j :: 0 <= j < |days| ==> r[j] == days[j].(total := Round2(days[j].total))
  {
    seq(|days|, j requires 0 <= j < |days| => days[j].(total := Round2(days[j].total)))
  }

  /**
   * `chartData`: seven days ending today, each entry's hours added to the day
   * of its date (an entry of no day is dropped), the running session's elapsed
   * time added to its start day, every total rounded to two decimals.
   */
  method ChartData(history: seq<Row>, active: Option<string>, elapsed: int,
                   dayName: int -> string, dateStr: int -> string) returns (chart: seq<Day>)
    ensures |chart| == ChartDays
    ensures forall i :: 0 <= i < ChartDays ==>
      && chart[i].name == dayName(ChartDays - 1 - i) && chart[i].dateStr == dateStr(ChartDays - 1 - i)
      && chart[i].total == Round2(Bucket(history, Week(dateStr), i) + ActiveShare(active, elapsed, Week(dateStr), i))
  {
    var keys := Week(dateStr);
    var names := Week(dayName);
    var filled := FilledDays(history, names, keys, active, elapsed);
    chart := Rounded(filled);
  }

  /** The days before rounding: the week's entries tallied, then the running session added. */
  method FilledDays(history: seq<Row>, names: seq<string>, keys: seq<string>, active: Option<string>, elapsed: int)
    returns (filled: seq<Day>)
    requires |names| == |keys|
    ensures |filled| == |keys|
    ensures forall j :: 0 <= j < |keys| ==>
      filled[j] == Day(names[j], keys[j], Bucket(history, keys, j) + ActiveShare(active, elapsed, keys, j))
  {
    var days := Tally(history, names, keys);
    AddActive(days, keys, active, elapsed);
    filled := days[..];
  }

  /** Today is the last day of the chart. */
  lemma TodayIsLast(dateStr: int -> string)
    ensures Week(dateStr)[ChartDays - 1] == dateStr(0)
    ensures Week(dateStr)[0] == dateStr(6)
  {
  }

  /** On days of distinct dates a day's bucket holds exactly the hours of the entries of its date. */
  lemma {:induction false} BucketIsDateSum(history: seq<Row>, keys: seq<string>, j: int)
    requires Distinct(keys) && 0 <= j < |keys|
    ensures Bucket(history, keys, j) == SumWhere(history, (e: Row) => DateOf(e.clockIn), (e: Row) => Hours(e), keys[j])
    decreases |history|
  {
    if history != [] {
      var init := history[..|history| - 1];
      var e := history[|history| - 1];
      BucketIsDateSum(init, keys, j);
      SlotOfDistinct(keys, DateOf(e.clockIn), j);
    }
  }

  /** The buckets of the days `0 .. n-1`, added up. */
  function SumBuckets(history: seq<Row>, keys: seq<string>, n: nat): real {
    if n == 0 then 0.0 else SumBuckets(history, keys, n - 1) + Bucket(history, keys, n - 1)
  }

  /** `hours` if the entry's date is one of the days, 0 otherwise. */
  function Matched(keys: seq<string>): Row -> real {
    (e: Row) => if DateOf(e.clockIn) in keys then Hours(e) else 0.0
  }

  lemma {:induction false} SumBucketsStep(history: seq<Row>, e: Row, keys: seq<string>, n: nat)
    ensures SumBuckets(history + [e], keys, n) == SumBuckets(history, keys, n) +
      (if Slot(keys, DateOf(e.clockIn)).Some? && Slot(keys, DateOf(e.clockIn)).value < n then Hours(e) else 0.0)
  {
    if n > 0 {
      SumBucketsStep(history, e, keys, n - 1);
      BucketStep(history, e, keys, n - 1);
    }
  }

  lemma {:induction false} NoBuckets(keys: seq<string>, n: nat)
    ensures SumBuckets([], keys, n) == 0.0
  {
    if n > 0 {
      NoBuckets(keys, n - 1);
    }
  }

  /** The chart loses exactly the entries of no day: its buckets add up to the hours of the entries dated on a chart day. */
  lemma {:induction false} BucketsHoldMatchedHours(history: seq<Row>, keys: seq<string>)
    ensures SumBuckets(history, keys, |keys|) == Total(history, Matched(keys))
    decreases |history|
  {
    if history != [] {
      var init := history[..|history| - 1];
      var e := history[|history| - 1];
      assert history == init + [e];
      BucketsHoldMatchedHours(init, keys);
      SumBucketsStep(init, e, keys, |keys|);
      TotalStep(init, e, Matched(keys));
      SlotFound(keys, DateOf(e.clockIn));
    } else {
      NoBuckets(keys, |keys|);
    }
  }

  /** The running session adds to one day at most, to its own start day, and not before it has run a second. */
  lemma ActiveShareOnce(active: Option<string>, elapsed: int, keys: seq<string>, i: int, j: int)
    requires i != j
    ensures ActiveShare(active, elapsed, keys, i) == 0.0 || ActiveShare(active, elapsed, keys, j) == 0.0
    ensures elapsed <= 0 || active.None? ==> ActiveShare(active, elapsed, keys, i) == 0.0
    ensures active.Some? && elapsed > 0 && Distinct(keys) && 0 <= i < |keys| && keys[i] == DateOf(active.value) ==>
      ActiveShare(active, elapsed, keys, i) == (elapsed as real) / 3600.0
  {
    if active.Some? && Distinct(keys) && 0 <= i < |keys| {
      SlotOfDistinct(keys, DateOf(active.value), i);
    }
  }

  // ---------------------------------------------------------------------------
  // The cards

  /** `chartData[chartData.length - 1]?.total || 0`. */
  function TodayHours(chart: seq<Day>): real {
    if chart == [] then 0.0 else chart[|chart| - 1].total
  }

  /** The "Estado" card. */
  function EnergyLabel(today: real): (r: string)
    ensures r == "Exhausto" <==> today > 9.0
    ensures r == "En Racha" <==> 6.0 < today <= 9.0
    ensures r == "Calentando" <==> 0.0 < today <= 6.0
    ensures r == "Fresco" <==> today <= 0.0
  {
    if today > 9.0 then "Exhausto" else if today > 6.0 then "En Racha" else if today > 0.0 then "Calentando" else "Fresco"
  }

  /** The advice under it: a break after more than nine hours. */
  function EnergyAdvice(today: real): (r: string)
    ensures r == "Tómate un descanso" <==> EnergyLabel(today) == "Exhausto"
  {
    if today > 9.0 then "Tómate un descanso" else "Sigue así"
  }

  function LabelRank(text: string): nat {
    if text == "Exhausto" then 3 else if text == "En Racha" then 2 else if text == "Calentando" then 1 else 0
  }

  /** More hours never give a lower label. */
  lemma EnergyLabelMonotone(a: real, b: real)
    requires a <= b
    ensures LabelRank(EnergyLabel(a)) <= LabelRank(EnergyLabel(b))
  {
  }

  /** The "Nivel de Enfoque" card: high only while a session runs. */
  function FocusLevel(activeStatus: Option<string>): (r: (string, string))
    ensures r.0 == "Alto" <==> activeStatus == Some("active")
  {
    if activeStatus == Some("active") then ("Alto", "Trabajando ahora") else ("Reposando", "Sin sesión activa")
  }

  // ---------------------------------------------------------------------------
  // The page

  class DashboardPage {
    var recentEntries: seq<Row>
    var weeklyHistory: seq<Row>
    var isLoading: bool

    constructor ()
      ensures recentEntries == [] && weeklyHistory == [] && isLoading
    {
      recentEntries := [];
      weeklyHistory := [];
      isLoading := true;
    }

    /**
     * `fetchDashboardData`: nothing without a user; otherwise the answer's
     * rows give both lists, an error or an empty answer keeps them, and
     * loading ends.
     */
    method FetchDashboardData(user: Option<string>, answer: Answer<seq<Row>>, inWeek: Row -> bool)
      modifies this
      ensures user.None? ==>
        recentEntries == old(recentEntries) && weeklyHistory == old(weeklyHistory) && isLoading == old(isLoading)
      ensures user.Some? && answer.Data? ==>
        recentEntries == Recent(answer.value) && weeklyHistory == Weekly(answer.value, inWeek) && !isLoading
      ensures user.Some? && !answer.Data? ==>
        recentEntries == old(recentEntries) && weeklyHistory == old(weeklyHistory) && !isLoading
    {
      if user.None? {
        return;
      }
      isLoading := true;
      if answer.Data? {
        recentEntries := Recent(answer.value);
        weeklyHistory := Weekly(answer.value, inWeek);
      }
      isLoading := false;
    }
  }
}
