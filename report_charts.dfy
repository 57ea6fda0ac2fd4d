/**
 * The two charts of the reports page: hours per project, each slice with a
 * colour, and hours per user. Each is built by a reduce that looks the name up
 * in the slices so far, adds to the slice found or appends a new one, and the
 * values are rounded to hundredths only at the end.
 */
module ReportCharts {
  import opened Common
  import opened Grouping
  import opened ReportsData

  /** The palette used for a project without a colour, by position of its slice. */
  const Colors: seq<string> := ["#3b82f6", "#10b981", "#f59e0b", "#ef4444", "#8b5cf6", "#ec4899", "#06b6d4"]

  /** One slice; the user chart's slices have no colour. */
  datatype Slice = Slice(name: string, value: real, color: Option<string>)

  function NameIs(n: string): Slice -> bool {
    (s: Slice) => s.name == n
  }

  /** The slices are those of the distinct keys in first-appearance order, each with its unrounded hours. */
  ghost predicate Grouped(data: seq<ReportEntry>, key: ReportEntry -> string, acc: seq<Slice>) {
    && |acc| == |Keys(data, key)|
    && forall j :: 0 <= j < |acc| ==>
         acc[j].name == Keys(data, key)[j] && acc[j].value == SumWhere(data, key, HoursOf(), Keys(data, key)[j])
  }

  /** The colour of the slice at position `j`: the project's first colour, else the palette's. */
  function ColorAt(data: seq<ReportEntry>, name: string, j: nat): string
    requires HasKey(data, ProjectNameOf(), name)
  {
    TextOr(FirstWith(data, ProjectNameOf(), name).projectColor, Colors[j % |Colors|])
  }

  /** The slice at `j` is of a project of `data` and has the colour of its position. */
  ghost predicate ColoredAt(data: seq<ReportEntry>, acc: seq<Slice>, j: int)
    requires 0 <= j < |acc|
  {
    HasKey(data, ProjectNameOf(), acc[j].name) && acc[j].color == Some(ColorAt(data, acc[j].name, j))
  }

  ghost predicate Colored(data: seq<ReportEntry>, acc: seq<Slice>) {
    forall j :: 0 <= j < |acc| ==> ColoredAt(data, acc, j)
  }

  ghost predicate Uncolored(acc: seq<Slice>) {
    forall j :: 0 <= j < |acc| ==> acc[j].color.None?
  }

  /** The slice an entry adds to is found by name; while the slices are grouped, that is its key's slice. */
  lemma FoundIsKey(data: seq<ReportEntry>, key: ReportEntry -> string, acc: seq<Slice>, e: ReportEntry)
    requires Grouped(data, key, acc)
    ensures FindIndex(acc, NameIs(key(e))).Some? <==> key(e) in Keys(data, key)
  {
    if key(e) in Keys(data, key) {
      var j :| 0 <= j < |Keys(data, key)| && Keys(data, key)[j] == key(e);
      assert NameIs(key(e))(acc[j]);
    }
  }

  /** One step of a reduce: the slice named `name` gains `hours`, or `pushed` is appended when there is none. */
  ghost predicate Stepped(acc: seq<Slice>, name: string, hours: real, pushed: Slice, acc': seq<Slice>) {
    && (FindIndex(acc, NameIs(name)).Some? ==>
         var j := FindIndex(acc, NameIs(name)).value;
         acc' == acc[j := acc[j].(value := acc[j].value + hours)])
    && (FindIndex(acc, NameIs(name)).None? ==> acc' == acc + [pushed])
  }

  /** One step of either reduce keeps the slices grouped. */
  lemma GroupStep(data: seq<ReportEntry>, key: ReportEntry -> string, acc: seq<Slice>, e: ReportEntry, color: Option<string>,
                  acc': seq<Slice>)
    requires Grouped(data, key, acc)
    requires Stepped(acc, key(e), Hours(e), Slice(key(e), Hours(e), color), acc')
    ensures Grouped(data + [e], key, acc')
  {
    var ks := Keys(data, key);
    KeysFacts(data, key);
    KeysStep(data, e, key);
    FoundIsKey(data, key, acc, e);
    var found := FindIndex(acc, NameIs(key(e)));
    forall m | 0 <= m < |acc'|
      ensures acc'[m].name == Keys(data + [e], key)[m]
      ensures acc'[m].value == SumWhere(data + [e], key, HoursOf(), Keys(data + [e], key)[m])
    {
      if m < |acc| {
        SumWhereStep(data, e, key, HoursOf(), ks[m]);
        if found.None? {
          assert acc'[m] == acc[m];
        }
      } else {
        SumWhereStep(data, e, key, HoursOf(), key(e));
        SumWhereAbsent(data, key, HoursOf(), key(e));
      }
    }
  }

  /** The slice a project's first entry pushes: coloured by the entry, else by the palette at its position. */
  function NewProject(acc: seq<Slice>, e: ReportEntry): Slice {
    Slice(e.projectName, Hours(e), Some(TextOr(e.projectColor, Colors[|acc| % |Colors|])))
  }

  /** A project step keeps every slice's colour: a found slice keeps its own, a new one gets its position's. */
  lemma ColorStep(data: seq<ReportEntry>, acc: seq<Slice>, e: ReportEntry, acc': seq<Slice>)
    requires Colored(data, acc)
    requires |acc| <= |acc'|
    requires forall m :: 0 <= m < |acc| ==> acc'[m].name == acc[m].name && acc'[m].color == acc[m].color
    requires |acc'| == |acc| + 1 ==>
      acc'[|acc|].name == e.projectName && acc'[|acc|].color == Some(TextOr(e.projectColor, Colors[|acc| % |Colors|]))
    requires |acc'| <= |acc| + 1
    requires |acc'| == |acc| + 1 ==> !HasKey(data, ProjectNameOf(), e.projectName)
    ensures Colored(data + [e], acc')
  {
    forall m | 0 <= m < |acc'|
      ensures ColoredAt(data + [e], acc', m)
    {
      if m < |acc| {
        assert ColoredAt(data, acc, m);
      }
      HasKeyAppend(data, e, ProjectNameOf(), acc'[m].name);
      FirstIndexAppend(data, e, ProjectNameOf(), acc'[m].name);
    }
  }

  /** The project reduce, before rounding. */
  method GroupProjects(data: seq<ReportEntry>) returns (acc: seq<Slice>)
    ensures Grouped(data, ProjectNameOf(), acc) && Colored(data, acc)
  {
    acc := [];
    var i := 0;
    ghost var seen: seq<ReportEntry> := [];
    while i < |data|
      invariant 0 <= i <= |data| && seen == data[..i]
      invariant Grouped(seen, ProjectNameOf(), acc) && Colored(seen, acc)
    {
      var e := data[i];
      ghost var acc0 := acc;
      var existing := FindIndex(acc, NameIs(e.projectName));
      var hours := Hours(e);
      if existing.Some? {
        var j := existing.value;
        acc := acc[j := acc[j].(value := acc[j].value + hours)];
      } else {
        acc := acc + [Slice(e.projectName, hours, Some(TextOr(e.projectColor, Colors[|acc| % |Colors|])))];
      }
      ProjectStep(seen, acc0, e, acc);
      PrefixStep(data, i);
      seen := seen + [e];
      i := i + 1;
    }
    PrefixAll(data);
  }

  lemma ProjectStep(seen: seq<ReportEntry>, acc: seq<Slice>, e: ReportEntry, acc': seq<Slice>)
    requires Grouped(seen, ProjectNameOf(), acc) && Colored(seen, acc)
    requires Stepped(acc, e.projectName, Hours(e), NewProject(acc, e), acc')
    ensures Grouped(seen + [e], ProjectNameOf(), acc') && Colored(seen + [e], acc')
  {
    GroupStep(seen, ProjectNameOf(), acc, e, NewProject(acc, e).color, acc');
    ProjectColorStep(seen, acc, e, acc');
  }

  /** The colour half of a project step. */
  lemma ProjectColorStep(seen: seq<ReportEntry>, acc: seq<Slice>, e: ReportEntry, acc': seq<Slice>)
    requires Grouped(seen, ProjectNameOf(), acc) && Colored(seen, acc)
    requires Stepped(acc, e.projectName, Hours(e), NewProject(acc, e), acc')
    ensures Colored(seen + [e], acc')
  {
    FoundIsKey(seen, ProjectNameOf(), acc, e);
    KeysFacts(seen, ProjectNameOf());
    if FindIndex(acc, NameIs(e.projectName)).None? {
      assert !HasKey(seen, ProjectNameOf(), e.projectName);
    }
    ColorStep(seen, acc, e, acc');
  }

  /** The user reduce, before rounding. */
  method GroupUsers(data: seq<ReportEntry>) returns (acc: seq<Slice>)
    ensures Grouped(data, UserNameOf(), acc) && Uncolored(acc)
  {
    acc := [];
    var i := 0;
    ghost var seen: seq<ReportEntry> := [];
    while i < |data|
      invariant 0 <= i <= |data| && seen == data[..i]
      invariant Grouped(seen, UserNameOf(), acc) && Uncolored(acc)
    {
      var e := data[i];
      ghost var acc0 := acc;
      var existing := FindIndex(acc, NameIs(e.userName));
      var hours := Hours(e);
      if existing.Some? {
        var j := existing.value;
        acc := acc[j := acc[j].(value := acc[j].value + hours)];
      } else {
        acc := acc + [Slice(e.userName, hours, None)];
      }
      GroupStep(seen, UserNameOf(), acc0, e, None, acc);
      PrefixStep(data, i);
      seen := seen + [e];
      i := i + 1;
    }
    PrefixAll(data);
  }

  /** `value: Number(value.toFixed(2))`, slice by slice. */
  function Rounded(acc: seq<Slice>): (r: seq<Slice>)
    ensures |r| == |acc|
    ensures forall j :: 0 <= j < |acc| ==> r[j] == acc[j].(value := Round2(acc[j].value))
  {
    seq(|acc|, j requires 0 <= j < |acc| => acc[j].(value := Round2(acc[j].value)))
  }

  /**
   * The project chart: one slice per distinct project name in first-appearance
   * order, its hours rounded, coloured by the project's first entry or by the
   * palette at its position.
   */
  method ProjectData(data: seq<ReportEntry>) returns (slices: seq<Slice>)
    ensures |slices| == |Keys(data, ProjectNameOf())|
    ensures forall j :: 0 <= j < |slices| ==>
      var k := Keys(data, ProjectNameOf())[j];
      && slices[j].name == k
      && slices[j].value == Round2(SumWhere(data, ProjectNameOf(), HoursOf(), k))
      && HasKey(data, ProjectNameOf(), k)
      && slices[j].color == Some(TextOr(FirstWith(data, ProjectNameOf(), k).projectColor, Colors[j % |Colors|]))
  {
    var acc := GroupProjects(data);
    slices := Rounded(acc);
    forall j | 0 <= j < |acc|
      ensures HasKey(data, ProjectNameOf(), acc[j].name) && acc[j].color == Some(ColorAt(data, acc[j].name, j))
    {
      assert ColoredAt(data, acc, j);
    }
  }

  /** The user chart: one slice per distinct user name in first-appearance order, its hours rounded. */
  method UserData(data: seq<ReportEntry>) returns (slices: seq<Slice>)
    ensures |slices| == |Keys(data, UserNameOf())|
    ensures forall j :: 0 <= j < |slices| ==>
      var k := Keys(data, UserNameOf())[j];
      slices[j].name == k && slices[j].value == Round2(SumWhere(data, UserNameOf(), HoursOf(), k)) && slices[j].color.None?
  {
    var acc := GroupUsers(data);
    slices := Rounded(acc);
  }

  function SliceSum(acc: seq<Slice>): real {
    if acc == [] then 0.0 else SliceSum(acc[..|acc| - 1]) + acc[|acc| - 1].value
  }

  lemma {:induction false} SliceSumOfKeys(data: seq<ReportEntry>, key: ReportEntry -> string, acc: seq<Slice>, ks: seq<string>)
    requires |acc| == |ks|
    requires forall j :: 0 <= j < |acc| ==> acc[j].value == SumWhere(data, key, HoursOf(), ks[j])
    ensures SliceSum(acc) == SumKeys(data, key, HoursOf(), ks)
    decreases |acc|
  {
    if acc != [] {
      SliceSumOfKeys(data, key, acc[..|acc| - 1], ks[..|ks| - 1]);
    }
  }

  /** The unrounded slices of either chart add up to the total hours of the data. */
  lemma SlicesSumToTotal(data: seq<ReportEntry>, key: ReportEntry -> string, acc: seq<Slice>)
    requires Grouped(data, key, acc)
    ensures SliceSum(acc) == Total(data, HoursOf())
  {
    SliceSumOfKeys(data, key, acc, Keys(data, key));
    GroupsSumToTotal(data, key, HoursOf());
  }

  /** Rounding each slice moves the sum of the slices by at most half a hundredth per slice. */
  lemma {:induction false} RoundingError(acc: seq<Slice>)
    ensures -0.005 * (|acc| as real) <= SliceSum(Rounded(acc)) - SliceSum(acc) <= 0.005 * (|acc| as real)
    decreases |acc|
  {
    if acc != [] {
      var init := acc[..|acc| - 1];
      assert Rounded(acc)[..|acc| - 1] == Rounded(init);
      RoundingError(init);
    }
  }

  /** The rounded chart is within half a hundredth per slice of the total hours. */
  lemma ChartNearTotal(data: seq<ReportEntry>, key: ReportEntry -> string, acc: seq<Slice>)
    requires Grouped(data, key, acc)
    ensures -0.005 * (|acc| as real) <= SliceSum(Rounded(acc)) - Total(data, HoursOf()) <= 0.005 * (|acc| as real)
  {
    SlicesSumToTotal(data, key, acc);
    RoundingError(acc);
  }

  /**
   * For fetched rows the palette is never used: every formatted row carries a
   * non-empty colour, so each slice takes its project's first colour.
   */
  lemma FetchedSlicesUseProjectColor(rows: seq<EntryRow>, k: string, j: nat)
    requires HasKey(Formatted(rows), ProjectNameOf(), k)
    ensures ColorAt(Formatted(rows), k, j) == FirstWith(Formatted(rows), ProjectNameOf(), k).projectColor.value
  {
    var first := FirstWith(Formatted(rows), ProjectNameOf(), k);
    var i :| 0 <= i < |rows| && Formatted(rows)[i] == first;
    FormatDefaults(rows[i]);
  }
}
