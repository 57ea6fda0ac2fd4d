/**
 * The exports of a report: the CSV text, the rows and summary of the PDF
 * table, and the invoice, whose lines group the entries by project name. The
 * date and time formats of an instant are parameters (`day`, `time`); the
 * drawing of the documents and the download are not modelled.
 */
module ExportUtils {
  import opened Common
  import opened Grouping
  import opened ReportsData

  // ---------------------------------------------------------------------------
  // Cells shared by the CSV and the PDF

  /** `0.toFixed(2)`. */
  lemma FixedZero()
    ensures Fixed2(0.0) == "0.00"
  {
    assert RoundHalfUp(0.0) == 0;
    assert NatToString(0) == "0";
  }

  /** A number printed with two decimals has no comma, no newline and no quote. */
  lemma FixedIsPlain(x: real)
    ensures ',' !in Fixed2(x) && '\n' !in Fixed2(x) && '"' !in Fixed2(x)
  {
    var n := RoundHalfUp(Abs(x) * 100.0);
    var digits := NatToString(n / 100);
    assert forall i :: 0 <= i < |digits| ==> IsDigit(digits[i]);
    assert Fixed2(x) == (if x < 0.0 then "-" else "") + digits + "." + [DigitChar((n % 100) / 10), DigitChar(n % 10)];
  }

  /** `x ? x.toFixed(2) : "0.00"`: a missing or zero number prints as zero. */
  function NumberCell(x: Option<real>): (r: string)
    ensures r == Fixed2(NumOr(x, 0.0))
    ensures x.None? ==> r == "0.00"
  {
    FixedZero();
    if x.Some? && x.value != 0.0 then Fixed2(x.value) else "0.00"
  }

  /** `total_hours && rate ? (total_hours * rate).toFixed(2) : "0.00"`: the revenue is that of the totals in the summary. */
  function RevenueCell(e: ReportEntry): (r: string)
    ensures r == Fixed2(Amount(e))
    ensures e.totalHours.None? || e.projectHourlyRate == 0.0 ==> r == "0.00"
  {
    FixedZero();
    AmountCases(e);
    if e.totalHours.Some? && e.totalHours.value != 0.0 && e.projectHourlyRate != 0.0
    then Fixed2(e.totalHours.value * e.projectHourlyRate)
    else "0.00"
  }

  lemma AmountCases(e: ReportEntry)
    ensures e.totalHours.Some? && e.totalHours.value != 0.0 ==> Amount(e) == e.totalHours.value * e.projectHourlyRate
    ensures e.totalHours.None? || e.totalHours.value == 0.0 || e.projectHourlyRate == 0.0 ==> Amount(e) == 0.0
  {
  }

  // ---------------------------------------------------------------------------
  // CSV

  function CsvHeaders(isAdmin: bool): (h: seq<string>)
    ensures |h| == if isAdmin then 10 else 8
    ensures h[|h| - 1] == "Estado"
  {
    if isAdmin
    then ["Fecha", "Usuario", "Proyecto", "Tarea", "Hora Inicio", "Hora Fin", "Total Horas", "Tarifa/Hora", "Ingresos", "Estado"]
    else ["Fecha", "Usuario", "Proyecto", "Tarea", "Hora Inicio", "Hora Fin", "Total Horas", "Estado"]
  }

  /** The status column of the CSV: only a completed entry reads as completed. */
  function CsvStatus(status: string): (r: string)
    ensures r == "Completado" <==> status == "completed"
    ensures r != "Completado" ==> r == "En Progreso"
  {
    if status == "completed" then "Completado" else "En Progreso"
  }

  /** The end-time cell: `-` while the entry has no end. */
  function EndCell(clockOut: Option<int>, time: int -> string): string {
    if clockOut.Some? then time(clockOut.value) else "-"
  }

  /** The cells of one entry, column by column under the headers. */
  function CsvRow(e: ReportEntry, isAdmin: bool, day: int -> string, time: int -> string): (r: seq<string>)
    ensures |r| == |CsvHeaders(isAdmin)|
    ensures r[0] == day(e.clockIn) && r[1] == e.userName && r[2] == e.projectName && r[3] == e.taskName
    ensures r[4] == time(e.clockIn) && r[5] == EndCell(e.clockOut, time) && r[6] == Fixed2(Hours(e))
    ensures isAdmin ==> r[7] == Fixed2(e.projectHourlyRate) && r[8] == Fixed2(Amount(e))
    ensures r[|r| - 1] == CsvStatus(e.status)
  {
    var base := [day(e.clockIn), e.userName, e.projectName, e.taskName, time(e.clockIn),
                 EndCell(e.clockOut, time), NumberCell(e.totalHours)];
    if isAdmin
    then base + [NumberCell(Some(e.projectHourlyRate)), RevenueCell(e), CsvStatus(e.status)]
    else base + [CsvStatus(e.status)]
  }

  /** A data cell is wrapped in double quotes and nothing else: a quote inside it is not doubled. */
  function Quote(cell: string): (r: string)
    ensures |r| == |cell| + 2 && r[0] == '"' && r[|r| - 1] == '"'
    ensures r[1..|r| - 1] == cell
  {
    "\"" + cell + "\""
  }

  function Quoted(row: seq<string>): (r: seq<string>)
    ensures |r| == |row|
    ensures forall k :: 0 <= k < |row| ==> r[k] == Quote(row[k])
  {
    seq(|row|, k requires 0 <= k < |row| => Quote(row[k]))
  }

  function HeaderLine(isAdmin: bool): string {
    Join(CsvHeaders(isAdmin), ",")
  }

  function CsvLine(e: ReportEntry, isAdmin: bool, day: int -> string, time: int -> string): string {
    Join(Quoted(CsvRow(e, isAdmin, day, time)), ",")
  }

  function CsvLines(data: seq<ReportEntry>, isAdmin: bool, day: int -> string, time: int -> string): (r: seq<string>)
    ensures |r| == |data|
    ensures forall k :: 0 <= k < |data| ==> r[k] == CsvLine(data[k], isAdmin, day, time)
  {
    seq(|data|, k requires 0 <= k < |data| => CsvLine(data[k], isAdmin, day, time))
  }

  /** The file: the unquoted header line, then one quoted line per entry, joined by newlines. */
  function CsvContent(data: seq<ReportEntry>, isAdmin: bool, day: int -> string, time: int -> string): string {
    Join([HeaderLine(isAdmin)] + CsvLines(data, isAdmin, day, time), "\n")
  }

  /** The free-text cells of an entry: its names and the formatted instants. */
  predicate CellsAvoid(e: ReportEntry, day: int -> string, time: int -> string, c: char) {
    && c !in day(e.clockIn) && c !in time(e.clockIn) && (e.clockOut.Some? ==> c !in time(e.clockOut.value))
    && c !in e.userName && c !in e.projectName && c !in e.taskName
  }

  lemma RowAvoids(e: ReportEntry, isAdmin: bool, day: int -> string, time: int -> string, c: char)
    requires c == ',' || c == '\n'
    requires CellsAvoid(e, day, time, c)
    ensures forall k :: 0 <= k < |CsvRow(e, isAdmin, day, time)| ==> c !in CsvRow(e, isAdmin, day, time)[k]
  {
    var row := CsvRow(e, isAdmin, day, time);
    FixedIsPlain(Hours(e));
    FixedIsPlain(e.projectHourlyRate);
    FixedIsPlain(Amount(e));
    assert c !in row[5];
    assert c !in row[|row| - 1];
    forall k | 0 <= k < |row|
      ensures c !in row[k]
    {
      if k == 0 {
      } else if k == 1 {
      } else if k == 2 {
      } else if k == 3 {
      } else if k == 4 {
      } else if k == 5 {
      } else if k == 6 {
      } else if k == |row| - 1 {
      } else if k == 7 {
      } else {
        assert k == 8;
      }
    }
  }

  lemma QuotedAvoids(row: seq<string>, c: char)
    requires c != '"'
    requires forall k :: 0 <= k < |row| ==> c !in row[k]
    ensures forall k :: 0 <= k < |row| ==> c !in Quoted(row)[k]
  {
    forall k | 0 <= k < |row|
      ensures c !in Quoted(row)[k]
    {
      assert Quoted(row)[k] == "\"" + row[k] + "\"";
    }
  }

  /**
   * When no name and no formatted instant holds a newline, splitting the file
   * at newlines gives back the header line and one line per entry, in order.
   */
  lemma CsvHasOneLinePerEntry(data: seq<ReportEntry>, isAdmin: bool, day: int -> string, time: int -> string)
    requires forall k :: 0 <= k < |data| ==> CellsAvoid(data[k], day, time, '\n')
    ensures Split(CsvContent(data, isAdmin, day, time), '\n') == [HeaderLine(isAdmin)] + CsvLines(data, isAdmin, day, time)
    ensures |Split(CsvContent(data, isAdmin, day, time), '\n')| == |data| + 1
  {
    var lines := [HeaderLine(isAdmin)] + CsvLines(data, isAdmin, day, time);
    JoinAvoids(CsvHeaders(isAdmin), ",", '\n');
    forall k | 0 <= k < |data|
      ensures '\n' !in CsvLine(data[k], isAdmin, day, time)
    {
      var row := CsvRow(data[k], isAdmin, day, time);
      RowAvoids(data[k], isAdmin, day, time, '\n');
      QuotedAvoids(row, '\n');
      JoinAvoids(Quoted(row), ",", '\n');
    }
    assert forall k :: 0 <= k < |lines| ==> '\n' !in lines[k] by {
      forall k | 0 <= k < |lines|
        ensures '\n' !in lines[k]
      {
        if k > 0 {
          assert lines[k] == CsvLine(data[k - 1], isAdmin, day, time);
        }
      }
    }
    SplitJoin(lines, '\n');
  }

  /** The header line splits at commas into its cells: 10 for an admin, 8 otherwise. */
  lemma HeaderFields(isAdmin: bool)
    ensures Split(HeaderLine(isAdmin), ',') == CsvHeaders(isAdmin)
  {
    var h := CsvHeaders(isAdmin);
    forall k | 0 <= k < |h|
      ensures ',' !in h[k]
    {
    }
    SplitJoin(h, ',');
  }

  /**
   * When no name and no formatted instant holds a comma, a data line splits at
   * commas into its quoted cells, exactly as many as the header has.
   */
  lemma LineFieldsMatchHeader(e: ReportEntry, isAdmin: bool, day: int -> string, time: int -> string)
    requires CellsAvoid(e, day, time, ',')
    ensures Split(CsvLine(e, isAdmin, day, time), ',') == Quoted(CsvRow(e, isAdmin, day, time))
    ensures |Split(CsvLine(e, isAdmin, day, time), ',')| == |Split(HeaderLine(isAdmin), ',')|
  {
    var row := CsvRow(e, isAdmin, day, time);
    RowAvoids(e, isAdmin, day, time, ',');
    QuotedAvoids(row, ',');
    SplitJoin(Quoted(row), ',');
    HeaderFields(isAdmin);
  }

  /** A cell holding a double quote reaches the file with that quote as is, not doubled. */
  lemma QuoteIsNotEscaped(cell: string, i: int)
    requires 0 <= i < |cell| && cell[i] == '"'
    ensures Quote(cell)[i + 1] == '"' && |Quote(cell)| == |cell| + 2
  {
  }

  // ---------------------------------------------------------------------------
  // PDF

  function PdfColumns(isAdmin: bool): (h: seq<string>)
    ensures |h| == if isAdmin then 8 else 6
    ensures h[|h| - 1] == "Estado"
  {
    if isAdmin
    then ["Fecha", "Usuario", "Proyecto", "Tarea", "Horas", "Tarifa", "Ingresos", "Estado"]
    else ["Fecha", "Usuario", "Proyecto", "Tarea", "Horas", "Estado"]
  }

  /** The status column of the PDF: only a completed entry reads as completed. */
  function PdfStatus(status: string): (r: string)
    ensures r == "Completado" <==> status == "completed"
    ensures r != "Completado" ==> r == "Activo"
  {
    if status == "completed" then "Completado" else "Activo"
  }

  /** One table row; money cells carry a `€`. */
  function PdfRow(e: ReportEntry, isAdmin: bool, day: int -> string): (r: seq<string>)
    ensures |r| == |PdfColumns(isAdmin)|
    ensures r[0] == day(e.clockIn) && r[1] == e.userName && r[2] == e.projectName && r[3] == e.taskName
    ensures r[4] == Fixed2(Hours(e))
    ensures isAdmin ==> r[5] == Fixed2(e.projectHourlyRate) + "€" && r[6] == Fixed2(Amount(e)) + "€"
    ensures r[|r| - 1] == PdfStatus(e.status)
  {
    var base := [day(e.clockIn), e.userName, e.projectName, e.taskName, NumberCell(e.totalHours)];
    if isAdmin
    then base + [NumberCell(Some(e.projectHourlyRate)) + "€", RevenueCell(e) + "€", PdfStatus(e.status)]
    else base + [PdfStatus(e.status)]
  }

  /** The summary above the PDF table. */
  datatype PdfSummary = PdfSummary(totalHours: real, totalRevenue: real, projects: nat, users: nat)

  function Summary(data: seq<ReportEntry>): PdfSummary {
    PdfSummary(Total(data, HoursOf()), Total(data, AmountOf()),
               |Keys(data, ProjectNameOf())|, |Keys(data, UserNameOf())|)
  }

  /**
   * The counts are those of distinct project and user names: they never exceed
   * the entries, are at least one when there is an entry, and the revenue is
   * the sum of the per-project revenues.
   */
  lemma SummaryFacts(data: seq<ReportEntry>)
    ensures Summary(data).projects <= |data| && Summary(data).users <= |data|
    ensures data != [] ==> Summary(data).projects >= 1 && Summary(data).users >= 1
    ensures Summary(data).totalRevenue ==
      SumKeys(data, ProjectNameOf(), AmountOf(), Keys(data, ProjectNameOf()))
    ensures Summary(data).totalHours ==
      SumKeys(data, UserNameOf(), HoursOf(), Keys(data, UserNameOf()))
  {
    KeysCount(data, ProjectNameOf());
    KeysCount(data, UserNameOf());
    GroupsSumToTotal(data, ProjectNameOf(), AmountOf());
    GroupsSumToTotal(data, UserNameOf(), HoursOf());
  }

  // ---------------------------------------------------------------------------
  // Invoice

  /** What the invoice dialog passes; `taxRate` and `taxName` may be left out. */
  datatype InvoiceData = InvoiceData(invoiceNumber: string, clientName: string, clientAddress: string,
                                     organizationName: string, notes: Option<string>, data: seq<ReportEntry>,
                                     taxRate: Option<real>, taxName: Option<string>)

  const DefaultTaxRate: real := 21.0
  const DefaultTaxName: string := "IVA"
  const NoTask: string := "Sin Tarea"

  datatype TaskItem = TaskItem(name: string, hours: real)

  /** The accumulated line of one project. */
  datatype SummaryLine = SummaryLine(hours: real, rate: real, amount: real, tasks: seq<TaskItem>)

  /** A task is listed under its project unless it has no name or is the placeholder. */
  predicate TaskListed(e: ReportEntry) {
    e.taskName != "" && e.taskName != NoTask
  }

  /** The line a project starts with: the rate of its first entry, nothing summed. */
  function Start(e: ReportEntry): SummaryLine {
    SummaryLine(0.0, e.projectHourlyRate, 0.0, [])
  }

  /** One entry folded into its project's line. */
  function Add(l: SummaryLine, e: ReportEntry): SummaryLine {
    SummaryLine(l.hours + Hours(e), l.rate, l.amount + Hours(e) * e.projectHourlyRate,
                if TaskListed(e) then l.tasks + [TaskItem(e.taskName, Hours(e))] else l.tasks)
  }

  /** The listed tasks of project `k`, in entry order. */
  function TasksOf(data: seq<ReportEntry>, k: string): (r: seq<TaskItem>)
    ensures |r| <= |data|
  {
    if data == [] then []
    else
      var e := data[|data| - 1];
      TasksOf(data[..|data| - 1], k) + (if e.projectName == k && TaskListed(e) then [TaskItem(e.taskName, Hours(e))] else [])
  }

  lemma TasksOfStep(data: seq<ReportEntry>, e: ReportEntry, k: string)
    ensures TasksOf(data + [e], k) ==
      TasksOf(data, k) + (if e.projectName == k && TaskListed(e) then [TaskItem(e.taskName, Hours(e))] else [])
  {
    assert (data + [e])[..|data + [e]| - 1] == data;
  }

  /** Every listed task belongs to an entry of that project with a real task name. */
  lemma {:induction false} TasksAreListed(data: seq<ReportEntry>, k: string, t: TaskItem)
    requires t in TasksOf(data, k)
    ensures t.name != "" && t.name != NoTask
    ensures exists i :: 0 <= i < |data| && data[i].projectName == k && data[i].taskName == t.name && Hours(data[i]) == t.hours
  {
    var init := data[..|data| - 1];
    var e := data[|data| - 1];
    if t in TasksOf(init, k) {
      TasksAreListed(init, k, t);
      var i :| 0 <= i < |init| && init[i].projectName == k && init[i].taskName == t.name && Hours(init[i]) == t.hours;
      assert data[i] == init[i];
    } else {
      assert t == TaskItem(e.taskName, Hours(e));
    }
  }

  /**
   * The line of project `k` by definition: hours and amount summed over its
   * entries, the rate of its first entry, its listed tasks.
   */
  function SpecLine(data: seq<ReportEntry>, k: string): SummaryLine
    requires HasKey(data, ProjectNameOf(), k)
  {
    SummaryLine(SumWhere(data, ProjectNameOf(), HoursOf(), k),
                FirstWith(data, ProjectNameOf(), k).projectHourlyRate,
                SumWhere(data, ProjectNameOf(), AmountOf(), k),
                TasksOf(data, k))
  }

  /** Folding one more entry into the lines is what `Start` and `Add` do. */
  lemma SpecLineStep(data: seq<ReportEntry>, e: ReportEntry, k: string)
    requires HasKey(data + [e], ProjectNameOf(), k)
    ensures HasKey(data, ProjectNameOf(), k) && e.projectName != k ==> SpecLine(data + [e], k) == SpecLine(data, k)
    ensures HasKey(data, ProjectNameOf(), k) && e.projectName == k ==> SpecLine(data + [e], k) == Add(SpecLine(data, k), e)
    ensures !HasKey(data, ProjectNameOf(), k) ==> e.projectName == k && SpecLine(data + [e], k) == Add(Start(e), e)
  {
    HasKeyAppend(data, e, ProjectNameOf(), k);
    FirstIndexAppend(data, e, ProjectNameOf(), k);
    SumWhereStep(data, e, ProjectNameOf(), HoursOf(), k);
    SumWhereStep(data, e, ProjectNameOf(), AmountOf(), k);
    TasksOfStep(data, e, k);
    if !HasKey(data, ProjectNameOf(), k) {
      SumWhereAbsent(data, ProjectNameOf(), HoursOf(), k);
      SumWhereAbsent(data, ProjectNameOf(), AmountOf(), k);
      TasksAbsent(data, k);
    }
  }

  lemma {:induction false} TasksAbsent(data: seq<ReportEntry>, k: string)
    requires !HasKey(data, ProjectNameOf(), k)
    ensures TasksOf(data, k) == []
  {
    if data != [] {
      var init := data[..|data| - 1];
      assert data == init + [data[|data| - 1]];
      HasKeyAppend(init, data[|data| - 1], ProjectNameOf(), k);
      TasksAbsent(init, k);
    }
  }

  /** `names` and `acc` are the dictionary the reduce has built from `data`: its keys in creation order and its lines. */
  ghost predicate Summarizes(data: seq<ReportEntry>, names: seq<string>, acc: map<string, SummaryLine>) {
    && names == Keys(data, ProjectNameOf())
    && (forall k :: k in acc <==> k in names)
    && (forall k :: k in names ==> HasKey(data, ProjectNameOf(), k) && acc[k] == SpecLine(data, k))
  }

  /** The line an entry adds to: its project's, or a new one started from the entry. */
  function Opening(acc: map<string, SummaryLine>, e: ReportEntry): SummaryLine {
    if e.projectName in acc then acc[e.projectName] else Start(e)
  }

  /** One step of the reduce keeps the dictionary in step with the entries seen. */
  lemma SummarizeStep(data: seq<ReportEntry>, e: ReportEntry, names: seq<string>, acc: map<string, SummaryLine>,
                      names': seq<string>, acc': map<string, SummaryLine>)
    requires Summarizes(data, names, acc)
    requires names' == if e.projectName in acc then names else names + [e.projectName]
    requires acc' == acc[e.projectName := Add(Opening(acc, e), e)]
    ensures Summarizes(data + [e], names', acc')
  {
    KeysFacts(data, ProjectNameOf());
    KeysStep(data, e, ProjectNameOf());
    forall k | k in names'
      ensures HasKey(data + [e], ProjectNameOf(), k) && acc'[k] == SpecLine(data + [e], k)
    {
      HasKeyAppend(data, e, ProjectNameOf(), k);
      SpecLineStep(data, e, k);
    }
  }

  /** The callback of the reduce: create the entry's line if it is new, then add the entry to it. */
  method FoldEntry(names: seq<string>, acc: map<string, SummaryLine>, e: ReportEntry)
    returns (names': seq<string>, acc': map<string, SummaryLine>)
    ensures names' == if e.projectName in acc then names else names + [e.projectName]
    ensures acc' == acc[e.projectName := Add(Opening(acc, e), e)]
  {
    names', acc' := names, acc;
    if e.projectName !in acc' {
      acc' := acc'[e.projectName := Start(e)];
      names' := names' + [e.projectName];
    }
    acc' := acc'[e.projectName := Add(acc'[e.projectName], e)];
  }

  /**
   * The `projectSummary` reduce: a dictionary keyed by project name, created
   * from the first entry of a project and added to by every entry. `names` is
   * the order in which the dictionary's keys were created.
   */
  method SummarizeByProject(data: seq<ReportEntry>) returns (names: seq<string>, acc: map<string, SummaryLine>)
    ensures names == Keys(data, ProjectNameOf())
    ensures forall k :: k in acc <==> k in names
    ensures forall k :: k in names ==> HasKey(data, ProjectNameOf(), k) && acc[k] == SpecLine(data, k)
  {
    names := [];
    acc := map[];
    var i := 0;
    ghost var seen: seq<ReportEntry> := [];
    while i < |data|
      invariant 0 <= i <= |data| && seen == data[..i]
      invariant Summarizes(seen, names, acc)
    {
      var e := data[i];
      ghost var names0, acc0 := names, acc;
      names, acc := FoldEntry(names, acc, e);
      SummarizeStep(seen, e, names0, acc0, names, acc);
      PrefixStep(data, i);
      seen := seen + [e];
      i := i + 1;
    }
    PrefixAll(data);
  }

  /** `Object.values(projectSummary).reduce((sum, p) => sum + p.amount, 0)`, the values in key order. */
  function Subtotal(names: seq<string>, acc: map<string, SummaryLine>): real
    requires forall j :: 0 <= j < |names| ==> names[j] in acc
  {
    if names == [] then 0.0 else Subtotal(names[..|names| - 1], acc) + acc[names[|names| - 1]].amount
  }

  lemma {:induction false} SubtotalOfKeys(data: seq<ReportEntry>, ks: seq<string>, acc: map<string, SummaryLine>)
    requires forall j :: 0 <= j < |ks| ==> ks[j] in acc && HasKey(data, ProjectNameOf(), ks[j]) && acc[ks[j]] == SpecLine(data, ks[j])
    ensures Subtotal(ks, acc) == SumKeys(data, ProjectNameOf(), AmountOf(), ks)
    decreases |ks|
  {
    if ks != [] {
      SubtotalOfKeys(data, ks[..|ks| - 1], acc);
    }
  }

  /** The invoice subtotal is the revenue of all entries, as in the PDF summary. */
  lemma SubtotalIsRevenue(data: seq<ReportEntry>, names: seq<string>, acc: map<string, SummaryLine>)
    requires names == Keys(data, ProjectNameOf())
    requires forall k :: k in names ==> k in acc && HasKey(data, ProjectNameOf(), k) && acc[k] == SpecLine(data, k)
    ensures Subtotal(names, acc) == Total(data, AmountOf())
    ensures Subtotal(names, acc) == Summary(data).totalRevenue
  {
    SubtotalOfKeys(data, names, acc);
    GroupsSumToTotal(data, ProjectNameOf(), AmountOf());
  }

  /** When every entry of a project has the rate of its first one, its amount is its hours at that rate. */
  lemma {:induction false} AmountAtOneRate(data: seq<ReportEntry>, k: string, rate: real)
    requires forall i :: 0 <= i < |data| && data[i].projectName == k ==> data[i].projectHourlyRate == rate
    ensures SumWhere(data, ProjectNameOf(), AmountOf(), k) == SumWhere(data, ProjectNameOf(), HoursOf(), k) * rate
  {
    if data != [] {
      AmountAtOneRate(data[..|data| - 1], k, rate);
    }
  }

  /** One invoice table row: the project, its hours, its rate and its amount, the money in euros. */
  function TableRow(name: string, l: SummaryLine): (r: seq<string>)
    ensures |r| == 4 && r[0] == name
    ensures r[1] == Fixed2(l.hours) && r[2] == Fixed2(l.rate) + "€" && r[3] == Fixed2(l.amount) + "€"
  {
    [name, Fixed2(l.hours), Fixed2(l.rate) + "€", Fixed2(l.amount) + "€"]
  }

  /** The rate that applies: 21 when left out; a given 0 stays 0. */
  function TaxRate(d: InvoiceData): (r: real)
    ensures d.taxRate.None? ==> r == DefaultTaxRate
    ensures d.taxRate.Some? ==> r == d.taxRate.value
  {
    d.taxRate.GetOr(DefaultTaxRate)
  }

  function TaxName(d: InvoiceData): (r: string)
    ensures d.taxName.None? ==> r == DefaultTaxName
    ensures d.taxName.Some? ==> r == d.taxName.value
  {
    d.taxName.GetOr(DefaultTaxName)
  }

  /** What the invoice prints: its table rows and subtotal, tax and total. */
  method InvoiceTable(data: seq<ReportEntry>) returns (rows: seq<seq<string>>, subtotal: real)
    ensures |rows| == |Keys(data, ProjectNameOf())|
    ensures forall j :: 0 <= j < |rows| ==>
      var k := Keys(data, ProjectNameOf())[j];
      HasKey(data, ProjectNameOf(), k) && rows[j] == TableRow(k, SpecLine(data, k))
    ensures subtotal == Total(data, AmountOf())
  {
    var names, acc := SummarizeByProject(data);
    rows := seq(|names|, j requires 0 <= j < |names| => TableRow(names[j], acc[names[j]]));
    subtotal := Subtotal(names, acc);
    SubtotalIsRevenue(data, names, acc);
  }

  /** The tax at a percentage rate, and the total it gives; the rate defaults to 21. */
  method InvoiceTotals(d: InvoiceData, subtotal: real) returns (tax: real, total: real)
    ensures tax == subtotal * (TaxRate(d) / 100.0) && total == subtotal + tax
    ensures d.taxRate.None? ==> total == subtotal * 1.21
    ensures TaxRate(d) == 0.0 ==> total == subtotal
    ensures subtotal >= 0.0 && TaxRate(d) >= 0.0 ==> total >= subtotal
  {
    var rate := TaxRate(d);
    tax := subtotal * (rate / 100.0);
    total := subtotal + tax;
  }
}
