/**
 * The reports page: the figures above the table (total hours, revenue,
 * sessions running, efficiency), the filter selectors, and the download
 * prompt that sends the report to the CSV or the PDF export.
 */
module ReportsPage {
  import opened Common
  import opened Grouping
  import opened ReportsData
  import opened ExportUtils

  // ---------------------------------------------------------------------------
  // The figures

  /** `data.reduce((sum, entry) => sum + (entry.total_hours || 0), 0)`. */
  function TotalHours(data: seq<ReportEntry>): real {
    if data == [] then 0.0 else TotalHours(data[..|data| - 1]) + NumOr(data[|data| - 1].totalHours, 0.0)
  }

  /** The revenue reduce: `hours * rate`, both with `|| 0`. */
  function TotalRevenue(data: seq<ReportEntry>): real {
    if data == [] then 0.0
    else
      var e := data[|data| - 1];
      TotalRevenue(data[..|data| - 1]) + NumOr(e.totalHours, 0.0) * NumOr(Some(e.projectHourlyRate), 0.0)
  }

  /** The page shows the same totals as the summary of the PDF export. */
  lemma {:induction false} FiguresMatchExport(data: seq<ReportEntry>)
    ensures TotalHours(data) == Summary(data).totalHours
    ensures TotalRevenue(data) == Summary(data).totalRevenue
    decreases |data|
  {
    if data != [] {
      FiguresMatchExport(data[..|data| - 1]);
    }
  }

  function IsActive(): ReportEntry -> bool {
    (e: ReportEntry) => e.status == "active"
  }

  /** `data.filter(e => e.status === 'active').length`. */
  function ActiveSessions(data: seq<ReportEntry>): (n: nat)
    ensures n <= |data|
  {
    |Filter(data, IsActive())|
  }

  /** One more entry counts exactly when it is active: a paused or completed one does not. */
  lemma ActiveSessionsStep(data: seq<ReportEntry>, e: ReportEntry)
    ensures ActiveSessions(data + [e]) == ActiveSessions(data) + (if e.status == "active" then 1 else 0)
  {
    FilterAppend(data, [e], IsActive());
    assert Filter([e], IsActive()) == (if e.status == "active" then [e] else []) + Filter([e][1..], IsActive());
  }

  /** `e.estimated_hours && e.total_hours && e.total_hours > 0`. */
  predicate Estimated(e: ReportEntry) {
    e.estimatedHours.Some? && e.estimatedHours.value != 0.0 && e.totalHours.Some? && e.totalHours.value > 0.0
  }

  function EstimatedOf(): ReportEntry -> bool {
    (e: ReportEntry) => Estimated(e)
  }

  /** `e.estimated_hours || 0`. */
  function EstimateOf(): ReportEntry -> real {
    (e: ReportEntry) => NumOr(e.estimatedHours, 0.0)
  }

  /** A sum of positive hours is positive. */
  lemma {:induction false} PositiveHours(es: seq<ReportEntry>)
    requires es != [] && forall k :: 0 <= k < |es| ==> Estimated(es[k])
    ensures Total(es, HoursOf()) > 0.0
    decreases |es|
  {
    var init := es[..|es| - 1];
    if init != [] {
      PositiveHours(init);
    } else {
      assert Total(init, HoursOf()) == 0.0;
    }
  }

  /**
   * `averageEfficiency`: over the entries with an estimate and positive hours,
   * the estimated hours as a percentage of the worked ones, capped at 100; 92
   * when there is no such entry.
   */
  function Efficiency(data: seq<ReportEntry>): (r: real)
    ensures r <= 100.0
    ensures Filter(data, EstimatedOf()) == [] ==> r == 92.0
    ensures Filter(data, EstimatedOf()) != [] ==>
      var es := Filter(data, EstimatedOf());
      Total(es, HoursOf()) > 0.0 &&
      r == Min(100.0, Total(es, EstimateOf()) / Total(es, HoursOf()) * 100.0)
  {
    var es := Filter(data, EstimatedOf());
    if |es| > 0 then
      PositiveHours(es);
      Min(100.0, Total(es, EstimateOf()) / Total(es, HoursOf()) * 100.0)
    else 92.0
  }

  function Min(a: real, b: real): real {
    if a <= b then a else b
  }

  /** Efficiency is full exactly when the estimates cover the hours worked. */
  lemma EfficiencyFull(data: seq<ReportEntry>)
    requires Filter(data, EstimatedOf()) != []
    ensures Efficiency(data) == 100.0 <==>
      Total(Filter(data, EstimatedOf()), EstimateOf()) >= Total(Filter(data, EstimatedOf()), HoursOf())
  {
    var es := Filter(data, EstimatedOf());
    var r := Efficiency(data);
    RatioAtLeastOne(Total(es, EstimateOf()), Total(es, HoursOf()));
  }

  /** A ratio of a positive denominator reaches 1 exactly when the numerator reaches the denominator. */
  lemma RatioAtLeastOne(a: real, b: real)
    requires b > 0.0
    ensures a / b * 100.0 >= 100.0 <==> a >= b
  {
    var q := a / b;
    assert a == q * b;
    if q >= 1.0 {
      assert (q - 1.0) * b >= 0.0;
    } else {
      assert (1.0 - q) * b > 0.0;
    }
  }

  // ---------------------------------------------------------------------------
  // The filters

  /** The project selector: a new project also resets the task filter to "all". */
  function SelectProject(f: ReportFilters, v: string): (r: ReportFilters)
    ensures r.projectId == v && r.taskId == "all"
    ensures r.startDate == f.startDate && r.endDate == f.endDate && r.userId == f.userId
  {
    f.(projectId := v, taskId := "all")
  }

  /** The task selector. */
  function SelectTask(f: ReportFilters, v: string): (r: ReportFilters)
    ensures r.taskId == v && r == f.(taskId := v)
  {
    f.(taskId := v)
  }

  /** After a project change the report selects whatever task a row has: a task of the previous project no longer filters. */
  lemma ProjectChangeDropsTask(organizationId: string, f: ReportFilters, v: string, startOfDay: int -> int,
                               endOfDay: int -> int, row: EntryRow, t: Option<string>)
    ensures Selected(organizationId, SelectProject(f, v), startOfDay, endOfDay, row) <==>
            Selected(organizationId, SelectProject(f, v), startOfDay, endOfDay, row.(taskId := t))
    ensures Selected(organizationId, SelectProject(f, v), startOfDay, endOfDay, row) ==>
            v == "all" || row.projectId == Some(v)
  {
  }

  /** The task selector is shown only once a project is chosen; the tasks are loaded for that project only. */
  function TaskProject(f: ReportFilters): (r: Option<string>)
    ensures r.None? <==> f.projectId == "all"
    ensures r.Some? ==> r.value == f.projectId
  {
    if f.projectId != "all" then Some(f.projectId) else None
  }

  // ---------------------------------------------------------------------------
  // The download prompt

  datatype DownloadKind = Csv | Pdf

  /** A call of an export: the CSV's file name, or the PDF's title and file name; with the admin columns or not. */
  datatype ExportCall = CsvExport(filename: string, isAdmin: bool)
                      | PdfExport(title: string, filename: string, isAdmin: bool)

  datatype Prompt = Prompt(confirmOpen: bool, downloadType: Option<DownloadKind>)

  /** `userRole === 'admin' || userRole === 'owner'`. */
  predicate IsAdminOrOwner(role: Option<string>) {
    role == Some("admin") || role == Some("owner")
  }

  /** The download buttons: disabled while loading or without rows. */
  predicate DownloadEnabled(isLoading: bool, data: seq<ReportEntry>) {
    !isLoading && data != []
  }

  /** The invoice button: shown to administrators and owners once there are rows. */
  predicate InvoiceShown(role: Option<string>, data: seq<ReportEntry>) {
    IsAdminOrOwner(role) && data != []
  }

  /** `handleDownloadClick`: remembers the kind and opens the prompt. */
  function DownloadClick(p: Prompt, kind: DownloadKind): (r: Prompt)
    ensures r.confirmOpen && r.downloadType == Some(kind)
  {
    Prompt(true, Some(kind))
  }

  /** `reporte-${organization?.name || "tiempo"}`. */
  function FileName(organizationName: Option<string>): string {
    "reporte-" + TextOr(organizationName, "tiempo")
  }

  /** `handleConfirmDownload`: the export of the remembered kind, if any, and the prompt closes in every case. */
  function ConfirmDownload(p: Prompt, organizationName: Option<string>, role: Option<string>): (r: (Prompt, Option<ExportCall>))
    ensures !r.0.confirmOpen && r.0.downloadType == p.downloadType
    ensures r.1.None? <==> p.downloadType.None?
    ensures p.downloadType == Some(Csv) ==> r.1 == Some(CsvExport(FileName(organizationName), IsAdminOrOwner(role)))
    ensures p.downloadType == Some(Pdf) ==>
      r.1 == Some(PdfExport("Reporte de " + TextOr(organizationName, "Tiempos"), FileName(organizationName), IsAdminOrOwner(role)))
  {
    var call := match p.downloadType
      case Some(Csv) => Some(CsvExport(FileName(organizationName), IsAdminOrOwner(role)))
      case Some(Pdf) => Some(PdfExport("Reporte de " + TextOr(organizationName, "Tiempos"), FileName(organizationName), IsAdminOrOwner(role)))
      case None => None;
    (p.(confirmOpen := false), call)
  }

  /** A click followed by the confirmation exports what was clicked, and leaves the prompt closed. */
  lemma ClickThenConfirm(p: Prompt, kind: DownloadKind, organizationName: Option<string>, role: Option<string>)
    ensures var r := ConfirmDownload(DownloadClick(p, kind), organizationName, role);
      && !r.0.confirmOpen
      && r.1.Some? && (r.1.value.CsvExport? <==> kind == Csv)
      && r.1.value.isAdmin == IsAdminOrOwner(role)
      && (organizationName.None? ==> r.1.value.filename == "reporte-tiempo")
  {
  }
}
