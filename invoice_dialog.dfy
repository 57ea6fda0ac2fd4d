/**
 * The invoice dialog: a form over the filtered report entries that previews
 * the totals and the per-project lines, and hands its fields to the invoice
 * export. Today's date, formatted `yyyyMMdd`, and the parsed tax input are
 * parameters.
 */
module InvoiceDialog {
  import opened Common
  import opened Grouping
  import opened ReportsData
  import opened ExportUtils

  /** A preview line: the invoice's project line without the task list. */
  datatype ProjectLine = ProjectLine(hours: real, rate: real, amount: real)

  function Strip(l: SummaryLine): ProjectLine {
    ProjectLine(l.hours, l.rate, l.amount)
  }

  /** `names` and `acc` are the preview's dictionary built from `data`. */
  ghost predicate Previews(data: seq<ReportEntry>, names: seq<string>, acc: map<string, ProjectLine>) {
    && names == Keys(data, ProjectNameOf())
    && (forall k :: k in acc <==> k in names)
    && (forall k :: k in names ==> HasKey(data, ProjectNameOf(), k) && acc[k] == Strip(SpecLine(data, k)))
  }

  /** The line an entry adds to: its project's, or a new one at the entry's rate. */
  function Opened(acc: map<string, ProjectLine>, e: ReportEntry): ProjectLine {
    if e.projectName in acc then acc[e.projectName] else ProjectLine(0.0, e.projectHourlyRate, 0.0)
  }

  /** `hours += total_hours || 0` and `amount += hours * rate` on the entry's line. */
  function AddHours(l: ProjectLine, e: ReportEntry): ProjectLine {
    ProjectLine(l.hours + Hours(e), l.rate, l.amount + Hours(e) * e.projectHourlyRate)
  }

  lemma PreviewStep(data: seq<ReportEntry>, e: ReportEntry, names: seq<string>, acc: map<string, ProjectLine>,
                    names': seq<string>, acc': map<string, ProjectLine>)
    requires Previews(data, names, acc)
    requires names' == if e.projectName in acc then names else names + [e.projectName]
    requires acc' == acc[e.projectName := AddHours(Opened(acc, e), e)]
    ensures Previews(data + [e], names', acc')
  {
    KeysFacts(data, ProjectNameOf());
    KeysStep(data, e, ProjectNameOf());
    forall k | k in names'
      ensures HasKey(data + [e], ProjectNameOf(), k) && acc'[k] == Strip(SpecLine(data + [e], k))
    {
      HasKeyAppend(data, e, ProjectNameOf(), k);
      SpecLineStep(data, e, k);
      if HasKey(data, ProjectNameOf(), k) {
        StripAdd(SpecLine(data, k), e);
      } else {
        StripAdd(Start(e), e);
      }
    }
  }

  /** The preview line follows the invoice line: adding an entry adds its hours and amount. */
  lemma StripAdd(l: SummaryLine, e: ReportEntry)
    ensures Strip(Add(l, e)) == AddHours(Strip(l), e)
    ensures Strip(Start(e)) == ProjectLine(0.0, e.projectHourlyRate, 0.0)
  {
  }

  /** The callback of the preview's reduce: create the entry's line if it is new, then add the entry's hours to it. */
  method FoldEntry(names: seq<string>, acc: map<string, ProjectLine>, e: ReportEntry)
    returns (names': seq<string>, acc': map<string, ProjectLine>)
    ensures names' == if e.projectName in acc then names else names + [e.projectName]
    ensures acc' == acc[e.projectName := AddHours(Opened(acc, e), e)]
  {
    names', acc' := names, acc;
    if e.projectName !in acc' {
      acc' := acc'[e.projectName := ProjectLine(0.0, e.projectHourlyRate, 0.0)];
      names' := names' + [e.projectName];
    }
    acc' := acc'[e.projectName := AddHours(acc'[e.projectName], e)];
  }

  /**
   * The preview's `projectSummary` reduce: the same lines as the invoice's,
   * created from the first entry of each project and added to in place.
   */
  method ProjectSummary(data: seq<ReportEntry>) returns (names: seq<string>, acc: map<string, ProjectLine>)
    ensures names == Keys(data, ProjectNameOf())
    ensures forall k :: k in acc <==> k in names
    ensures forall k :: k in names ==> HasKey(data, ProjectNameOf(), k) && acc[k] == Strip(SpecLine(data, k))
  {
    names := [];
    acc := map[];
    var i := 0;
    ghost var seen: seq<ReportEntry> := [];
    while i < |data|
      invariant 0 <= i <= |data| && seen == data[..i]
      invariant Previews(seen, names, acc)
    {
      var e := data[i];
      ghost var names0, acc0 := names, acc;
      names, acc := FoldEntry(names, acc, e);
      PreviewStep(seen, e, names0, acc0, names, acc);
      PrefixStep(data, i);
      seen := seen + [e];
      i := i + 1;
    }
    PrefixAll(data);
  }

  /** The amounts of the lines `names`, added up in order. */
  function LineSum(names: seq<string>, acc: map<string, ProjectLine>): real
    requires forall j :: 0 <= j < |names| ==> names[j] in acc
  {
    if names == [] then 0.0 else LineSum(names[..|names| - 1], acc) + acc[names[|names| - 1]].amount
  }

  lemma {:induction false} LineSumOfKeys(data: seq<ReportEntry>, ks: seq<string>, acc: map<string, ProjectLine>)
    requires forall j :: 0 <= j < |ks| ==>
      ks[j] in acc && HasKey(data, ProjectNameOf(), ks[j]) && acc[ks[j]] == Strip(SpecLine(data, ks[j]))
    ensures LineSum(ks, acc) == SumKeys(data, ProjectNameOf(), AmountOf(), ks)
    decreases |ks|
  {
    if ks != [] {
      LineSumOfKeys(data, ks[..|ks| - 1], acc);
    }
  }

  /** The preview's line amounts add up to its subtotal, the revenue of all entries. */
  lemma LinesSumToSubtotal(data: seq<ReportEntry>, names: seq<string>, acc: map<string, ProjectLine>)
    requires Previews(data, names, acc)
    ensures LineSum(names, acc) == Total(data, AmountOf())
  {
    LineSumOfKeys(data, names, acc);
    GroupsSumToTotal(data, ProjectNameOf(), AmountOf());
  }

  class InvoiceForm {
    var invoiceNumber: string
    var clientName: string
    var clientAddress: string
    var notes: string
    var taxRate: real
    var taxName: string
    var open: bool

    /** The form as it opens: a number for today's first invoice, the 21 % IVA, everything else empty. */
    constructor (today: string)
      ensures invoiceNumber == "INV-" + today + "-001"
      ensures clientName == "" && clientAddress == "" && notes == ""
      ensures taxRate == DefaultTaxRate && taxName == DefaultTaxName && open
    {
      invoiceNumber := "INV-" + today + "-001";
      clientName := "";
      clientAddress := "";
      notes := "";
      taxRate := 21.0;
      taxName := "IVA";
      open := true;
    }

    /** The download button is enabled only once a client name is typed. */
    predicate CanDownload()
      reads this
    {
      clientName != ""
    }

    method SetClientName(name: string)
      modifies this`clientName
      ensures clientName == name
      ensures CanDownload() <==> name != ""
    {
      clientName := name;
    }

    /** `parseFloat(value) || 0`: an input that is not a number (`none`), or zero, gives 0. */
    method SetTaxRate(parsed: Option<real>)
      modifies this`taxRate
      ensures parsed.None? ==> taxRate == 0.0
      ensures parsed.Some? ==> taxRate == parsed.value
    {
      taxRate := NumOr(parsed, 0.0);
    }

    /**
     * The preview: total hours, and the subtotal, tax and total of the
     * entries at the form's rate; the same figures the export prints.
     */
    method Totals(data: seq<ReportEntry>) returns (totalHours: real, subtotal: real, taxAmount: real, totalAmount: real)
      ensures totalHours == Summary(data).totalHours && subtotal == Summary(data).totalRevenue
      ensures taxAmount == subtotal * (taxRate / 100.0) && totalAmount == subtotal + taxAmount
    {
      totalHours := Total(data, HoursOf());
      subtotal := Total(data, AmountOf());
      taxAmount := subtotal * (taxRate / 100.0);
      totalAmount := subtotal + taxAmount;
    }

    /** "Descargar Factura PDF": the form's fields go to the export, which gets the rate and name as given, and the dialog closes. */
    method Generate(data: seq<ReportEntry>, organizationName: string) returns (d: InvoiceData)
      modifies this`open
      ensures d == InvoiceData(invoiceNumber, clientName, clientAddress, organizationName, Some(notes), data,
                               Some(taxRate), Some(taxName))
      ensures TaxRate(d) == taxRate && TaxName(d) == taxName
      ensures !open
    {
      d := InvoiceData(invoiceNumber, clientName, clientAddress, organizationName, Some(notes), data,
                       Some(taxRate), Some(taxName));
      open := false;
    }
  }

  /** The exported invoice's subtotal, tax and total are the ones the dialog previewed. */
  lemma InvoiceMatchesPreview(data: seq<ReportEntry>, subtotal: real, rate: real, d: InvoiceData)
    requires subtotal == Total(data, AmountOf()) && d.data == data && d.taxRate == Some(rate)
    ensures subtotal == Summary(d.data).totalRevenue
    ensures subtotal * (TaxRate(d) / 100.0) == subtotal * (rate / 100.0)
  {
  }
}
