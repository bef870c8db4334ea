/**
 * Submitting the new-invoice page: the checks that reject a submission before
 * anything is created, the invoice insert with its defaults, and one line
 * item per work entry of the client and period, each a snapshot of the
 * entry's hours and costs.
 */
module NewInvoicePage {
  import opened Wrappers
  import opened Money
  import opened Lists
  import opened CivilDate
  import opened Records
  import opened InvoiceService

  const NoClient := "Please select a client"
  const NoPeriod := "Please select both start and end dates for the billing period"
  const InvertedPeriod := "Period end date must be after the start date"

  /** The first failed check of `handleFormSubmit`, in the order the page makes them; `None` lets the submission through. */
  function SubmitError(f: InvoiceFormData): (r: Option<string>)
    ensures r.None? <==> f.clientId != "" && f.periodStart.Some? && f.periodEnd.Some?
                         && OnOrBefore(f.periodStart.value, f.periodEnd.value)
    ensures f.clientId == "" ==> r == Some(NoClient)
    ensures f.clientId != "" && (f.periodStart.None? || f.periodEnd.None?) ==> r == Some(NoPeriod)
    ensures (f.clientId != "" && f.periodStart.Some? && f.periodEnd.Some?
             && Before(f.periodEnd.value, f.periodStart.value)) ==> r == Some(InvertedPeriod)
  {
    if f.clientId == "" then Some(NoClient)
    else if f.periodStart.None? || f.periodEnd.None? then Some(NoPeriod)
    else if Before(f.periodEnd.value, f.periodStart.value) then Some(InvertedPeriod)
    else None
  }

  /** The invoice row the page asks `create` to insert. */
  datatype InvoiceInsert = InvoiceInsert(
    invoiceNumber: string,
    clientId: string,
    periodStart: Date,
    periodEnd: Date,
    issueDate: Option<Date>,
    dueDate: Option<Date>,
    vatRate: real,
    notes: Option<string>,
    status: InvoiceStatus)

  /** The insert for an accepted form: the form's client, period and dates, VAT `|| 0`, notes `|| null`, status `|| 'draft'`. */
  function BuildInvoice(f: InvoiceFormData, invoiceNumber: string): (r: InvoiceInsert)
    requires SubmitError(f).None?
    ensures r.invoiceNumber == invoiceNumber && r.clientId == f.clientId
    ensures r.periodStart == f.periodStart.value && r.periodEnd == f.periodEnd.value
    ensures OnOrBefore(r.periodStart, r.periodEnd)
    ensures r.issueDate == f.issueDate && r.dueDate == f.dueDate
    ensures Truthy(f.vatRate) ==> r.vatRate == f.vatRate.value
    ensures !Truthy(f.vatRate) ==> r.vatRate == 0.0
    ensures r.notes.None? <==> f.notes == ""
    ensures r.notes.Some? ==> r.notes.value == f.notes
    ensures r.status == f.status.GetOr(Draft)
  {
    InvoiceInsert(invoiceNumber, f.clientId, f.periodStart.value, f.periodEnd.value, f.issueDate, f.dueDate,
                  Pick(f.vatRate, 0.0), NullIfEmpty(f.notes), f.status.GetOr(Draft))
  }

  /** A form that leaves the optional fields empty gets a draft invoice with no VAT, no due date and no notes. */
  lemma EmptyOptionalFieldsDefault(f: InvoiceFormData, invoiceNumber: string)
    requires SubmitError(f).None?
    requires f.dueDate.None? && f.vatRate.None? && f.notes == "" && f.status.None?
    ensures var r := BuildInvoice(f, invoiceNumber);
      r.status == Draft && r.vatRate == 0.0 && r.dueDate.None? && r.notes.None?
  {
  }

  /** The snapshot of one work entry: hours with overtime, `override_cost || calculated_cost`, `client_cost || override_cost || calculated_cost`. */
  function LineItem(invoiceId: string, e: WorkEntry): (r: InvoiceLineInsert)
    ensures r.invoiceId == invoiceId && r.workEntryId == e.id
    ensures r.hoursWorked == e.hoursWorked + e.overtimeHours
    ensures r.laborCost == EntryLabour(e) && r.clientCost == EntryRevenue(e)
  {
    InvoiceLineInsert(invoiceId, e.id, e.hoursWorked + e.overtimeHours, EntryLabour(e), EntryRevenue(e))
  }

  /** `entries.map(...)`: one line item per entry, in the entries' order. */
  function LineItems(invoiceId: string, entries: seq<WorkEntry>): (r: seq<InvoiceLineInsert>)
    ensures |r| == |entries|
    ensures forall i :: 0 <= i < |entries| ==> r[i] == LineItem(invoiceId, entries[i])
  {
    seq(|entries|, i requires 0 <= i < |entries| => LineItem(invoiceId, entries[i]))
  }

  function InsertHours(l: InvoiceLineInsert): real { l.hoursWorked }

  function InsertLabour(l: InvoiceLineInsert): real { l.laborCost }

  function InsertClient(l: InvoiceLineInsert): real { l.clientCost }

  /** The line items carry the entries' totals: hours with overtime, labour and client price. */
  lemma {:induction false} LineItemTotals(invoiceId: string, entries: seq<WorkEntry>)
    ensures Sum(LineItems(invoiceId, entries), InsertHours) == Sum(entries, EntryHours) + Sum(entries, EntryOvertime)
    ensures Sum(LineItems(invoiceId, entries), InsertLabour) == Sum(entries, EntryLabour)
    ensures Sum(LineItems(invoiceId, entries), InsertClient) == Sum(entries, EntryRevenue)
    decreases |entries|
  {
    if |entries| > 0 {
      var n := |entries|;
      var lines := LineItems(invoiceId, entries);
      LineItemTotals(invoiceId, entries[..n - 1]);
      assert lines[..n - 1] == LineItems(invoiceId, entries[..n - 1]);
    }
  }

  /** What a submission ends in: a reported error, or the created invoice with its line items and the success message. */
  datatype SubmitOutcome =
    | Rejected(error: string)
    | Submitted(invoice: Invoice, lines: seq<InvoiceLineInsert>, message: string)

  /**
   * `handleFormSubmit(formData)` with the number `getNextInvoiceNumber` gave,
   * the database's answer to the insert standing in for `create`'s query, and
   * the work entries that `getWorkEntriesForInvoice` selects from.
   */
  function HandleFormSubmit(f: InvoiceFormData, invoiceNumber: string, insert: InvoiceInsert -> Result<Invoice, DbError>,
                            allEntries: seq<WorkEntry>): (r: SubmitOutcome)
    ensures SubmitError(f).Some? ==> r == Rejected(SubmitError(f).value)
    ensures SubmitError(f).None? ==>
      var created := CreateInvoice(insert(BuildInvoice(f, invoiceNumber)));
      && (created.Err? ==> r == Rejected(created.error))
      && (created.Ok? ==>
            && r.Submitted? && r.invoice == created.value
            && r.lines == LineItems(created.value.id, GetWorkEntriesForInvoice(allEntries, f.clientId, f.periodStart.value, f.periodEnd.value))
            && r.message == "Invoice " + invoiceNumber + " created successfully! Redirecting...")
  {
    match SubmitError(f)
    case Some(error) => Rejected(error)
    case None =>
      match CreateInvoice(insert(BuildInvoice(f, invoiceNumber)))
      case Err(error) => Rejected(error)
      case Ok(invoice) =>
        var entries := GetWorkEntriesForInvoice(allEntries, f.clientId, f.periodStart.value, f.periodEnd.value);
        Submitted(invoice, LineItems(invoice.id, entries), "Invoice " + invoiceNumber + " created successfully! Redirecting...")
  }

  /** Every entry given has a line item that points back at it. */
  lemma LineItemsCoverEntries(invoiceId: string, entries: seq<WorkEntry>)
    ensures var lines := LineItems(invoiceId, entries);
      forall x :: x in entries ==> exists i :: 0 <= i < |lines| && lines[i].workEntryId == x.id
  {
    var lines := LineItems(invoiceId, entries);
    forall x | x in entries
      ensures exists i :: 0 <= i < |lines| && lines[i].workEntryId == x.id
    {
      var i :| 0 <= i < |entries| && entries[i] == x;
      assert lines[i].workEntryId == x.id;
    }
  }

  /** The line items of a submitted invoice: exactly one per work entry of the client and period, each pointing at the new invoice. */
  lemma LinesMatchSelection(invoiceId: string, allEntries: seq<WorkEntry>, clientId: string, start: Date, end: Date)
    ensures var lines := LineItems(invoiceId, GetWorkEntriesForInvoice(allEntries, clientId, start, end));
      && |lines| == |SelectForInvoice(allEntries, clientId, start, end)|
      && (forall i :: 0 <= i < |lines| ==> lines[i].invoiceId == invoiceId)
      && (forall e :: e in allEntries && ForInvoice(e, clientId, start, end) ==>
            exists i :: 0 <= i < |lines| && lines[i].workEntryId == e.id)
      && (forall i :: 0 <= i < |lines| ==>
            exists e :: e in allEntries && ForInvoice(e, clientId, start, end) && lines[i].workEntryId == e.id)
  {
    var entries := GetWorkEntriesForInvoice(allEntries, clientId, start, end);
    var lines := LineItems(invoiceId, entries);
    assert |entries| == |SelectForInvoice(allEntries, clientId, start, end)| by {
      assert |multiset(entries)| == |multiset(SelectForInvoice(allEntries, clientId, start, end))|;
    }
    LineItemsCoverEntries(invoiceId, entries);
    forall i | 0 <= i < |lines|
      ensures exists e :: e in allEntries && ForInvoice(e, clientId, start, end) && lines[i].workEntryId == e.id
    {
      assert entries[i] in entries;
    }
  }
}
