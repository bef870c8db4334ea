/**
 * The work-entry lines of an invoice: the totals under the table, and the
 * removal button, which names the work entry rather than the line.
 */
module InvoiceWorkEntries {
  import opened Wrappers
  import opened Lists
  import opened Records
  import opened NewInvoicePage

  /** The footer totals of a non-empty line list. */
  datatype LineTotals = LineTotals(totalHours: real, totalLabor: real, totalClient: real)

  /** The totals, or `None` where the component shows "No work entries added yet" instead of a table. */
  function Totals(lines: seq<InvoiceLine>): (r: Option<LineTotals>)
    ensures r.None? <==> |lines| == 0
    ensures r.Some? ==> r.value == LineTotals(Sum(lines, LineHours), Sum(lines, LineLabour), Sum(lines, LineClient))
  {
    if |lines| == 0 then None
    else Some(LineTotals(Sum(lines, LineHours), Sum(lines, LineLabour), Sum(lines, LineClient)))
  }

  /** The stored row for an insert. */
  function Stored(id: string, l: InvoiceLineInsert): InvoiceLine {
    InvoiceLine(id, l.invoiceId, l.workEntryId, l.hoursWorked, l.laborCost, l.clientCost)
  }

  /** The totals of lines stored from the page's line items are the totals of the work entries they snapshot. */
  lemma {:induction false} StoredTotals(ids: seq<string>, invoiceId: string, entries: seq<WorkEntry>)
    requires |ids| == |entries|
    ensures var items := LineItems(invoiceId, entries);
      var lines := seq(|entries|, i requires 0 <= i < |entries| => Stored(ids[i], items[i]));
      && Sum(lines, LineHours) == Sum(entries, EntryHours) + Sum(entries, EntryOvertime)
      && Sum(lines, LineLabour) == Sum(entries, EntryLabour)
      && Sum(lines, LineClient) == Sum(entries, EntryRevenue)
    decreases |entries|
  {
    if |entries| > 0 {
      var n := |entries|;
      var items := LineItems(invoiceId, entries);
      var lines := seq(|entries|, i requires 0 <= i < |entries| => Stored(ids[i], items[i]));
      StoredTotals(ids[..n - 1], invoiceId, entries[..n - 1]);
      var items' := LineItems(invoiceId, entries[..n - 1]);
      var lines' := seq(n - 1, i requires 0 <= i < n - 1 => Stored(ids[..n - 1][i], items'[i]));
      assert lines[..n - 1] == lines';
    }
  }

  /** The remove button is shown only when editable and a callback is given, and it passes the line's work entry id. */
  function RemoveAction(line: InvoiceLine, readOnly: bool, hasOnRemove: bool): (r: Option<string>)
    ensures r.Some? <==> !readOnly && hasOnRemove
    ensures r.Some? ==> r.value == line.workEntryId
  {
    if !readOnly && hasOnRemove then Some(line.workEntryId) else None
  }
}
