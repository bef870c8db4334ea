/**
 * The invoice service: the invoice number (with its fallback format), the
 * messages a failed create maps to, the selection of a client's work entries
 * for a period, the status and payment updates, and the statistics over all
 * invoices.
 */
module InvoiceService {
  import opened Wrappers
  import opened Lists
  import opened Text
  import opened Sorting
  import opened CivilDate
  import opened Records

  /** `Math.floor(random * 99999) + 1` for a `Math.random()` value. */
  function RandomSerial(random: real): (n: nat)
    requires 0.0 <= random < 1.0
    ensures 1 <= n <= 99999
  {
    (random * 99999.0).Floor + 1
  }

  function FallbackPrefix(year: int): string {
    "INV-" + IntToString(year) + "-"
  }

  /** `INV-<year>-<n>` with `n` zero-padded to five digits. */
  function FallbackNumber(year: int, n: nat): (r: string)
    requires 1 <= n <= 99999
    ensures |r| == |FallbackPrefix(year)| + 5
    ensures r[..|FallbackPrefix(year)|] == FallbackPrefix(year)
    ensures AllDigits(r[|FallbackPrefix(year)|..]) && ParseDigits(r[|FallbackPrefix(year)|..]) == n
  {
    var digits := NatToString(n);
    assert Pow10(5) == 100000;
    NatToStringLength(n, 5);
    var padded := PadStart(digits, 5, '0');
    var zeros := padded[..5 - |digits|];
    assert padded == zeros + digits;
    LeadingZerosParse(zeros, digits);
    NatToStringRoundTrip(n);
    var r := FallbackPrefix(year) + padded;
    assert r[|FallbackPrefix(year)|..] == padded;
    r
  }

  /** `getNextInvoiceNumber()`: the database function's number when it succeeds, the fallback format only when it fails. */
  function GetNextInvoiceNumber(rpc: Result<string, string>, year: int, random: real): (r: string)
    requires 0.0 <= random < 1.0
    ensures rpc.Ok? ==> r == rpc.value
    ensures rpc.Err? ==> r == FallbackNumber(year, RandomSerial(random))
  {
    match rpc
    case Ok(number) => number
    case Err(_) => FallbackNumber(year, RandomSerial(random))
  }

  /** A database error: its code and message. */
  datatype DbError = DbError(code: string, message: string)

  const MissingTable := "Database table \"invoices\" does not exist. Please run the database migration first."
  const DuplicateNumber := "Invoice number already exists. Please try again."
  const BadClient := "Invalid client ID or foreign key constraint violation."
  const GenericPrefix := "Failed to create invoice: "

  /** The message a failed insert is reported with. */
  function CreateErrorMessage(e: DbError): (r: string)
    ensures e.code == "42P01" ==> r == MissingTable
    ensures e.code == "23505" ==> r == DuplicateNumber
    ensures e.code == "23503" ==> r == BadClient
    ensures e.code !in {"42P01", "23505", "23503"} ==>
      r == GenericPrefix + (if e.message == "" then "Unknown error" else e.message)
  {
    if e.code == "42P01" then MissingTable
    else if e.code == "23505" then DuplicateNumber
    else if e.code == "23503" then BadClient
    else GenericPrefix + (if e.message == "" then "Unknown error" else e.message)
  }

  /** `create(invoice)`: the stored row, or the mapped message. */
  function CreateInvoice(outcome: Result<Invoice, DbError>): (r: Result<Invoice, string>)
    ensures outcome.Ok? <==> r.Ok?
    ensures outcome.Ok? ==> r.value == outcome.value
    ensures outcome.Err? ==> r.error == CreateErrorMessage(outcome.error)
  {
    match outcome
    case Ok(row) => Ok(row)
    case Err(e) => Err(CreateErrorMessage(e))
  }

  /** `client_id = clientId` and `startDate <= date <= endDate`. */
  predicate ForInvoice(e: WorkEntry, clientId: string, startDate: Date, endDate: Date) {
    e.clientId == Some(clientId) && InRange(e.date, startDate, endDate)
  }

  function SelectForInvoice(entries: seq<WorkEntry>, clientId: string, startDate: Date, endDate: Date): (r: seq<WorkEntry>)
    ensures forall x :: x in r <==> x in entries && ForInvoice(x, clientId, startDate, endDate)
    decreases |entries|
  {
    if |entries| == 0 then []
    else
      var e := entries[|entries| - 1];
      var init := entries[..|entries| - 1];
      assert entries == init + [e];
      SelectForInvoice(init, clientId, startDate, endDate) + (if ForInvoice(e, clientId, startDate, endDate) then [e] else [])
  }

  /** `a.date <= b.date`: the query's ascending date order. */
  predicate DateLe(a: WorkEntry, b: WorkEntry) {
    OnOrBefore(a.date, b.date)
  }

  lemma DateLeTotal()
    ensures IsTotal(DateLe)
  {
  }

  /** `getWorkEntriesForInvoice(clientId, startDate, endDate)`: exactly the client's entries of the period, in ascending date order. */
  function GetWorkEntriesForInvoice(entries: seq<WorkEntry>, clientId: string, startDate: Date, endDate: Date): (r: seq<WorkEntry>)
    ensures multiset(r) == multiset(SelectForInvoice(entries, clientId, startDate, endDate))
    ensures forall x :: x in r <==> x in entries && ForInvoice(x, clientId, startDate, endDate)
    ensures Sorted(r, DateLe)
  {
    var selected := SelectForInvoice(entries, clientId, startDate, endDate);
    DateLeTotal();
    SortBySorted(selected, DateLe);
    var r := SortBy(selected, DateLe);
    assert forall x :: x in r <==> x in multiset(r);
    assert forall x :: x in selected <==> x in multiset(selected);
    r
  }

  const UpdateFailed := "Failed to update invoice"

  /** `updateStatus(id, status)`: the row with only its status replaced; an id without a row fails the update. */
  function UpdateStatus(rows: seq<Invoice>, id: string, status: InvoiceStatus): (r: Result<Invoice, string>)
    ensures r.Err? <==> FindById(rows, id, InvoiceId).None?
    ensures r.Err? ==> r.error == UpdateFailed
    ensures r.Ok? ==> r.value.status == status && r.value.(status := FindById(rows, id, InvoiceId).value.status) == FindById(rows, id, InvoiceId).value
  {
    match FindById(rows, id, InvoiceId)
    case None => Err(UpdateFailed)
    case Some(cur) => Ok(cur.(status := status))
  }

  /** `markAsPaid(id, paymentDate, paidAmount, paymentReference?, paymentMethod?)`: status `paid` with the payment recorded, however the amount compares with the total. */
  function MarkAsPaid(rows: seq<Invoice>, id: string, paymentDate: Date, paidAmount: real,
                      paymentReference: Option<string> := None, paymentMethod: Option<string> := None): (r: Result<Invoice, string>)
    ensures r.Err? <==> FindById(rows, id, InvoiceId).None?
    ensures r.Err? ==> r.error == UpdateFailed
    ensures r.Ok? ==> var cur := FindById(rows, id, InvoiceId).value;
      && r.value.status == Paid && r.value.paymentDate == Some(paymentDate) && r.value.paidAmount == Some(paidAmount)
      && r.value.paymentReference == Keep(paymentReference, cur.paymentReference)
      && r.value.paymentMethod == Keep(paymentMethod, cur.paymentMethod)
      && r.value.(status := cur.status, paymentDate := cur.paymentDate, paidAmount := cur.paidAmount,
                  paymentReference := cur.paymentReference, paymentMethod := cur.paymentMethod) == cur
  {
    match FindById(rows, id, InvoiceId)
    case None => Err(UpdateFailed)
    case Some(cur) =>
      Ok(cur.(status := Paid, paymentDate := Some(paymentDate), paidAmount := Some(paidAmount),
              paymentReference := Keep(paymentReference, cur.paymentReference),
              paymentMethod := Keep(paymentMethod, cur.paymentMethod)))
  }

  /** Setting a status and then another is the same as setting the second directly. */
  lemma UpdateStatusLastWins(rows: seq<Invoice>, id: string, s1: InvoiceStatus, s2: InvoiceStatus)
    requires FindById(rows, id, InvoiceId).Some?
    ensures UpdateStatus([UpdateStatus(rows, id, s1).value], id, s2) == UpdateStatus(rows, id, s2)
  {
  }

  predicate IsDraft(i: Invoice) { i.status == Draft }

  predicate IsIssued(i: Invoice) { i.status == Issued }

  predicate IsPaid(i: Invoice) { i.status == Paid }

  predicate IsOverdue(i: Invoice) { i.status == Overdue }

  predicate IsCancelled(i: Invoice) { i.status == Cancelled }

  predicate HasOtherStatus(i: Invoice) { i.status.OtherStatus? }

  /** Neither paid nor cancelled: the invoice still counts as owed. */
  predicate IsUnsettled(i: Invoice) { i.status != Paid && i.status != Cancelled }

  /** `total_amount - (paid_amount || 0)`. */
  function InvoiceBalance(i: Invoice): real { i.totalAmount - InvoicePaid(i) }

  datatype InvoiceStats = InvoiceStats(
    total: nat, draft: nat, issued: nat, paid: nat, overdue: nat, cancelled: nat,
    totalAmount: real, paidAmount: real, outstandingAmount: real)

  /** The per-status counters of `getStatistics()`, one increment per invoice with a known status. */
  method CountStatuses(invoices: seq<Invoice>) returns (stats: InvoiceStats)
    ensures stats == InvoiceStats(|invoices|, Count(invoices, IsDraft), Count(invoices, IsIssued), Count(invoices, IsPaid),
                                  Count(invoices, IsOverdue), Count(invoices, IsCancelled), 0.0, 0.0, 0.0)
  {
    stats := InvoiceStats(|invoices|, 0, 0, 0, 0, 0, 0.0, 0.0, 0.0);
    var j := 0;
    while j < |invoices|
      invariant 0 <= j <= |invoices|
      invariant stats == InvoiceStats(|invoices|, Count(invoices[..j], IsDraft), Count(invoices[..j], IsIssued),
                                      Count(invoices[..j], IsPaid), Count(invoices[..j], IsOverdue),
                                      Count(invoices[..j], IsCancelled), 0.0, 0.0, 0.0)
    {
      var inv := invoices[j];
      assert invoices[..j + 1][..j] == invoices[..j] && invoices[..j + 1][j] == inv;
      if inv.status == Draft {
        stats := stats.(draft := stats.draft + 1);
      } else if inv.status == Issued {
        stats := stats.(issued := stats.issued + 1);
      } else if inv.status == Paid {
        stats := stats.(paid := stats.paid + 1);
      } else if inv.status == Overdue {
        stats := stats.(overdue := stats.overdue + 1);
      } else if inv.status == Cancelled {
        stats := stats.(cancelled := stats.cancelled + 1);
      }
      j := j + 1;
    }
    assert invoices[..|invoices|] == invoices;
  }

  /** `getStatistics()` over the fetched invoices: the counters, then the amounts added invoice by invoice. */
  method GetStatistics(invoices: seq<Invoice>) returns (stats: InvoiceStats)
    ensures stats.total == |invoices|
    ensures stats.draft == Count(invoices, IsDraft) && stats.issued == Count(invoices, IsIssued)
    ensures stats.paid == Count(invoices, IsPaid) && stats.overdue == Count(invoices, IsOverdue)
    ensures stats.cancelled == Count(invoices, IsCancelled)
    ensures stats.totalAmount == Sum(invoices, InvoiceTotal)
    ensures stats.paidAmount == Sum(invoices, InvoicePaid)
    ensures stats.outstandingAmount == SumWhere(invoices, IsUnsettled, InvoiceBalance)
  {
    stats := CountStatuses(invoices);
    var j := 0;
    while j < |invoices|
      invariant 0 <= j <= |invoices|
      invariant stats.total == |invoices|
      invariant stats.draft == Count(invoices, IsDraft) && stats.issued == Count(invoices, IsIssued)
      invariant stats.paid == Count(invoices, IsPaid) && stats.overdue == Count(invoices, IsOverdue)
      invariant stats.cancelled == Count(invoices, IsCancelled)
      invariant stats.totalAmount == Sum(invoices[..j], InvoiceTotal)
      invariant stats.paidAmount == Sum(invoices[..j], InvoicePaid)
      invariant stats.outstandingAmount == SumWhere(invoices[..j], IsUnsettled, InvoiceBalance)
    {
      var inv := invoices[j];
      assert invoices[..j + 1][..j] == invoices[..j] && invoices[..j + 1][j] == inv;
      var paid := if inv.paidAmount.Some? && inv.paidAmount.value != 0.0 then inv.paidAmount.value else 0.0;
      stats := stats.(totalAmount := stats.totalAmount + inv.totalAmount, paidAmount := stats.paidAmount + paid);
      if inv.status != Paid && inv.status != Cancelled {
        stats := stats.(outstandingAmount := stats.outstandingAmount + (inv.totalAmount - paid));
      }
      j := j + 1;
    }
    assert invoices[..|invoices|] == invoices;
  }

  /** Every invoice falls under exactly one status counter or has a status outside the five, so the counters add up to the total when every status is a known one. */
  lemma {:induction false} StatusCountsPartition(invoices: seq<Invoice>)
    ensures Count(invoices, IsDraft) + Count(invoices, IsIssued) + Count(invoices, IsPaid) + Count(invoices, IsOverdue)
            + Count(invoices, IsCancelled) + Count(invoices, HasOtherStatus) == |invoices|
    ensures (forall i :: 0 <= i < |invoices| ==> !invoices[i].status.OtherStatus?) ==>
      Count(invoices, IsDraft) + Count(invoices, IsIssued) + Count(invoices, IsPaid) + Count(invoices, IsOverdue)
      + Count(invoices, IsCancelled) == |invoices|
    decreases |invoices|
  {
    if |invoices| > 0 {
      StatusCountsPartition(invoices[..|invoices| - 1]);
    }
    if forall i :: 0 <= i < |invoices| ==> !invoices[i].status.OtherStatus? {
      NoOtherStatusCount(invoices);
    }
  }

  lemma {:induction false} NoOtherStatusCount(invoices: seq<Invoice>)
    requires forall i :: 0 <= i < |invoices| ==> !invoices[i].status.OtherStatus?
    ensures Count(invoices, HasOtherStatus) == 0
    decreases |invoices|
  {
    if |invoices| > 0 {
      NoOtherStatusCount(invoices[..|invoices| - 1]);
    }
  }

  /** The outstanding amount is the total of the unsettled invoices less what has been paid on them. */
  lemma {:induction false} OutstandingIsTotalLessPaid(invoices: seq<Invoice>)
    ensures SumWhere(invoices, IsUnsettled, InvoiceBalance)
            == SumWhere(invoices, IsUnsettled, InvoiceTotal) - SumWhere(invoices, IsUnsettled, InvoicePaid)
    decreases |invoices|
  {
    if |invoices| > 0 {
      OutstandingIsTotalLessPaid(invoices[..|invoices| - 1]);
    }
  }
}
