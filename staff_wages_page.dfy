/**
 * The staff-wages page: the billing period it shows (this month or last
 * month), the totals over the period's wage summaries, and the status filter
 * over the payment records with its Mark Paid button.
 */
module StaffWagesPage {
  import opened Wrappers
  import opened Lists
  import opened Sorting
  import opened CivilDate
  import opened JsDates
  import opened Records
  import opened Payments

  /** The default and "This Month" period: `new Date(y, m, 1)` to `new Date(y, m + 1, 0)`, the first to the last day of today's month. */
  function ThisMonth(today: Date): (r: (Date, Date))
    requires ValidDate(today)
    ensures r == (FirstOfMonth(today), LastOfMonth(today))
    ensures InRange(today, r.0, r.1)
  {
    CurrentMonthBounds(today);
    (JsNewDate(today.year, today.month - 1, 1), JsNewDate(today.year, today.month, 0))
  }

  /** "Last Month": `new Date(y, m - 1, 1)` to `new Date(y, m, 0)`, the whole month that ends the day before this month's first. */
  function LastMonth(today: Date): (r: (Date, Date))
    requires ValidDate(today)
    ensures r.1 == PrevDay(FirstOfMonth(today)) && r.0 == FirstOfMonth(r.1)
    ensures r.1.day == DaysInMonth(r.1.year, r.1.month)
    ensures Before(r.1, ThisMonth(today).0)
  {
    PreviousMonthBounds(today);
    var last := JsNewDate(today.year, today.month - 1, 0);
    DayNumberOrder(last, FirstOfMonth(today));
    (JsNewDate(today.year, today.month - 2, 1), last)
  }

  /** `fetchData` returns at once while either bound of the period is empty. */
  function ShouldFetch(periodStart: Option<Date>, periodEnd: Option<Date>): (r: bool)
    ensures r <==> periodStart.Some? && periodEnd.Some?
  {
    periodStart.Some? && periodEnd.Some?
  }

  /** The page's first render, with both bounds empty, fetches nothing; the default period of this month, set by the first effect, is fetched. */
  lemma DefaultPeriodFetched(today: Date)
    requires ValidDate(today)
    ensures !ShouldFetch(None, None)
    ensures var (start, end) := ThisMonth(today);
      ShouldFetch(Some(start), Some(end)) && InRange(today, start, end)
  {
  }

  datatype PeriodTotals = PeriodTotals(totalDue: real, totalPaid: real, totalHours: real, periodOutstanding: real)

  function SummaryDue(s: WagesSummary): real { s.totalWagesDue }

  function SummaryPaid(s: WagesSummary): real { s.totalPaid }

  function SummaryHours(s: WagesSummary): real { s.totalHoursWorked }

  function SummaryOutstanding(s: WagesSummary): real { s.totalOutstanding }

  /** The period's totals: sums over the summaries, and what is still owed as total due less total paid. */
  function Totals(summaries: seq<WagesSummary>): (r: PeriodTotals)
    ensures r.periodOutstanding == r.totalDue - r.totalPaid
  {
    var due := Sum(summaries, SummaryDue);
    var paid := Sum(summaries, SummaryPaid);
    PeriodTotals(due, paid, Sum(summaries, SummaryHours), due - paid)
  }

  /** When every summary owes its due less its paid, as `getWagesSummary` guarantees, the period's outstanding is the sum of the summaries' outstanding amounts. */
  lemma {:induction false} PeriodOutstandingIsSumOfOutstanding(summaries: seq<WagesSummary>)
    requires forall i :: 0 <= i < |summaries| ==> summaries[i].totalOutstanding == summaries[i].totalWagesDue - summaries[i].totalPaid
    ensures Totals(summaries).periodOutstanding == Sum(summaries, SummaryOutstanding)
    decreases |summaries|
  {
    if |summaries| > 0 {
      PeriodOutstandingIsSumOfOutstanding(summaries[..|summaries| - 1]);
    }
  }

  /** The period's outstanding for the summaries `getWagesSummary` returns is the sum of their outstanding amounts. */
  lemma WagesSummaryPeriodOutstanding(entries: seq<WorkEntry>, payments: seq<WagePayment>, periodStart: Date, periodEnd: Date)
    ensures var summaries := SortBy(Summaries(entries, payments, periodStart, periodEnd), SummaryNameLe);
      Totals(summaries).periodOutstanding == Sum(summaries, SummaryOutstanding)
  {
    var summaries := SortBy(Summaries(entries, payments, periodStart, periodEnd), SummaryNameLe);
    forall i | 0 <= i < |summaries|
      ensures summaries[i].totalOutstanding == summaries[i].totalWagesDue - summaries[i].totalPaid
    {
      OutstandingIsDueLessPaid(entries, payments, periodStart, periodEnd, summaries[i]);
    }
    PeriodOutstandingIsSumOfOutstanding(summaries);
  }

  /** The payment filter buttons. */
  datatype PaymentFilter = AllPayments | PendingPayments | PaidPayments

  predicate PaymentShown(p: WagePayment, filter: PaymentFilter) {
    match filter
    case AllPayments => true
    case PendingPayments => p.status == Pending || p.status == PartiallyPaid
    case PaidPayments => p.status == PaymentPaid
  }

  /** `filteredPayments`: the records the selected filter keeps, in their order. */
  function FilteredPayments(payments: seq<WagePayment>, filter: PaymentFilter): (r: seq<WagePayment>)
    ensures forall p :: p in r <==> p in payments && PaymentShown(p, filter)
    ensures SubsequenceOf(r, payments)
    ensures |r| == Count(payments, p => PaymentShown(p, filter))
  {
    FilterSpec(payments, p => PaymentShown(p, filter));
    FilterIsSubsequence(payments, p => PaymentShown(p, filter));
    Filter(payments, p => PaymentShown(p, filter))
  }

  /** A cancelled record is listed only under `all`; the `pending` filter shows exactly the records the outstanding total counts. */
  lemma FilterCoverage(p: WagePayment)
    ensures p.status == PaymentCancelled ==> (PaymentShown(p, AllPayments) && !PaymentShown(p, PendingPayments) && !PaymentShown(p, PaidPayments))
    ensures PaymentShown(p, PendingPayments) <==> IsOpen(p)
    ensures PaymentShown(p, PendingPayments) || PaymentShown(p, PaidPayments) || p.status == PaymentCancelled
  {
  }

  /** Mark Paid is offered for `pending` records only: a partly paid record is still open but cannot be settled from this page. */
  function CanMarkPaid(p: WagePayment): (r: bool)
    ensures r ==> IsOpen(p) && PaymentShown(p, PendingPayments)
    ensures PaymentShown(p, PendingPayments) && !r ==> p.status == PartiallyPaid
  {
    p.status == Pending
  }

  /** The Mark Paid button: `markAsPaid(id, today, 'bank_transfer')`, which settles the full amount due. */
  function MarkPaidFromPage(rows: seq<WagePayment>, id: string, today: Date): (r: Result<WagePayment, string>)
    ensures r.Err? <==> FindById(rows, id, PaymentId).None?
    ensures r.Ok? ==> r.value.status == PaymentPaid && r.value.amountPaid == FindById(rows, id, PaymentId).value.amountDue
    ensures r.Ok? ==> r.value.paymentMethod == Some("bank_transfer") && r.value.paymentDate == Some(today)
  {
    MarkAsPaid(rows, id, today, "bank_transfer")
  }

  /** A record the button settles leaves the open records and no longer shows under `pending`. */
  lemma MarkPaidClosesRecord(rows: seq<WagePayment>, id: string, today: Date)
    requires MarkPaidFromPage(rows, id, today).Ok?
    ensures var p := MarkPaidFromPage(rows, id, today).value;
      !IsOpen(p) && !PaymentShown(p, PendingPayments) && PaymentShown(p, PaidPayments) && Balance(p) == 0.0
  {
  }
}
