/**
 * The invoices page: the status filter and the free-text search over the
 * fetched invoices, and the counts and amounts shown above the table.
 */
module InvoicesPage {
  import opened Wrappers
  import opened Lists
  import opened Text
  import opened Records
  import opened InvoiceService

  /** The filter buttons: `all`, or one invoice status. */
  datatype FilterStatus = AllStatuses | Only(status: InvoiceStatus)

  predicate StatusShown(inv: Invoice, filter: FilterStatus) {
    filter.AllStatuses? || inv.status == filter.status
  }

  /** `invoice_number` or the client's name contains the lower-cased term, ignoring case; an invoice without a client matches on its number only.  The full number or name, in any case, always matches, and a term longer than both matches nothing. */
  function MatchesSearch(inv: Invoice, term: string): (r: bool)
    ensures ToLower(term) == ToLower(inv.invoiceNumber) ==> r
    ensures inv.client.Some? && ToLower(term) == ToLower(inv.client.value.name) ==> r
    ensures r ==> |term| <= |inv.invoiceNumber| || (inv.client.Some? && |term| <= |inv.client.value.name|)
  {
    Includes(ToLower(inv.invoiceNumber), ToLower(term))
    || (inv.client.Some? && Includes(ToLower(inv.client.value.name), ToLower(term)))
  }

  /** `applyFilters()`: the status filter unless it is `all`, then the search unless the term is empty. */
  function ApplyFilters(invoices: seq<Invoice>, filter: FilterStatus, searchTerm: string): (r: seq<Invoice>)
    ensures forall x :: x in r <==>
      x in invoices && StatusShown(x, filter) && (searchTerm == "" || MatchesSearch(x, searchTerm))
    ensures SubsequenceOf(r, invoices)
    ensures filter.AllStatuses? && searchTerm == "" ==> r == invoices
  {
    var byStatus := if filter.AllStatuses? then invoices else Filter(invoices, inv => StatusShown(inv, filter));
    assert forall x :: x in byStatus <==> x in invoices && StatusShown(x, filter) by {
      if !filter.AllStatuses? {
        FilterSpec(invoices, inv => StatusShown(inv, filter));
      }
    }
    assert SubsequenceOf(byStatus, invoices) by {
      if filter.AllStatuses? {
        assert IsEmbedding(seq(|invoices|, i => i), invoices, invoices);
      } else {
        FilterIsSubsequence(invoices, inv => StatusShown(inv, filter));
      }
    }
    if searchTerm == "" then byStatus
    else
      var r := Filter(byStatus, inv => MatchesSearch(inv, searchTerm));
      FilterSpec(byStatus, inv => MatchesSearch(inv, searchTerm));
      FilterIsSubsequence(byStatus, inv => MatchesSearch(inv, searchTerm));
      SubsequenceTransitive(r, byStatus, invoices);
      r
  }

  /** The empty term occurs in every text, so under the `includes` semantics searching for it would keep everything too. */
  lemma EmptyTermMatchesAll(inv: Invoice)
    ensures MatchesSearch(inv, "")
  {
    IncludesEmpty(ToLower(inv.invoiceNumber));
  }

  /** The figures above the table, over all fetched invoices whatever the filters. */
  datatype PageStats = PageStats(total: nat, draft: nat, issued: nat, paid: nat, overdue: nat, totalAmount: real, paidAmount: real)

  /** `stats`: four status counts out of the total (cancelled and unknown statuses are the rest), and the amounts billed and paid. */
  function Stats(invoices: seq<Invoice>): (r: PageStats)
    ensures r.total == |invoices|
    ensures r.draft + r.issued + r.paid + r.overdue + Count(invoices, IsCancelled) + Count(invoices, HasOtherStatus) == r.total
  {
    StatusCountsPartition(invoices);
    PageStats(|invoices|, Count(invoices, IsDraft), Count(invoices, IsIssued), Count(invoices, IsPaid),
              Count(invoices, IsOverdue), Sum(invoices, InvoiceTotal), Sum(invoices, InvoicePaid))
  }

  /** The page's figures are the service's `getStatistics()` figures: whatever `GetStatistics` returns agrees with them field by field. */
  lemma StatsAgreeWithService(invoices: seq<Invoice>, stats: InvoiceStats)
    requires stats.total == |invoices|
    requires stats.draft == Count(invoices, IsDraft) && stats.issued == Count(invoices, IsIssued)
    requires stats.paid == Count(invoices, IsPaid) && stats.overdue == Count(invoices, IsOverdue)
    requires stats.totalAmount == Sum(invoices, InvoiceTotal) && stats.paidAmount == Sum(invoices, InvoicePaid)
    ensures Stats(invoices) == PageStats(stats.total, stats.draft, stats.issued, stats.paid, stats.overdue,
                                         stats.totalAmount, stats.paidAmount)
  {
  }
}
