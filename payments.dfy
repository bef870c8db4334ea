/**
 * The payments service: the wages summary of a period (work entries grouped
 * by staff member, joined with the payment records of the period), the
 * generation of pending payment records, the two payment updates, and the
 * outstanding total and statistics over the payment records.
 *
 * A query's filter becomes a predicate the loops test row by row; a write
 * becomes the returned record.
 */
module Payments {
  import opened Wrappers
  import opened Lists
  import opened Text
  import opened Sorting
  import opened CivilDate
  import opened Records

  /** One row of the wages summary. */
  datatype WagesSummary = WagesSummary(
    staffId: string,
    staffName: string,
    totalHoursWorked: real,
    totalWagesDue: real,
    totalPaid: real,
    totalOutstanding: real,
    lastPaymentDate: Option<Date>,
    periodStart: Date,
    periodEnd: Date,
    workEntriesCount: nat)

  /** An entry of the window that carries its staff relation is grouped. */
  predicate Grouped(e: WorkEntry, periodStart: Date, periodEnd: Date) {
    e.staff.Some? && InRange(e.date, periodStart, periodEnd)
  }

  /** A payment record is fetched when its period lies inside the queried one. */
  predicate Fetched(p: WagePayment, periodStart: Date, periodEnd: Date) {
    OnOrBefore(periodStart, p.periodStart) && OnOrBefore(p.periodEnd, periodEnd)
  }

  /** The staff ids of the grouped entries, each once, in order of first appearance (the map's insertion order). */
  function StaffOrder(entries: seq<WorkEntry>, periodStart: Date, periodEnd: Date): seq<string>
    decreases |entries|
  {
    if |entries| == 0 then []
    else
      var order := StaffOrder(entries[..|entries| - 1], periodStart, periodEnd);
      var e := entries[|entries| - 1];
      if Grouped(e, periodStart, periodEnd) && e.staffId !in order then order + [e.staffId] else order
  }

  /** The staff name carried by the first grouped entry of the staff member. */
  function FirstName(entries: seq<WorkEntry>, id: string, periodStart: Date, periodEnd: Date): string
    decreases |entries|
  {
    if |entries| == 0 then ""
    else
      var init := entries[..|entries| - 1];
      var e := entries[|entries| - 1];
      if Grouped(e, periodStart, periodEnd) && e.staffId == id && id !in StaffOrder(init, periodStart, periodEnd)
      then e.staff.value.name
      else FirstName(init, id, periodStart, periodEnd)
  }

  predicate GroupedFor(e: WorkEntry, id: string, periodStart: Date, periodEnd: Date) {
    Grouped(e, periodStart, periodEnd) && e.staffId == id
  }

  /** Σ (`hours_worked` + `overtime_hours`) of the staff member's grouped entries. */
  function HoursFor(entries: seq<WorkEntry>, id: string, periodStart: Date, periodEnd: Date): real
    decreases |entries|
  {
    if |entries| == 0 then 0.0
    else
      var e := entries[|entries| - 1];
      HoursFor(entries[..|entries| - 1], id, periodStart, periodEnd)
      + (if GroupedFor(e, id, periodStart, periodEnd) then e.hoursWorked + e.overtimeHours else 0.0)
  }

  /** Σ `calculated_cost` of the staff member's grouped entries. */
  function WagesFor(entries: seq<WorkEntry>, id: string, periodStart: Date, periodEnd: Date): real
    decreases |entries|
  {
    if |entries| == 0 then 0.0
    else
      var e := entries[|entries| - 1];
      WagesFor(entries[..|entries| - 1], id, periodStart, periodEnd)
      + (if GroupedFor(e, id, periodStart, periodEnd) then e.calculatedCost else 0.0)
  }

  function CountFor(entries: seq<WorkEntry>, id: string, periodStart: Date, periodEnd: Date): nat
    decreases |entries|
  {
    if |entries| == 0 then 0
    else
      CountFor(entries[..|entries| - 1], id, periodStart, periodEnd)
      + (if GroupedFor(entries[|entries| - 1], id, periodStart, periodEnd) then 1 else 0)
  }

  predicate PaymentFor(p: WagePayment, id: string, periodStart: Date, periodEnd: Date) {
    Fetched(p, periodStart, periodEnd) && p.staffId == id
  }

  /** Σ `amount_paid` of the staff member's fetched payment records. */
  function PaidFor(payments: seq<WagePayment>, id: string, periodStart: Date, periodEnd: Date): real
    decreases |payments|
  {
    if |payments| == 0 then 0.0
    else
      var p := payments[|payments| - 1];
      PaidFor(payments[..|payments| - 1], id, periodStart, periodEnd)
      + (if PaymentFor(p, id, periodStart, periodEnd) then p.amountPaid else 0.0)
  }

  /** The running latest payment date: a payment date replaces it when there is none yet or the new one is later. */
  function Later(last: Option<Date>, d: Option<Date>): Option<Date> {
    if d.Some? && (last.None? || Before(last.value, d.value)) then d else last
  }

  function LastPaymentFor(payments: seq<WagePayment>, id: string, periodStart: Date, periodEnd: Date): Option<Date>
    decreases |payments|
  {
    if |payments| == 0 then None
    else
      var p := payments[|payments| - 1];
      var last := LastPaymentFor(payments[..|payments| - 1], id, periodStart, periodEnd);
      if PaymentFor(p, id, periodStart, periodEnd) then Later(last, p.paymentDate) else last
  }

  /** The grouped totals of one staff member, before payments are joined. */
  function Grouping(entries: seq<WorkEntry>, id: string, periodStart: Date, periodEnd: Date): WagesSummary {
    WagesSummary(id, FirstName(entries, id, periodStart, periodEnd),
                 HoursFor(entries, id, periodStart, periodEnd), WagesFor(entries, id, periodStart, periodEnd),
                 0.0, 0.0, None, periodStart, periodEnd, CountFor(entries, id, periodStart, periodEnd))
  }

  /** The grouped totals with the payments joined in. */
  function Joined(entries: seq<WorkEntry>, payments: seq<WagePayment>, id: string, periodStart: Date, periodEnd: Date): WagesSummary {
    Grouping(entries, id, periodStart, periodEnd).(
      totalPaid := PaidFor(payments, id, periodStart, periodEnd),
      lastPaymentDate := LastPaymentFor(payments, id, periodStart, periodEnd))
  }

  /** The finished summary of one staff member. */
  function SummaryOf(entries: seq<WorkEntry>, payments: seq<WagePayment>, id: string, periodStart: Date, periodEnd: Date): WagesSummary {
    var j := Joined(entries, payments, id, periodStart, periodEnd);
    j.(totalOutstanding := j.totalWagesDue - j.totalPaid)
  }

  /** One summary per staff member with grouped entries, in map order. */
  function Summaries(entries: seq<WorkEntry>, payments: seq<WagePayment>, periodStart: Date, periodEnd: Date): (r: seq<WagesSummary>)
    ensures |r| == |StaffOrder(entries, periodStart, periodEnd)|
  {
    var order := StaffOrder(entries, periodStart, periodEnd);
    seq(|order|, k requires 0 <= k < |order| => SummaryOf(entries, payments, order[k], periodStart, periodEnd))
  }

  /** `a.staffName.localeCompare(b.staffName) <= 0`. */
  predicate SummaryNameLe(a: WagesSummary, b: WagesSummary) {
    LexLe(a.staffName, b.staffName)
  }

  lemma SummaryNameLeTotal()
    ensures IsTotal(SummaryNameLe)
  {
    forall a: WagesSummary, b: WagesSummary
      ensures SummaryNameLe(a, b) || SummaryNameLe(b, a)
    {
      LexLeTotal(a.staffName, b.staffName);
    }
  }

  /** A staff id outside the order has no grouped entries, hence nothing grouped. */
  lemma {:induction false} UngroupedIsEmpty(entries: seq<WorkEntry>, id: string, periodStart: Date, periodEnd: Date)
    requires id !in StaffOrder(entries, periodStart, periodEnd)
    ensures HoursFor(entries, id, periodStart, periodEnd) == 0.0
    ensures WagesFor(entries, id, periodStart, periodEnd) == 0.0
    ensures CountFor(entries, id, periodStart, periodEnd) == 0
    decreases |entries|
  {
    if |entries| > 0 {
      var init := entries[..|entries| - 1];
      assert id !in StaffOrder(init, periodStart, periodEnd);
      UngroupedIsEmpty(init, id, periodStart, periodEnd);
    }
  }

  /** The first loop: a summary per staff member of the grouped entries, created with that entry's staff name, totals added in. */
  method GroupEntries(entries: seq<WorkEntry>, periodStart: Date, periodEnd: Date)
    returns (m: map<string, WagesSummary>, order: seq<string>)
    ensures order == StaffOrder(entries, periodStart, periodEnd)
    ensures m.Keys == set id | id in order
    ensures forall id :: id in m ==> m[id] == Grouping(entries, id, periodStart, periodEnd)
  {
    m, order := map[], [];
    var j := 0;
    while j < |entries|
      invariant 0 <= j <= |entries|
      invariant order == StaffOrder(entries[..j], periodStart, periodEnd)
      invariant m.Keys == set id | id in order
      invariant forall id :: id in m ==> m[id] == Grouping(entries[..j], id, periodStart, periodEnd)
    {
      var e := entries[j];
      var prefix := entries[..j + 1];
      assert prefix[..j] == entries[..j] && prefix[j] == e;
      if e.staff.Some? && InRange(e.date, periodStart, periodEnd) {
        var id := e.staffId;
        if id !in m {
          UngroupedIsEmpty(entries[..j], id, periodStart, periodEnd);
          m := m[id := WagesSummary(id, e.staff.value.name, 0.0, 0.0, 0.0, 0.0, None, periodStart, periodEnd, 0)];
          order := order + [id];
        }
        var s := m[id];
        m := m[id := s.(totalHoursWorked := s.totalHoursWorked + (e.hoursWorked + e.overtimeHours),
                        totalWagesDue := s.totalWagesDue + e.calculatedCost,
                        workEntriesCount := s.workEntriesCount + 1)];
      }
      j := j + 1;
    }
    assert entries[..|entries|] == entries;
  }

  /** The second loop: each fetched payment of a grouped staff member adds its paid amount and may move the latest payment date. */
  method JoinPayments(entries: seq<WorkEntry>, payments: seq<WagePayment>, periodStart: Date, periodEnd: Date,
                      m0: map<string, WagesSummary>, ids: set<string>)
    returns (m: map<string, WagesSummary>)
    requires m0.Keys == ids
    requires forall id :: id in m0 ==> m0[id] == Grouping(entries, id, periodStart, periodEnd)
    ensures m.Keys == ids
    ensures forall id :: id in m ==> m[id] == Joined(entries, payments, id, periodStart, periodEnd)
  {
    m := m0;
    var j := 0;
    while j < |payments|
      invariant 0 <= j <= |payments|
      invariant m.Keys == ids
      invariant forall id :: id in m ==> m[id] == Joined(entries, payments[..j], id, periodStart, periodEnd)
    {
      var p := payments[j];
      var prefix := payments[..j + 1];
      assert prefix[..j] == payments[..j] && prefix[j] == p;
      if p.staffId in m && Fetched(p, periodStart, periodEnd) {
        var s := m[p.staffId];
        m := m[p.staffId := s.(totalPaid := s.totalPaid + p.amountPaid,
                               lastPaymentDate := Later(s.lastPaymentDate, p.paymentDate))];
      }
      j := j + 1;
    }
    assert payments[..|payments|] == payments;
  }

  /**
   * `getWagesSummary(periodStart, periodEnd)` over the rows of the work
   * entry and payment tables: the grouped, joined summaries with their
   * outstanding amounts, sorted by staff name.
   */
  method GetWagesSummary(periodStart: Date, periodEnd: Date, entries: seq<WorkEntry>, payments: seq<WagePayment>)
    returns (r: seq<WagesSummary>)
    ensures r == SortBy(Summaries(entries, payments, periodStart, periodEnd), SummaryNameLe)
    ensures multiset(r) == multiset(Summaries(entries, payments, periodStart, periodEnd))
    ensures Sorted(r, SummaryNameLe)
  {
    var m1, order := GroupEntries(entries, periodStart, periodEnd);
    var m := JoinPayments(entries, payments, periodStart, periodEnd, m1, set id | id in order);
    var out: seq<WagesSummary> := [];
    var k := 0;
    while k < |order|
      invariant 0 <= k <= |order|
      invariant |out| == k
      invariant forall q :: 0 <= q < k ==> out[q] == SummaryOf(entries, payments, order[q], periodStart, periodEnd)
    {
      var s := m[order[k]];
      out := out + [s.(totalOutstanding := s.totalWagesDue - s.totalPaid)];
      k := k + 1;
    }
    assert out == Summaries(entries, payments, periodStart, periodEnd);
    SummaryNameLeTotal();
    SortBySorted(out, SummaryNameLe);
    r := SortBy(out, SummaryNameLe);
  }

  /** No element occurs twice. */
  ghost predicate Distinct(s: seq<string>) {
    forall i, j :: 0 <= i < j < |s| ==> s[i] != s[j]
  }

  /** The order holds each staff id once. */
  lemma {:induction false} StaffOrderDistinct(entries: seq<WorkEntry>, periodStart: Date, periodEnd: Date)
    ensures Distinct(StaffOrder(entries, periodStart, periodEnd))
    decreases |entries|
  {
    if |entries| > 0 {
      var init := entries[..|entries| - 1];
      StaffOrderDistinct(init, periodStart, periodEnd);
      var order0 := StaffOrder(init, periodStart, periodEnd);
      var e := entries[|entries| - 1];
      if Grouped(e, periodStart, periodEnd) && e.staffId !in order0 {
        AppendFreshDistinct(order0, e.staffId);
      }
    }
  }

  lemma AppendFreshDistinct(s: seq<string>, x: string)
    requires Distinct(s) && x !in s
    ensures Distinct(s + [x])
  {
    var t := s + [x];
    forall i, j | 0 <= i < j < |t|
      ensures t[i] != t[j]
    {
      assert t[i] == s[i];
      if j < |s| {
        assert t[j] == s[j];
      }
    }
  }

  /** The order holds exactly the staff ids of the grouped entries. */
  lemma {:induction false} StaffOrderMembers(entries: seq<WorkEntry>, periodStart: Date, periodEnd: Date)
    ensures forall id :: id in StaffOrder(entries, periodStart, periodEnd) <==>
      exists i :: 0 <= i < |entries| && GroupedFor(entries[i], id, periodStart, periodEnd)
    decreases |entries|
  {
    if |entries| > 0 {
      var init := entries[..|entries| - 1];
      StaffOrderMembers(init, periodStart, periodEnd);
      forall id
        ensures id in StaffOrder(entries, periodStart, periodEnd) <==>
          exists i :: 0 <= i < |entries| && GroupedFor(entries[i], id, periodStart, periodEnd)
      {
        if exists i :: 0 <= i < |init| && GroupedFor(init[i], id, periodStart, periodEnd) {
          var i :| 0 <= i < |init| && GroupedFor(init[i], id, periodStart, periodEnd);
          assert GroupedFor(entries[i], id, periodStart, periodEnd);
        }
        if exists i :: 0 <= i < |entries| && GroupedFor(entries[i], id, periodStart, periodEnd) {
          var i :| 0 <= i < |entries| && GroupedFor(entries[i], id, periodStart, periodEnd);
          if i < |init| {
            assert GroupedFor(init[i], id, periodStart, periodEnd);
          }
        }
      }
    }
  }

  /** Every summary's outstanding amount is its wages due less its paid amount, with no clamping at zero. */
  lemma OutstandingIsDueLessPaid(entries: seq<WorkEntry>, payments: seq<WagePayment>, periodStart: Date, periodEnd: Date, s: WagesSummary)
    requires s in SortBy(Summaries(entries, payments, periodStart, periodEnd), SummaryNameLe)
    ensures s.totalOutstanding == s.totalWagesDue - s.totalPaid
    ensures s.periodStart == periodStart && s.periodEnd == periodEnd
  {
    var sums := Summaries(entries, payments, periodStart, periodEnd);
    SortByMember(sums, SummaryNameLe, s);
    var k :| 0 <= k < |sums| && sums[k] == s;
    SummaryAt(entries, payments, periodStart, periodEnd, k);
  }

  /** The summary at position `k` owes its wages due less what was paid, over the queried period. */
  lemma SummaryAt(entries: seq<WorkEntry>, payments: seq<WagePayment>, periodStart: Date, periodEnd: Date, k: nat)
    requires k < |Summaries(entries, payments, periodStart, periodEnd)|
    ensures var s := Summaries(entries, payments, periodStart, periodEnd)[k];
      s.totalOutstanding == s.totalWagesDue - s.totalPaid && s.periodStart == periodStart && s.periodEnd == periodEnd
  {
    var id := StaffOrder(entries, periodStart, periodEnd)[k];
    assert Summaries(entries, payments, periodStart, periodEnd)[k] == SummaryOf(entries, payments, id, periodStart, periodEnd);
  }

  /** The latest payment date is absent exactly when no fetched payment of the staff member has a date; otherwise it is one of those dates and no other is later. */
  lemma {:induction false} LastPaymentIsLatest(payments: seq<WagePayment>, id: string, periodStart: Date, periodEnd: Date)
    ensures var last := LastPaymentFor(payments, id, periodStart, periodEnd);
      && (last.None? <==> forall i :: 0 <= i < |payments| && PaymentFor(payments[i], id, periodStart, periodEnd) ==> payments[i].paymentDate.None?)
      && (last.Some? ==> exists i :: 0 <= i < |payments| && PaymentFor(payments[i], id, periodStart, periodEnd) && payments[i].paymentDate == last)
      && (last.Some? ==>
            forall i :: 0 <= i < |payments| && PaymentFor(payments[i], id, periodStart, periodEnd) && payments[i].paymentDate.Some?
              ==> OnOrBefore(payments[i].paymentDate.value, last.value))
    decreases |payments|
  {
    if |payments| > 0 {
      var init := payments[..|payments| - 1];
      var p := payments[|payments| - 1];
      LastPaymentIsLatest(init, id, periodStart, periodEnd);
      var prev := LastPaymentFor(init, id, periodStart, periodEnd);
      var last := LastPaymentFor(payments, id, periodStart, periodEnd);
      forall i | 0 <= i < |init|
        ensures payments[i] == init[i]
      {
      }
      if PaymentFor(p, id, periodStart, periodEnd) && last != prev {
        forall i | 0 <= i < |payments| && PaymentFor(payments[i], id, periodStart, periodEnd) && payments[i].paymentDate.Some?
          ensures OnOrBefore(payments[i].paymentDate.value, last.value)
        {
          if i < |init| {
            assert OnOrBefore(payments[i].paymentDate.value, prev.value);
            BeforeTransitive(payments[i].paymentDate.value, prev.value, last.value);
          }
        }
        assert payments[|payments| - 1].paymentDate == last;
      } else if last.Some? {
        var i :| 0 <= i < |init| && PaymentFor(init[i], id, periodStart, periodEnd) && init[i].paymentDate == last;
        assert payments[i].paymentDate == last;
        if PaymentFor(p, id, periodStart, periodEnd) && p.paymentDate.Some? {
          assert !Before(last.value, p.paymentDate.value);
          BeforeTotal(p.paymentDate.value, last.value);
        }
      }
    }
  }

  lemma BeforeTransitive(a: Date, b: Date, c: Date)
    requires OnOrBefore(a, b) && Before(b, c)
    ensures OnOrBefore(a, c)
  {
  }

  lemma BeforeTotal(a: Date, b: Date)
    requires !Before(b, a)
    ensures OnOrBefore(a, b)
  {
  }

  /** The insert `generatePaymentsForPeriod` builds for one staff member. */
  datatype PaymentInsert = PaymentInsert(
    staffId: string,
    periodStart: Date,
    periodEnd: Date,
    amountDue: real,
    amountPaid: real,
    status: PaymentStatus,
    workEntryIds: seq<string>)

  /** The ids of the staff member's entries in the window, in row order (the relation is not required here). */
  function EntryIdsFor(entries: seq<WorkEntry>, id: string, periodStart: Date, periodEnd: Date): seq<string>
    decreases |entries|
  {
    if |entries| == 0 then []
    else
      var e := entries[|entries| - 1];
      EntryIdsFor(entries[..|entries| - 1], id, periodStart, periodEnd)
      + (if InRange(e.date, periodStart, periodEnd) && e.staffId == id then [e.id] else [])
  }

  /** `workEntryIdsByStaff`: each entry id of the window pushed onto the list of its staff id. */
  method GroupEntryIds(entries: seq<WorkEntry>, periodStart: Date, periodEnd: Date) returns (m: map<string, seq<string>>)
    ensures forall id :: id in m ==> m[id] == EntryIdsFor(entries, id, periodStart, periodEnd)
    ensures forall id :: id !in m ==> EntryIdsFor(entries, id, periodStart, periodEnd) == []
  {
    m := map[];
    var j := 0;
    while j < |entries|
      invariant 0 <= j <= |entries|
      invariant forall id :: id in m ==> m[id] == EntryIdsFor(entries[..j], id, periodStart, periodEnd)
      invariant forall id :: id !in m ==> EntryIdsFor(entries[..j], id, periodStart, periodEnd) == []
    {
      var e := entries[j];
      var prefix := entries[..j + 1];
      assert prefix[..j] == entries[..j] && prefix[j] == e;
      if InRange(e.date, periodStart, periodEnd) {
        if e.staffId !in m {
          m := m[e.staffId := []];
        }
        m := m[e.staffId := m[e.staffId] + [e.id]];
      }
      j := j + 1;
    }
    assert entries[..|entries|] == entries;
  }

  predicate HasWagesDue(s: WagesSummary) {
    s.totalWagesDue > 0.0
  }

  /** The pending insert for one summary: its staff and due amount, nothing paid, and the staff member's entry ids of the window. */
  function InsertFor(s: WagesSummary, entries: seq<WorkEntry>, periodStart: Date, periodEnd: Date): PaymentInsert {
    PaymentInsert(s.staffId, periodStart, periodEnd, s.totalWagesDue, 0.0, Pending,
                  EntryIdsFor(entries, s.staffId, periodStart, periodEnd))
  }

  /** The pending inserts: one per summary with wages due, in summary order, with the staff member's entry ids of the window. */
  function PlannedPayments(summaries: seq<WagesSummary>, entries: seq<WorkEntry>, periodStart: Date, periodEnd: Date): (r: seq<PaymentInsert>)
    ensures |r| <= |summaries|
    decreases |summaries|
  {
    if |summaries| == 0 then []
    else
      var s := summaries[|summaries| - 1];
      PlannedPayments(summaries[..|summaries| - 1], entries, periodStart, periodEnd)
      + (if HasWagesDue(s) then [InsertFor(s, entries, periodStart, periodEnd)] else [])
  }

  /** The records a sequence of creates returns: a failed create is skipped. */
  function Created(inserts: seq<PaymentInsert>, create: PaymentInsert -> Option<WagePayment>): (r: seq<WagePayment>)
    ensures |r| <= |inserts|
    decreases |inserts|
  {
    if |inserts| == 0 then []
    else
      var c := create(inserts[|inserts| - 1]);
      Created(inserts[..|inserts| - 1], create) + (if c.Some? then [c.value] else [])
  }

  /** `summary.filter(s => s.totalWagesDue > 0).map(...)`, the entry ids looked up in the map, with `[]` for a staff id it lacks. */
  method PlanPayments(summaries: seq<WagesSummary>, entries: seq<WorkEntry>, periodStart: Date, periodEnd: Date,
                      byStaff: map<string, seq<string>>)
    returns (planned: seq<PaymentInsert>)
    requires forall id :: id in byStaff ==> byStaff[id] == EntryIdsFor(entries, id, periodStart, periodEnd)
    requires forall id :: id !in byStaff ==> EntryIdsFor(entries, id, periodStart, periodEnd) == []
    ensures planned == PlannedPayments(summaries, entries, periodStart, periodEnd)
  {
    planned := [];
    var k := 0;
    while k < |summaries|
      invariant 0 <= k <= |summaries|
      invariant planned == PlannedPayments(summaries[..k], entries, periodStart, periodEnd)
    {
      var s := summaries[k];
      var prefix := summaries[..k + 1];
      assert prefix[..k] == summaries[..k] && prefix[k] == s;
      assert PlannedPayments(prefix, entries, periodStart, periodEnd)
        == planned + (if HasWagesDue(s) then [InsertFor(s, entries, periodStart, periodEnd)] else []);
      if s.totalWagesDue > 0.0 {
        var ids := if s.staffId in byStaff then byStaff[s.staffId] else [];
        var insert := PaymentInsert(s.staffId, periodStart, periodEnd, s.totalWagesDue, 0.0, Pending, ids);
        assert insert == InsertFor(s, entries, periodStart, periodEnd);
        planned := planned + [insert];
      }
      k := k + 1;
    }
    assert summaries[..|summaries|] == summaries;
  }

  /** The create loop: each insert attempted in turn, the successes kept in order. */
  method CreateAll(planned: seq<PaymentInsert>, create: PaymentInsert -> Option<WagePayment>) returns (results: seq<WagePayment>)
    ensures results == Created(planned, create)
  {
    results := [];
    var k := 0;
    while k < |planned|
      invariant 0 <= k <= |planned|
      invariant results == Created(planned[..k], create)
    {
      assert planned[..k + 1][..k] == planned[..k];
      var created := create(planned[k]);
      if created.Some? {
        results := results + [created.value];
      }
      k := k + 1;
    }
    assert planned[..|planned|] == planned;
  }

  /**
   * `generatePaymentsForPeriod(periodStart, periodEnd)`: the wages summary,
   * the entry ids by staff, one pending insert per staff member with wages
   * due, each created in turn. `create` stands for the insert into the
   * payments table; `None` is a create that throws.
   */
  method GeneratePaymentsForPeriod(periodStart: Date, periodEnd: Date, entries: seq<WorkEntry>, payments: seq<WagePayment>,
                                   create: PaymentInsert -> Option<WagePayment>)
    returns (results: seq<WagePayment>)
    ensures results == Created(PlannedPayments(SortBy(Summaries(entries, payments, periodStart, periodEnd), SummaryNameLe),
                                               entries, periodStart, periodEnd), create)
  {
    var summary := GetWagesSummary(periodStart, periodEnd, entries, payments);
    var byStaff := GroupEntryIds(entries, periodStart, periodEnd);
    var planned := PlanPayments(summary, entries, periodStart, periodEnd, byStaff);
    results := CreateAll(planned, create);
  }

  /** The planned inserts are, position by position, the inserts for the summaries with wages due. */
  lemma {:induction false} PlannedIsFilterMap(summaries: seq<WagesSummary>, entries: seq<WorkEntry>, periodStart: Date, periodEnd: Date)
    ensures var r := PlannedPayments(summaries, entries, periodStart, periodEnd);
      var due := Filter(summaries, HasWagesDue);
      |r| == |due| && forall i :: 0 <= i < |r| ==> r[i] == InsertFor(due[i], entries, periodStart, periodEnd)
    decreases |summaries|
  {
    if |summaries| > 0 {
      PlannedIsFilterMap(summaries[..|summaries| - 1], entries, periodStart, periodEnd);
    }
  }

  /**
   * Every planned insert is pending with nothing paid, a positive amount due
   * and the staff member's entry ids; the inserts are, in order, those of the
   * summaries with wages due; and every summary with wages due gets its own
   * insert.
   */
  lemma PlannedPaymentsSpec(summaries: seq<WagesSummary>, entries: seq<WorkEntry>, periodStart: Date, periodEnd: Date)
    ensures var r := PlannedPayments(summaries, entries, periodStart, periodEnd);
      forall i :: 0 <= i < |r| ==>
        r[i].status == Pending && r[i].amountPaid == 0.0 && r[i].amountDue > 0.0
        && r[i].periodStart == periodStart && r[i].periodEnd == periodEnd
        && r[i].workEntryIds == EntryIdsFor(entries, r[i].staffId, periodStart, periodEnd)
        && exists k :: 0 <= k < |summaries| && summaries[k].staffId == r[i].staffId && summaries[k].totalWagesDue == r[i].amountDue
    ensures var r := PlannedPayments(summaries, entries, periodStart, periodEnd);
      var due := Filter(summaries, HasWagesDue);
      |r| == |due| && forall i :: 0 <= i < |r| ==> r[i].staffId == due[i].staffId && r[i].amountDue == due[i].totalWagesDue
    ensures var r := PlannedPayments(summaries, entries, periodStart, periodEnd);
      forall k :: 0 <= k < |summaries| && HasWagesDue(summaries[k]) ==>
        exists i :: 0 <= i < |r| && r[i].staffId == summaries[k].staffId && r[i].amountDue == summaries[k].totalWagesDue
    ensures |PlannedPayments(summaries, entries, periodStart, periodEnd)| == Count(summaries, HasWagesDue)
  {
    var r := PlannedPayments(summaries, entries, periodStart, periodEnd);
    var due := Filter(summaries, HasWagesDue);
    PlannedIsFilterMap(summaries, entries, periodStart, periodEnd);
    FilterSpec(summaries, HasWagesDue);
    forall i | 0 <= i < |r|
      ensures exists k :: 0 <= k < |summaries| && summaries[k].staffId == r[i].staffId && summaries[k].totalWagesDue == r[i].amountDue
    {
      assert due[i] in due && HasWagesDue(due[i]);
      var k :| 0 <= k < |summaries| && summaries[k] == due[i];
    }
    forall k | 0 <= k < |summaries| && HasWagesDue(summaries[k])
      ensures exists i :: 0 <= i < |r| && r[i].staffId == summaries[k].staffId && r[i].amountDue == summaries[k].totalWagesDue
    {
      assert summaries[k] in due;
      var i :| 0 <= i < |due| && due[i] == summaries[k];
      assert r[i] == InsertFor(due[i], entries, periodStart, periodEnd);
    }
  }

  /** When no create fails, every planned insert yields a record, in order. */
  lemma {:induction false} CreatedWithoutFailures(inserts: seq<PaymentInsert>, create: PaymentInsert -> Option<WagePayment>)
    requires forall i :: 0 <= i < |inserts| ==> create(inserts[i]).Some?
    ensures |Created(inserts, create)| == |inserts|
    ensures forall i :: 0 <= i < |inserts| ==> Created(inserts, create)[i] == create(inserts[i]).value
    decreases |inserts|
  {
    if |inserts| > 0 {
      CreatedWithoutFailures(inserts[..|inserts| - 1], create);
    }
  }

  /** A failed create drops just that record: the results are the earlier and later successes together. */
  lemma {:induction false} CreatedSkipsFailure(a: seq<PaymentInsert>, x: PaymentInsert, b: seq<PaymentInsert>,
                                                create: PaymentInsert -> Option<WagePayment>)
    requires create(x).None?
    ensures Created(a + [x] + b, create) == Created(a, create) + Created(b, create)
    decreases |b|
  {
    if |b| == 0 {
      assert a + [x] + b == a + [x];
      assert (a + [x])[..|a|] == a;
    } else {
      var b0 := b[..|b| - 1];
      assert (a + [x] + b)[..|a + [x] + b| - 1] == a + [x] + b0;
      CreatedSkipsFailure(a, x, b0, create);
    }
  }

  /** `markAsPaid`: status `paid` and the full amount due recorded as paid, whatever was paid before; a missing record fails. */
  function MarkAsPaid(rows: seq<WagePayment>, id: string, paymentDate: Date, paymentMethod: string,
                      paymentReference: Option<string> := None): (r: Result<WagePayment, string>)
    ensures r.Err? <==> FindById(rows, id, PaymentId).None?
    ensures r.Err? ==> r.error == "Payment record not found"
    ensures r.Ok? ==> var cur := FindById(rows, id, PaymentId).value;
      && r.value.status == PaymentPaid && r.value.amountPaid == cur.amountDue
      && r.value.paymentDate == Some(paymentDate) && r.value.paymentMethod == Some(paymentMethod)
      && r.value.paymentReference == Keep(paymentReference, cur.paymentReference)
      && r.value.(status := cur.status, amountPaid := cur.amountPaid, paymentDate := cur.paymentDate,
                  paymentMethod := cur.paymentMethod, paymentReference := cur.paymentReference) == cur
  {
    match FindById(rows, id, PaymentId)
    case None => Err("Payment record not found")
    case Some(cur) =>
      Ok(cur.(status := PaymentPaid, amountPaid := cur.amountDue, paymentDate := Some(paymentDate),
              paymentMethod := Some(paymentMethod), paymentReference := Keep(paymentReference, cur.paymentReference)))
  }

  /** `recordPartialPayment`: the amount is added to what was paid; the record is `paid` once that covers the amount due, else `partially_paid`; a missing record fails. */
  function RecordPartialPayment(rows: seq<WagePayment>, id: string, amount: real, paymentDate: Date, paymentMethod: string,
                                paymentReference: Option<string> := None): (r: Result<WagePayment, string>)
    ensures r.Err? <==> FindById(rows, id, PaymentId).None?
    ensures r.Err? ==> r.error == "Payment record not found"
    ensures r.Ok? ==> var cur := FindById(rows, id, PaymentId).value;
      && r.value.amountPaid == cur.amountPaid + amount
      && (r.value.status == PaymentPaid <==> cur.amountPaid + amount >= cur.amountDue)
      && (r.value.status != PaymentPaid ==> r.value.status == PartiallyPaid)
      && r.value.paymentDate == Some(paymentDate) && r.value.paymentMethod == Some(paymentMethod)
      && r.value.paymentReference == Keep(paymentReference, cur.paymentReference)
      && r.value.(status := cur.status, amountPaid := cur.amountPaid, paymentDate := cur.paymentDate,
                  paymentMethod := cur.paymentMethod, paymentReference := cur.paymentReference) == cur
  {
    match FindById(rows, id, PaymentId)
    case None => Err("Payment record not found")
    case Some(cur) =>
      var newAmountPaid := cur.amountPaid + amount;
      Ok(cur.(status := if newAmountPaid >= cur.amountDue then PaymentPaid else PartiallyPaid,
              amountPaid := newAmountPaid, paymentDate := Some(paymentDate),
              paymentMethod := Some(paymentMethod), paymentReference := Keep(paymentReference, cur.paymentReference)))
  }

  /** Marking as paid is recording a partial payment of exactly the remaining balance. */
  lemma MarkAsPaidIsPayingBalance(rows: seq<WagePayment>, id: string, paymentDate: Date, paymentMethod: string, paymentReference: Option<string>)
    requires FindById(rows, id, PaymentId).Some?
    ensures var cur := FindById(rows, id, PaymentId).value;
      MarkAsPaid(rows, id, paymentDate, paymentMethod, paymentReference)
      == RecordPartialPayment(rows, id, cur.amountDue - cur.amountPaid, paymentDate, paymentMethod, paymentReference)
  {
  }

  /** A payment short of the balance leaves the record partially paid. */
  lemma ShortPaymentIsPartial(rows: seq<WagePayment>, id: string, amount: real, paymentDate: Date, paymentMethod: string)
    requires FindById(rows, id, PaymentId).Some?
    requires amount < FindById(rows, id, PaymentId).value.amountDue - FindById(rows, id, PaymentId).value.amountPaid
    ensures RecordPartialPayment(rows, id, amount, paymentDate, paymentMethod).value.status == PartiallyPaid
  {
  }

  /** `pending` or `partially_paid`: the records whose balance is still owed. */
  predicate IsOpen(p: WagePayment) {
    p.status == Pending || p.status == PartiallyPaid
  }

  predicate IsPaid(p: WagePayment) {
    p.status == PaymentPaid
  }

  function Balance(p: WagePayment): real { p.amountDue - p.amountPaid }

  function AmountDue(p: WagePayment): real { p.amountDue }

  function AmountPaid(p: WagePayment): real { p.amountPaid }

  /** `getTotalOutstanding()` over the result of the open-records query: the sum of the balances, or 0 when the query fails. */
  function GetTotalOutstanding(query: Result<seq<WagePayment>, string>): (r: real)
    ensures query.Err? ==> r == 0.0
  {
    if query.Err? then 0.0 else SumWhere(query.value, IsOpen, Balance)
  }

  /** The outstanding total is the open amounts due less the open amounts paid, and is not negative when no open record is overpaid. */
  lemma {:induction false} OutstandingIsDueLessPaidTotal(rows: seq<WagePayment>)
    ensures GetTotalOutstanding(Ok(rows)) == SumWhere(rows, IsOpen, AmountDue) - SumWhere(rows, IsOpen, AmountPaid)
    ensures (forall i :: 0 <= i < |rows| && IsOpen(rows[i]) ==> rows[i].amountPaid <= rows[i].amountDue)
      ==> GetTotalOutstanding(Ok(rows)) >= 0.0
    decreases |rows|
  {
    if |rows| > 0 {
      var init := rows[..|rows| - 1];
      OutstandingIsDueLessPaidTotal(init);
      forall i | 0 <= i < |init|
        ensures rows[i] == init[i]
      {
      }
    }
  }

  /** The statistics over the payment records. */
  datatype PaymentStats = PaymentStats(totalPending: real, totalPaid: real, totalOutstanding: real, pendingCount: nat, paidCount: nat)

  /** `getStats()`: the open records' amounts due, balances and count, and the paid records' amounts paid and count; other statuses are not counted. */
  method GetStats(rows: seq<WagePayment>) returns (stats: PaymentStats)
    ensures stats.totalPending == SumWhere(rows, IsOpen, AmountDue)
    ensures stats.totalOutstanding == GetTotalOutstanding(Ok(rows))
    ensures stats.pendingCount == Count(rows, IsOpen)
    ensures stats.totalPaid == SumWhere(rows, IsPaid, AmountPaid)
    ensures stats.paidCount == Count(rows, IsPaid)
  {
    stats := PaymentStats(0.0, 0.0, 0.0, 0, 0);
    var j := 0;
    while j < |rows|
      invariant 0 <= j <= |rows|
      invariant stats.totalPending == SumWhere(rows[..j], IsOpen, AmountDue)
      invariant stats.totalOutstanding == SumWhere(rows[..j], IsOpen, Balance)
      invariant stats.pendingCount == Count(rows[..j], IsOpen)
      invariant stats.totalPaid == SumWhere(rows[..j], IsPaid, AmountPaid)
      invariant stats.paidCount == Count(rows[..j], IsPaid)
    {
      var p := rows[j];
      var prefix := rows[..j + 1];
      assert prefix[..j] == rows[..j] && prefix[j] == p;
      if p.status == Pending || p.status == PartiallyPaid {
        stats := stats.(totalPending := stats.totalPending + p.amountDue,
                        totalOutstanding := stats.totalOutstanding + (p.amountDue - p.amountPaid),
                        pendingCount := stats.pendingCount + 1);
      } else if p.status == PaymentPaid {
        stats := stats.(totalPaid := stats.totalPaid + p.amountPaid, paidCount := stats.paidCount + 1);
      }
      j := j + 1;
    }
    assert rows[..|rows|] == rows;
  }
}
