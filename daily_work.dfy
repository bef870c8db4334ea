/**
 * The daily work service: the per-staff allocation summary of one day and
 * the margin of a single entry.
 */
module DailyWork {
  import opened Money
  import opened Text
  import opened Sorting
  import opened CivilDate
  import opened Records

  /** One row of the day's allocation summary. */
  datatype DailySummary = DailySummary(
    staffId: string,
    staffName: string,
    date: Date,
    totalTasks: nat,
    totalHours: real,
    allocatedHours: real,
    totalCost: real,
    hoursVariance: real,
    isOverAllocated: bool,
    isUnderAllocated: bool)

  /** The tolerance, in hours, before a day counts as over- or under-allocated. */
  const Tolerance: real := 0.1

  /** An entry is aggregated for a staff member when it carries its staff relation and that member's id. */
  predicate CountsFor(e: WorkEntry, id: string) {
    e.staff.Some? && e.staffId == id
  }

  function TasksOf(entries: seq<WorkEntry>, id: string): nat
    decreases |entries|
  {
    if |entries| == 0 then 0
    else TasksOf(entries[..|entries| - 1], id) + (if CountsFor(entries[|entries| - 1], id) then 1 else 0)
  }

  /** Hours worked, overtime excluded. */
  function HoursOf(entries: seq<WorkEntry>, id: string): real
    decreases |entries|
  {
    if |entries| == 0 then 0.0
    else HoursOf(entries[..|entries| - 1], id) + (if CountsFor(entries[|entries| - 1], id) then entries[|entries| - 1].hoursWorked else 0.0)
  }

  /** What the entries are billed at: `client_cost || override_cost || calculated_cost` each. */
  function CostOf(entries: seq<WorkEntry>, id: string): real
    decreases |entries|
  {
    if |entries| == 0 then 0.0
    else CostOf(entries[..|entries| - 1], id) + (if CountsFor(entries[|entries| - 1], id) then EntryRevenue(entries[|entries| - 1]) else 0.0)
  }

  /** The summary every active staff member starts from. */
  function Initial(st: Staff, date: Date): DailySummary {
    DailySummary(st.id, st.name, date, 0, 0.0, st.allocatedDailyHours, 0.0, -st.allocatedDailyHours, false, true)
  }

  /** The starting summary with the totals of `entries` added in. */
  function Accumulated(entries: seq<WorkEntry>, st: Staff, date: Date): DailySummary {
    Initial(st, date).(totalTasks := TasksOf(entries, st.id), totalHours := HoursOf(entries, st.id),
                       totalCost := CostOf(entries, st.id))
  }

  /** The variance and the two alerts, worked out from the totals. */
  function Finish(s: DailySummary): DailySummary {
    var variance := s.totalHours - s.allocatedHours;
    s.(hoursVariance := variance,
       isOverAllocated := variance > Tolerance,
       isUnderAllocated := variance < -Tolerance && s.totalHours > 0.0)
  }

  /** The summary of one staff member over the day's entries. */
  function SummaryFor(entries: seq<WorkEntry>, st: Staff, date: Date): DailySummary {
    Finish(Accumulated(entries, st, date))
  }

  /** One summary per active staff member, in the order the staff were fetched. */
  function Summaries(entries: seq<WorkEntry>, staff: seq<Staff>, date: Date): (r: seq<DailySummary>)
    ensures |r| == |staff|
    ensures forall k :: 0 <= k < |staff| ==> r[k] == SummaryFor(entries, staff[k], date)
  {
    seq(|staff|, k requires 0 <= k < |staff| => SummaryFor(entries, staff[k], date))
  }

  /** `a.staffName.localeCompare(b.staffName) <= 0`. */
  predicate NameLe(a: DailySummary, b: DailySummary) {
    LexLe(a.staffName, b.staffName)
  }

  lemma NameLeTotal()
    ensures IsTotal(NameLe)
  {
    forall a: DailySummary, b: DailySummary
      ensures NameLe(a, b) || NameLe(b, a)
    {
      LexLeTotal(a.staffName, b.staffName);
    }
  }

  ghost predicate UniqueIds(staff: seq<Staff>) {
    forall i, j :: 0 <= i < j < |staff| ==> staff[i].id != staff[j].id
  }

  ghost function StaffIds(staff: seq<Staff>): set<string> {
    set k | 0 <= k < |staff| :: staff[k].id
  }

  /** The map from each active staff member's id to a starting summary. */
  method InitialSummaries(date: Date, staff: seq<Staff>) returns (m: map<string, DailySummary>)
    requires UniqueIds(staff)
    ensures m.Keys == StaffIds(staff)
    ensures forall k :: 0 <= k < |staff| ==> m[staff[k].id] == Accumulated([], staff[k], date)
  {
    m := map[];
    var i := 0;
    while i < |staff|
      invariant 0 <= i <= |staff|
      invariant m.Keys == set k | 0 <= k < i :: staff[k].id
      invariant forall k :: 0 <= k < i ==> m[staff[k].id] == Initial(staff[k], date)
    {
      m := m[staff[i].id := Initial(staff[i], date)];
      i := i + 1;
    }
  }

  /** The day's entries folded into the map: one more task, its hours and its billed cost for each entry with its staff relation whose staff member has a summary. */
  method AddEntries(date: Date, entries: seq<WorkEntry>, staff: seq<Staff>, m0: map<string, DailySummary>)
    returns (m: map<string, DailySummary>)
    requires UniqueIds(staff)
    requires m0.Keys == StaffIds(staff)
    requires forall k :: 0 <= k < |staff| ==> m0[staff[k].id] == Accumulated([], staff[k], date)
    ensures m.Keys == StaffIds(staff)
    ensures forall k :: 0 <= k < |staff| ==> m[staff[k].id] == Accumulated(entries, staff[k], date)
  {
    m := m0;
    assert entries[..0] == [];
    var j := 0;
    while j < |entries|
      invariant 0 <= j <= |entries|
      invariant m.Keys == StaffIds(staff)
      invariant forall k :: 0 <= k < |staff| ==> m[staff[k].id] == Accumulated(entries[..j], staff[k], date)
    {
      var e := entries[j];
      assert entries[..j + 1][..j] == entries[..j];
      if e.staff.Some? && e.staffId in m {
        var s := m[e.staffId];
        m := m[e.staffId := s.(totalTasks := s.totalTasks + 1, totalHours := s.totalHours + e.hoursWorked,
                                totalCost := s.totalCost + EntryRevenue(e))];
      }
      j := j + 1;
    }
    assert entries[..|entries|] == entries;
  }

  /**
   * `getDailySummary(date)` over the day's entries and the active staff: a
   * map from staff id to a starting summary, the entries folded into it,
   * the alerts worked out in the map's (insertion) order, sorted by staff
   * name.
   */
  method GetDailySummary(date: Date, entries: seq<WorkEntry>, staff: seq<Staff>) returns (r: seq<DailySummary>)
    requires UniqueIds(staff)
    ensures r == SortBy(Summaries(entries, staff, date), NameLe)
    ensures |r| == |staff|
    ensures multiset(r) == multiset(Summaries(entries, staff, date))
    ensures Sorted(r, NameLe)
  {
    var m0 := InitialSummaries(date, staff);
    var m := AddEntries(date, entries, staff, m0);
    var out: seq<DailySummary> := [];
    var k := 0;
    while k < |staff|
      invariant 0 <= k <= |staff|
      invariant |out| == k
      invariant forall q :: 0 <= q < k ==> out[q] == SummaryFor(entries, staff[q], date)
    {
      out := out + [Finish(m[staff[k].id])];
      k := k + 1;
    }
    assert out == Summaries(entries, staff, date);
    NameLeTotal();
    SortBySorted(out, NameLe);
    r := SortBy(out, NameLe);
  }

  /** Over- and under-allocation never both hold, and a day with no hours is never under-allocated. */
  lemma AlertsExclusive(entries: seq<WorkEntry>, st: Staff, date: Date)
    ensures var s := SummaryFor(entries, st, date);
      !(s.isOverAllocated && s.isUnderAllocated)
      && (s.totalHours == 0.0 ==> !s.isUnderAllocated)
  {
  }

  /** The alerts fire exactly outside the tolerance band around the allocation. */
  lemma AlertsMeaning(entries: seq<WorkEntry>, st: Staff, date: Date)
    ensures var s := SummaryFor(entries, st, date);
      && s.hoursVariance == HoursOf(entries, st.id) - st.allocatedDailyHours
      && (s.isOverAllocated <==> HoursOf(entries, st.id) > st.allocatedDailyHours + Tolerance)
      && (s.isUnderAllocated <==> 0.0 < HoursOf(entries, st.id) < st.allocatedDailyHours - Tolerance)
  {
  }

  /**
   * A staff member none of whose entries count has zero totals, variance equal
   * to minus the allocation and no under-allocation alert; the over-allocation
   * alert shows only for an allocation below minus the tolerance, which the
   * staff form never stores.
   */
  lemma {:induction false} NoEntriesSummary(entries: seq<WorkEntry>, st: Staff, date: Date)
    requires forall i :: 0 <= i < |entries| ==> !CountsFor(entries[i], st.id)
    ensures var s := SummaryFor(entries, st, date);
      && s.totalTasks == 0 && s.totalHours == 0.0 && s.totalCost == 0.0
      && s.hoursVariance == -st.allocatedDailyHours
      && !s.isUnderAllocated
      && (s.isOverAllocated <==> st.allocatedDailyHours + Tolerance < 0.0)
    decreases |entries|
  {
    if |entries| > 0 {
      NoEntriesSummary(entries[..|entries| - 1], st, date);
    }
  }

  /** An entry without the staff relation, or for someone else, leaves a staff member's summary as it was. */
  lemma OtherEntryIgnored(entries: seq<WorkEntry>, e: WorkEntry, st: Staff, date: Date)
    requires !CountsFor(e, st.id)
    ensures SummaryFor(entries + [e], st, date) == SummaryFor(entries, st, date)
  {
    assert (entries + [e])[..|entries|] == entries;
  }

  /** An entry of the staff member adds one task, its hours worked and its billed cost. */
  lemma OwnEntryAdded(entries: seq<WorkEntry>, e: WorkEntry, st: Staff, date: Date)
    requires CountsFor(e, st.id)
    ensures var before, after := SummaryFor(entries, st, date), SummaryFor(entries + [e], st, date);
      && after.totalTasks == before.totalTasks + 1
      && after.totalHours == before.totalHours + e.hoursWorked
      && after.totalCost == before.totalCost + EntryRevenue(e)
  {
    assert (entries + [e])[..|entries|] == entries;
  }

  /** The margin of one entry. */
  datatype Margin = Margin(amount: real, percentage: real)

  /** `calculateMargin(laborCost, clientCost)`: the difference and its share of the client price, each to 2 decimals. */
  function CalculateMargin(laborCost: real, clientCost: real): (r: Margin)
    ensures IsCents(r.amount) && IsCents(r.percentage)
    ensures clientCost - laborCost - 1.0 / 200.0 < r.amount <= clientCost - laborCost + 1.0 / 200.0
    ensures clientCost > 0.0 ==> r.percentage == Round2(Share(clientCost - laborCost, clientCost))
    ensures clientCost <= 0.0 ==> r.percentage == 0.0
  {
    var amount := clientCost - laborCost;
    var percentage := if clientCost > 0.0 then Share(amount, clientCost) else 0.0;
    Margin(Round2(amount), Round2(percentage))
  }

  /** `part / whole * 100`. */
  function Share(part: real, whole: real): (r: real)
    requires whole != 0.0
    ensures r * whole == 100.0 * part
  {
    part / whole * 100.0
  }

  /** A share of a positive whole lies in 0..100 exactly when the part lies in 0..whole. */
  lemma ShareBounds(part: real, whole: real)
    requires whole > 0.0
    ensures 0.0 <= part <= whole <==> 0.0 <= Share(part, whole) <= 100.0
  {
    var r := Share(part, whole);
    assert r * whole == 100.0 * part;
    assert (100.0 - r) * whole == 100.0 * whole - 100.0 * part;
    NonNegativeFactor(r, whole);
    NonNegativeFactor(100.0 - r, whole);
  }

  /** Against a positive factor, a product is non-negative exactly when the other factor is. */
  lemma NonNegativeFactor(a: real, w: real)
    requires w > 0.0
    ensures a * w >= 0.0 <==> a >= 0.0
  {
  }

  /** With labour between nothing and the client price, both figures are non-negative and the percentage is at most 100. */
  lemma MarginBounds(laborCost: real, clientCost: real)
    requires 0.0 <= laborCost <= clientCost && clientCost > 0.0
    ensures var r := CalculateMargin(laborCost, clientCost);
      0.0 <= r.amount && 0.0 <= r.percentage <= 100.0
  {
    var p := Share(clientCost - laborCost, clientCost);
    ShareBounds(clientCost - laborCost, clientCost);
    Round2OfCents(0.0);
    Round2OfCents(100.0);
    Round2Monotonic(0.0, p);
    Round2Monotonic(p, 100.0);
    Round2Monotonic(0.0, clientCost - laborCost);
  }

  /** Billing at cost leaves no margin. */
  lemma NoMarginAtCost(cost: real)
    ensures CalculateMargin(cost, cost) == Margin(0.0, 0.0)
  {
    Round2OfCents(0.0);
    if cost > 0.0 {
      assert Share(0.0, cost) == 0.0;
    }
  }
}
