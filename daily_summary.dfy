/**
 * The daily summary panel: the day's totals over the staff summaries, the
 * efficiency figure, the over- and under-allocation lists, and each staff
 * row's icon and variance text.
 */
module DailySummaryPanel {
  import opened Wrappers
  import opened Money
  import opened Lists
  import opened Text
  import opened Utils
  import opened DailyWork
  import opened Records
  import opened CivilDate

  function SummaryHours(s: DailySummary): real { s.totalHours }

  function SummaryCost(s: DailySummary): real { s.totalCost }

  function SummaryAllocated(s: DailySummary): real { s.allocatedHours }

  /** Σ `totalTasks`: zero exactly when no staff member has a task. */
  function TotalTasks(summaries: seq<DailySummary>): (r: nat)
    ensures r == 0 <==> forall i :: 0 <= i < |summaries| ==> summaries[i].totalTasks == 0
    decreases |summaries|
  {
    if |summaries| == 0 then 0
    else
      var init := summaries[..|summaries| - 1];
      assert forall i :: 0 <= i < |init| ==> init[i] == summaries[i];
      TotalTasks(init) + summaries[|summaries| - 1].totalTasks
  }

  datatype DayTotals = DayTotals(totalHours: real, totalCost: real, totalTasks: nat, allocatedHours: real)

  /** The four figures at the top of the panel: the day shows no tasks exactly when no staff member has one. */
  function Totals(summaries: seq<DailySummary>): (r: DayTotals)
    ensures r.totalTasks == 0 <==> forall i :: 0 <= i < |summaries| ==> summaries[i].totalTasks == 0
  {
    DayTotals(Sum(summaries, SummaryHours), Sum(summaries, SummaryCost), TotalTasks(summaries), Sum(summaries, SummaryAllocated))
  }

  function Plus(a: DayTotals, b: DayTotals): DayTotals {
    DayTotals(a.totalHours + b.totalHours, a.totalCost + b.totalCost, a.totalTasks + b.totalTasks, a.allocatedHours + b.allocatedHours)
  }

  lemma {:induction false} TotalTasksAppend(a: seq<DailySummary>, b: seq<DailySummary>)
    ensures TotalTasks(a + b) == TotalTasks(a) + TotalTasks(b)
    decreases |b|
  {
    if |b| == 0 {
      assert a + b == a;
    } else {
      assert (a + b)[..|a + b| - 1] == a + b[..|b| - 1];
      TotalTasksAppend(a, b[..|b| - 1]);
    }
  }

  /** The four figures add up over two lists of summaries, whichever way the staff are split. */
  lemma TotalsAppend(a: seq<DailySummary>, b: seq<DailySummary>)
    ensures Totals(a + b) == Plus(Totals(a), Totals(b))
  {
    SumAppend(a, b, SummaryHours);
    SumAppend(a, b, SummaryCost);
    SumAppend(a, b, SummaryAllocated);
    TotalTasksAppend(a, b);
  }

  function StaffAllocation(st: Staff): real { st.allocatedDailyHours }

  /** Over the service's summaries, the allocated figure is the staff's own Σ `allocated_daily_hours`. */
  lemma {:induction false} TotalsOfSummaries(entries: seq<WorkEntry>, staff: seq<Staff>, date: Date)
    ensures Totals(Summaries(entries, staff, date)).allocatedHours == Sum(staff, StaffAllocation)
    decreases |staff|
  {
    if |staff| > 0 {
      var init := staff[..|staff| - 1];
      TotalsOfSummaries(entries, init, date);
      assert Summaries(entries, staff, date)[..|staff| - 1] == Summaries(entries, init, date);
    }
  }

  /** `allocatedHours > 0 ? Math.round(totalHours / allocatedHours * 100) : 0`: worked hours as a whole percentage of the allocation. */
  function Efficiency(totalHours: real, allocatedHours: real): (r: int)
    ensures allocatedHours > 0.0 ==>
      (r as real - 0.5) * allocatedHours <= 100.0 * totalHours < (r as real + 0.5) * allocatedHours
    ensures allocatedHours <= 0.0 ==> r == 0
  {
    if allocatedHours > 0.0 then
      var ratio := totalHours / allocatedHours * 100.0;
      assert ratio * allocatedHours == 100.0 * totalHours;
      var n := JsRound(ratio);
      RoundedRatioBounds(ratio, allocatedHours, 100.0 * totalHours, n);
      n
    else 0
  }

  lemma RoundedRatioBounds(ratio: real, whole: real, target: real, n: int)
    requires whole > 0.0 && ratio * whole == target
    requires ratio - 0.5 < n as real <= ratio + 0.5
    ensures (n as real - 0.5) * whole <= target < (n as real + 0.5) * whole
  {
    ScaleLe(n as real - 0.5, ratio, whole);
    ScaleLt(ratio, n as real + 0.5, whole);
  }

  lemma ScaleLe(x: real, y: real, w: real)
    requires x <= y && w > 0.0
    ensures x * w <= y * w
  {
    assert y * w - x * w == (y - x) * w;
  }

  lemma ScaleLt(x: real, y: real, w: real)
    requires x < y && w > 0.0
    ensures x * w < y * w
  {
    assert y * w - x * w == (y - x) * w;
  }

  /** Working exactly the allocation is 100% efficiency, and no hours is 0%. */
  lemma EfficiencyLandmarks(allocatedHours: real)
    requires allocatedHours > 0.0
    ensures Efficiency(allocatedHours, allocatedHours) == 100
    ensures Efficiency(0.0, allocatedHours) == 0
  {
    assert allocatedHours / allocatedHours * 100.0 == 100.0;
    assert Efficiency(allocatedHours, allocatedHours) == JsRound(100.0);
    assert 0.0 / allocatedHours * 100.0 == 0.0;
    assert Efficiency(0.0, allocatedHours) == JsRound(0.0);
  }

  predicate Over(s: DailySummary) { s.isOverAllocated }

  predicate Under(s: DailySummary) { s.isUnderAllocated }

  /** The over-allocated list: exactly the summaries flagged so, in order. */
  function OverAllocatedStaff(summaries: seq<DailySummary>): (r: seq<DailySummary>)
    ensures forall s :: s in r <==> s in summaries && s.isOverAllocated
    ensures SubsequenceOf(r, summaries)
  {
    FilterSpec(summaries, Over);
    FilterIsSubsequence(summaries, Over);
    Filter(summaries, Over)
  }

  /** The under-allocated list: exactly the summaries flagged so, in order. */
  function UnderAllocatedStaff(summaries: seq<DailySummary>): (r: seq<DailySummary>)
    ensures forall s :: s in r <==> s in summaries && s.isUnderAllocated
    ensures SubsequenceOf(r, summaries)
  {
    FilterSpec(summaries, Under);
    FilterIsSubsequence(summaries, Under);
    Filter(summaries, Under)
  }

  /** For the summaries the service builds, nobody appears in both alert lists. */
  lemma AlertListsDisjoint(summaries: seq<DailySummary>)
    requires forall i :: 0 <= i < |summaries| ==> !(summaries[i].isOverAllocated && summaries[i].isUnderAllocated)
    ensures forall s :: s in OverAllocatedStaff(summaries) ==> s !in UnderAllocatedStaff(summaries)
  {
  }

  datatype Icon = Warning | Check | ClockIcon

  /** The row icon: a warning when over-allocated, else a check when any hours are logged, else a clock. */
  function StatusIcon(s: DailySummary): (r: Icon)
    ensures r == Warning <==> s.isOverAllocated
    ensures r == Check <==> !s.isOverAllocated && s.totalHours > 0.0
    ensures r == ClockIcon <==> !s.isOverAllocated && s.totalHours <= 0.0
  {
    if s.isOverAllocated then Warning else if s.totalHours > 0.0 then Check else ClockIcon
  }

  /** The variance column: nothing for a zero variance, else `+` for a positive one followed by the formatted magnitude. */
  function VarianceText(variance: real): (r: Option<string>)
    ensures r.None? <==> variance == 0.0
    ensures r.Some? ==> |r.value| > 0 && (r.value[0] == '+' <==> variance > 0.0)
  {
    if variance == 0.0 then None
    else
      var magnitude := if variance < 0.0 then -variance else variance;
      var text := FormatTime(magnitude);
      FormatTimeNoSign(magnitude);
      Some((if variance > 0.0 then "+" else "") + text)
  }

  /** A formatted non-negative time starts with a digit, never with a sign. */
  lemma FormatTimeNoSign(hours: real)
    requires hours >= 0.0
    ensures |FormatTime(hours)| > 0 && IsDigit(FormatTime(hours)[0])
  {
    var h := IntToString(WholeHours(hours));
    assert h == NatToString(WholeHours(hours));
    assert FormatTime(hours)[0] == h[0];
  }
}
