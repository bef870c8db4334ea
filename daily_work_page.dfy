/**
 * The daily-work page: the date range fetched for the week or month view,
 * the previous/next navigation, and the figures for the fetched period.
 */
module DailyWorkPage {
  import opened Lists
  import opened CivilDate
  import opened JsDates
  import opened Records
  import opened DailyWork

  /** The calendar's two granularities. */
  datatype CalendarView = Week | Month

  /**
   * `getDateRange()`: Monday to Sunday of the week holding `currentDate`, or
   * the first to the last day of its month.
   */
  method GetDateRange(currentDate: Date, view: CalendarView) returns (start: Date, end: Date)
    requires ValidDate(currentDate)
    ensures ValidDate(start) && ValidDate(end)
    ensures OnOrBefore(start, currentDate) && OnOrBefore(currentDate, end)
    ensures view == Week ==>
      start == MondayOnOrBefore(currentDate) && end == AddDays(start, 6)
      && Weekday(start) == 1 && Weekday(end) == 0
    ensures view == Month ==> start == FirstOfMonth(currentDate) && end == LastOfMonth(currentDate)
  {
    if view == Week {
      start, end := WeekRange(currentDate);
      WeekBounds(currentDate);
    } else {
      start, end := MonthRange(currentDate);
    }
  }

  /** The week branch of `getDateRange()`, on mutable dates as the page computes it. */
  method WeekRange(currentDate: Date) returns (start: Date, end: Date)
    requires ValidDate(currentDate)
    ensures start == MondayOnOrBefore(currentDate) && end == AddDays(start, 6)
  {
    var s := new JsDate(currentDate);
    var dayOfWeek := s.GetDay();
    var diff := if dayOfWeek == 0 then -6 else 1 - dayOfWeek;
    assert diff == MondayOffset(Weekday(currentDate));
    var n := s.GetDate() + diff;
    WeekStartStep(currentDate, n);
    s.SetDate(n);
    var monday := s.value;
    assert monday == MondayOnOrBefore(currentDate);
    var e := new JsDate(monday);
    var sunday := e.GetDate() + 6;
    JsSetDateRelative(monday, sunday, 6);
    e.SetDate(sunday);
    assert e.value == JsSetDate(monday, sunday);
    start, end := monday, e.value;
  }

  /** The month branch of `getDateRange()`: `setDate(1)`, then a copy moved a month on and back to day 0. */
  method MonthRange(currentDate: Date) returns (start: Date, end: Date)
    requires ValidDate(currentDate)
    ensures start == FirstOfMonth(currentDate) && end == LastOfMonth(currentDate)
  {
    var s := new JsDate(currentDate);
    JsSetDateInMonth(currentDate, 1);
    s.SetDate(1);
    var first := s.value;
    assert first == FirstOfMonth(currentDate);
    var e := new JsDate(first);
    NextMonthDayZero(first);
    e.SetMonth(e.GetMonth() + 1);
    assert e.value == JsSetMonth(first, first.month);
    e.SetDate(0);
    start, end := first, e.value;
  }

  /** The month index one step forward or back, as `getMonth() ± 1`. */
  function MonthStep(d: Date, forward: bool): int {
    d.month - 1 + (if forward then 1 else -1)
  }

  /** The calendar month one step forward or back, with the year carried. */
  function NeighbourMonth(d: Date, forward: bool): (r: (int, int))
    requires 1 <= d.month <= 12
    ensures 1 <= r.1 <= 12
    ensures r == (d.year + MonthStep(d, forward) / 12, MonthStep(d, forward) % 12 + 1)
  {
    if forward then (if d.month == 12 then (d.year + 1, 1) else (d.year, d.month + 1))
    else (if d.month == 1 then (d.year - 1, 12) else (d.year, d.month - 1))
  }

  /** The calendar day a month step is meant to reach: the same day of the neighbouring month, or, when that month is too short, the overflow into the month after it. */
  function MonthLanding(d: Date, forward: bool): Date
    requires 1 <= d.month <= 12
  {
    var (y, m) := NeighbourMonth(d, forward);
    var n := DaysInMonth(y, m);
    if d.day <= n then Date(y, m, d.day)
    else if m == 12 then Date(y + 1, 1, d.day - n)
    else Date(y, m + 1, d.day - n)
  }

  /**
   * `navigatePrevious()` / `navigateNext()`: a week moves the date by seven
   * days; a month lands as `MonthLanding` says.
   */
  method Navigate(currentDate: Date, view: CalendarView, forward: bool) returns (newDate: Date)
    requires ValidDate(currentDate)
    ensures ValidDate(newDate)
    ensures view == Week ==> newDate == AddDays(currentDate, if forward then 7 else -7)
    ensures view == Month ==> newDate == MonthLanding(currentDate, forward)
  {
    var nd := new JsDate(currentDate);
    if view == Week {
      var k := if forward then 7 else -7;
      var n := nd.GetDate() + k;
      JsSetDateRelative(currentDate, n, k);
      nd.SetDate(n);
      assert nd.value == JsSetDate(currentDate, n);
    } else {
      var m0 := nd.GetMonth() + (if forward then 1 else -1);
      assert m0 == MonthStep(currentDate, forward);
      MonthStepLands(currentDate, forward);
      nd.SetMonth(m0);
      assert nd.value == JsSetMonth(currentDate, MonthStep(currentDate, forward));
    }
    newDate := nd.value;
  }

  /** `setMonth(getMonth() ± 1)` reaches the intended day, and the day it reaches is in the neighbouring month exactly when that month has the day. */
  lemma MonthStepLands(d: Date, forward: bool)
    requires ValidDate(d)
    ensures JsSetMonth(d, MonthStep(d, forward)) == MonthLanding(d, forward)
    ensures (MonthLanding(d, forward).year, MonthLanding(d, forward).month) == NeighbourMonth(d, forward)
      <==> d.day <= DaysInMonth(NeighbourMonth(d, forward).0, NeighbourMonth(d, forward).1)
  {
    var m0 := MonthStep(d, forward);
    var (y, m) := NeighbourMonth(d, forward);
    assert y == d.year + m0 / 12 && m == m0 % 12 + 1;
    if d.day <= DaysInMonth(y, m) {
      JsSetMonthKeepsDay(d, m0);
      assert JsSetMonth(d, m0) == Date(y, m, d.day);
    } else {
      JsSetMonthOverflow(d, m0);
      var k := d.day - DaysInMonth(y, m);
      assert JsSetMonth(d, m0) == (if m == 12 then Date(y + 1, 1, k) else Date(y, m + 1, k));
    }
  }

  /** A week forward and a week back return to the same day, and each step moves the fetched week by seven days. */
  lemma WeekNavigation(d: Date)
    requires ValidDate(d)
    ensures AddDays(AddDays(d, 7), -7) == d
    ensures MondayOnOrBefore(AddDays(d, 7)) == AddDays(MondayOnOrBefore(d), 7)
    ensures MondayOnOrBefore(AddDays(d, -7)) == AddDays(MondayOnOrBefore(d), -7)
  {
    AddDaysCompose(d, 7, -7);
    MondayShiftsByWeeks(d, 7);
    MondayShiftsByWeeks(d, -7);
  }

  /** Month navigation is not reversible from a day the next month lacks: 31 January goes forward to 3 March 2025, and back from there to 3 February. */
  lemma MonthNavigationOverflows()
    ensures JsSetMonth(Date(2025, 1, 31), 1) == Date(2025, 3, 3)
    ensures JsSetMonth(Date(2025, 3, 3), 1) == Date(2025, 2, 3)
  {
    JsSetMonthOverflow(Date(2025, 1, 31), 1);
    JsSetMonthKeepsDay(Date(2025, 3, 3), 1);
  }

  /** The figures of `calculateStats()`. */
  datatype PeriodStats = PeriodStats(
    totalEntries: nat,
    totalHours: real,
    totalRevenue: real,
    totalCost: real,
    totalMargin: real,
    marginPercentage: real)

  /**
   * `calculateStats()`: revenue is each entry's client price
   * (`client_cost || override_cost || calculated_cost`), cost its calculated
   * cost, the margin their difference, and the percentage the margin's share
   * of a positive revenue (0 otherwise).
   */
  function CalculateStats(entries: seq<WorkEntry>): (r: PeriodStats)
    ensures r.totalEntries == |entries|
    ensures r.totalMargin == r.totalRevenue - r.totalCost
    ensures r.totalRevenue > 0.0 ==> r.marginPercentage * r.totalRevenue == 100.0 * r.totalMargin
    ensures r.totalRevenue <= 0.0 ==> r.marginPercentage == 0.0
  {
    var revenue := Sum(entries, EntryRevenue);
    var cost := Sum(entries, EntryCalculatedCost);
    var margin := revenue - cost;
    PeriodStats(|entries|, Sum(entries, EntryHours), revenue, cost, margin,
                if revenue > 0.0 then Share(margin, revenue) else 0.0)
  }

  /** The period's totals are additive: the stats of two batches of entries add up to the stats of both. */
  lemma StatsAdditive(a: seq<WorkEntry>, b: seq<WorkEntry>)
    ensures var s, sa, sb := CalculateStats(a + b), CalculateStats(a), CalculateStats(b);
      s.totalEntries == sa.totalEntries + sb.totalEntries
      && s.totalHours == sa.totalHours + sb.totalHours
      && s.totalRevenue == sa.totalRevenue + sb.totalRevenue
      && s.totalCost == sa.totalCost + sb.totalCost
      && s.totalMargin == sa.totalMargin + sb.totalMargin
  {
    SumAppend(a, b, EntryHours);
    SumAppend(a, b, EntryRevenue);
    SumAppend(a, b, EntryCalculatedCost);
  }

  predicate PricedAtCost(e: WorkEntry) {
    EntryCalculatedCost(e) <= EntryRevenue(e)
  }

  /** When no entry is billed below its calculated cost, the margin is non-negative and, on positive revenue, at most 100%. */
  lemma {:induction false} MarginBounded(entries: seq<WorkEntry>)
    requires forall i :: 0 <= i < |entries| ==> PricedAtCost(entries[i])
    requires forall i :: 0 <= i < |entries| ==> entries[i].calculatedCost >= 0.0
    ensures var s := CalculateStats(entries);
      s.totalMargin >= 0.0 && (s.totalRevenue > 0.0 ==> 0.0 <= s.marginPercentage <= 100.0)
    decreases |entries|
  {
    var s := CalculateStats(entries);
    if |entries| > 0 {
      var init, last := entries[..|entries| - 1], entries[|entries| - 1];
      assert entries == init + [last];
      MarginBounded(init);
      StatsAdditive(init, [last]);
      assert Sum([last], EntryRevenue) == EntryRevenue(last);
      assert Sum([last], EntryCalculatedCost) == EntryCalculatedCost(last);
      SumNonNegative(entries, EntryCalculatedCost);
    }
    if s.totalRevenue > 0.0 {
      ShareBounds(s.totalMargin, s.totalRevenue);
    }
  }
}
