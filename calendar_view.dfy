/**
 * The calendar view: the grid of days (one week, or six weeks around a
 * month, always starting on a Monday), the entries shown under each day, and
 * the today and current-month markers.
 */
module CalendarViewComponent {
  import opened Lists
  import opened CivilDate
  import opened JsDates
  import opened Records
  import opened DailyWorkPage

  /** The first cell: the Monday on or before the start date, or on or before the first of its month. */
  function GridStart(startDate: Date, view: CalendarView): (r: Date)
    requires ValidDate(startDate)
    ensures ValidDate(r) && Weekday(r) == 1
  {
    if view == Week then MondayOnOrBefore(startDate) else MondayOnOrBefore(FirstOfMonth(startDate))
  }

  /** Seven cells for a week, forty-two (six weeks) for a month. */
  function GridLength(view: CalendarView): nat {
    if view == Week then 7 else 42
  }

  /**
   * `getDaysInView()`: moves a mutable date back to the grid's Monday, then
   * pushes a copy of it and steps it one day on, as many times as the grid has
   * cells.  Both branches of the source run the same loop; it is written once,
   * as `FillGrid`.
   */
  method GetDaysInView(startDate: Date, view: CalendarView) returns (days: seq<Date>)
    requires ValidDate(startDate)
    ensures |days| == GridLength(view)
    ensures forall i :: 0 <= i < |days| ==> days[i] == AddDays(GridStart(startDate, view), i)
  {
    var currentDate := MoveToGridStart(startDate, view);
    days := FillGrid(currentDate, if view == Week then 7 else 42);
  }

  /** The set-up half of `getDaysInView()`: a fresh date on the grid's first cell. */
  method MoveToGridStart(startDate: Date, view: CalendarView) returns (currentDate: JsDate)
    requires ValidDate(startDate)
    ensures fresh(currentDate) && currentDate.Valid()
    ensures currentDate.value == GridStart(startDate, view)
  {
    currentDate := new JsDate(startDate);
    if view == Week {
      var dayOfWeek := currentDate.GetDay();
      var diff := if dayOfWeek == 0 then -6 else 1 - dayOfWeek;
      var n := currentDate.GetDate() + diff;
      WeekStartStep(startDate, n);
      currentDate.SetDate(n);
    } else {
      var y, m0 := currentDate.GetFullYear(), currentDate.GetMonth();
      assert m0 / 12 == 0 && m0 % 12 == m0;
      JsNewDateInMonth(y, m0, 1);
      var first := JsNewDate(y, m0, 1);
      assert first == FirstOfMonth(startDate);
      currentDate := new JsDate(first);
      var firstDayOfWeek := currentDate.GetDay();
      var startOffset := if firstDayOfWeek == 0 then -6 else 1 - firstDayOfWeek;
      var n := currentDate.GetDate() + startOffset;
      WeekStartStep(first, n);
      currentDate.SetDate(n);
    }
  }

  /** The loop of `getDaysInView()`: `count` consecutive days from the date's current value, leaving the date one past the last. */
  method FillGrid(currentDate: JsDate, count: nat) returns (days: seq<Date>)
    requires currentDate.Valid()
    modifies currentDate
    ensures |days| == count
    ensures forall j :: 0 <= j < count ==> days[j] == AddDays(old(currentDate.value), j)
    ensures currentDate.Valid() && currentDate.value == AddDays(old(currentDate.value), count)
  {
    var gridStart := currentDate.value;
    var cell := j => DayAfter(gridStart, j);
    days := [];
    var i := 0;
    while i < count
      invariant 0 <= i <= count
      invariant currentDate.Valid() && currentDate.value == AddDays(gridStart, i)
      invariant days == Tabulate(cell, i)
    {
      assert cell(i) == DayAfter(gridStart, i) == currentDate.value;
      assert Tabulate(cell, i + 1) == Tabulate(cell, i) + [cell(i)];
      days := days + [currentDate.value];
      var next := currentDate.GetDate() + 1;
      JsSetDateRelative(currentDate.value, next, 1);
      AddDaysStep(gridStart, i, i + 1);
      currentDate.SetDate(next);
      i := i + 1;
    }
    forall j | 0 <= j < count
      ensures days[j] == AddDays(gridStart, j)
    {
      TabulateAt(cell, count, j);
      assert cell(j) == DayAfter(gridStart, j);
    }
  }

  /** `AddDays` made total, for use as a cell function. */
  function DayAfter(start: Date, j: int): Date {
    if ValidDate(start) then AddDays(start, j) else start
  }

  /** The values of `f` at `0 .. n - 1`. */
  function Tabulate<T>(f: int -> T, n: nat): (r: seq<T>)
    ensures |r| == n
  {
    if n == 0 then [] else Tabulate(f, n - 1) + [f(n - 1)]
  }

  lemma {:induction false} TabulateAt<T>(f: int -> T, n: nat, j: nat)
    requires j < n
    ensures Tabulate(f, n)[j] == f(j)
  {
    if j < n - 1 {
      TabulateAt(f, n - 1, j);
    }
  }

  lemma AddDaysStep(d: Date, i: int, i': int)
    requires ValidDate(d) && i' == i + 1
    ensures AddDays(AddDays(d, i), 1) == AddDays(d, i')
  {
    DayNumberOrder(AddDays(AddDays(d, i), 1), AddDays(d, i'));
  }

  /** The cells line up under the `Mon` … `Sun` headers: cell `i` falls on weekday `(i + 1) % 7` in `getDay()` numbering. */
  lemma GridColumns(startDate: Date, view: CalendarView, i: nat)
    requires ValidDate(startDate)
    ensures Weekday(AddDays(GridStart(startDate, view), i)) == (i + 1) % 7
  {
    WeekdayAddDays(GridStart(startDate, view), i);
  }

  /** The week grid holds the start date. */
  lemma WeekGridHoldsStart(startDate: Date)
    requires ValidDate(startDate)
    ensures exists j :: 0 <= j < GridLength(Week) && AddDays(GridStart(startDate, Week), j) == startDate
  {
    var g := GridStart(startDate, Week);
    var j := DayNumber(startDate) - DayNumber(g);
    DayNumberOrder(AddDays(g, j), startDate);
  }

  /** Every day of the start date's month has a cell in the month grid: the grid starts at most six days before the first. */
  lemma MonthGridCoversMonth(startDate: Date, k: int)
    requires ValidDate(startDate) && 1 <= k <= DaysInMonth(startDate.year, startDate.month)
    ensures exists j :: 0 <= j < GridLength(Month) && AddDays(GridStart(startDate, Month), j) == Date(startDate.year, startDate.month, k)
  {
    var g := GridStart(startDate, Month);
    var day := Date(startDate.year, startDate.month, k);
    var first := FirstOfMonth(startDate);
    assert DayNumber(day) == DayNumber(first) + k - 1;
    var j := DayNumber(day) - DayNumber(g);
    DayNumberOrder(AddDays(g, j), day);
  }

  predicate OnDay(e: WorkEntry, date: Date) { e.date == date }

  /** `getEntriesForDate(date)`: the entries dated that day, in the order given. */
  function EntriesForDate(entries: seq<WorkEntry>, date: Date): (r: seq<WorkEntry>)
    ensures forall e :: e in r <==> e in entries && e.date == date
    ensures SubsequenceOf(r, entries)
  {
    FilterSpec(entries, e => OnDay(e, date));
    FilterIsSubsequence(entries, e => OnDay(e, date));
    Filter(entries, e => OnDay(e, date))
  }

  /** `isToday(date)`: day, month and year all agree with today's, which is plain date equality, so a grid marks only today's own cell. */
  function IsToday(date: Date, today: Date): (r: bool)
    ensures r <==> date == today
  {
    date.day == today.day && date.month == today.month && date.year == today.year
  }

  /** `isInCurrentMonth(date)`: only the month index is compared with the start date's; within one year that is the same-month test. */
  function IsInCurrentMonth(date: Date, startDate: Date): (r: bool)
    ensures ValidDate(date) && ValidDate(startDate) && date.year == startDate.year ==>
      (r <==> FirstOfMonth(date) == FirstOfMonth(startDate))
  {
    date.month == startDate.month
  }

  /** A cell is dimmed in the month view when it lies outside the current month, and never in the week view. */
  function Dimmed(date: Date, startDate: Date, view: CalendarView): (r: bool)
    ensures view == Week ==> !r
    ensures r ==> date.month != startDate.month
  {
    !IsInCurrentMonth(date, startDate) && view == Month
  }

  /** In the month grid the dimmed cells are exactly those outside the start date's month. */
  lemma DimmedCellsExact(startDate: Date, j: int)
    requires ValidDate(startDate) && 0 <= j < GridLength(Month)
    ensures var cell := AddDays(GridStart(startDate, Month), j);
      Dimmed(cell, startDate, Month) <==> !(cell.year == startDate.year && cell.month == startDate.month)
  {
    MonthGridCurrentMonthExact(startDate, j);
  }

  /** The comparison ignores the year: the same month a year later counts as current. */
  lemma CurrentMonthIgnoresYear(startDate: Date)
    ensures IsInCurrentMonth(startDate.(year := startDate.year + 1), startDate)
  {
  }

  /**
   * Within the month grid the year never matters: the grid spans 42 days
   * around one month, so a cell with the start date's month index is in the
   * start date's very month.
   */
  lemma MonthGridCurrentMonthExact(startDate: Date, j: int)
    requires ValidDate(startDate) && 0 <= j < GridLength(Month)
    ensures var cell := AddDays(GridStart(startDate, Month), j);
      IsInCurrentMonth(cell, startDate) <==> cell.year == startDate.year && cell.month == startDate.month
  {
    var g := GridStart(startDate, Month);
    var cell := AddDays(g, j);
    var first := FirstOfMonth(startDate);
    assert g == MondayOnOrBefore(first);
    assert DayNumber(g) <= DayNumber(first) <= DayNumber(g) + 6;
    assert DayNumber(cell) == DayNumber(g) + j;
    if cell.month == startDate.month && cell.year < startDate.year {
      SameMonthYearsApart(cell, first);
      assert false;
    } else if cell.month == startDate.month && cell.year > startDate.year {
      SameMonthYearsApart(first, cell);
      assert false;
    }
  }
}
