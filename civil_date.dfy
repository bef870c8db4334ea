/**
 * Calendar dates as the dashboard uses them: ISO `YYYY-MM-DD` strings in the
 * database and JavaScript `Date` objects in the pages. A date is a civil
 * (year, month, day) triple of the proleptic Gregorian calendar; `DayNumber`
 * counts days since 0000-01-01, and weeks run from Monday to Sunday.
 */
module CivilDate {

  datatype Date = Date(year: int, month: int, day: int)

  predicate IsLeapYear(y: int) {
    y % 4 == 0 && (y % 100 != 0 || y % 400 == 0)
  }

  function DaysInMonth(y: int, m: int): (n: int)
    requires 1 <= m <= 12
    ensures 28 <= n <= 31
  {
    if m == 2 then (if IsLeapYear(y) then 29 else 28)
    else if m == 4 || m == 6 || m == 9 || m == 11 then 30
    else 31
  }

  function DaysInYear(y: int): int {
    if IsLeapYear(y) then 366 else 365
  }

  /** A real calendar day. */
  predicate ValidDate(d: Date) {
    1 <= d.month <= 12 && 1 <= d.day <= DaysInMonth(d.year, d.month)
  }

  /** Days from 0000-01-01 to the first of January of year `y` (negative before year 0). */
  function DaysBeforeYear(y: int): int {
    365 * y + (y + 3) / 4 - (y + 99) / 100 + (y + 399) / 400
  }

  /** Days from the first of January to the first of month `m` of year `y`. */
  function DaysBeforeMonth(y: int, m: int): (n: int)
    requires 1 <= m <= 12
    ensures 28 * (m - 1) <= n <= 31 * (m - 1)
  {
    if m == 1 then 0 else DaysBeforeMonth(y, m - 1) + DaysInMonth(y, m - 1)
  }

  function DayNumber(d: Date): int
    requires ValidDate(d)
  {
    DaysBeforeYear(d.year) + DaysBeforeMonth(d.year, d.month) + d.day - 1
  }

  lemma YearLength(y: int)
    ensures DaysBeforeYear(y + 1) == DaysBeforeYear(y) + DaysInYear(y)
  {
    var a, b, c := StepDiv4(y), StepDiv100(y), StepDiv400(y);
    assert DaysBeforeYear(y + 1) - DaysBeforeYear(y) == 365 + a - b + c;
    if y % 400 == 0 {
      Divides400(y);
      Divides100(y);
    } else if y % 100 == 0 {
      Divides100(y);
    } else if y % 4 == 0 {
    } else {
    }
  }

  lemma Divides100(y: int)
    requires y % 100 == 0
    ensures y % 4 == 0
  {
    var q := y / 100;
    assert y == 4 * (25 * q);
  }

  lemma Divides400(y: int)
    requires y % 400 == 0
    ensures y % 100 == 0
  {
    var q := y / 400;
    assert y == 100 * (4 * q);
  }

  /** Moving to the next year adds one to the leap-day count of each period exactly when the year starts a period. */
  function StepDiv4(y: int): (r: int)
    ensures r == (y + 4) / 4 - (y + 3) / 4
    ensures r == if y % 4 == 0 then 1 else 0
  {
    if y % 4 == 0 then 1 else 0
  }

  function StepDiv100(y: int): (r: int)
    ensures r == (y + 100) / 100 - (y + 99) / 100
    ensures r == if y % 100 == 0 then 1 else 0
  {
    if y % 100 == 0 then 1 else 0
  }

  function StepDiv400(y: int): (r: int)
    ensures r == (y + 400) / 400 - (y + 399) / 400
    ensures r == if y % 400 == 0 then 1 else 0
  {
    if y % 400 == 0 then 1 else 0
  }

  /** The months before `m`, together with `m` itself, fit before any later month. */
  lemma {:induction false} MonthsBefore(y: int, m: int, m': int)
    requires 1 <= m < m' <= 12
    ensures DaysBeforeMonth(y, m) + DaysInMonth(y, m) <= DaysBeforeMonth(y, m')
    decreases m'
  {
    if m' > m + 1 {
      MonthsBefore(y, m, m' - 1);
    }
  }

  /** December closes the year. */
  lemma MonthsFillYear(y: int)
    ensures DaysBeforeMonth(y, 12) + DaysInMonth(y, 12) == DaysInYear(y)
  {
    var leap := if IsLeapYear(y) then 1 else 0;
    assert DaysBeforeMonth(y, 2) == 31;
    assert DaysBeforeMonth(y, 3) == 59 + leap;
    assert DaysBeforeMonth(y, 4) == 90 + leap;
    assert DaysBeforeMonth(y, 5) == 120 + leap;
    assert DaysBeforeMonth(y, 6) == 151 + leap;
    assert DaysBeforeMonth(y, 7) == 181 + leap;
    assert DaysBeforeMonth(y, 8) == 212 + leap;
    assert DaysBeforeMonth(y, 9) == 243 + leap;
    assert DaysBeforeMonth(y, 10) == 273 + leap;
    assert DaysBeforeMonth(y, 11) == 304 + leap;
    assert DaysBeforeMonth(y, 12) == 334 + leap;
  }

  lemma {:induction false} YearsBefore(y: int, y': int)
    requires y < y'
    ensures DaysBeforeYear(y) + DaysInYear(y) <= DaysBeforeYear(y')
    decreases y' - y
  {
    YearLength(y);
    if y' > y + 1 {
      YearsBefore(y + 1, y');
      YearLength(y + 1);
    }
  }

  /** A date's day number lies within its own year's span. */
  lemma DayNumberInYear(d: Date)
    requires ValidDate(d)
    ensures DaysBeforeYear(d.year) <= DayNumber(d) < DaysBeforeYear(d.year) + DaysInYear(d.year)
  {
    if d.month < 12 {
      MonthsBefore(d.year, d.month, 12);
    }
    MonthsFillYear(d.year);
  }

  /** Chronological order, which is also the order of the ISO `YYYY-MM-DD` strings for four-digit years. */
  predicate Before(a: Date, b: Date) {
    a.year < b.year
    || (a.year == b.year && a.month < b.month)
    || (a.year == b.year && a.month == b.month && a.day < b.day)
  }

  predicate OnOrBefore(a: Date, b: Date) {
    a == b || Before(a, b)
  }

  /** `d >= lo && d <= hi` on ISO date strings. */
  predicate InRange(d: Date, lo: Date, hi: Date) {
    OnOrBefore(lo, d) && OnOrBefore(d, hi)
  }

  lemma DayNumberStrictlyMonotone(a: Date, b: Date)
    requires ValidDate(a) && ValidDate(b)
    requires Before(a, b)
    ensures DayNumber(a) < DayNumber(b)
  {
    if a.year < b.year {
      DayNumberInYear(a);
      DayNumberInYear(b);
      YearsBefore(a.year, b.year);
    } else if a.month < b.month {
      MonthsBefore(a.year, a.month, b.month);
    }
  }

  /** The day number tells dates apart and orders them as the calendar does. */
  lemma DayNumberOrder(a: Date, b: Date)
    requires ValidDate(a) && ValidDate(b)
    ensures DayNumber(a) == DayNumber(b) <==> a == b
    ensures DayNumber(a) < DayNumber(b) <==> Before(a, b)
  {
    if Before(a, b) {
      DayNumberStrictlyMonotone(a, b);
    } else if Before(b, a) {
      DayNumberStrictlyMonotone(b, a);
    }
  }

  lemma OnOrBeforeByDayNumber(a: Date, b: Date)
    requires ValidDate(a) && ValidDate(b)
    ensures OnOrBefore(a, b) <==> DayNumber(a) <= DayNumber(b)
  {
    DayNumberOrder(a, b);
  }

  function NextDay(d: Date): (r: Date)
    requires ValidDate(d)
    ensures ValidDate(r) && DayNumber(r) == DayNumber(d) + 1
  {
    if d.day < DaysInMonth(d.year, d.month) then Date(d.year, d.month, d.day + 1)
    else if d.month < 12 then Date(d.year, d.month + 1, 1)
    else
      MonthsFillYear(d.year);
      YearLength(d.year);
      Date(d.year + 1, 1, 1)
  }

  function PrevDay(d: Date): (r: Date)
    requires ValidDate(d)
    ensures ValidDate(r) && DayNumber(r) == DayNumber(d) - 1
  {
    if d.day > 1 then Date(d.year, d.month, d.day - 1)
    else if d.month > 1 then Date(d.year, d.month - 1, DaysInMonth(d.year, d.month - 1))
    else
      MonthsFillYear(d.year - 1);
      YearLength(d.year - 1);
      Date(d.year - 1, 12, 31)
  }

  /** The date `k` days after `d` (before it when `k` is negative). */
  function AddDays(d: Date, k: int): (r: Date)
    requires ValidDate(d)
    ensures ValidDate(r) && DayNumber(r) == DayNumber(d) + k
    decreases if k >= 0 then k else -k
  {
    if k == 0 then d
    else if k > 0 then AddDays(NextDay(d), k - 1)
    else AddDays(PrevDay(d), k + 1)
  }

  lemma AddDaysCompose(d: Date, j: int, k: int)
    requires ValidDate(d)
    ensures AddDays(AddDays(d, j), k) == AddDays(d, j + k)
  {
    DayNumberOrder(AddDays(AddDays(d, j), k), AddDays(d, j + k));
  }

  /** JavaScript `getDay()`: 0 is Sunday, 1 Monday, up to 6 Saturday (0000-01-01 was a Saturday). */
  function Weekday(d: Date): (w: int)
    requires ValidDate(d)
    ensures 0 <= w < 7
  {
    (DayNumber(d) + 6) % 7
  }

  lemma WeekdayAddDays(d: Date, k: int)
    requires ValidDate(d)
    ensures Weekday(AddDays(d, k)) == (Weekday(d) + k) % 7
  {
    var n := DayNumber(d) + 6;
    assert DayNumber(AddDays(d, k)) + 6 == n + k;
    ShiftMod7(n, k);
  }

  lemma ShiftMod7(n: int, k: int)
    ensures (n + k) % 7 == (n % 7 + k) % 7
  {
    var q := n / 7;
    assert n + k == 7 * q + (n % 7 + k);
  }

  function FirstOfMonth(d: Date): (r: Date)
    requires ValidDate(d)
    ensures ValidDate(r) && r.year == d.year && r.month == d.month && r.day == 1
  {
    Date(d.year, d.month, 1)
  }

  function LastOfMonth(d: Date): (r: Date)
    requires ValidDate(d)
    ensures ValidDate(r) && r.year == d.year && r.month == d.month
    ensures r.day == DaysInMonth(d.year, d.month)
  {
    Date(d.year, d.month, DaysInMonth(d.year, d.month))
  }

  /** The Monday of the (Monday-first) week holding `d`: Sunday goes back six days. */
  function MondayOnOrBefore(d: Date): (r: Date)
    requires ValidDate(d)
    ensures ValidDate(r) && Weekday(r) == 1
    ensures DayNumber(r) <= DayNumber(d) <= DayNumber(r) + 6
  {
    var diff := MondayOffset(Weekday(d));
    WeekdayAddDays(d, diff);
    AddDays(d, diff)
  }

  /** `dayOfWeek === 0 ? -6 : 1 - dayOfWeek`: the step back to Monday from a `getDay()` value. */
  function MondayOffset(w: int): (diff: int)
    requires 0 <= w < 7
    ensures -6 <= diff <= 0 && (w + diff) % 7 == 1
  {
    if w == 0 then -6 else 1 - w
  }

  /** Day `day` of month `(y, m)` counted on from its first, so that it may fall outside the month. */
  function FromFirst(y: int, m: int, day: int): Date
    requires 1 <= m <= 12
  {
    AddDays(Date(y, m, 1), day - 1)
  }

  /** Counting on from the first of a month stays in that month while the count fits. */
  lemma AddDaysWithinMonth(y: int, m: int, n: int)
    requires 1 <= m <= 12 && 1 <= n <= DaysInMonth(y, m)
    ensures FromFirst(y, m, n) == Date(y, m, n)
  {
    DayNumberOrder(AddDays(Date(y, m, 1), n - 1), Date(y, m, n));
  }

  /** The day `day - DaysInMonth(y, m)` of the month after `(y, m)`, where a day past the end of that month lands. */
  function MonthOverflow(y: int, m: int, day: int): Date
    requires 1 <= m <= 12
  {
    var k := day - DaysInMonth(y, m);
    if m == 12 then Date(y + 1, 1, k) else Date(y, m + 1, k)
  }

  /** Counting on from the first of a month past its last day runs into the first days of the next month. */
  lemma OverflowFromFirst(y: int, m: int, day: int)
    requires 1 <= m <= 12 && DaysInMonth(y, m) < day <= 31
    ensures FromFirst(y, m, day) == MonthOverflow(y, m, day)
  {
    var n := DaysInMonth(y, m);
    var k := day - n;
    var first, last := Date(y, m, 1), Date(y, m, n);
    var target := MonthOverflow(y, m, day);
    var next := NextDay(last);
    assert next == FirstOfMonth(target);
    assert DayNumber(last) == DayNumber(first) + n - 1;
    assert DayNumber(target) == DayNumber(next) + k - 1;
    var r := AddDays(first, day - 1);
    assert DayNumber(r) == DayNumber(target);
    DayNumberOrder(r, target);
  }

  /** Moving a date by whole weeks moves the Monday of its week by as many days. */
  lemma MondayShiftsByWeeks(d: Date, k: int)
    requires ValidDate(d) && k % 7 == 0
    ensures MondayOnOrBefore(AddDays(d, k)) == AddDays(MondayOnOrBefore(d), k)
  {
    var e := AddDays(d, k);
    WeekdayAddDays(d, k);
    WholeWeeks(Weekday(d), k);
    assert Weekday(e) == Weekday(d);
    var off := MondayOffset(Weekday(d));
    MondayDayNumber(d);
    MondayDayNumber(e);
    var lhs, rhs := MondayOnOrBefore(e), AddDays(MondayOnOrBefore(d), k);
    assert DayNumber(lhs) == DayNumber(d) + k + off;
    assert DayNumber(rhs) == DayNumber(d) + off + k;
    DayNumberOrder(lhs, rhs);
  }

  lemma MondayDayNumber(d: Date)
    requires ValidDate(d)
    ensures DayNumber(MondayOnOrBefore(d)) == DayNumber(d) + MondayOffset(Weekday(d))
  {
  }

  lemma WholeWeeks(w: int, k: int)
    requires 0 <= w < 7 && k % 7 == 0
    ensures (w + k) % 7 == w
  {
    assert w + k == 7 * (k / 7) + w;
  }

  /** The week from the Monday on or before `d` to six days later holds `d` and ends on a Sunday. */
  lemma WeekBounds(d: Date)
    requires ValidDate(d)
    ensures var s := MondayOnOrBefore(d);
      var e := AddDays(s, 6);
      OnOrBefore(s, d) && OnOrBefore(d, e) && Weekday(s) == 1 && Weekday(e) == 0
  {
    var s := MondayOnOrBefore(d);
    SundayAfterMonday(s);
    OnOrBeforeByDayNumber(s, d);
    OnOrBeforeByDayNumber(d, AddDays(s, 6));
  }

  lemma SundayAfterMonday(s: Date)
    requires ValidDate(s) && Weekday(s) == 1
    ensures Weekday(AddDays(s, 6)) == 0
  {
    var w := Weekday(s);
    WeekdayAddDays(s, 6);
    assert Weekday(AddDays(s, 6)) == (w + 6) % 7;
  }

  /** The same month of two different years lies more than 300 days apart. */
  lemma SameMonthYearsApart(a: Date, b: Date)
    requires ValidDate(a) && ValidDate(b) && a.month == b.month && a.year < b.year
    ensures DayNumber(b) - DayNumber(a) > 300
  {
    YearsBefore(a.year, b.year);
    assert DayNumber(a) <= DaysBeforeYear(a.year) + 31 * (a.month - 1) + 30;
    assert DayNumber(b) >= DaysBeforeYear(b.year) + 28 * (b.month - 1);
  }
}
