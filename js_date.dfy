/**
 * JavaScript `Date` arithmetic on calendar days: `setDate` and `setMonth`
 * accept out-of-range values and normalise them, and `new Date(y, m0, d)`
 * does the same for a 0-based month index. `JsDate` is a mutable `Date`
 * object reduced to the day it holds.
 */
module JsDates {
  import opened CivilDate

  /** `date.setDate(n)`: day `n` of the same month, counted on from the first so that 0 is the previous month's last day and overflow runs into later months. */
  function JsSetDate(d: Date, n: int): (r: Date)
    requires ValidDate(d)
    ensures ValidDate(r)
    ensures DayNumber(r) == DayNumber(FirstOfMonth(d)) + n - 1
  {
    AddDays(FirstOfMonth(d), n - 1)
  }

  /** `new Date(y, m0, d)`: the month index and the day may lie outside their ranges and are normalised as `setMonth` and `setDate` do. */
  function JsNewDate(y: int, m0: int, d: int): (r: Date)
    ensures ValidDate(r)
  {
    AddDays(Date(y + m0 / 12, m0 % 12 + 1, 1), d - 1)
  }

  /** `date.setMonth(m0)` with a 0-based month that may lie outside 0..11: the year absorbs whole years and the day of the month is kept, overflowing into the following month when that month is shorter. */
  function JsSetMonth(d: Date, m0: int): (r: Date)
    requires ValidDate(d)
    ensures ValidDate(r)
  {
    JsNewDate(d.year, m0, d.day)
  }

  /** A day inside the month is reached as written. */
  lemma JsSetDateInMonth(d: Date, n: int)
    requires ValidDate(d) && 1 <= n <= DaysInMonth(d.year, d.month)
    ensures JsSetDate(d, n) == Date(d.year, d.month, n)
  {
    AddDaysWithinMonth(d.year, d.month, n);
  }

  /** `setDate(0)` is the last day of the month before. */
  lemma JsSetDateZero(d: Date)
    requires ValidDate(d)
    ensures JsSetDate(d, 0) == PrevDay(FirstOfMonth(d))
    ensures var r := JsSetDate(d, 0); r.day == DaysInMonth(r.year, r.month)
  {
    DayNumberOrder(JsSetDate(d, 0), PrevDay(FirstOfMonth(d)));
  }

  /** `setDate(getDate() + k)` moves the date by `k` days. */
  lemma JsSetDateRelative(d: Date, n: int, k: int)
    requires ValidDate(d) && n == d.day + k
    ensures JsSetDate(d, n) == AddDays(d, k)
  {
    DayNumberOrder(JsSetDate(d, n), AddDays(d, k));
  }

  /** `setMonth(m0)` lands in the normalised month, on the same day when that month is long enough. */
  lemma JsSetMonthKeepsDay(d: Date, m0: int)
    requires ValidDate(d)
    requires d.day <= DaysInMonth(d.year + m0 / 12, m0 % 12 + 1)
    ensures JsSetMonth(d, m0) == Date(d.year + m0 / 12, m0 % 12 + 1, d.day)
  {
    JsNewDateInMonth(d.year, m0, d.day);
  }

  /** `new Date(y, m0, n)` with a day that fits the normalised month is that very day. */
  lemma JsNewDateInMonth(y: int, m0: int, n: int)
    requires 1 <= n <= DaysInMonth(y + m0 / 12, m0 % 12 + 1)
    ensures JsNewDate(y, m0, n) == Date(y + m0 / 12, m0 % 12 + 1, n)
  {
    var yy, mm := y + m0 / 12, m0 % 12 + 1;
    calc {
      JsNewDate(y, m0, n);
    == { JsNewDateFromFirst(y, m0, n); }
      FromFirst(yy, mm, n);
    == { AddDaysWithinMonth(yy, mm, n); }
      Date(yy, mm, n);
    }
  }

  /** `new Date(y, m0 + 1, 0)` is the last day of the normalised month `m0`. */
  lemma JsNewDateLast(y: int, m0: int)
    ensures var yy, mm := y + m0 / 12, m0 % 12 + 1;
      JsNewDate(y, m0 + 1, 0) == Date(yy, mm, DaysInMonth(yy, mm))
  {
    var yy, mm := y + m0 / 12, m0 % 12 + 1;
    var last := Date(yy, mm, DaysInMonth(yy, mm));
    var next := Date(y + (m0 + 1) / 12, (m0 + 1) % 12 + 1, 1);
    if mm < 12 {
      assert (m0 + 1) / 12 == m0 / 12 && (m0 + 1) % 12 == m0 % 12 + 1;
      assert PrevDay(next) == last;
    } else {
      assert (m0 + 1) / 12 == m0 / 12 + 1 && (m0 + 1) % 12 == 0;
      assert PrevDay(next) == last;
    }
    DayNumberOrder(JsNewDate(y, m0 + 1, 0), last);
  }

  /** `new Date(y, m, 1)` and `new Date(y, m + 1, 0)` for today's 0-based month `m`: the first and last day of the month. */
  lemma CurrentMonthBounds(today: Date)
    requires ValidDate(today)
    ensures JsNewDate(today.year, today.month - 1, 1) == FirstOfMonth(today)
    ensures JsNewDate(today.year, today.month, 0) == LastOfMonth(today)
  {
    var m0 := today.month - 1;
    assert m0 / 12 == 0 && m0 % 12 == m0;
    JsNewDateInMonth(today.year, m0, 1);
    JsNewDateLast(today.year, m0);
  }

  /** `new Date(y, m - 1, 1)` and `new Date(y, m, 0)` for today's 0-based month `m`: last month's first day, and the day before this month's first. */
  lemma PreviousMonthBounds(today: Date)
    requires ValidDate(today)
    ensures var last := PrevDay(FirstOfMonth(today));
      JsNewDate(today.year, today.month - 2, 1) == FirstOfMonth(last)
      && JsNewDate(today.year, today.month - 1, 0) == last
  {
    DayBeforeMonth(today);
    if today.month == 1 {
      NewDateDecember(today.year);
    } else {
      NewDateEarlierMonth(today.year, today.month - 1);
    }
  }

  lemma NewDateDecember(y: int)
    ensures JsNewDate(y, -1, 1) == Date(y - 1, 12, 1)
  {
    assert -1 / 12 == -1 && -1 % 12 == 11;
    JsNewDateInMonth(y, -1, 1);
  }

  lemma NewDateEarlierMonth(y: int, m: int)
    requires 1 <= m <= 11
    ensures JsNewDate(y, m - 1, 1) == Date(y, m, 1)
  {
    assert (m - 1) / 12 == 0 && (m - 1) % 12 == m - 1;
    JsNewDateInMonth(y, m - 1, 1);
  }

  lemma DayBeforeMonth(today: Date)
    requires ValidDate(today)
    ensures JsNewDate(today.year, today.month - 1, 0) == PrevDay(FirstOfMonth(today))
  {
    var m0 := today.month - 1;
    assert m0 / 12 == 0 && m0 % 12 == m0;
    DayNumberOrder(JsNewDate(today.year, m0, 0), PrevDay(FirstOfMonth(today)));
  }

  /** `setMonth(getMonth() + 1)` then `setDate(0)` on the first of a month: the last day of that month. */
  lemma NextMonthDayZero(d: Date)
    requires ValidDate(d) && d.day == 1
    ensures JsSetDate(JsSetMonth(d, d.month), 0) == LastOfMonth(d)
  {
    JsSetMonthKeepsDay(d, d.month);
    var x := JsSetMonth(d, d.month);
    DayNumberOrder(JsSetDate(x, 0), JsNewDate(d.year, d.month, 0));
    CurrentMonthBounds(d);
  }

  /** `setMonth(m0)` from a day the target month does not have runs over into the month after it. */
  lemma JsSetMonthOverflow(d: Date, m0: int)
    requires ValidDate(d)
    requires d.day > DaysInMonth(d.year + m0 / 12, m0 % 12 + 1)
    ensures JsSetMonth(d, m0) == MonthOverflow(d.year + m0 / 12, m0 % 12 + 1, d.day)
  {
    var ty, tm := d.year + m0 / 12, m0 % 12 + 1;
    calc {
      JsSetMonth(d, m0);
    == { JsSetMonthIsNewDate(d, m0); }
      JsNewDate(d.year, m0, d.day);
    == { JsNewDateFromFirst(d.year, m0, d.day); }
      FromFirst(ty, tm, d.day);
    == { OverflowFromFirst(ty, tm, d.day); }
      MonthOverflow(ty, tm, d.day);
    }
  }

  lemma JsSetMonthIsNewDate(d: Date, m0: int)
    requires ValidDate(d)
    ensures JsSetMonth(d, m0) == JsNewDate(d.year, m0, d.day)
  {
  }

  lemma JsNewDateFromFirst(y: int, m0: int, day: int)
    ensures JsNewDate(y, m0, day) == FromFirst(y + m0 / 12, m0 % 12 + 1, day)
  {
  }

  /** `new Date(y, m0, day)` lies `day - 1` days after the first of month `m0` normalised into the year. */
  lemma JsNewDateDayNumber(y: int, m0: int, day: int)
    ensures DayNumber(JsNewDate(y, m0, day)) == DayNumber(Date(y + m0 / 12, m0 % 12 + 1, 1)) + day - 1
  {
    JsNewDateFromFirst(y, m0, day);
  }

  /** `setMonth(m0)` keeps the day of the month, counted on from the first of month `m0` normalised into the year. */
  lemma JsSetMonthDayNumber(d: Date, m0: int)
    requires ValidDate(d)
    ensures DayNumber(JsSetMonth(d, m0)) == DayNumber(Date(d.year + m0 / 12, m0 % 12 + 1, 1)) + d.day - 1
  {
    calc {
      DayNumber(JsSetMonth(d, m0));
    == { JsSetMonthIsNewDate(d, m0); }
      DayNumber(JsNewDate(d.year, m0, d.day));
    == { JsNewDateDayNumber(d.year, m0, d.day); }
      DayNumber(Date(d.year + m0 / 12, m0 % 12 + 1, 1)) + d.day - 1;
    }
  }

  /** Setting the day to `getDate()` plus the step back to Monday gives the week's Monday. */
  lemma WeekStartStep(d: Date, n: int)
    requires ValidDate(d) && n == d.day + MondayOffset(Weekday(d))
    ensures JsSetDate(d, n) == MondayOnOrBefore(d)
  {
    var off := MondayOffset(Weekday(d));
    assert MondayOnOrBefore(d) == AddDays(d, off);
    JsSetDateRelative(d, n, off);
  }

  /** A mutable JavaScript `Date` reduced to its calendar day. */
  class JsDate {
    var value: Date

    ghost predicate Valid()
      reads this
    {
      ValidDate(value)
    }

    /** `new Date(d)`: an independent copy. */
    constructor (d: Date)
      requires ValidDate(d)
      ensures Valid() && value == d
    {
      value := d;
    }

    /** `getDate()`. */
    function GetDate(): int
      reads this
    {
      value.day
    }

    /** `getMonth()`: 0-based. */
    function GetMonth(): int
      reads this
    {
      value.month - 1
    }

    function GetFullYear(): int
      reads this
    {
      value.year
    }

    /** `getDay()`. */
    function GetDay(): (w: int)
      reads this
      requires Valid()
      ensures 0 <= w < 7
    {
      Weekday(value)
    }

    method SetDate(n: int)
      requires Valid()
      modifies this
      ensures Valid() && value == JsSetDate(old(value), n)
    {
      value := JsSetDate(value, n);
    }

    method SetMonth(m0: int)
      requires Valid()
      modifies this
      ensures Valid() && value == JsSetMonth(old(value), m0)
    {
      value := JsSetMonth(value, m0);
    }
  }
}
