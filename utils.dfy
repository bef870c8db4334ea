/**
 * The generic helpers of the shared utility module: an hours figure as
 * `<h>h <m>m` text, a day rate spread over the hours of a day, and a cost
 * with a percentage margin on top.
 */
module Utils {
  import opened Money
  import opened Text

  /** `Math.floor(hours)`. */
  function WholeHours(hours: real): (h: int)
    ensures h as real <= hours < h as real + 1.0
  {
    hours.Floor
  }

  /** `Math.round((hours - wholeHours) * 60)`: the minutes of the fractional hour, which can round up to a full 60. */
  function Minutes(hours: real): (m: int)
    ensures 0 <= m <= 60
    ensures m as real - 0.5 <= (hours - WholeHours(hours) as real) * 60.0 < m as real + 0.5
  {
    var fraction := hours - WholeHours(hours) as real;
    assert 0.0 <= fraction * 60.0 < 60.0;
    JsRound(fraction * 60.0)
  }

  /** `formatTime(hours)`: `<h>h` when the minutes round to 0, else `<h>h <m>m`. */
  function FormatTime(hours: real): (r: string)
    ensures Minutes(hours) == 0 ==> r == IntToString(WholeHours(hours)) + "h"
    ensures Minutes(hours) != 0 ==>
      r == IntToString(WholeHours(hours)) + "h " + NatToString(Minutes(hours)) + "m"
  {
    var h := IntToString(WholeHours(hours));
    var m := Minutes(hours);
    if m == 0 then h + "h" else h + "h " + NatToString(m) + "m"
  }

  /** The text ends in `m` exactly when some minutes are shown, and a whole number of hours shows no minutes. */
  lemma FormatTimeShape(hours: real)
    ensures var r := FormatTime(hours);
      r[|r| - 1] == (if Minutes(hours) == 0 then 'h' else 'm')
    ensures hours == hours.Floor as real ==> FormatTime(hours) == IntToString(hours.Floor) + "h"
  {
    if hours == hours.Floor as real {
      assert (hours - WholeHours(hours) as real) * 60.0 == 0.0;
    }
  }

  /**
   * Reading the text back: the numeral before the first `h` (after a `-` for
   * negative hours) is the whole hours, and the numeral between `h ` and the
   * closing `m`, when there is one, is the minutes.
   */
  lemma FormatTimeReadsBack(hours: real)
    ensures var r := FormatTime(hours);
      var n := |IntToString(WholeHours(hours))|;
      && 0 < n < |r| && r[n] == 'h'
      && (WholeHours(hours) >= 0 ==> AllDigits(r[..n]) && ParseDigits(r[..n]) == WholeHours(hours))
      && (WholeHours(hours) < 0 ==> r[0] == '-' && AllDigits(r[1..n]) && ParseDigits(r[1..n]) == -WholeHours(hours))
      && (Minutes(hours) == 0 <==> |r| == n + 1)
      && (Minutes(hours) != 0 ==>
            |r| > n + 2 && r[n + 1] == ' ' && r[|r| - 1] == 'm'
            && AllDigits(r[n + 2..|r| - 1]) && ParseDigits(r[n + 2..|r| - 1]) == Minutes(hours))
  {
    var r := FormatTime(hours);
    var h := IntToString(WholeHours(hours));
    var n := |h|;
    assert r[..n] == h && r[n] == 'h';
    if WholeHours(hours) < 0 {
      assert r[1..n] == h[1..];
    }
    if Minutes(hours) != 0 {
      var m := NatToString(Minutes(hours));
      assert r == h + "h " + m + "m";
      assert r[n + 2..|r| - 1] == m;
      NatToStringRoundTrip(Minutes(hours));
    }
  }

  /** The rounding can reach a full hour's worth of minutes: 1.995 hours shows as `1h 60m`. */
  lemma SixtyMinutesShown()
    ensures Minutes(1.995) == 60
    ensures FormatTime(1.995) == "1h 60m"
  {
    assert WholeHours(1.995) == 1;
    assert (1.995 - 1.0) * 60.0 == 59.7;
    assert JsRound(59.7) == 60;
    assert NatToString(60) == NatToString(6) + [DigitChar(0)];
  }

  /** `calculateHourlyRate(dailyRate, hoursPerDay = 8)`: the day rate per hour. */
  function HourlyRate(dailyRate: real, hoursPerDay: real := 8.0): (r: real)
    requires hoursPerDay != 0.0
    ensures r * hoursPerDay == dailyRate
  {
    dailyRate / hoursPerDay
  }

  /** `calculateTaskCost(hoursWorked, rate, marginPercentage = 20)`: the base cost with the margin percentage added on top. */
  function TaskCost(hoursWorked: real, rate: real, marginPercentage: real := 20.0): (r: real)
    ensures r == hoursWorked * rate * (1.0 + marginPercentage / 100.0)
  {
    var baseCost := hoursWorked * rate;
    var margin := baseCost * (marginPercentage / 100.0);
    baseCost + margin
  }

  /** With the default margin the cost is 1.2 times the base cost; with no margin it is the base cost. */
  lemma TaskCostMargins(hoursWorked: real, rate: real)
    ensures TaskCost(hoursWorked, rate) == 1.2 * (hoursWorked * rate)
    ensures TaskCost(hoursWorked, rate, 0.0) == hoursWorked * rate
  {
  }

  /** A larger margin never lowers the cost of non-negative work. */
  lemma TaskCostMarginMonotonic(hoursWorked: real, rate: real, m1: real, m2: real)
    requires hoursWorked >= 0.0 && rate >= 0.0 && m1 <= m2
    ensures TaskCost(hoursWorked, rate, m1) <= TaskCost(hoursWorked, rate, m2)
  {
    var base := hoursWorked * rate;
    assert base >= 0.0;
    assert base * (m1 / 100.0) <= base * (m2 / 100.0);
  }

  /** A day's hours at the derived hourly rate, with no margin, cost the day rate. */
  lemma FullDayAtHourlyRate(dailyRate: real, hoursPerDay: real)
    requires hoursPerDay != 0.0
    ensures TaskCost(hoursPerDay, HourlyRate(dailyRate, hoursPerDay), 0.0) == dailyRate
  {
    var r := HourlyRate(dailyRate, hoursPerDay);
    assert hoursPerDay * r == dailyRate;
  }
}
