/**
 * The staff service's pay rules: a staff member's hourly rate, the labour cost
 * of a task, the pay text shown in lists, and the active-flag toggle.
 */
module StaffService {
  import opened Wrappers
  import opened Money
  import opened Lists
  import opened Text
  import opened Records

  /** The hourly rate: a day rate spread over the allocated day, an hourly rate as it stands, otherwise 0 (monthly salaries and missing or zero rates). */
  function CalculateHourlyRate(s: Staff): (r: real)
    requires WellFormedStaff(s)
    ensures s.paymentType == DailyRate && Truthy(s.dailyRate) ==> r * s.allocatedDailyHours == s.dailyRate.value
    ensures s.paymentType == HourlyRate && Truthy(s.hourlyRate) ==> r == s.hourlyRate.value
    ensures (!(s.paymentType == DailyRate && Truthy(s.dailyRate))
             && !(s.paymentType == HourlyRate && Truthy(s.hourlyRate))) ==> r == 0.0
  {
    if s.paymentType == DailyRate && Truthy(s.dailyRate) then s.dailyRate.value / s.allocatedDailyHours
    else if s.paymentType == HourlyRate && Truthy(s.hourlyRate) then s.hourlyRate.value
    else 0.0
  }

  /** The override applies only when asked for, enabled, and non-zero. */
  predicate OverrideApplies(s: Staff, useOverride: bool) {
    useOverride && s.payOverrideEnabled && Truthy(s.payOverrideAmount)
  }

  /** The labour cost of `hoursWorked` hours: the fixed override amount when it applies, else hours times rate to the nearest penny. */
  function CalculateTaskCost(hoursWorked: real, s: Staff, useOverride: bool := false): (r: real)
    requires WellFormedStaff(s)
    ensures OverrideApplies(s, useOverride) ==> r == s.payOverrideAmount.value
    ensures !OverrideApplies(s, useOverride) ==>
      IsCents(r) && hoursWorked * CalculateHourlyRate(s) - 1.0 / 200.0 < r <= hoursWorked * CalculateHourlyRate(s) + 1.0 / 200.0
  {
    if OverrideApplies(s, useOverride) then s.payOverrideAmount.value
    else RatedCost(hoursWorked, CalculateHourlyRate(s))
  }

  /** `Math.round(hours * rate * 100) / 100`: hours at an hourly rate, to the nearest penny. */
  function RatedCost(hours: real, rate: real): (r: real)
    ensures IsCents(r) && hours * rate - 1.0 / 200.0 < r <= hours * rate + 1.0 / 200.0
  {
    Round2(hours * rate)
  }

  /** More hours at a non-negative rate never cost less. */
  lemma RatedCostMonotonic(h1: real, h2: real, rate: real)
    requires h1 <= h2 && rate >= 0.0
    ensures RatedCost(h1, rate) <= RatedCost(h2, rate)
  {
    assert h1 * rate <= h2 * rate;
    Round2Monotonic(h1 * rate, h2 * rate);
  }

  /** A call without the third argument never applies the override, whatever the staff record says. */
  lemma TwoArgumentCallIgnoresOverride(hoursWorked: real, s: Staff)
    requires WellFormedStaff(s)
    ensures CalculateTaskCost(hoursWorked, s) == RatedCost(hoursWorked, CalculateHourlyRate(s))
  {
  }

  /** Without the override, no hours or no rate costs nothing. */
  lemma TaskCostZero(hoursWorked: real, s: Staff, useOverride: bool)
    requires WellFormedStaff(s)
    requires !OverrideApplies(s, useOverride)
    requires hoursWorked == 0.0 || CalculateHourlyRate(s) == 0.0
    ensures CalculateTaskCost(hoursWorked, s, useOverride) == 0.0
  {
    assert hoursWorked * CalculateHourlyRate(s) == 0.0;
    Round2OfCents(0.0);
  }

  /** Without the override, more hours never cost less. */
  lemma TaskCostMonotonic(h1: real, h2: real, s: Staff, useOverride: bool)
    requires WellFormedStaff(s)
    requires !OverrideApplies(s, useOverride)
    requires h1 <= h2 && CalculateHourlyRate(s) >= 0.0
    ensures CalculateTaskCost(h1, s, useOverride) <= CalculateTaskCost(h2, s, useOverride)
  {
    RatedCostMonotonic(h1, h2, CalculateHourlyRate(s));
  }

  /** The pay shown in staff lists: `£<rate to 2 dp>/day`, `£<rate to 2 dp>/hour`, or `Not set`. */
  function GetPaymentDisplayText(s: Staff): (r: string)
    ensures s.paymentType == DailyRate && Truthy(s.dailyRate) ==> r == "£" + ToFixed2(s.dailyRate.value) + "/day"
    ensures !(s.paymentType == DailyRate && Truthy(s.dailyRate)) && s.paymentType == HourlyRate && Truthy(s.hourlyRate) ==>
      r == "£" + ToFixed2(s.hourlyRate.value) + "/hour"
  {
    if s.paymentType == DailyRate && Truthy(s.dailyRate) then "£" + ToFixed2(s.dailyRate.value) + "/day"
    else if s.paymentType == HourlyRate && Truthy(s.hourlyRate) then "£" + ToFixed2(s.hourlyRate.value) + "/hour"
    else "Not set"
  }

  /**
   * The text says `Not set` exactly when no rate for the payment type is
   * present; otherwise it is `£`, the rate to two decimals (sign included)
   * and the unit of the branch taken.
   */
  lemma PaymentDisplayTextMeaning(s: Staff)
    ensures GetPaymentDisplayText(s) == "Not set" <==>
      !(s.paymentType == DailyRate && Truthy(s.dailyRate)) && !(s.paymentType == HourlyRate && Truthy(s.hourlyRate))
    ensures var t := GetPaymentDisplayText(s);
      s.paymentType == DailyRate && Truthy(s.dailyRate) ==>
        |t| >= 9 && t[0] == '£' && t[|t| - 4..] == "/day" && ShowsFixed2(t[1..|t| - 4], s.dailyRate.value)
    ensures var t := GetPaymentDisplayText(s);
      s.paymentType == HourlyRate && Truthy(s.hourlyRate) ==>
        |t| >= 10 && t[0] == '£' && t[|t| - 5..] == "/hour" && ShowsFixed2(t[1..|t| - 5], s.hourlyRate.value)
  {
    var t := GetPaymentDisplayText(s);
    if s.paymentType == DailyRate && Truthy(s.dailyRate) {
      var f := ToFixed2(s.dailyRate.value);
      assert t == "£" + f + "/day";
      assert t[1..|t| - 4] == f && t[|t| - 4..] == "/day";
      NotSetIsNotPrice(f, "/day");
    } else if s.paymentType == HourlyRate && Truthy(s.hourlyRate) {
      var f := ToFixed2(s.hourlyRate.value);
      assert t == "£" + f + "/hour";
      assert t[1..|t| - 5] == f && t[|t| - 5..] == "/hour";
      NotSetIsNotPrice(f, "/hour");
    }
  }

  lemma NotSetIsNotPrice(f: string, unit: string)
    ensures "£" + f + unit != "Not set"
  {
    assert ("£" + f + unit)[0] == '£';
  }

  /** The row `toggleActiveStatus` writes: the current row with its active flag negated; a missing id fails. */
  function ToggleActiveStatus(rows: seq<Staff>, id: string): (r: Result<Staff, string>)
    ensures r.Err? <==> FindById(rows, id, StaffId).None?
    ensures r.Err? ==> r.error == "Staff member not found"
    ensures r.Ok? ==> var cur := FindById(rows, id, StaffId).value;
      r.value.activeStatus == !cur.activeStatus && r.value.(activeStatus := cur.activeStatus) == cur
  {
    match FindById(rows, id, StaffId)
    case None => Err("Staff member not found")
    case Some(cur) => Ok(cur.(activeStatus := !cur.activeStatus))
  }

  /** Writes a row back in place of the row with the same id. */
  function ReplaceStaff(rows: seq<Staff>, row: Staff): (r: seq<Staff>)
    ensures |r| == |rows|
    ensures forall i :: 0 <= i < |rows| ==> r[i] == if rows[i].id == row.id then row else rows[i]
  {
    seq(|rows|, i requires 0 <= i < |rows| => if rows[i].id == row.id then row else rows[i])
  }

  /** Toggling twice, writing the row back each time, restores the original row. */
  lemma {:induction false} ToggleTwiceRestores(rows: seq<Staff>, id: string)
    requires ToggleActiveStatus(rows, id).Ok?
    ensures var once := ToggleActiveStatus(rows, id).value;
      var twice := ToggleActiveStatus(ReplaceStaff(rows, once), id);
      twice.Ok? && twice.value == FindById(rows, id, StaffId).value
    decreases |rows|
  {
    var once := ToggleActiveStatus(rows, id).value;
    if rows[0].id != id {
      ToggleTwiceRestores(rows[1..], id);
      assert ReplaceStaff(rows, once)[1..] == ReplaceStaff(rows[1..], once);
    }
  }
}
