/**
 * The staff page's summary cards: the daily payroll cost of the active staff
 * and their average allocated day.
 */
module StaffPage {
  import opened Wrappers
  import opened Money
  import opened Lists
  import opened Records

  predicate IsActiveStaff(s: Staff) { s.activeStatus }

  function ActiveStaff(staff: seq<Staff>): (r: seq<Staff>)
    ensures forall s :: s in r <==> s in staff && s.activeStatus
    ensures |r| == Count(staff, IsActiveStaff)
  {
    FilterSpec(staff, IsActiveStaff);
    Filter(staff, IsActiveStaff)
  }

  /** Working days a monthly salary is spread over. */
  const WorkingDaysPerMonth := 22.0

  /** One member's daily cost: the day rate, or a twenty-second of the monthly salary; nothing when the rate of their type is missing or zero. */
  function DailyCost(s: Staff): (r: real)
    ensures s.paymentType == DailyRate && Truthy(s.dailyRate) ==> r == s.dailyRate.value
    ensures s.paymentType == MonthlySalary && Truthy(s.monthlySalary) ==> r * WorkingDaysPerMonth == s.monthlySalary.value
    ensures (!(s.paymentType == DailyRate && Truthy(s.dailyRate))
             && !(s.paymentType == MonthlySalary && Truthy(s.monthlySalary))) ==> r == 0.0
  {
    if s.paymentType == DailyRate && Truthy(s.dailyRate) then s.dailyRate.value
    else if s.paymentType == MonthlySalary && Truthy(s.monthlySalary) then s.monthlySalary.value / WorkingDaysPerMonth
    else 0.0
  }

  /** `totalPayrollCost`: Σ of the daily costs of the active staff, so a list without active members costs nothing. */
  function TotalPayrollCost(staff: seq<Staff>): (r: real)
    ensures (forall i :: 0 <= i < |staff| ==> !staff[i].activeStatus) ==> r == 0.0
  {
    var active := ActiveStaff(staff);
    assert (forall i :: 0 <= i < |staff| ==> !staff[i].activeStatus) ==> active == [] by {
      if |active| > 0 {
        assert active[0] in active;
      }
    }
    Sum(active, DailyCost)
  }

  /** Only active staff count: adding a member changes the total by their daily cost if active, and not at all otherwise. */
  lemma PayrollStep(staff: seq<Staff>, s: Staff)
    ensures TotalPayrollCost(staff + [s]) == TotalPayrollCost(staff) + (if s.activeStatus then DailyCost(s) else 0.0)
  {
    assert (staff + [s])[..|staff|] == staff;
    var tail: seq<Staff> := if s.activeStatus then [s] else [];
    assert ActiveStaff(staff + [s]) == ActiveStaff(staff) + tail;
    SumAppend(ActiveStaff(staff), tail, DailyCost);
  }

  /** With no negative rates the payroll total is non-negative. */
  lemma PayrollNonNegative(staff: seq<Staff>)
    requires forall i :: 0 <= i < |staff| ==> DailyCost(staff[i]) >= 0.0
    ensures TotalPayrollCost(staff) >= 0.0
  {
    var active := ActiveStaff(staff);
    forall i | 0 <= i < |active|
      ensures DailyCost(active[i]) >= 0.0
    {
      assert active[i] in staff;
    }
    SumNonNegative(active, DailyCost);
  }

  function AllocatedHours(s: Staff): real { s.allocatedDailyHours }

  /** Avg. Daily Hours: Σ allocated hours over the number of active staff, or nothing (shown as `0`) without active staff. */
  function AverageDailyHours(staff: seq<Staff>): (r: Option<real>)
    ensures r.None? <==> |ActiveStaff(staff)| == 0
    ensures r.Some? ==> r.value * (|ActiveStaff(staff)| as real) == Sum(ActiveStaff(staff), AllocatedHours)
  {
    var active := ActiveStaff(staff);
    if |active| > 0 then
      var total, n := Sum(active, AllocatedHours), |active| as real;
      QuotientTimes(total, n);
      Some(total / n)
    else None
  }

  lemma QuotientTimes(a: real, n: real)
    requires n != 0.0
    ensures (a / n) * n == a
  {
  }

  /** A quotient by a positive divisor lies between two bounds when the dividend lies between the bounds times the divisor. */
  lemma QuotientBetween(q: real, n: real, total: real, lo: real, hi: real)
    requires n > 0.0 && q == total / n && lo * n <= total <= hi * n
    ensures lo <= q <= hi
  {
    QuotientTimes(total, n);
    assert q * n - lo * n == (q - lo) * n;
    assert hi * n - q * n == (hi - q) * n;
  }

  lemma {:induction false} SumBetween(s: seq<Staff>, lo: real, hi: real)
    requires forall i :: 0 <= i < |s| ==> lo <= s[i].allocatedDailyHours <= hi
    ensures lo * |s| as real <= Sum(s, AllocatedHours) <= hi * |s| as real
    decreases |s|
  {
    if |s| > 0 {
      SumBetween(s[..|s| - 1], lo, hi);
      assert lo * |s| as real == lo * (|s| - 1) as real + lo;
      assert hi * |s| as real == hi * (|s| - 1) as real + hi;
    }
  }

  /** When every active member's day lies within the staff form's 0.1 to 24 hours, so does the average. */
  lemma AverageWithinFormBounds(staff: seq<Staff>)
    requires forall i :: 0 <= i < |staff| ==> staff[i].activeStatus ==> 0.1 <= staff[i].allocatedDailyHours <= 24.0
    requires |ActiveStaff(staff)| > 0
    ensures 0.1 <= AverageDailyHours(staff).value <= 24.0
  {
    var active := ActiveStaff(staff);
    forall i | 0 <= i < |active|
      ensures 0.1 <= active[i].allocatedDailyHours <= 24.0
    {
      assert active[i] in staff;
    }
    SumBetween(active, 0.1, 24.0);
    var q, n, total := AverageDailyHours(staff).value, |active| as real, Sum(active, AllocatedHours);
    assert q == total / n;
    assert 0.1 * n <= total <= 24.0 * n;
    QuotientBetween(q, n, total, 0.1, 24.0);
  }
}
