/**
 * The staff form: the validation rules of its schema, the values it opens
 * with, and the row it submits.
 */
module StaffForm {
  import opened Wrappers
  import opened Money
  import opened Records
  import opened StaffService

  /** The fields of the form as entered. */
  datatype StaffFormData = StaffFormData(
    name: string,
    email: string,
    phone: string,
    address: string,
    paymentType: PaymentType,
    dailyRate: Option<real>,
    monthlySalary: Option<real>,
    allocatedDailyHours: real,
    payOverrideEnabled: bool,
    payOverrideAmount: Option<real>,
    activeStatus: bool)

  /**
   * The schema's rules, one per message it can show.  A payment type is never
   * undefined here, so the enum's `required_error` is never shown: the only
   * value outside the enum, `hourly_rate`, gets zod's invalid-enum message.
   */
  datatype Issue = NameTooShort | InvalidEmail | InvalidPaymentType | HoursTooLow | HoursTooHigh | PaymentAmountRequired

  /** zod's default text for a value outside an enum: the quoted options joined by ` | `, then the value received, quoted. */
  function InvalidEnumMessage(options: string, received: string): (r: string)
    ensures |r| > |received| && r[|r| - |received| - 1..|r| - 1] == received
  {
    var r := "Invalid enum value. Expected " + options + ", received '" + received + "'";
    assert r == ("Invalid enum value. Expected " + options + ", received '") + received + "'";
    r
  }

  function IssueMessage(i: Issue): (r: string)
    ensures |r| > 0
  {
    match i
    case NameTooShort => "Name must be at least 2 characters"
    case InvalidEmail => "Please enter a valid email address"
    case InvalidPaymentType => InvalidEnumMessage("'daily_rate' | 'monthly_salary'", "hourly_rate")
    case HoursTooLow => "Work hours must be greater than 0"
    case HoursTooHigh => "Cannot exceed 24 hours"
    case PaymentAmountRequired => "Payment amount is required based on selected payment type"
  }

  /** The `refine` rule: the rate of the chosen payment type is present and positive; any other type fails. */
  predicate PaymentAmountGiven(data: StaffFormData) {
    if data.paymentType == DailyRate then data.dailyRate.Some? && data.dailyRate.value > 0.0
    else if data.paymentType == MonthlySalary then data.monthlySalary.Some? && data.monthlySalary.value > 0.0
    else false
  }

  /**
   * The rules the data breaks.  `emailValid` stands for the schema's e-mail
   * check, a pattern match this model does not restate.  An invalid enum value
   * aborts the parse of the object, so the `refine` on the rate is checked only
   * for a payment type inside the enum; the field rules are all reported.  The
   * form submits only when there are none.
   */
  function Issues(data: StaffFormData, emailValid: bool): (r: set<Issue>)
    ensures NameTooShort in r <==> |data.name| < 2
    ensures InvalidEmail in r <==> !emailValid
    ensures InvalidPaymentType in r <==> data.paymentType !in {DailyRate, MonthlySalary}
    ensures HoursTooLow in r <==> data.allocatedDailyHours < 0.1
    ensures HoursTooHigh in r <==> data.allocatedDailyHours > 24.0
    ensures PaymentAmountRequired in r <==> data.paymentType in {DailyRate, MonthlySalary} && !PaymentAmountGiven(data)
    ensures InvalidPaymentType in r ==> PaymentAmountRequired !in r
  {
    (if |data.name| < 2 then {NameTooShort} else {})
    + (if !emailValid then {InvalidEmail} else {})
    + (if data.paymentType != DailyRate && data.paymentType != MonthlySalary then {InvalidPaymentType} else {})
    + (if data.allocatedDailyHours < 0.1 then {HoursTooLow} else {})
    + (if data.allocatedDailyHours > 24.0 then {HoursTooHigh} else {})
    + (if data.paymentType == HourlyRate || PaymentAmountGiven(data) then {} else {PaymentAmountRequired})
  }

  /** The `StaffInsert` the form submits. */
  datatype StaffRow = StaffRow(
    name: string,
    email: string,
    phone: Option<string>,
    address: Option<string>,
    paymentType: PaymentType,
    dailyRate: Option<real>,
    monthlySalary: Option<real>,
    allocatedDailyHours: real,
    payOverrideEnabled: bool,
    payOverrideAmount: Option<real>,
    activeStatus: bool)

  /**
   * `onSubmit`: empty phone and address become null, only the chosen payment
   * type keeps its rate, and the override amount is kept only while the
   * override is enabled.
   */
  function Normalise(data: StaffFormData): (r: StaffRow)
    ensures r.phone == NullIfEmpty(data.phone) && r.address == NullIfEmpty(data.address)
    ensures r.dailyRate.Some? <==> data.paymentType == DailyRate && Truthy(data.dailyRate)
    ensures r.monthlySalary.Some? <==> data.paymentType == MonthlySalary && Truthy(data.monthlySalary)
    ensures r.payOverrideAmount.Some? <==> data.payOverrideEnabled && Truthy(data.payOverrideAmount)
    ensures r.dailyRate.Some? ==> r.dailyRate == data.dailyRate
    ensures r.monthlySalary.Some? ==> r.monthlySalary == data.monthlySalary
    ensures r.payOverrideAmount.Some? ==> r.payOverrideAmount == data.payOverrideAmount
    ensures r.name == data.name && r.email == data.email && r.paymentType == data.paymentType
    ensures r.allocatedDailyHours == data.allocatedDailyHours
    ensures r.payOverrideEnabled == data.payOverrideEnabled && r.activeStatus == data.activeStatus
  {
    StaffRow(
      data.name, data.email, NullIfEmpty(data.phone), NullIfEmpty(data.address), data.paymentType,
      if data.paymentType == DailyRate then OrNone(data.dailyRate) else None,
      if data.paymentType == MonthlySalary then OrNone(data.monthlySalary) else None,
      data.allocatedDailyHours, data.payOverrideEnabled,
      if data.payOverrideEnabled then OrNone(data.payOverrideAmount) else None,
      data.activeStatus)
  }

  /** The staff row once stored under `id`; the form sends no hourly rate, so the column keeps `hourlyRate`. */
  function Stored(row: StaffRow, id: string, hourlyRate: Option<real>): Staff {
    Staff(id, row.name, row.paymentType, row.dailyRate, hourlyRate, row.monthlySalary,
          row.allocatedDailyHours, row.activeStatus, row.payOverrideEnabled, row.payOverrideAmount)
  }

  /** A form that passes validation stores a well-formed staff row whose chosen rate is present and positive, and no rate of the other type. */
  lemma ValidFormStoresPayableStaff(data: StaffFormData, emailValid: bool, id: string, hourlyRate: Option<real>)
    requires Issues(data, emailValid) == {}
    ensures var s := Stored(Normalise(data), id, hourlyRate);
      && WellFormedStaff(s) && 0.1 <= s.allocatedDailyHours <= 24.0
      && (s.paymentType == DailyRate ==> s.dailyRate.Some? && s.dailyRate.value > 0.0 && s.monthlySalary.None?)
      && (s.paymentType == MonthlySalary ==> s.monthlySalary.Some? && s.monthlySalary.value > 0.0 && s.dailyRate.None?)
  {
    assert InvalidPaymentType !in Issues(data, emailValid) && PaymentAmountRequired !in Issues(data, emailValid);
    assert HoursTooLow !in Issues(data, emailValid);
    assert HoursTooHigh !in Issues(data, emailValid);
  }

  /** A validly saved day-rate member has a positive hourly rate; a salaried one is costed at 0 an hour by the staff service. */
  lemma ValidFormHourlyRate(data: StaffFormData, emailValid: bool, id: string, hourlyRate: Option<real>)
    requires Issues(data, emailValid) == {}
    ensures var s := Stored(Normalise(data), id, hourlyRate);
      WellFormedStaff(s)
      && (data.paymentType == DailyRate ==> CalculateHourlyRate(s) > 0.0)
      && (data.paymentType == MonthlySalary ==> CalculateHourlyRate(s) == 0.0)
  {
    ValidFormStoresPayableStaff(data, emailValid, id, hourlyRate);
    var s := Stored(Normalise(data), id, hourlyRate);
    if data.paymentType == DailyRate {
      var r := CalculateHourlyRate(s);
      assert r * s.allocatedDailyHours == s.dailyRate.value > 0.0;
    }
  }

  /** The columns the form reads that the staff row here does not carry. */
  datatype Contact = Contact(email: Option<string>, phone: Option<string>, address: Option<string>)

  /**
   * `defaultValues`: the member being edited (with its contact columns), or,
   * for a new one, empty text, a day rate, an 8-hour day, active and no
   * override.
   */
  function DefaultValues(staff: Option<Staff>, contact: Contact): (r: StaffFormData)
    ensures staff.None? ==> r == StaffFormData("", "", "", "", DailyRate, None, None, 8.0, false, None, true)
    ensures staff.Some? ==>
      && r.name == staff.value.name && r.paymentType == staff.value.paymentType
      && r.activeStatus == staff.value.activeStatus && r.payOverrideEnabled == staff.value.payOverrideEnabled
      && (staff.value.allocatedDailyHours != 0.0 ==> r.allocatedDailyHours == staff.value.allocatedDailyHours)
      && (staff.value.allocatedDailyHours == 0.0 ==> r.allocatedDailyHours == 8.0)
  {
    match staff
    case None => StaffFormData("", "", "", "", DailyRate, None, None, 8.0, false, None, true)
    case Some(s) =>
      StaffFormData(s.name, OrEmpty(contact.email), OrEmpty(contact.phone), OrEmpty(contact.address), s.paymentType,
                    OrNone(s.dailyRate), OrNone(s.monthlySalary),
                    if s.allocatedDailyHours != 0.0 then s.allocatedDailyHours else 8.0,
                    s.payOverrideEnabled, OrNone(s.payOverrideAmount), s.activeStatus)
  }

  /** Data already in the shape the form submits: no rate for the other type, no zero amounts, no override amount while disabled. */
  predicate Canonical(data: StaffFormData) {
    && (data.paymentType != DailyRate ==> data.dailyRate.None?)
    && (data.paymentType != MonthlySalary ==> data.monthlySalary.None?)
    && (data.payOverrideAmount.Some? ==> data.payOverrideEnabled && data.payOverrideAmount.value != 0.0)
  }

  /** Saving a valid form and opening the member for editing shows exactly what was saved. */
  lemma EditShowsSaved(data: StaffFormData, emailValid: bool, id: string, hourlyRate: Option<real>)
    requires Issues(data, emailValid) == {} && Canonical(data)
    ensures var row := Normalise(data);
      DefaultValues(Some(Stored(row, id, hourlyRate)), Contact(Some(row.email), row.phone, row.address)) == data
  {
    ValidFormStoresPayableStaff(data, emailValid, id, hourlyRate);
  }

  /** Submitting what the form opened with for a new member stores no rates and no override amount, so it fails the payment rule until a rate is entered. */
  lemma NewFormNeedsARate(contact: Contact, emailValid: bool)
    ensures PaymentAmountRequired in Issues(DefaultValues(None, contact), emailValid)
    ensures var row := Normalise(DefaultValues(None, contact));
      row.dailyRate.None? && row.monthlySalary.None? && row.payOverrideAmount.None?
      && row.allocatedDailyHours == 8.0 && row.activeStatus && !row.payOverrideEnabled
  {
  }

  /** An hourly-rate member opened for editing cannot be saved from this form: the payment type fails the enum, and the rate rule is not reached. */
  lemma HourlyMemberBlocked(s: Staff, contact: Contact, emailValid: bool)
    requires s.paymentType == HourlyRate
    ensures var r := Issues(DefaultValues(Some(s), contact), emailValid);
      InvalidPaymentType in r && PaymentAmountRequired !in r
  {
  }
}
