/**
 * The work-entry form: its validation rules, the labour cost it previews for
 * the chosen staff member and hours, the client price and margin preview, the
 * values it opens with, and the row it submits.
 */
module WorkEntryForm {
  import opened Wrappers
  import opened Money
  import opened Lists
  import opened CivilDate
  import opened Records
  import opened StaffService
  import opened DailyWork

  /** The fields as entered; an empty date field is `None`, empty optional text is `""`. */
  datatype WorkEntryFormData = WorkEntryFormData(
    date: Option<Date>,
    staffId: string,
    taskDescription: string,
    clientId: string,
    jobId: string,
    hoursWorked: real,
    overrideCost: Option<real>,
    notes: string)

  datatype Issue = DateRequired | StaffRequired | TaskTooShort | ClientRequired | HoursTooLow | HoursTooHigh

  function IssueMessage(i: Issue): (r: string)
    ensures |r| > 0
  {
    match i
    case DateRequired => "Date is required"
    case StaffRequired => "Please select a staff member"
    case TaskTooShort => "Task description must be at least 3 characters"
    case ClientRequired => "Please select a client"
    case HoursTooLow => "Hours must be greater than 0"
    case HoursTooHigh => "Hours cannot exceed 24"
  }

  /** The rules of the schema the data breaks; the form submits only when there are none. */
  function Issues(data: WorkEntryFormData): (r: set<Issue>)
    ensures DateRequired in r <==> data.date.None?
    ensures StaffRequired in r <==> data.staffId == ""
    ensures TaskTooShort in r <==> |data.taskDescription| < 3
    ensures ClientRequired in r <==> data.clientId == ""
    ensures HoursTooLow in r <==> data.hoursWorked < 0.1
    ensures HoursTooHigh in r <==> data.hoursWorked > 24.0
  {
    (if data.date.None? then {DateRequired} else {})
    + (if data.staffId == "" then {StaffRequired} else {})
    + (if |data.taskDescription| < 3 then {TaskTooShort} else {})
    + (if data.clientId == "" then {ClientRequired} else {})
    + (if data.hoursWorked < 0.1 then {HoursTooLow} else {})
    + (if data.hoursWorked > 24.0 then {HoursTooHigh} else {})
  }

  /** A form that passes validation has a date, a staff member, a client and between 0.1 and 24 hours, so its cost effect always prices it. */
  lemma ValidFormHasPositiveHours(data: WorkEntryFormData)
    requires Issues(data) == {}
    ensures data.date.Some? && data.staffId != "" && data.clientId != ""
    ensures 0.1 <= data.hoursWorked <= 24.0 && data.hoursWorked > 0.0
  {
    assert DateRequired !in Issues(data) && StaffRequired !in Issues(data) && ClientRequired !in Issues(data);
    assert HoursTooLow !in Issues(data) && HoursTooHigh !in Issues(data);
  }

  /**
   * The cost effect: the task cost of the hours for the selected staff member
   * (the two-argument call, so never the override), or 0 when no loaded staff
   * member has the id or the hours are not positive.
   */
  function CalculatedCost(staff: seq<Staff>, staffId: string, hours: real): (r: real)
    requires forall i :: 0 <= i < |staff| ==> WellFormedStaff(staff[i])
    ensures FindById(staff, staffId, StaffId).None? || hours <= 0.0 ==> r == 0.0
    ensures FindById(staff, staffId, StaffId).Some? && hours > 0.0 ==>
      var rate := CalculateHourlyRate(FindById(staff, staffId, StaffId).value);
      IsCents(r) && hours * rate - 1.0 / 200.0 < r <= hours * rate + 1.0 / 200.0
  {
    match FindById(staff, staffId, StaffId)
    case None => 0.0
    case Some(member) =>
      if hours > 0.0 then
        TwoArgumentCallIgnoresOverride(hours, member);
        CalculateTaskCost(hours, member)
      else 0.0
  }

  /** The preview under the form. */
  datatype Preview = Preview(clientCost: real, marginAmount: real, marginPercentage: real)

  /**
   * `getClientCostAndMargin()`: nothing without a selected staff member or
   * positive hours; otherwise the client price is a positive override or the
   * labour cost, the margin is the unrounded difference, and the percentage is
   * its share of a positive client price to 2 decimals.
   */
  function ClientCostAndMargin(staffSelected: bool, hours: real, laborCost: real, overrideCost: Option<real>): (r: Preview)
    ensures !staffSelected || hours <= 0.0 ==> r == Preview(0.0, 0.0, 0.0)
    ensures staffSelected && hours > 0.0 ==>
      && (overrideCost.Some? && overrideCost.value > 0.0 ==> r.clientCost == overrideCost.value)
      && (!(overrideCost.Some? && overrideCost.value > 0.0) ==> r.clientCost == laborCost)
      && r.marginAmount == r.clientCost - laborCost
      && (r.clientCost > 0.0 ==> r.marginPercentage == Round2(Share(r.marginAmount, r.clientCost)))
      && (r.clientCost <= 0.0 ==> r.marginPercentage == 0.0)
  {
    if !staffSelected || hours <= 0.0 then Preview(0.0, 0.0, 0.0)
    else
      var clientCost := if overrideCost.Some? && overrideCost.value > 0.0 then overrideCost.value else laborCost;
      var marginAmount := clientCost - laborCost;
      var marginPercentage := if clientCost > 0.0 then Share(marginAmount, clientCost) else 0.0;
      Preview(clientCost, marginAmount, Round2(marginPercentage))
  }

  /** The preview as the page computes it: the staff member found by the same look-up as the cost effect, and that effect's labour cost. */
  function FormPreview(staff: seq<Staff>, data: WorkEntryFormData): (r: Preview)
    requires forall i :: 0 <= i < |staff| ==> WellFormedStaff(staff[i])
    ensures FindById(staff, data.staffId, StaffId).None? || data.hoursWorked <= 0.0 ==> r == Preview(0.0, 0.0, 0.0)
    ensures FindById(staff, data.staffId, StaffId).Some? && data.hoursWorked > 0.0 && r.clientCost > 0.0 ==>
      IsCents(r.marginPercentage)
  {
    ClientCostAndMargin(FindById(staff, data.staffId, StaffId).Some?, data.hoursWorked,
                        CalculatedCost(staff, data.staffId, data.hoursWorked), data.overrideCost)
  }

  /** Without a positive override the client is billed the labour cost: no margin and 0%. */
  lemma NoOverrideNoMargin(staff: seq<Staff>, data: WorkEntryFormData)
    requires forall i :: 0 <= i < |staff| ==> WellFormedStaff(staff[i])
    requires !(data.overrideCost.Some? && data.overrideCost.value > 0.0)
    ensures FormPreview(staff, data).marginAmount == 0.0 && FormPreview(staff, data).marginPercentage == 0.0
  {
    var p := FormPreview(staff, data);
    if FindById(staff, data.staffId, StaffId).Some? && data.hoursWorked > 0.0 && p.clientCost > 0.0 {
      assert Share(0.0, p.clientCost) == 0.0;
      Round2OfCents(0.0);
    }
  }

  /** The preview's percentage is the one the service's `calculateMargin` gives for the same figures, and its amount agrees to the penny. */
  lemma PreviewMatchesServiceMargin(staffSelected: bool, hours: real, laborCost: real, overrideCost: Option<real>)
    requires staffSelected && hours > 0.0
    ensures var p := ClientCostAndMargin(staffSelected, hours, laborCost, overrideCost);
      var m := CalculateMargin(laborCost, p.clientCost);
      m.percentage == p.marginPercentage
      && p.marginAmount - 1.0 / 200.0 < m.amount <= p.marginAmount + 1.0 / 200.0
  {
  }

  /** When the override is at least the labour cost and the labour cost is not negative, the previewed margin lies between 0% and 100%. */
  lemma PreviewPercentageBounds(staffSelected: bool, hours: real, laborCost: real, overrideCost: Option<real>)
    requires staffSelected && hours > 0.0 && laborCost >= 0.0
    requires overrideCost.Some? && overrideCost.value > 0.0 && overrideCost.value >= laborCost
    ensures 0.0 <= ClientCostAndMargin(staffSelected, hours, laborCost, overrideCost).marginPercentage <= 100.0
  {
    var p := ClientCostAndMargin(staffSelected, hours, laborCost, overrideCost);
    var share := Share(p.marginAmount, p.clientCost);
    ShareBounds(p.marginAmount, p.clientCost);
    Round2Monotonic(0.0, share);
    Round2Monotonic(share, 100.0);
    Round2OfCents(0.0);
    Round2OfCents(100.0);
  }

  /** The `DailyWorkEntryInsert` the form submits. */
  datatype EntryRow = EntryRow(
    date: Date,
    staffId: string,
    taskDescription: string,
    clientId: string,
    clientName: string,
    jobId: Option<string>,
    hoursWorked: real,
    overrideCost: Option<real>,
    notes: Option<string>)

  const UnknownClient := "Unknown Client"

  /**
   * `onSubmit`: the entered fields, the selected client's name (or `Unknown
   * Client`), and null for an empty job, a missing or zero override and empty
   * notes.  The previewed labour cost is not part of the row.
   */
  function Normalise(data: WorkEntryFormData, selectedClient: Option<Client>): (r: EntryRow)
    requires Issues(data) == {}
    ensures r.date == data.date.value && r.staffId == data.staffId && r.clientId == data.clientId
    ensures r.taskDescription == data.taskDescription && r.hoursWorked == data.hoursWorked
    ensures r.jobId == NullIfEmpty(data.jobId) && r.notes == NullIfEmpty(data.notes)
    ensures r.overrideCost.Some? <==> Truthy(data.overrideCost)
    ensures r.overrideCost.Some? ==> r.overrideCost == data.overrideCost
    ensures selectedClient.Some? && selectedClient.value.name != "" ==> r.clientName == selectedClient.value.name
    ensures selectedClient.None? || selectedClient.value.name == "" ==> r.clientName == UnknownClient
  {
    ValidFormHasPositiveHours(data);
    var clientName := if selectedClient.Some? && selectedClient.value.name != "" then selectedClient.value.name else UnknownClient;
    EntryRow(data.date.value, data.staffId, data.taskDescription, data.clientId, clientName,
             NullIfEmpty(data.jobId), data.hoursWorked, OrNone(data.overrideCost), NullIfEmpty(data.notes))
  }

  /** `defaultValues`: the entry being edited, else an empty form on the given date, else on today's (UTC) date. */
  function DefaultValues(entry: Option<WorkEntry>, defaultDate: Option<Date>, today: Date): (r: WorkEntryFormData)
    ensures entry.None? ==> r == WorkEntryFormData(Some(if defaultDate.Some? then defaultDate.value else today), "", "", "", "", 0.0, None, "")
    ensures entry.Some? ==>
      && r.date == Some(entry.value.date) && r.staffId == entry.value.staffId
      && r.clientId == OrEmpty(entry.value.clientId) && r.jobId == OrEmpty(entry.value.jobId)
      && r.hoursWorked == entry.value.hoursWorked && r.overrideCost == OrNone(entry.value.overrideCost)
      && r.notes == OrEmpty(entry.value.notes) && r.taskDescription == entry.value.taskDescription
  {
    match entry
    case None => WorkEntryFormData(Some(if defaultDate.Some? then defaultDate.value else today), "", "", "", "", 0.0, None, "")
    case Some(e) =>
      WorkEntryFormData(Some(e.date), e.staffId, e.taskDescription, OrEmpty(e.clientId), OrEmpty(e.jobId),
                        e.hoursWorked, OrNone(e.overrideCost), OrEmpty(e.notes))
  }

  /** A new entry's form fails validation until a staff member, a client, a task and hours are entered. */
  lemma NewFormIncomplete(defaultDate: Option<Date>, today: Date)
    ensures Issues(DefaultValues(None, defaultDate, today)) == {StaffRequired, TaskTooShort, ClientRequired, HoursTooLow}
  {
  }

  /** An entry with no empty optional text and no zero override, saved again unchanged from its edit form, keeps its own values. */
  lemma ResubmitKeepsEntry(e: WorkEntry, defaultDate: Option<Date>, today: Date, selectedClient: Option<Client>)
    requires e.clientId.Some? && e.jobId != Some("") && e.notes != Some("")
    requires e.overrideCost.Some? ==> e.overrideCost.value != 0.0
    requires Issues(DefaultValues(Some(e), defaultDate, today)) == {}
    ensures var row := Normalise(DefaultValues(Some(e), defaultDate, today), selectedClient);
      row.date == e.date && Some(row.clientId) == e.clientId && row.jobId == e.jobId && row.notes == e.notes
      && row.overrideCost == e.overrideCost && row.hoursWorked == e.hoursWorked && row.staffId == e.staffId
  {
  }
}
