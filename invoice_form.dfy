/**
 * The invoice form component: its initial data (the current month as the
 * billing period, today as the issue date) and `validate`, which collects one
 * message per missing or inconsistent field into an error dictionary.
 */
module InvoiceFormComponent {
  import opened Wrappers
  import opened Money
  import opened Lists
  import opened CivilDate
  import opened JsDates
  import opened Records
  import opened NewInvoicePage

  /**
   * The initial `formData`: each field given in `initial` wins, otherwise the
   * current month is the period, today the issue date, VAT 0 and status draft.
   * `initial` has empty fields where `initialData` leaves them out.
   */
  function DefaultFormData(initial: InvoiceFormData, today: Date): (r: InvoiceFormData)
    requires ValidDate(today)
    ensures r.clientId == initial.clientId && r.dueDate == initial.dueDate && r.notes == initial.notes
    ensures r.periodStart == Some(initial.periodStart.GetOr(FirstOfMonth(today)))
    ensures r.periodEnd == Some(initial.periodEnd.GetOr(LastOfMonth(today)))
    ensures r.issueDate == Some(initial.issueDate.GetOr(today))
    ensures r.vatRate == Some(if Truthy(initial.vatRate) then initial.vatRate.value else 0.0)
    ensures r.status == Some(initial.status.GetOr(Draft))
  {
    CurrentMonthBounds(today);
    var firstDayOfMonth := JsNewDate(today.year, today.month - 1, 1);
    var lastDayOfMonth := JsNewDate(today.year, today.month, 0);
    InvoiceFormData(
      initial.clientId,
      Some(initial.periodStart.GetOr(firstDayOfMonth)),
      Some(initial.periodEnd.GetOr(lastDayOfMonth)),
      Some(initial.issueDate.GetOr(today)),
      initial.dueDate,
      Some(Pick(initial.vatRate, 0.0)),
      initial.notes,
      Some(initial.status.GetOr(Draft)))
  }

  /** With no initial data the defaults pass `validate`'s date checks: the current month is a well-ordered period. */
  lemma DefaultPeriodOrdered(today: Date)
    requires ValidDate(today)
    ensures var f := DefaultFormData(InvoiceFormData("", None, None, None, None, None, "", None), today);
      f.status == Some(Draft) && f.vatRate == Some(0.0)
      && OnOrBefore(f.periodStart.value, f.periodEnd.value) && InRange(today, f.periodStart.value, f.periodEnd.value)
  {
  }

  predicate ClientIsActive(c: Client) { c.activeStatus }

  /** The clients offered in the select: the active ones, in the order given. */
  function ClientOptions(clients: seq<Client>): (r: seq<Client>)
    ensures forall c :: c in r <==> c in clients && c.activeStatus
    ensures SubsequenceOf(r, clients)
  {
    FilterSpec(clients, ClientIsActive);
    FilterIsSubsequence(clients, ClientIsActive);
    Filter(clients, ClientIsActive)
  }

  /** What `validate` accepts: client, both period dates and the issue date present, and the period in order; the due date is never checked. */
  predicate FormValid(f: InvoiceFormData) {
    f.clientId != "" && f.periodStart.Some? && f.periodEnd.Some? && f.issueDate.Some?
    && !Before(f.periodEnd.value, f.periodStart.value)
  }

  /** A form `validate` accepts is never turned back by the page's checks; the page asks for everything but the issue date. */
  lemma FormValidAgreesWithSubmit(f: InvoiceFormData)
    ensures FormValid(f) ==> SubmitError(f).None?
    ensures SubmitError(f).None? && f.issueDate.Some? ==> FormValid(f)
    ensures SubmitError(f).None? && f.issueDate.None? ==> !FormValid(f)
  {
  }

  const ErrorKeys: set<string> := {"client_id", "period_start", "period_end", "issue_date"}

  class InvoiceForm {
    var formData: InvoiceFormData
    var errors: map<string, string>

    constructor (initial: InvoiceFormData, today: Date)
      requires ValidDate(today)
      ensures formData == DefaultFormData(initial, today) && errors == map[]
    {
      formData := DefaultFormData(initial, today);
      errors := map[];
    }

    /** `validate()`: records one message per failed field and answers whether there were none. */
    method Validate() returns (ok: bool)
      modifies this
      ensures formData == old(formData)
      ensures ok == FormValid(formData) && (ok <==> errors == map[])
      ensures errors.Keys <= ErrorKeys
      ensures "client_id" in errors <==> formData.clientId == ""
      ensures "client_id" in errors ==> errors["client_id"] == "Client is required"
      ensures "period_start" in errors <==> formData.periodStart.None?
      ensures "period_start" in errors ==> errors["period_start"] == "Start date is required"
      ensures "period_end" in errors <==>
        formData.periodEnd.None? || (formData.periodStart.Some? && Before(formData.periodEnd.value, formData.periodStart.value))
      ensures formData.periodEnd.None? ==> "period_end" in errors && errors["period_end"] == "End date is required"
      ensures formData.periodEnd.Some? && "period_end" in errors ==> errors["period_end"] == "End date must be after start date"
      ensures "issue_date" in errors <==> formData.issueDate.None?
      ensures "issue_date" in errors ==> errors["issue_date"] == "Issue date is required"
    {
      var f := formData;
      var newErrors: map<string, string> := map[];
      if f.clientId == "" {
        newErrors := newErrors["client_id" := "Client is required"];
      }
      if f.periodStart.None? {
        newErrors := newErrors["period_start" := "Start date is required"];
      }
      if f.periodEnd.None? {
        newErrors := newErrors["period_end" := "End date is required"];
      }
      if f.periodStart.Some? && f.periodEnd.Some? && Before(f.periodEnd.value, f.periodStart.value) {
        newErrors := newErrors["period_end" := "End date must be after start date"];
      }
      if f.issueDate.None? {
        newErrors := newErrors["issue_date" := "Issue date is required"];
      }
      errors := newErrors;
      ok := |newErrors| == 0;
    }
  }
}
