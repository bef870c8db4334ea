/**
 * The rows the dashboard reads from its tables (staff, clients, jobs, daily
 * work entries, invoices, staff payments), reduced to the columns its rules
 * use. Nullable columns are `Option`s; ISO date columns are civil dates; an
 * embedded relation (`entry.staff`, `invoice.client`) is an `Option` of the
 * related row.
 */
module Records {
  import opened Wrappers
  import opened CivilDate
  import opened Money

  /** `payment_type`: the stored type allows the first two; the staff form and staff page also use `monthly_salary`. */
  datatype PaymentType = DailyRate | HourlyRate | MonthlySalary

  datatype Staff = Staff(
    id: string,
    name: string,
    paymentType: PaymentType,
    dailyRate: Option<real>,
    hourlyRate: Option<real>,
    monthlySalary: Option<real>,
    allocatedDailyHours: real,
    activeStatus: bool,
    payOverrideEnabled: bool,
    payOverrideAmount: Option<real>)

  /**
   * A staff row the hourly-rate division can take: a non-zero allocated day.
   * The staff form stores at least 0.1 hours; a negative allocation, which a
   * row written elsewhere may hold, is admitted and gives a negative rate.
   */
  predicate WellFormedStaff(s: Staff) {
    s.allocatedDailyHours != 0.0
  }

  datatype Client = Client(
    id: string,
    name: string,
    email: Option<string>,
    companyName: Option<string>,
    activeStatus: bool)

  datatype JobStatus = JobDraft | JobActive | OnHold | JobCompleted | JobCancelled

  datatype JobType =
    | Maintenance | Repair | Installation | Inspection | Emergency | Plumbing
    | Electrical | Hvac | Roofing | Painting | Flooring | Landscaping
    | Renovation | Cleaning | PestControl | ApplianceRepair | Custom
    | UnknownJobType(raw: string)

  datatype Job = Job(
    id: string,
    clientId: string,
    jobType: JobType,
    status: JobStatus,
    estimatedHours: Option<real>,
    estimatedCost: Option<real>,
    actualHours: real,
    actualCost: real,
    targetCompletionDate: Option<Date>,
    completedDate: Option<Date>)

  datatype WorkEntry = WorkEntry(
    id: string,
    date: Date,
    staffId: string,
    staff: Option<Staff>,
    clientId: Option<string>,
    clientName: string,
    jobId: Option<string>,
    taskDescription: string,
    hoursWorked: real,
    overtimeHours: real,
    calculatedCost: real,
    overrideCost: Option<real>,
    clientCost: Option<real>,
    notes: Option<string>)

  /** `status` of an invoice; a value outside the five known ones is kept as read. */
  datatype InvoiceStatus = Draft | Issued | Paid | Overdue | Cancelled | OtherStatus(raw: string)

  datatype Invoice = Invoice(
    id: string,
    invoiceNumber: string,
    clientId: string,
    client: Option<Client>,
    status: InvoiceStatus,
    periodStart: Date,
    periodEnd: Date,
    issueDate: Date,
    dueDate: Option<Date>,
    vatRate: real,
    totalAmount: real,
    paidAmount: Option<real>,
    paymentDate: Option<Date>,
    paymentReference: Option<string>,
    paymentMethod: Option<string>,
    notes: Option<string>)

  /**
   * The invoice form's data. An empty date input is `None`, as is an unset or
   * unparseable VAT rate; an empty status select is `None`.
   */
  datatype InvoiceFormData = InvoiceFormData(
    clientId: string,
    periodStart: Option<Date>,
    periodEnd: Option<Date>,
    issueDate: Option<Date>,
    dueDate: Option<Date>,
    vatRate: Option<real>,
    notes: string,
    status: Option<InvoiceStatus>)

  /** An `invoice_work_entries` insert: the snapshot of one work entry on an invoice. */
  datatype InvoiceLineInsert = InvoiceLineInsert(
    invoiceId: string,
    workEntryId: string,
    hoursWorked: real,
    laborCost: real,
    clientCost: real)

  /** A stored `invoice_work_entries` row: its own id next to the work entry it snapshots. */
  datatype InvoiceLine = InvoiceLine(
    id: string,
    invoiceId: string,
    workEntryId: string,
    hoursWorked: real,
    laborCost: real,
    clientCost: real)

  datatype CostType = Expense | Material | Transport | Subcontracting | Misc

  /** An `invoice_additional_costs` insert. */
  datatype AdditionalCostInsert = AdditionalCostInsert(
    invoiceId: string,
    description: string,
    amount: real,
    costType: CostType,
    date: Option<Date>)

  /** A stored `invoice_additional_costs` row. */
  datatype AdditionalCost = AdditionalCost(
    id: string,
    invoiceId: string,
    description: string,
    amount: real,
    costType: CostType,
    date: Option<Date>)

  datatype PaymentStatus = Pending | PartiallyPaid | PaymentPaid | PaymentCancelled

  /** A `staff_payments` row: what a staff member is owed for a period and what has been paid. */
  datatype WagePayment = WagePayment(
    id: string,
    staffId: string,
    periodStart: Date,
    periodEnd: Date,
    amountDue: real,
    amountPaid: real,
    status: PaymentStatus,
    paymentDate: Option<Date>,
    paymentMethod: Option<string>,
    paymentReference: Option<string>,
    workEntryIds: seq<string>)

  /** What the client is billed for an entry: `client_cost || override_cost || calculated_cost`. */
  function EntryRevenue(e: WorkEntry): (r: real)
    ensures Truthy(e.clientCost) ==> r == e.clientCost.value
    ensures !Truthy(e.clientCost) && Truthy(e.overrideCost) ==> r == e.overrideCost.value
    ensures !Truthy(e.clientCost) && !Truthy(e.overrideCost) ==> r == e.calculatedCost
  {
    Pick(e.clientCost, Pick(e.overrideCost, e.calculatedCost))
  }

  /** The labour figure an invoice line and the client statistics take: `override_cost || calculated_cost`. */
  function EntryLabour(e: WorkEntry): (r: real)
    ensures Truthy(e.overrideCost) ==> r == e.overrideCost.value
    ensures !Truthy(e.overrideCost) ==> r == e.calculatedCost
  {
    Pick(e.overrideCost, e.calculatedCost)
  }

  /** `text || null`: an empty form field is stored as null. */
  function NullIfEmpty(s: string): (r: Option<string>)
    ensures r.None? <==> s == ""
    ensures r.Some? ==> r.value == s
  {
    if s == "" then None else Some(s)
  }

  /** `text || ''`: a null column opens as an empty field. */
  function OrEmpty(o: Option<string>): (r: string)
    ensures o.Some? ==> r == o.value
    ensures o.None? ==> r == ""
  {
    if o.Some? then o.value else ""
  }

  /** `amount || null` and `amount || undefined`: a missing or zero amount becomes absent. */
  function OrNone(o: Option<real>): (r: Option<real>)
    ensures r.Some? <==> Truthy(o)
    ensures r.Some? ==> r == o
  {
    if Truthy(o) then o else None
  }

  /** An optional field of an update: `undefined` leaves the column as it was. */
  function Keep<T>(update: Option<T>, current: Option<T>): Option<T> {
    if update.Some? then update else current
  }

  // Column projections, for the sums over rows and the lookups by id.

  function StaffId(s: Staff): string { s.id }

  function ClientId(c: Client): string { c.id }

  function JobId(j: Job): string { j.id }

  function InvoiceId(i: Invoice): string { i.id }

  function PaymentId(p: WagePayment): string { p.id }

  function EntryHours(e: WorkEntry): real { e.hoursWorked }

  function EntryCalculatedCost(e: WorkEntry): real { e.calculatedCost }

  function InvoiceTotal(i: Invoice): real { i.totalAmount }

  /** `invoice.paid_amount || 0`. */
  function InvoicePaid(i: Invoice): real { Pick(i.paidAmount, 0.0) }

  function JobActualCost(j: Job): real { j.actualCost }

  function EntryOvertime(e: WorkEntry): real { e.overtimeHours }

  function LineHours(l: InvoiceLine): real { l.hoursWorked }

  function LineLabour(l: InvoiceLine): real { l.laborCost }

  function LineClient(l: InvoiceLine): real { l.clientCost }

  function CostAmount(c: AdditionalCost): real { c.amount }
}
