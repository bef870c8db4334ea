/**
 * The job service: status updates, the job-type labels, the progress figure,
 * the over-budget, over-time and overdue flags, and the job statistics.
 */
module JobService {
  import opened Wrappers
  import opened Money
  import opened Lists
  import opened CivilDate
  import opened Records
  import opened DailyWork

  /** Milliseconds in a day. */
  const MsPerDay := 86400000

  /** A moment in UTC: a calendar day and the milliseconds elapsed since its midnight. */
  datatype Instant = Instant(date: Date, msOfDay: int)

  predicate ValidInstant(t: Instant) {
    ValidDate(t.date) && 0 <= t.msOfDay < MsPerDay
  }

  /** Milliseconds since an epoch fixed by `DayNumber`, the value `<` compares between two `Date` objects. */
  function Millis(t: Instant): int
    requires ValidDate(t.date)
  {
    DayNumber(t.date) * MsPerDay + t.msOfDay
  }

  /** `new Date('YYYY-MM-DD')`: a date-only string is read as midnight UTC. */
  function Midnight(d: Date): Instant { Instant(d, 0) }

  const UpdateJobFailed := "Failed to update job"

  /** The columns a status update writes; `None` leaves a column untouched. */
  datatype JobUpdate = JobUpdate(status: Option<JobStatus>, completedDate: Option<Date>)

  /** `update(id, updates)`: the row with the given columns replaced; an id without a row fails. */
  function Update(rows: seq<Job>, id: string, updates: JobUpdate): (r: Result<Job, string>)
    ensures r.Err? <==> FindById(rows, id, JobId).None?
    ensures r.Err? ==> r.error == UpdateJobFailed
    ensures r.Ok? ==> var cur := FindById(rows, id, JobId).value;
      && r.value.id == id
      && r.value.status == (if updates.status.Some? then updates.status.value else cur.status)
      && r.value.completedDate == Keep(updates.completedDate, cur.completedDate)
      && r.value.(status := cur.status, completedDate := cur.completedDate) == cur
  {
    match FindById(rows, id, JobId)
    case None => Err(UpdateJobFailed)
    case Some(cur) =>
      Ok(cur.(status := if updates.status.Some? then updates.status.value else cur.status,
               completedDate := Keep(updates.completedDate, cur.completedDate)))
  }

  /**
   * `updateStatus(id, status)`: writes the status, and, only when it is
   * `completed`, today's UTC date as the completion date.
   */
  function UpdateStatus(rows: seq<Job>, id: string, status: JobStatus, now: Instant): (r: Result<Job, string>)
    ensures r.Err? <==> FindById(rows, id, JobId).None?
    ensures r.Err? ==> r.error == UpdateJobFailed
    ensures r.Ok? ==> var cur := FindById(rows, id, JobId).value;
      && r.value.status == status
      && (status == JobCompleted ==> r.value.completedDate == Some(now.date))
      && (status != JobCompleted ==> r.value.completedDate == cur.completedDate)
      && r.value.(status := cur.status, completedDate := cur.completedDate) == cur
  {
    var updates := JobUpdate(Some(status), if status == JobCompleted then Some(now.date) else None);
    Update(rows, id, updates)
  }

  /** Reopening a completed job keeps the completion date it was given: no status but `completed` clears or touches it. */
  lemma ReopenKeepsCompletedDate(rows: seq<Job>, id: string, now: Instant, later: Instant, status: JobStatus)
    requires FindById(rows, id, JobId).Some? && status != JobCompleted
    ensures var done := UpdateStatus(rows, id, JobCompleted, now).value;
      var reopened := UpdateStatus([done], id, status, later);
      reopened.Ok? && reopened.value.status == status && reopened.value.completedDate == Some(now.date)
  {
    var done := UpdateStatus(rows, id, JobCompleted, now).value;
    assert FindById([done], id, JobId) == Some(done);
  }

  /** `getJobTypeLabel(jobType, customJobType)`: the display name of each type; `custom` shows the custom name unless it is missing or empty. */
  function JobTypeLabel(jobType: JobType, customJobType: Option<string>): (r: string)
    ensures |r| > 0
    ensures jobType == Custom && customJobType.Some? && customJobType.value != "" ==> r == customJobType.value
    ensures jobType == Custom && (customJobType.None? || customJobType.value == "") ==> r == "Custom"
    ensures jobType.UnknownJobType? || jobType == Maintenance ==> r == "Maintenance"
  {
    match jobType
    case Maintenance => "Maintenance"
    case Repair => "Repair"
    case Installation => "Installation"
    case Inspection => "Inspection"
    case Emergency => "Emergency"
    case Plumbing => "Plumbing"
    case Electrical => "Electrical"
    case Hvac => "HVAC"
    case Roofing => "Roofing"
    case Painting => "Painting"
    case Flooring => "Flooring"
    case Landscaping => "Landscaping"
    case Renovation => "Renovation"
    case Cleaning => "Cleaning"
    case PestControl => "Pest Control"
    case ApplianceRepair => "Appliance Repair"
    case Custom => if customJobType.Some? && customJobType.value != "" then customJobType.value else "Custom"
    case UnknownJobType(_) => "Maintenance"
  }

  /** The custom name is what is shown for a custom job, and only for one: every fixed type has its own label whatever name is supplied. */
  lemma CustomNameOnlyForCustom(jobType: JobType, a: Option<string>, b: Option<string>)
    requires jobType != Custom
    ensures JobTypeLabel(jobType, a) == JobTypeLabel(jobType, b)
  {
  }

  /**
   * `calculateProgress(job)`: without a (non-zero) hour estimate, 100 for a
   * completed job and 0 otherwise; else the hours worked as a rounded
   * percentage of the estimate, capped at 100.
   */
  function CalculateProgress(job: Job): (r: int)
    ensures r <= 100
    ensures !Truthy(job.estimatedHours) ==> (r == 100 <==> job.status == JobCompleted) && (r == 0 || r == 100)
    ensures Truthy(job.estimatedHours) ==> var p := Share(job.actualHours, job.estimatedHours.value);
      (r == 100 <==> p >= 99.5) && (r < 100 ==> p - 0.5 < r as real <= p + 0.5)
  {
    if !Truthy(job.estimatedHours) then
      (if job.status == JobCompleted then 100 else 0)
    else
      var progress := Share(job.actualHours, job.estimatedHours.value);
      var n := JsRound(progress);
      if n < 100 then n else 100
  }

  /** With a positive estimate and no negative hours, progress lies in 0..100 and reaches 100 once the estimate is used up. */
  lemma ProgressBounds(job: Job)
    requires job.estimatedHours.Some? && job.estimatedHours.value > 0.0 && job.actualHours >= 0.0
    ensures 0 <= CalculateProgress(job) <= 100
    ensures job.actualHours >= job.estimatedHours.value ==> CalculateProgress(job) == 100
  {
    var est := job.estimatedHours.value;
    var p := Share(job.actualHours, est);
    ShareBounds(job.actualHours, est);
    if job.actualHours >= est {
      assert (p - 100.0) * est == 100.0 * (job.actualHours - est);
      AtLeastWhenScaled(p - 100.0, est);
    }
  }

  lemma AtLeastWhenScaled(x: real, w: real)
    requires w > 0.0 && x * w >= 0.0
    ensures x >= 0.0
  {
  }

  /** Against a positive estimate, exceeding it is the same as having used more than 100% of it. */
  lemma ShareAbove100(actual: real, est: real)
    requires est > 0.0
    ensures actual > est <==> Share(actual, est) > 100.0
  {
    var p := Share(actual, est);
    assert (p - 100.0) * est == 100.0 * (actual - est);
    if actual > est {
      PositiveWhenScaled(p - 100.0, est);
    } else {
      AtLeastWhenScaled(100.0 - p, est);
    }
  }

  lemma PositiveWhenScaled(x: real, w: real)
    requires w > 0.0 && x * w > 0.0
    ensures x > 0.0
  {
  }

  /** `isOverBudget(job)`: false without a (non-zero) cost estimate; against a positive estimate, more than 100% of it spent. */
  function IsOverBudget(job: Job): (r: bool)
    ensures !Truthy(job.estimatedCost) ==> !r
    ensures job.estimatedCost.Some? && job.estimatedCost.value > 0.0 ==>
      (r <==> Share(job.actualCost, job.estimatedCost.value) > 100.0)
  {
    if job.estimatedCost.Some? && job.estimatedCost.value > 0.0 then
      ShareAbove100(job.actualCost, job.estimatedCost.value);
      job.actualCost > job.estimatedCost.value
    else
      Truthy(job.estimatedCost) && job.actualCost > job.estimatedCost.value
  }

  /** `isOverTime(job)`: false without a (non-zero) hour estimate; against a positive estimate, more than 100% of it worked. */
  function IsOverTime(job: Job): (r: bool)
    ensures !Truthy(job.estimatedHours) ==> !r
    ensures job.estimatedHours.Some? && job.estimatedHours.value > 0.0 ==>
      (r <==> Share(job.actualHours, job.estimatedHours.value) > 100.0)
  {
    if job.estimatedHours.Some? && job.estimatedHours.value > 0.0 then
      ShareAbove100(job.actualHours, job.estimatedHours.value);
      job.actualHours > job.estimatedHours.value
    else
      Truthy(job.estimatedHours) && job.actualHours > job.estimatedHours.value
  }

  /** A job over its positive hour estimate shows full progress: the bar is capped rather than running past 100. */
  lemma OverTimeShowsFullProgress(job: Job)
    requires IsOverTime(job) && job.estimatedHours.value > 0.0 && job.actualHours >= 0.0
    ensures CalculateProgress(job) == 100
  {
    ProgressBounds(job);
  }

  /**
   * `isOverdue(job)`: not completed, with a target date whose midnight UTC is
   * already past.  A target that names no calendar day is never overdue here;
   * the `date` column cannot hold one.
   */
  function IsOverdue(job: Job, now: Instant): (r: bool)
    ensures job.status == JobCompleted ==> !r
    ensures job.targetCompletionDate.None? ==> !r
  {
    job.targetCompletionDate.Some? && job.status != JobCompleted
    && ValidDate(job.targetCompletionDate.value) && ValidDate(now.date)
    && Millis(Midnight(job.targetCompletionDate.value)) < Millis(now)
  }

  /** On the calendar: a job is overdue from the first millisecond after the target day starts, so the target day itself already counts. */
  lemma OverdueByCalendar(job: Job, now: Instant)
    requires ValidInstant(now)
    requires job.targetCompletionDate.Some? ==> ValidDate(job.targetCompletionDate.value)
    ensures IsOverdue(job, now) <==>
      job.status != JobCompleted && job.targetCompletionDate.Some?
      && (Before(job.targetCompletionDate.value, now.date)
          || (job.targetCompletionDate.value == now.date && now.msOfDay > 0))
  {
    if job.targetCompletionDate.Some? {
      DayNumberOrder(job.targetCompletionDate.value, now.date);
    }
  }

  predicate IsOpenJob(j: Job) { j.status == JobDraft || j.status == JobActive }

  predicate IsCompletedJob(j: Job) { j.status == JobCompleted }

  /** The overdue test at a fixed moment, as a filter over jobs. */
  function OverdueAt(now: Instant): Job -> bool {
    j => IsOverdue(j, now)
  }

  datatype JobStats = JobStats(total: nat, active: nat, completed: nat, overdue: nat, totalValue: real)

  /**
   * `getJobStats()`: the number of jobs, the draft-or-active ones, the
   * completed ones, the overdue ones, and the sum of actual costs.  Active and
   * completed jobs are disjoint, and so are overdue and completed ones.
   */
  function GetJobStats(jobs: seq<Job>, now: Instant): (r: JobStats)
    ensures r.total == |jobs|
    ensures r.active + r.completed <= r.total
    ensures r.overdue + r.completed <= r.total
    ensures r.active == Count(jobs, IsOpenJob) && r.completed == Count(jobs, IsCompletedJob)
    ensures r.overdue == Count(jobs, OverdueAt(now))
  {
    CountDisjoint(jobs, IsOpenJob, IsCompletedJob);
    CountDisjoint(jobs, OverdueAt(now), IsCompletedJob);
    JobStats(|jobs|, Count(jobs, IsOpenJob), Count(jobs, IsCompletedJob), Count(jobs, OverdueAt(now)),
             Sum(jobs, JobActualCost))
  }

  /** The total value and the status counts add up over two batches of jobs. */
  lemma TotalValueAdds(a: seq<Job>, b: seq<Job>, now: Instant)
    ensures GetJobStats(a + b, now).totalValue == GetJobStats(a, now).totalValue + GetJobStats(b, now).totalValue
    ensures GetJobStats(a + b, now).completed == GetJobStats(a, now).completed + GetJobStats(b, now).completed
    ensures GetJobStats(a + b, now).active == GetJobStats(a, now).active + GetJobStats(b, now).active
  {
    SumAppend(a, b, JobActualCost);
    CountAppend(a, b, IsCompletedJob);
    CountAppend(a, b, IsOpenJob);
  }
}
