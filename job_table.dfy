/**
 * The job table: the status button each row offers, the Mark Complete
 * button, the error shown when a status change fails, and the footer.
 */
module JobTable {
  import opened Wrappers
  import opened Lists
  import opened Records
  import opened JobService

  /** A row's status button: the status it moves the job to and its title. */
  datatype StatusAction = StatusAction(next: JobStatus, title: string)

  /** `getStatusAction(job)`: start a draft, put an active job on hold, resume a held one; no button otherwise. */
  function GetStatusAction(status: JobStatus): (r: Option<StatusAction>)
    ensures r.Some? <==> status in {JobDraft, JobActive, OnHold}
    ensures r.Some? ==> r.value.next in {JobActive, OnHold} && r.value.next != status
    ensures r.Some? && r.value.next == OnHold <==> status == JobActive
  {
    match status
    case JobDraft => Some(StatusAction(JobActive, "Start Job"))
    case JobActive => Some(StatusAction(OnHold, "Put On Hold"))
    case OnHold => Some(StatusAction(JobActive, "Resume Job"))
    case _ => None
  }

  /** Putting a job on hold and resuming it brings it back to active, and from there the button offers the hold again. */
  lemma HoldResumeCycle()
    ensures GetStatusAction(GetStatusAction(JobActive).value.next).value.next == JobActive
    ensures GetStatusAction(GetStatusAction(OnHold).value.next).value.next == OnHold
  {
  }

  /** The Mark Complete button is shown on every row but a completed one, a cancelled job included. */
  predicate ShowsMarkComplete(status: JobStatus) {
    status != JobCompleted
  }

  /** The statuses one click on a row can move a job to. */
  function ButtonTargets(status: JobStatus): (r: set<JobStatus>)
    ensures JobCompleted in r <==> ShowsMarkComplete(status)
    ensures JobCancelled !in r && JobDraft !in r
    ensures status == JobCompleted ==> r == {}
  {
    (if GetStatusAction(status).Some? then {GetStatusAction(status).value.next} else {})
    + (if ShowsMarkComplete(status) then {JobCompleted} else {})
  }

  /** A cancelled job offers only Mark Complete: it can be completed from the table but not restarted. */
  lemma CancelledCanOnlyComplete()
    ensures ButtonTargets(JobCancelled) == {JobCompleted}
  {
  }

  /** No sequence of clicks returns a job to draft or cancels it, and once completed it offers nothing more. */
  lemma {:induction false} ClicksStayInReach(start: JobStatus, path: seq<JobStatus>)
    requires |path| > 0 && path[0] in ButtonTargets(start)
    requires forall i :: 0 < i < |path| ==> path[i] in ButtonTargets(path[i - 1])
    ensures forall i :: 0 <= i < |path| ==> path[i] in {JobActive, OnHold, JobCompleted}
    ensures forall i :: 0 <= i < |path| - 1 ==> path[i] != JobCompleted
    decreases |path|
  {
    if |path| > 1 {
      ClicksStayInReach(start, path[..|path| - 1]);
      assert path[|path| - 1] in ButtonTargets(path[|path| - 2]);
    }
  }

  /**
   * `handleStatusChange(job, newStatus)`: the status update; a failure shows
   * the service's message, a success clears the error.
   */
  function HandleStatusChange(rows: seq<Job>, job: Job, newStatus: JobStatus, now: Instant): (r: (Result<Job, string>, Option<string>))
    ensures r.0 == UpdateStatus(rows, job.id, newStatus, now)
    ensures r.1.Some? <==> FindById(rows, job.id, JobId).None?
    ensures r.1.Some? ==> r.1.value == UpdateJobFailed
  {
    var result := UpdateStatus(rows, job.id, newStatus, now);
    (result, if result.Err? then Some(result.error) else None)
  }

  /** Mark Complete on a job the table lists stamps it completed today. */
  lemma MarkCompleteStampsToday(rows: seq<Job>, job: Job, now: Instant)
    requires job in rows && ShowsMarkComplete(job.status)
    ensures var (result, error) := HandleStatusChange(rows, job, JobCompleted, now);
      error.None? && result.Ok? && result.value.status == JobCompleted && result.value.completedDate == Some(now.date)
  {
    var i :| 0 <= i < |rows| && rows[i] == job;
    assert JobId(rows[i]) == job.id;
  }

  /** The footer: the number of jobs shown, the draft-or-active and completed counts, and the total actual cost. */
  datatype Footer = Footer(shown: nat, active: nat, completed: nat, totalValue: real)

  function GetFooter(jobs: seq<Job>): (r: Footer)
    ensures r.shown == |jobs| && r.active + r.completed <= r.shown
  {
    CountDisjoint(jobs, IsOpenJob, IsCompletedJob);
    Footer(|jobs|, Count(jobs, IsOpenJob), Count(jobs, IsCompletedJob), Sum(jobs, JobActualCost))
  }

  /** The footer and the service's statistics agree on every figure they share, at any moment. */
  lemma FooterAgreesWithStats(jobs: seq<Job>, now: Instant)
    ensures var f, s := GetFooter(jobs), GetJobStats(jobs, now);
      f.shown == s.total && f.active == s.active && f.completed == s.completed && f.totalValue == s.totalValue
  {
  }

  /** `job{jobs.length !== 1 ? 's' : ''}`. */
  function JobsWord(n: nat): (r: string)
    ensures r == "job" <==> n == 1
    ensures r == "jobs" <==> n != 1
  {
    if n != 1 then "jobs" else "job"
  }
}
