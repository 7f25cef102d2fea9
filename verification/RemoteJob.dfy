/** internal/executors/http/job.go: what a tracked remote job's responses may change. */
module RemoteJob {
  import opened Domain

  /** One decoded runner response. URL checks are the verdicts of the URL parser, which is not part of this model. */
  datatype Response = Response(
    jobId: string,
    statusUrl: string,
    sameOrigin: bool,              // the status URL shares the submission origin
    status: Option<JobStatus>,     // None for a status outside the contract
    percent: Option<real>,
    finite: bool,                  // the percentage is neither NaN nor infinite
    namedSafeArtifacts: bool,
    seen: Observation)

  datatype Rejection =
    | InvalidStatus | InvalidJobId | ForeignStatusUrl | ChangedJobId | ChangedStatusUrl | InvalidProgress
    | InvalidArtifact

  datatype Applied = Applied(job: ExternalJob) | Rejected(reason: Rejection)

  const MAX_JOB_ID := 256

  predicate White(c: char) { c == ' ' || '\t' <= c <= '\r' || c == 0x85 as char || c == 0xA0 as char }

  predicate Control(c: char) { c < ' ' || 0x7F as char <= c <= 0x9F as char }

  predicate Blank(s: string) { forall c | c in s :: White(c) }

  predicate ValidJobId(id: string) {
    !Blank(id) && |id| <= MAX_JOB_ID && forall c | c in id :: !Control(c)
  }

  function ApplyJobResponse(job: ExternalJob, response: Response, submitting: bool, now: Time): Applied {
    if response.status.None? || response.status.value == Submitting then Rejected(InvalidStatus)
    else if submitting && !ValidJobId(response.jobId) then Rejected(InvalidJobId)
    else if submitting && !response.sameOrigin then Rejected(ForeignStatusUrl)
    else if !submitting && response.jobId != "" && response.jobId != job.jobId then Rejected(ChangedJobId)
    else if !submitting && response.statusUrl != "" && response.statusUrl != job.statusUrl then
      Rejected(ChangedStatusUrl)
    else if response.percent.Some? && !(response.finite && 0.0 <= response.percent.value <= 100.0) then
      Rejected(InvalidProgress)
    else if !response.namedSafeArtifacts then Rejected(InvalidArtifact)
    else
      var identified := if submitting then job.(jobId := response.jobId, statusUrl := response.statusUrl) else job;
      var updated := identified.(status := response.status.value, seen := response.seen, updatedAt := now);
      Applied(updated.(canReconcile := updated.ReconciliationAvailable()))
  }

  /** What the contract asks of an answer: a status, an identity that is usable or the known one, a percentage
      between 0 and 100, and artifacts that can be shown. */
  predicate WellFormed(job: ExternalJob, response: Response, submitting: bool) {
    && response.status in {Some(Queued), Some(JobRunning), Some(JobSucceeded), Some(JobFailed), Some(JobCancelled)}
    && (if submitting
        then response.sameOrigin && |response.jobId| <= 256 && (exists c | c in response.jobId :: !White(c))
             && (forall c | c in response.jobId :: !Control(c))
        else response.jobId in {"", job.jobId} && response.statusUrl in {"", job.statusUrl})
    && (response.percent.Some? ==> response.finite && 0.0 <= response.percent.value <= 100.0)
    && response.namedSafeArtifacts
  }

  lemma AcceptedIff(job: ExternalJob, response: Response, submitting: bool, now: Time)
    ensures ApplyJobResponse(job, response, submitting, now).Applied? <==> WellFormed(job, response, submitting)
    ensures ApplyJobResponse(job, response, submitting, now).Applied? ==>
              var next := ApplyJobResponse(job, response, submitting, now).job;
              && Some(next.status) == response.status && next.seen == response.seen && next.updatedAt == now
  {
  }

  /** A checkpoint without identity is still submitting, and only such a one is. */
  predicate Checkpointable(job: ExternalJob) {
    !job.compacted && (job.jobId == "" <==> job.status == Submitting)
  }

  /** Whatever a runner answers, an accepted response leaves a storable checkpoint: the deadline, the
      submission time and the frozen target stay, an identity appears only on submission and never changes. */
  lemma AppliedResponse(job: ExternalJob, response: Response, submitting: bool, now: Time)
    requires Checkpointable(job) && (submitting <==> job.jobId == "")
    ensures
      var applied := ApplyJobResponse(job, response, submitting, now);
      applied.Applied? ==>
        && Checkpointable(applied.job) && applied.job.jobId != "" && applied.job.status != Submitting
        && applied.job.submittedAt == job.submittedAt && applied.job.deadlineAt == job.deadlineAt
        && applied.job.target == job.target
        && (job.jobId != "" ==> applied.job.jobId == job.jobId && applied.job.statusUrl == job.statusUrl)
        && (job.jobId == "" ==> applied.job.jobId == response.jobId && applied.job.statusUrl == response.statusUrl)
        && applied.job.canReconcile == (!applied.job.Terminal() && applied.job.statusUrl != "")
  {
    assert Blank("");
  }

  // ---------------------------------------------------------------- submission

  const EVENT_FIELD := "_wakeplane_event"

  /** What a submission asks for: the frozen body, and the frozen event under its reserved field. */
  datatype Request = Request(body: Body, event: Option<EventData>)

  function Payload(body: Body, event: Option<EventData>): Option<Request> {
    if event.Some? && EVENT_FIELD in body then None else Some(Request(body, event))
  }

  /** Zero stands for the default, five seconds. */
  predicate PollsInTime(job: HttpJob) { job.pollIntervalSeconds == 0 || 1 <= job.pollIntervalSeconds <= 300 }

  function Upper(c: char): char {
    if 'a' <= c <= 'z' then (c as int - 32) as char else c
  }

  predicate IsPost(verb: string) {
    |verb| == 4 && Upper(verb[0]) == 'P' && Upper(verb[1]) == 'O' && Upper(verb[2]) == 'S' && Upper(verb[3]) == 'T'
  }

  predicate Submittable(target: Target) {
    && target.kind == HttpKind && target.httpJob.Some? && IsPost(target.verb)
    && PollsInTime(target.httpJob.value)
  }

  /** The submission intent, made durable before the first request. */
  function Intent(started: Time, timeoutSeconds: int, target: Target): ExternalJob {
    var job := ExternalJob("", "", Submitting, NO_OBSERVATION, started, started, started + timeoutSeconds * SECOND,
      false, false, target);
    job.(canReconcile := job.ReconciliationAvailable())
  }
}
