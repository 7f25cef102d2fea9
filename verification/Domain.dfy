/** The entities of internal/domain: run and remote-job statuses, occurrence keys, policies, rows. */
module Domain {

  datatype Option<+T> = None | Some(value: T)

  /** Nanoseconds since the Unix epoch. */
  type Time = int

  const SECOND: int := 1_000_000_000

  type ScheduleId = string
  type WorkerId = string
  type RunId = nat    // "run_<ULID>"
  type DeadId = nat   // "dlq_<ULID>"
  type Token = nat    // "lease_<ULID>"

  datatype RunStatus =
    | Pending | Claimed | Running | Succeeded | Failed
    | RetryScheduled | DeadLettered | Cancelled | Skipped

  predicate Active(s: RunStatus) { s == Claimed || s == Running }

  predicate Waiting(s: RunStatus) { s == Pending || s == RetryScheduled }

  predicate Finished(s: RunStatus) {
    s == Succeeded || s == Failed || s == DeadLettered || s == Cancelled || s == Skipped
  }

  datatype JobStatus = Submitting | Queued | JobRunning | JobSucceeded | JobFailed | JobCancelled

  predicate Unresolved(s: JobStatus) { s == Submitting || s == Queued || s == JobRunning }

  datatype OverlapPolicy = OverlapAllow | OverlapForbid | OverlapQueueLatest | OverlapReplace

  datatype RetryStrategy = RetryNone | RetryExponential

  datatype RetryPolicy = RetryPolicy(maxAttempts: int, strategy: RetryStrategy, initialDelay: int, maxDelay: int)

  datatype Policy = Policy(overlap: OverlapPolicy, maxConcurrency: int, retry: RetryPolicy)

  /** A webhook payload is a JSON object; member values stay encoded. */
  type Body = map<string, string>

  datatype HttpJob = HttpJob(pollIntervalSeconds: int, lookupUrl: string)

  datatype TargetKind = NoKind | HttpKind | ShellKind | WorkflowKind

  datatype Target = Target(kind: TargetKind, verb: string, url: string, body: Body, httpJob: Option<HttpJob>)

  const NO_TARGET := Target(NoKind, "", "", map[], None)

  datatype EventData = EventData(source: string, id: string, data: string)

  /** OccurrenceKey: a cadence slot truncated to the second, a manual run, or a hashed event identity. */
  datatype Key =
    | Slot(schedule: ScheduleId, second: int)
    | Manual(run: RunId)
    | Event(schedule: ScheduleId, source: string, eventId: string)

  datatype Detail = Detail(httpStatus: Option<int>, exitCode: Option<int>, result: string, error: Option<string>)

  const NO_DETAIL := Detail(None, None, "", None)

  datatype Run = Run(
    id: RunId,
    schedule: ScheduleId,
    key: Key,
    nominal: Time,
    due: Time,
    status: RunStatus,
    attempt: nat,
    owner: Option<WorkerId>,
    claimExpires: Option<Time>,
    startedAt: Option<Time>,
    finishedAt: Option<Time>,
    detail: Detail,
    retryAt: Option<Time>,
    createdAt: Time,
    updatedAt: Time)

  /** The columns no transaction rewrites. */
  predicate SameIdentity(a: Run, b: Run) {
    a.id == b.id && a.schedule == b.schedule && a.key == b.key && a.attempt == b.attempt && a.createdAt == b.createdAt
  }

  /** What a remote observation reports besides identity and status. */
  datatype Observation = Observation(progress: string, result: string, artifacts: seq<string>, error: string)

  const NO_OBSERVATION := Observation("", "", [], "")

  /** domain.ExternalJob. An empty jobId means that remote acceptance is not known. */
  datatype ExternalJob = ExternalJob(
    jobId: string,
    statusUrl: string,
    status: JobStatus,
    seen: Observation,
    submittedAt: Time,
    updatedAt: Time,
    deadlineAt: Time,
    compacted: bool,
    canReconcile: bool,
    target: Target)
  {
    predicate Terminal() {
      status == JobSucceeded || status == JobFailed || status == JobCancelled
    }

    predicate HasLookup() {
      target.httpJob.Some? && target.httpJob.value.lookupUrl != ""
    }

    predicate ReconciliationAvailable() {
      !compacted && !Terminal()
      && ((jobId != "" && statusUrl != "") || (status == Submitting && HasLookup()))
    }

    /** The JSON form leaves the request target out. */
    function Json(): ExternalJob { this.(target := NO_TARGET) }
  }

  datatype DeadLetter = DeadLetter(run: RunId, schedule: ScheduleId, key: Key, reason: string, payload: string,
    createdAt: Time)

  /** Replacing a file: confirmed, failed with the old file in place, or failed after the rename took effect. */
  datatype Write = Confirmed | FailedBefore | FailedAfterRename

  function Min(a: int, b: int): int { if a <= b then a else b }

  /** A subset of a finite set is no larger. */
  lemma SubsetCardinality<T>(a: set<T>, b: set<T>)
    requires a <= b
    ensures |a| <= |b|
  {
    if a != {} {
      var x :| x in a;
      SubsetCardinality(a - {x}, b - {x});
    }
  }
}
