/** The durable tables and, transaction by transaction, what internal/store does to them.
    Each function gives the committed tables and the error of one transaction; an error
    always means a rollback. Timestamps compare as instants (see module Timestamps). */
module Ledger {
  import opened Domain

  /** worker_leases, keyed by lease_key: the table's UNIQUE column, always the run id. */
  datatype Lease = Lease(token: Token, worker: WorkerId, acquiredAt: Time, expiresAt: Time, heartbeatAt: Time)

  /** target_snapshot_json: the frozen request target, or '{}' once compacted. */
  datatype Snapshot = Frozen(target: Target) | Erased

  datatype JobRow = JobRow(
    schedule: ScheduleId,
    checkpoint: ExternalJob,
    status: JobStatus,
    compacted: bool,
    snapshot: Snapshot,
    createdAt: Time,
    updatedAt: Time)

  datatype EventRow = EventRow(schedule: ScheduleId, event: EventData, run: RunId, createdAt: Time)

  datatype Db = Db(
    enabled: map<ScheduleId, bool>,
    runs: map<RunId, Run>,
    leases: map<RunId, Lease>,
    jobs: map<Key, JobRow>,
    events: map<Key, EventRow>,
    dead: map<DeadId, DeadLetter>)

  datatype Error =
    | LeaseLost | NoRows | NotFound | Conflict | AlreadyExists | ForeignKey
    | SnapshotImmutable | IdentityImmutable | TerminalImmutable
    | EventConflict | SchedulePaused | HistoryPruned

  datatype Tx = Tx(db: Db, err: Option<Error>)

  // ---------------------------------------------------------------- locks

  function LockRunLease(db: Db, id: RunId, worker: WorkerId, token: Token, now: Time,
                        requireUnexpired: bool): Option<Error> {
    if id !in db.runs then Some(NoRows)
    else if !Active(db.runs[id].status) || db.runs[id].owner != Some(worker) then Some(LeaseLost)
    else if id !in db.leases || db.leases[id].token != token || db.leases[id].worker != worker then Some(LeaseLost)
    else if requireUnexpired && db.leases[id].expiresAt <= now then Some(LeaseLost)
    else None
  }

  function LockExpiredRunningRun(db: Db, id: RunId, now: Time): Option<Error> {
    if id !in db.runs then Some(NoRows)
    else if db.runs[id].status != Running || db.runs[id].owner.None? then Some(LeaseLost)
    else if id !in db.leases then Some(LeaseLost)
    else if Some(db.leases[id].worker) != db.runs[id].owner || db.leases[id].expiresAt > now then Some(LeaseLost)
    else None
  }

  /** DELETE FROM worker_leases WHERE id = token. */
  function DropToken(leases: map<RunId, Lease>, token: Token): map<RunId, Lease> {
    map id | id in leases && leases[id].token != token :: leases[id]
  }

  // ---------------------------------------------------------------- insertion

  predicate HasAttempt(runs: map<RunId, Run>, key: Key, attempt: nat) {
    exists id | id in runs :: runs[id].key == key && runs[id].attempt == attempt
  }

  function InsertRun(db: Db, run: Run): Tx {
    if run.id in db.runs || HasAttempt(db.runs, run.key, run.attempt) then Tx(db, Some(AlreadyExists))
    else if run.schedule !in db.enabled then Tx(db, Some(ForeignKey))
    else Tx(db.(runs := db.runs[run.id := run]), None)
  }

  function FreshRun(id: RunId, schedule: ScheduleId, key: Key, nominal: Time, now: Time): Run {
    Run(id, schedule, key, nominal, nominal, Pending, 1, None, None, None, None, NO_DETAIL, None, now, now)
  }

  /** A delivery answers with the run recorded for the event, and whether this delivery created it. */
  datatype EventTx = EventTx(db: Db, run: RunId, created: bool, err: Option<Error>)

  function TriggerEvent(db: Db, schedule: ScheduleId, event: EventData, id: RunId, now: Time): EventTx {
    var key := Event(schedule, event.source, event.id);
    if schedule !in db.enabled then EventTx(db, id, false, Some(NotFound))
    else if key in db.events then
      var recorded := db.events[key].run;
      if db.events[key].event != event then EventTx(db, recorded, false, Some(EventConflict))
      else if recorded !in db.runs then EventTx(db, recorded, false, Some(HistoryPruned))
      else EventTx(db, recorded, false, None)
    else if !db.enabled[schedule] then EventTx(db, id, false, Some(SchedulePaused))
    else if id in db.runs || HasAttempt(db.runs, key, 1) then EventTx(db, id, false, Some(AlreadyExists))
    else EventTx(db.(events := db.events[key := EventRow(schedule, event, id, now)],
                     runs := db.runs[id := FreshRun(id, schedule, key, now, now)]), id, true, None)
  }

  // ---------------------------------------------------------------- claims and leases

  /** activeOccurrenceQuery without the excluded key: claimed or running runs united with unresolved remote jobs. */
  function ActiveOccurrences(db: Db, schedule: ScheduleId): set<Key> {
    (set id | id in db.runs && db.runs[id].schedule == schedule && Active(db.runs[id].status) :: db.runs[id].key)
    + (set k | k in db.jobs && db.jobs[k].schedule == schedule && Unresolved(db.jobs[k].status))
  }

  function ActiveOtherCount(db: Db, schedule: ScheduleId, key: Key): nat {
    |ActiveOccurrences(db, schedule) - {key}|
  }

  predicate PolicyAdmits(db: Db, schedule: ScheduleId, key: Key, policy: Policy) {
    var n := ActiveOtherCount(db, schedule, key);
    n < policy.maxConcurrency && (n == 0 || policy.overlap == OverlapAllow)
  }

  predicate SameOccurrenceActive(runs: map<RunId, Run>, id: RunId, key: Key) {
    exists other | other in runs && other != id :: runs[other].key == key && Active(runs[other].status)
  }

  datatype ClaimTx = ClaimTx(db: Db, claimed: bool, err: Option<Error>)

  function ClaimRun(db: Db, schedule: ScheduleId, policy: Policy, id: RunId, worker: WorkerId, now: Time, ttl: int,
                    token: Token): ClaimTx {
    if id !in db.runs then ClaimTx(db, false, Some(NotFound))
    else if db.runs[id].schedule != schedule then ClaimTx(db, false, Some(Conflict))
    else if !Waiting(db.runs[id].status)
         || SameOccurrenceActive(db.runs, id, db.runs[id].key)
         || !PolicyAdmits(db, schedule, db.runs[id].key, policy) then ClaimTx(db, false, None)
    else
      ClaimTx(db.(runs := db.runs[id := db.runs[id].(status := Claimed, owner := Some(worker),
        claimExpires := Some(now + ttl), updatedAt := now)],
                  leases := db.leases[id := Lease(token, worker, now, now + ttl, now)]), true, None)
  }

  function MarkRunning(db: Db, id: RunId, worker: WorkerId, token: Token, now: Time): Tx {
    var lock := LockRunLease(db, id, worker, token, now, true);
    if lock.Some? then Tx(db, lock)
    else
      var row := db.runs[id];
      Tx(db.(runs := db.runs[id := row.(status := Running,
                                        startedAt := if row.startedAt.Some? then row.startedAt else Some(now),
                                        updatedAt := now)]), None)
  }

  function RenewLease(db: Db, id: RunId, worker: WorkerId, token: Token, now: Time, ttl: int): Tx {
    var lock := LockRunLease(db, id, worker, token, now, true);
    if lock.Some? then Tx(db, lock)
    else
      Tx(db.(leases := db.leases[id := db.leases[id].(expiresAt := now + ttl, heartbeatAt := now)],
             runs := db.runs[id := db.runs[id].(claimExpires := Some(now + ttl), updatedAt := now)]), None)
  }

  function Released(row: Run, now: Time): Run {
    row.(status := Pending, owner := None, claimExpires := None, updatedAt := now)
  }

  function ResetClaimedRun(db: Db, id: RunId, now: Time): Tx {
    if id !in db.runs then Tx(db, Some(NoRows))
    else if db.runs[id].status != Claimed || id !in db.leases || db.leases[id].expiresAt > now then Tx(db, None)
    else
      Tx(db.(runs := db.runs[id := Released(db.runs[id], now)],
             leases := DropToken(db.leases, db.leases[id].token)), None)
  }

  function RequeueExternalRun(db: Db, id: RunId, worker: WorkerId, token: Token, now: Time, expired: bool): Tx {
    if !expired then
      var lock := LockRunLease(db, id, worker, token, now, true);
      if lock.Some? then Tx(db, lock)
      else Tx(db.(runs := db.runs[id := Released(db.runs[id], now)], leases := DropToken(db.leases, token)), None)
    else if id !in db.runs then Tx(db, Some(NoRows))
    else if id !in db.leases then Tx(db, Some(LeaseLost))
    else if db.runs[id].status != Running || db.leases[id].expiresAt > now then Tx(db, Some(LeaseLost))
    else Tx(db.(runs := db.runs[id := Released(db.runs[id], now)],
                leases := DropToken(db.leases, db.leases[id].token)), None)
  }

  // ---------------------------------------------------------------- finalisation

  /** The row an UPDATE leaves when an attempt with outcome `run` is finished by `worker`. */
  function FinishedRow(row: Run, run: Run, worker: WorkerId, now: Time): Run {
    row.(status := run.status, owner := Some(worker), claimExpires := None, startedAt := run.startedAt,
         finishedAt := run.finishedAt, detail := run.detail, retryAt := run.retryAt, updatedAt := now)
  }

  function RetryRow(retry: Run): Run {
    retry.(owner := None, claimExpires := None, startedAt := None, finishedAt := None, detail := NO_DETAIL)
  }

  function WithRetry(runs: map<RunId, Run>, retry: Option<Run>): map<RunId, Run> {
    if retry.None? || HasAttempt(runs, retry.value.key, retry.value.attempt) then runs
    else runs[retry.value.id := RetryRow(retry.value)]
  }

  function FinishExternalRun(db: Db, run: Run, worker: WorkerId, token: Token,
                             retry: Option<Run>, deadId: DeadId, dead: Option<DeadLetter>, now: Time,
                             expired: bool): Tx {
    var lock := if expired then LockExpiredRunningRun(db, run.id, now)
                else LockRunLease(db, run.id, worker, token, now, false);
    if lock.Some? then Tx(db, lock)
    else
      var lease := db.leases[run.id];
      var runs := db.runs[run.id := FinishedRow(db.runs[run.id], run, lease.worker, now)];
      Tx(db.(runs := WithRetry(runs, retry),
             leases := DropToken(db.leases, lease.token),
             dead := if dead.Some? then db.dead[deadId := dead.value] else db.dead), None)
  }

  /** The unfenced FinishRun: an UPDATE by id, then a lease delete when finished_at is set. */
  function FinishRun(db: Db, run: Run): Db {
    if run.id !in db.runs then db
    else
      var row := db.runs[run.id].(status := run.status, owner := run.owner, claimExpires := run.claimExpires,
                                  startedAt := run.startedAt, finishedAt := run.finishedAt, detail := run.detail,
                                  retryAt := run.retryAt, updatedAt := run.updatedAt);
      db.(runs := db.runs[run.id := row], leases := if run.finishedAt.Some? then db.leases - {run.id} else db.leases)
  }

  // ---------------------------------------------------------------- remote-job checkpoints

  function Decode(row: JobRow): ExternalJob {
    var job := row.checkpoint.(target := if row.snapshot.Frozen? then row.snapshot.target else NO_TARGET);
    job.(canReconcile := job.ReconciliationAvailable())
  }

  function GetExternalJob(db: Db, key: Key): Option<ExternalJob> {
    if key in db.jobs then Some(Decode(db.jobs[key])) else None
  }

  function CheckpointConflict(row: JobRow, job: ExternalJob): Option<Error> {
    var prior := Decode(row);
    if prior.deadlineAt != job.deadlineAt || prior.submittedAt != job.submittedAt
      || row.snapshot != Frozen(job.target) then
      Some(SnapshotImmutable)
    else if prior.jobId != "" && (prior.jobId != job.jobId || prior.statusUrl != job.statusUrl) then
      Some(IdentityImmutable)
    else if prior.Terminal() && prior.(updatedAt := job.updatedAt).Json() != job.Json() then
      Some(TerminalImmutable)
    else None
  }

  function SaveExternalJob(db: Db, run: Run, worker: WorkerId, token: Token, given: ExternalJob, now: Time): Tx {
    var job := given.(canReconcile := given.ReconciliationAvailable());
    var lock := LockRunLease(db, run.id, worker, token, now, true);
    if lock.Some? then Tx(db, lock)
    else if run.key in db.jobs && CheckpointConflict(db.jobs[run.key], job).Some? then
      Tx(db, CheckpointConflict(db.jobs[run.key], job))
    else
      var stored := job.(updatedAt := now).Json();
      var row := if run.key in db.jobs
                 then db.jobs[run.key].(checkpoint := stored, status := job.status, updatedAt := now)
                 else JobRow(run.schedule, stored, job.status, false, Frozen(job.target), job.submittedAt, now);
      Tx(db.(jobs := db.jobs[run.key := row]), None)
  }

  predicate OccurrenceOpen(runs: map<RunId, Run>, key: Key) {
    exists id | id in runs :: runs[id].key == key && (Waiting(runs[id].status) || Active(runs[id].status))
  }

  function ReconcileConflict(row: JobRow, expected: ExternalJob, observed: ExternalJob): bool {
    var current := Decode(row);
    || current.compacted || current.Terminal()
    || current.Json() != expected.Json() || row.snapshot != Frozen(expected.target)
    || (if current.jobId == ""
        then current.status != Submitting || !current.HasLookup() || observed.jobId == "" || observed.statusUrl == ""
        else current.jobId != observed.jobId || current.statusUrl != observed.statusUrl)
    || current.deadlineAt != observed.deadlineAt || current.submittedAt != observed.submittedAt
    || row.snapshot != Frozen(observed.target)
  }

  function ReconcileExternalJob(db: Db, run: Run, expected: ExternalJob, observed: ExternalJob, now: Time): Tx {
    if OccurrenceOpen(db.runs, run.key) then Tx(db, Some(Conflict))
    else if run.key !in db.jobs then Tx(db, Some(NoRows))
    else if ReconcileConflict(db.jobs[run.key], expected, observed) then Tx(db, Some(Conflict))
    else if run.id !in db.runs then Tx(db, Some(ForeignKey))   // the evidence receipt references the run
    else
      var job := observed.(updatedAt := now, canReconcile := observed.ReconciliationAvailable());
      Tx(db.(jobs := db.jobs[run.key := db.jobs[run.key].(checkpoint := job.Json(), status := observed.status,
        updatedAt := now)]), None)
  }

  // ---------------------------------------------------------------- retention

  predicate Prunable(db: Db, row: Run, cutoff: Time) {
    && row.finishedAt.Some? && row.finishedAt.value < cutoff
    && Finished(row.status)
    && !(row.key in db.jobs && Unresolved(db.jobs[row.key].status))
  }

  predicate KeyPresent(runs: map<RunId, Run>, key: Key) {
    exists id | id in runs :: runs[id].key == key
  }

  function Tombstone(row: JobRow): JobRow {
    row.(checkpoint := row.checkpoint.(statusUrl := "", seen := NO_OBSERVATION, compacted := true,
      canReconcile := false),
         snapshot := Erased, compacted := true)
  }

  predicate Compactable(row: JobRow, runs: map<RunId, Run>, key: Key) {
    !row.compacted && !Unresolved(row.status) && !KeyPresent(runs, key)
  }

  function Compact(db: Db): Db {
    db.(jobs := map k | k in db.jobs :: if Compactable(db.jobs[k], db.runs, k) then Tombstone(db.jobs[k])
      else db.jobs[k])
  }

  /** DELETE with its foreign-key cascades to leases and dead letters. */
  function DeletePrunable(db: Db, cutoff: Time): Db {
    var runs := map id | id in db.runs && !Prunable(db, db.runs[id], cutoff) :: db.runs[id];
    db.(runs := runs,
        leases := map id | id in db.leases && id in runs :: db.leases[id],
        dead := map d | d in db.dead && db.dead[d].run in runs :: db.dead[d])
  }

  function Prune(db: Db, cutoff: Time): Db {
    Compact(DeletePrunable(db, cutoff))
  }

  // ---------------------------------------------------------------- queue coalescing

  const SUPERSEDED := "superseded by newer queued occurrence"
  const REPLACE_DOWNGRADED := "replace overlap downgraded to queued latest until current execution exits"

  /** The snapshot enforceQueuePolicy hands to FinishRun. */
  function SkippedRow(row: Run, overlap: OverlapPolicy, now: Time): Run {
    row.(status := Skipped, finishedAt := Some(now), updatedAt := now,
         detail := row.detail.(error := Some(if overlap == OverlapReplace then REPLACE_DOWNGRADED else SUPERSEDED)))
  }

  function SkipAll(db: Db, skip: set<RunId>, overlap: OverlapPolicy, now: Time): Db {
    db.(runs := map id | id in db.runs :: if id in skip then SkippedRow(db.runs[id], overlap, now) else db.runs[id],
        leases := db.leases - skip)
  }

  function Coalesce(db: Db, schedule: ScheduleId, overlap: OverlapPolicy, keep: RunId, now: Time): Db {
    SkipAll(db, Unsubmitted(db, schedule) - {keep}, overlap, now)
  }

  // ---------------------------------------------------------------- reads the dispatcher makes

  /** ListExpiredLeases: the runs whose lease has run out at `now`. */
  function ExpiredRuns(db: Db, now: Time): set<RunId> {
    set id | id in db.leases && id in db.runs && db.leases[id].expiresAt <= now
  }

  /** ClaimedExpiredCount reads the denormalised column instead. */
  function ClaimedExpired(db: Db, now: Time): set<RunId> {
    set id | id in db.runs && Active(db.runs[id].status) && db.runs[id].claimExpires.Some?
      && db.runs[id].claimExpires.value <= now
  }

  /** Waiting runs of a schedule whose occurrence has no remote job yet. */
  function Unsubmitted(db: Db, schedule: ScheduleId): set<RunId> {
    set id | id in db.runs && db.runs[id].schedule == schedule && Waiting(db.runs[id].status)
      && db.runs[id].key !in db.jobs
  }

  /** ORDER BY due_time, created_at. */
  predicate NotAfter(a: Run, b: Run) {
    a.due < b.due || (a.due == b.due && a.createdAt <= b.createdAt)
  }

  predicate InDueOrder(items: seq<Run>) {
    forall i, j | 0 <= i < j < |items| :: NotAfter(items[i], items[j])
  }

  function WaitingRuns(db: Db, schedule: ScheduleId): set<RunId> {
    set id | id in db.runs && db.runs[id].schedule == schedule && Waiting(db.runs[id].status)
  }

  /** Runs a dispatcher may start at `now`: pending ones that are due, and retries whose time has come. */
  function Candidates(db: Db, now: Time): set<RunId> {
    set id | id in db.runs
             && ((db.runs[id].status == Pending && db.runs[id].due <= now)
                 || (db.runs[id].status == RetryScheduled && db.runs[id].retryAt.Some?
                      && db.runs[id].retryAt.value <= now))
  }

  function Ids(items: seq<Run>): set<RunId> { set r | r in items :: r.id }

  /** A query result: each of the rows once, as stored. */
  predicate Lists(items: seq<Run>, ids: set<RunId>, runs: map<RunId, Run>) {
    && Ids(items) == ids
    && (forall r | r in items :: r.id in runs && runs[r.id] == r)
    && (forall i, j | 0 <= i < j < |items| :: items[i].id != items[j].id)
  }
}
