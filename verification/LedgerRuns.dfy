/** Whole runs of the ledger. Any number of workers, heartbeats, recovery passes, planners, operators
    and retention jobs interleave one transaction at a time, acting on stale reads and stale tokens. */
module LedgerRuns {
  import opened Domain
  import opened Ledger
  import opened Outcome
  import opened RemoteJob
  import opened LedgerInvariants

  /** A row some actor read earlier, with the clock at that moment. */
  datatype Read = Read(run: Run, at: Time)

  datatype Cause = Finish | OwnedRelease | ClaimReset | ExpiryFailure | ExpiryRequeue | NotARetirement

  /** The tables plus history: the clock, every token issued or retired, every id used, every row read. */
  datatype World = World(
    db: Db,
    clock: Time,
    issued: set<Token>,
    retired: map<Token, Cause>,
    known: set<Read>,
    ids: set<RunId>,
    deadIds: set<DeadId>)

  datatype Op =
    | Advance(to: Time)
    | ReadRun(id: RunId)
    | SetEnabled(schedule: ScheduleId, on: bool)
    | Insert(run: Run)
    | Deliver(schedule: ScheduleId, event: EventData, id: RunId, now: Time)
    | Claim(schedule: ScheduleId, policy: Policy, id: RunId, worker: WorkerId, now: Time, ttl: int, token: Token)
    | Start(id: RunId, worker: WorkerId, token: Token, now: Time)
    | Renew(id: RunId, worker: WorkerId, token: Token, now: Time, ttl: int)
    | Save(read: Read, worker: WorkerId, token: Token, job: ExternalJob, now: Time)
    | Complete(read: Read, worker: WorkerId, token: Token, retry: RetryPolicy, result: Result,
               startedAt: Time, finishedAt: Time, retryId: RunId, deadId: DeadId, now: Time)
    | Release(id: RunId, worker: WorkerId, token: Token, now: Time)
    | RecoverClaimed(id: RunId, now: Time)
    | RecoverTracked(id: RunId, now: Time)
    | RecoverOrdinary(read: Read, retry: RetryPolicy, finishedAt: Time, retryId: RunId, deadId: DeadId)
    | Reconcile(read: Read, expected: ExternalJob, observed: ExternalJob, now: Time)
    | EnforceQueue(schedule: ScheduleId, overlap: OverlapPolicy, keep: RunId)
    | PruneBefore(cutoff: Time)

  const EXPIRED_RESULT := Result(None, None, "", Some("worker lease expired during execution"), false, false, false)

  function CompleteTx(db: Db, op: Op): Tx
    requires op.Complete?
  {
    var done := Outcome.Complete(op.read.run, op.retry, op.result, op.startedAt, op.finishedAt, op.retryId);
    FinishExternalRun(db, done.run, op.worker, op.token, done.retry, op.deadId, done.dead, op.now, false)
  }

  function RecoverOrdinaryTx(db: Db, op: Op): Tx
    requires op.RecoverOrdinary?
  {
    var done := Outcome.Complete(op.read.run, op.retry, EXPIRED_RESULT, op.finishedAt, op.finishedAt, op.retryId);
    FinishExternalRun(db, done.run, "", 0, done.retry, op.deadId, done.dead, op.finishedAt, true)
  }

  function Apply(db: Db, op: Op, clock: Time): Db {
    match op
    case Advance(_) => db
    case ReadRun(_) => db
    case SetEnabled(schedule, on) => db.(enabled := db.enabled[schedule := on])
    case Insert(run) => InsertRun(db, run).db
    case Deliver(schedule, event, id, now) => TriggerEvent(db, schedule, event, id, now).db
    case Claim(schedule, policy, id, worker, now, ttl, token) => ClaimRun(db, schedule, policy, id, worker, now, ttl,
      token).db
    case Start(id, worker, token, now) => MarkRunning(db, id, worker, token, now).db
    case Renew(id, worker, token, now, ttl) => RenewLease(db, id, worker, token, now, ttl).db
    case Save(read, worker, token, job, now) => SaveExternalJob(db, read.run, worker, token, job, now).db
    case Complete(_, _, _, _, _, _, _, _, _, _) => CompleteTx(db, op).db
    case Release(id, worker, token, now) => RequeueExternalRun(db, id, worker, token, now, false).db
    case RecoverClaimed(id, now) => ResetClaimedRun(db, id, now).db
    case RecoverTracked(id, now) => RequeueExternalRun(db, id, "", 0, now, true).db
    case RecoverOrdinary(_, _, _, _, _) => RecoverOrdinaryTx(db, op).db
    case Reconcile(read, expected, observed, now) => ReconcileExternalJob(db, read.run, expected, observed, now).db
    case EnforceQueue(schedule, overlap, keep) => Coalesce(db, schedule, overlap, keep, clock)
    case PruneBefore(cutoff) => Prune(db, cutoff)
  }

  function CauseOf(op: Op): Cause {
    match op
    case Complete(_, _, _, _, _, _, _, _, _, _) => Finish
    case Release(_, _, _, _) => OwnedRelease
    case RecoverClaimed(_, _) => ClaimReset
    case RecoverOrdinary(_, _, _, _, _) => ExpiryFailure
    case RecoverTracked(_, _) => ExpiryRequeue
    case _ => NotARetirement
  }

  function Step(w: World, op: Op): World {
    var db := Apply(w.db, op, w.clock);
    var gone := LiveTokens(w.db.leases) - LiveTokens(db.leases);
    World(
      db,
      if op.Advance? then op.to else w.clock,
      w.issued + LiveTokens(db.leases),
      w.retired + (map t | t in gone :: CauseOf(op)),
      if op.ReadRun? && op.id in w.db.runs then w.known + {Read(w.db.runs[op.id], w.clock)} else w.known,
      w.ids + db.runs.Keys,
      w.deadIds + db.dead.Keys)
  }

  /** A first attempt as the planner or a manual trigger writes it. A replayed slot may collide
      with its own first attempt. */
  predicate FirstAttempt(run: Run, db: Db, clock: Time) {
    && run.attempt == 1 && !run.key.Event?
    && run.owner.None? && run.claimExpires.None?
    && (run.status == Pending || (run.status == Skipped && run.finishedAt == Some(run.createdAt)))
    && run.createdAt <= clock
    && (KeyPresent(db.runs, run.key) ==> HasAttempt(db.runs, run.key, 1))
  }

  predicate LatestUnsubmitted(db: Db, schedule: ScheduleId, keep: RunId) {
    && keep in Unsubmitted(db, schedule)
    && forall id | id in Unsubmitted(db, schedule) :: NotAfter(db.runs[id], db.runs[keep])
  }

  /** What callers guarantee: ids and tokens are fresh, times come from the clock, rows were read earlier. */
  predicate Enabled(w: World, op: Op) {
    match op
    case Advance(to) => w.clock <= to
    case ReadRun(_) => true
    case SetEnabled(_, _) => true
    case Insert(run) => run.id !in w.ids && FirstAttempt(run, w.db, w.clock)
    case Deliver(_, _, id, now) => id !in w.ids && now <= w.clock
    case Claim(_, _, _, _, now, _, token) => token !in w.issued && now <= w.clock
    case Start(_, _, _, now) => now <= w.clock
    case Renew(_, _, _, now, _) => now <= w.clock
    case Save(read, _, _, job, now) => read in w.known && Checkpointable(job) && now <= w.clock
    case Complete(read, _, _, _, _, _, finishedAt, retryId, deadId, now) =>
      read in w.known && read.at <= finishedAt <= now <= w.clock && retryId !in w.ids && deadId !in w.deadIds
    case Release(_, _, _, now) => now <= w.clock
    case RecoverClaimed(_, now) => now <= w.clock
    case RecoverTracked(_, now) => now <= w.clock
    case RecoverOrdinary(read, _, finishedAt, retryId, deadId) =>
      read in w.known && read.at <= finishedAt <= w.clock && retryId !in w.ids && deadId !in w.deadIds
    case Reconcile(read, _, observed, now) => read in w.known && Checkpointable(observed) && now <= w.clock
    case EnforceQueue(schedule, _, keep) =>
      Unsubmitted(w.db, schedule) != {} ==> LatestUnsubmitted(w.db, schedule, keep)
    case PruneBefore(_) => true
  }

  function EmptyDb(schedules: map<ScheduleId, bool>): Db { Db(schedules, map[], map[], map[], map[], map[]) }

  predicate Initial(w: World) {
    && w.db == EmptyDb(w.db.enabled)
    && w.issued == {} && w.retired == map[] && w.known == {} && w.ids == {} && w.deadIds == {}
  }

  /** states[0], op[0], states[1], op[1], ... is a run of the system. */
  ghost predicate Behaviour(states: seq<World>, ops: seq<Op>) {
    && |states| == |ops| + 1
    && Initial(states[0])
    && forall i {:trigger ops[i]} | 0 <= i < |ops| ::
          Enabled(states[i], ops[i]) && states[i + 1] == Step(states[i], ops[i])
  }

  // ---------------------------------------------------------------- invariants

  ghost predicate TablesOk(db: Db) {
    && Rows(db.runs) && Chain(db.runs)
    && Agreement(db.runs, db.leases)
    && JobsAgree(db.jobs)
    && EventsAgree(db.runs, db.events)
    && DeadAgree(db.runs, db.dead)
  }

  ghost predicate HistoryOk(w: World) {
    && w.db.runs.Keys <= w.ids && w.db.dead.Keys <= w.deadIds
    && (forall id | id in w.db.runs :: w.db.runs[id].createdAt <= w.clock)
    && (forall r | r in w.known ::
          && r.at <= w.clock && r.run.createdAt <= r.at && r.run.id in w.ids
          && (r.run.id in w.db.runs ==> SameIdentity(r.run, w.db.runs[r.run.id]))
          && (r.run.key.Event? ==> r.run.key in w.db.events))
    && w.issued == LiveTokens(w.db.leases) + w.retired.Keys
    && LiveTokens(w.db.leases) !! w.retired.Keys
    && (forall t | t in w.retired :: w.retired[t] != NotARetirement)
  }

  ghost predicate Inv(w: World) { TablesOk(w.db) && HistoryOk(w) }
}
