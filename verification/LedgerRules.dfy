/** What each transaction of the ledger grants, refuses and writes, in terms of the tables it finds: when a claim goes
    through, what a report makes of a run, how long a lease holds, what a checkpoint may say, what retention takes. */
module LedgerRules {
  import opened Domain
  import opened Ledger
  import opened Outcome
  import opened RemoteJob
  import opened LedgerInvariants
  import opened LedgerRuns
  import opened LedgerProofs
  import opened LedgerTheorems
  import opened RunStates

  // ---------------------------------------------------------------- claims

  /** Nobody works on this occurrence under another attempt. */
  predicate Alone(db: Db, id: RunId)
    requires id in db.runs
  {
    forall other | other in db.runs && other != id && db.runs[other].key == db.runs[id].key ::
      db.runs[other].status != Claimed && db.runs[other].status != Running
  }

  /** There is room beside `others` active occurrences. */
  predicate RoomFor(policy: Policy, others: nat) {
    || (others == 0 && policy.maxConcurrency >= 1)
    || (policy.overlap == OverlapAllow && others < policy.maxConcurrency)
  }

  /** A claim goes through exactly for a waiting run of the schedule, alone on its occurrence, beside no other active
      occurrence, or beside fewer than maxConcurrency where overlap is allowed. It starts a lease of `ttl` now. */
  lemma ClaimGrantedIff(db: Db, schedule: ScheduleId, policy: Policy, id: RunId, worker: WorkerId, now: Time, ttl: int,
                        token: Token)
    ensures
      var tx := ClaimRun(db, schedule, policy, id, worker, now, ttl, token);
      && (tx.claimed <==>
            && id in db.runs && db.runs[id].schedule == schedule && db.runs[id].status in {Pending, RetryScheduled}
            && Alone(db, id) && RoomFor(policy, |ActiveOccurrences(db, schedule) - {db.runs[id].key}|))
      && (tx.err == Some(NotFound) <==> id !in db.runs)
      && (tx.err == Some(Conflict) <==> id in db.runs && db.runs[id].schedule != schedule)
      && (if tx.claimed
          then tx.err.None? && id in tx.db.runs
               && tx.db == db.(runs := db.runs[id := tx.db.runs[id]],
                               leases := db.leases[id := Lease(token, worker, now, now + ttl, now)])
               && tx.db.runs[id] == db.runs[id].(status := Claimed, owner := Some(worker),
                                                 claimExpires := Some(now + ttl), updatedAt := now)
          else tx.db == db)
  {
    hide ActiveOccurrences;
  }

  /** The occurrence is being worked on, here or by a remote job. */
  predicate Busy(db: Db, schedule: ScheduleId, key: Key) {
    || (exists id | id in db.runs ::
          db.runs[id].key == key && db.runs[id].schedule == schedule && db.runs[id].status in {Claimed, Running})
    || (key in db.jobs && db.jobs[key].schedule == schedule && db.jobs[key].status in {Submitting, Queued, JobRunning})
  }

  lemma BusyIsActive(db: Db, schedule: ScheduleId, key: Key)
    ensures key in ActiveOccurrences(db, schedule) <==> Busy(db, schedule, key)
  {
  }

  /** In every reachable state, however one picks busy occurrences of a schedule, they are at most maxConcurrency, and
      at most one unless overlap is allowed. */
  lemma NeverOverbooked(states: seq<World>, ops: seq<Op>, policies: ScheduleId -> Policy, schedule: ScheduleId, i: nat,
                        busy: set<Key>)
    requires FixedPolicy(ops, policies) && i < |states| && policies(schedule).maxConcurrency >= 1
    requires forall key | key in busy :: Busy(states[i].db, schedule, key)
    requires Behaviour(states, ops)
    ensures |busy| <= policies(schedule).maxConcurrency
    ensures policies(schedule).overlap != OverlapAllow ==> |busy| <= 1
  {
    hide Behaviour, FixedPolicy, ActiveOccurrences, Busy;
    ConcurrencyBounded(states, ops, policies, schedule, i);
    forall key | key in busy ensures key in ActiveOccurrences(states[i].db, schedule) {
      BusyIsActive(states[i].db, schedule, key);
    }
    SubsetCardinality(busy, ActiveOccurrences(states[i].db, schedule));
  }

  // ---------------------------------------------------------------- leases

  /** This worker holds the run's lease under this token. */
  predicate Holds(db: Db, id: RunId, worker: WorkerId, token: Token) {
    id in db.leases && db.leases[id].token == token && db.leases[id].worker == worker
  }

  /** Only this run's row and lease differ. */
  predicate OnlyRun(db: Db, after: Db, id: RunId) {
    && id in db.runs && id in after.runs && after.runs == db.runs[id := after.runs[id]]
    && after == db.(runs := after.runs, leases := after.leases)
    && after.leases.Keys - {id} == db.leases.Keys - {id}
    && (forall other | other in db.leases && other != id ::
          other in after.leases && after.leases[other] == db.leases[other])
  }

  /** A heartbeat of the holder of a live lease moves its end, and the run's copy of it, to ttl from now. */
  lemma RenewalExtends(db: Db, id: RunId, worker: WorkerId, token: Token, now: Time, ttl: int)
    requires Agreement(db.runs, db.leases)
    ensures
      var tx := RenewLease(db, id, worker, token, now, ttl);
      && (tx.err.None? <==> Holds(db, id, worker, token) && now < db.leases[id].expiresAt)
      && (tx.err.Some? ==> tx.db == db)
      && (tx.err.None? ==>
            && OnlyRun(db, tx.db, id) && id in tx.db.leases
            && tx.db.leases[id] == Lease(token, worker, db.leases[id].acquiredAt, now + ttl, now)
            && tx.db.runs[id] == db.runs[id].(claimExpires := Some(now + ttl), updatedAt := now))
  {
    LockAcceptsHolderIff(db, id, worker, token, now, true);
    hide Agreement, LockRunLease;
    HolderIsPresent(db, id);
  }

  lemma HolderIsPresent(db: Db, id: RunId)
    requires Agreement(db.runs, db.leases)
    ensures id in db.leases ==> id in db.runs && db.runs[id].status in {Claimed, Running}
  {
  }

  /** The holder of a live lease starts its run; the first start stays. */
  lemma StartRecords(db: Db, id: RunId, worker: WorkerId, token: Token, now: Time)
    requires Agreement(db.runs, db.leases)
    ensures
      var tx := MarkRunning(db, id, worker, token, now);
      && (tx.err.None? <==> Holds(db, id, worker, token) && now < db.leases[id].expiresAt)
      && (tx.err.Some? ==> tx.db == db)
      && (tx.err.None? ==>
            && OnlyRun(db, tx.db, id) && tx.db.leases == db.leases && tx.db.runs[id].status == Running
            && tx.db.runs[id].startedAt == (if db.runs[id].startedAt.Some? then db.runs[id].startedAt else Some(now)))
  {
    LockAcceptsHolderIff(db, id, worker, token, now, true);
    hide Agreement, LockRunLease;
    HolderIsPresent(db, id);
  }

  /** The run waits again as before its claim, and nobody holds it. */
  predicate GivenBack(db: Db, after: Db, id: RunId) {
    && OnlyRun(db, after, id) && id !in after.leases
    && after.runs[id] == db.runs[id].(status := Pending, owner := None, claimExpires := None,
                                      updatedAt := after.runs[id].updatedAt)
  }

  lemma GivingBack(db: Db, after: Db, id: RunId, now: Time)
    requires Agreement(db.runs, db.leases) && id in db.leases && id in db.runs
    requires after == db.(runs := db.runs[id := db.runs[id].(status := Pending, owner := None, claimExpires := None,
                                                           updatedAt := now)],
                          leases := DropToken(db.leases, db.leases[id].token))
    ensures GivenBack(db, after, id)
  {
    DropTokenIsRemoval(db.leases, id);
    hide DropToken, Agreement;
  }

  /** The holder of a live lease gives its run back; an expired run is taken back from whoever held it: a claimed one
      unconditionally, a running one to be resumed. Nobody else moves it. */
  lemma RunsGivenBackIff(db: Db, id: RunId, worker: WorkerId, token: Token, now: Time)
    requires Agreement(db.runs, db.leases)
    ensures
      var release := RequeueExternalRun(db, id, worker, token, now, false);
      && (release.err.None? <==> Holds(db, id, worker, token) && now < db.leases[id].expiresAt)
      && (if release.err.None? then GivenBack(db, release.db, id) else release.db == db)
    ensures
      var requeue := RequeueExternalRun(db, id, worker, token, now, true);
      && (requeue.err.None? <==>
            id in db.leases && id in db.runs && db.runs[id].status == Running && db.leases[id].expiresAt <= now)
      && (if requeue.err.None? then GivenBack(db, requeue.db, id) else requeue.db == db)
    ensures
      var reset := ResetClaimedRun(db, id, now);
      if id in db.leases && id in db.runs && db.runs[id].status == Claimed && db.leases[id].expiresAt <= now
      then reset.err.None? && GivenBack(db, reset.db, id)
      else reset.db == db
  {
    LockAcceptsHolderIff(db, id, worker, token, now, true);
    HolderIsPresent(db, id);
    hide Agreement, LockRunLease, GivenBack, DropToken;
    if id in db.leases {
      GivingBack(db, db.(runs := db.runs[id := Released(db.runs[id], now)],
                         leases := DropToken(db.leases, db.leases[id].token)), id, now);
    }
  }

  predicate Quiet(op: Op) {
    op.Advance? || op.ReadRun? || op.SetEnabled? || op.Insert? || op.Deliver? || op.Save? || op.Reconcile?
    || op.EnforceQueue? || op.PruneBefore?
  }

  lemma QuietKeeps(db: Db, op: Op, clock: Time, id: RunId)
    requires Quiet(op) && id in db.runs && db.runs[id].status in {Claimed, Running} && id in db.leases
    requires op.Insert? ==> op.run.id != id
    requires op.Deliver? ==> op.id != id
    ensures
      var after := Apply(db, op, clock);
      && id in after.runs && after.runs[id] == db.runs[id] && id in after.leases && after.leases[id] == db.leases[id]
  {
    hide HasAttempt, LockRunLease, CheckpointConflict, ReconcileConflict, OccurrenceOpen, Compactable, SkippedRow;
  }

  /** What an accepted finish leaves of the leases. */
  lemma FinishLeases(db: Db, op: Op, clock: Time)
    requires Finishes(op)
    ensures FinishTx(db, op).err.Some? ==> Apply(db, op, clock) == db
    ensures FinishTx(db, op).err.None? ==>
              && Handed(op).run.id in db.leases
              && Apply(db, op, clock).leases == DropToken(db.leases, db.leases[Handed(op).run.id].token)
              && Apply(db, op, clock) == FinishTx(db, op).db
  {
    hide HasAttempt, BackoffSeconds, ShouldRetry, WithRetry, FinishedRow, DropToken;
  }

  lemma FinishKeepsOthers(db: Db, op: Op, clock: Time, id: RunId)
    requires Finishes(op) && id in db.runs && id in db.leases && op.retryId !in db.runs
    requires Agreement(db.runs, db.leases)
    requires FinishTx(db, op).err.Some? || Handed(op).run.id != id
    ensures
      var after := Apply(db, op, clock);
      && id in after.runs && after.runs[id] == db.runs[id] && id in after.leases && after.leases[id] == db.leases[id]
  {
    hide Apply, FinishTx, Handed, FinishedRow, DropToken;
    FinishLeases(db, op, clock);
    if FinishTx(db, op).err.None? {
      AcceptedFinish(db, op);
      DropTokenIsRemoval(db.leases, Handed(op).run.id);
      HandedIds(op);
    }
    hide HasAttempt, Agreement;
  }

  lemma HandedIds(op: Op)
    requires Finishes(op)
    ensures Handed(op).run.id == op.read.run.id
    ensures Handed(op).retry.Some? ==> Handed(op).retry.value.id == op.retryId
  {
    hide BackoffSeconds, ShouldRetry;
  }

  lemma FinishNeedsLease(db: Db, op: Op, id: RunId)
    requires Finishes(op) && id in db.leases && Handed(op).run.id == id && FinishTx(db, op).err.None?
    requires Agreement(db.runs, db.leases)
    ensures if op.Complete? then op.token == db.leases[id].token else db.leases[id].expiresAt <= op.finishedAt
  {
    hide HasAttempt, BackoffSeconds, ShouldRetry, WithRetry, FinishedRow;
  }

  lemma HeldStep(w: World, op: Op, id: RunId)
    requires id in w.db.leases && !Presents(op, w.db.leases[id].token)
    requires Step(w, op).clock < w.db.leases[id].expiresAt
    requires Inv(w) && Enabled(w, op)
    ensures
      var after := Step(w, op).db;
      && id in after.leases && after.leases[id] == w.db.leases[id]
      && id in w.db.runs && id in after.runs && after.runs[id] == w.db.runs[id]
  {
    hide Inv, Enabled, Step, Apply, Agreement, Quiet, Finishes;
    HeldFacts(w, id);
    ClockAhead(w, op);
    StepDb(w, op);
    OpTimes(w, op);
    OpKinds(w.db, op, w.clock);
    if op.Claim? || op.Start? || op.Renew? {
      HolderHeld(w, op, id);
    } else if op.Release? || op.RecoverTracked? || op.RecoverClaimed? {
      GivenBackHeld(w, op, id);
    } else if Finishes(op) {
      FinishHeld(w, op, id);
    } else {
      QuietHeld(w, op, id);
    }
  }

  lemma OpKinds(db: Db, op: Op, clock: Time)
    ensures op.Claim? || op.Start? || op.Renew? || op.Release? || op.RecoverTracked? || op.RecoverClaimed?
            || Finishes(op) || Quiet(op)
    ensures Finishes(op) ==> op.Complete? || op.RecoverOrdinary?
  {
  }

  /** A claim, a start or a heartbeat of another run. */
  lemma HolderHeld(w: World, op: Op, id: RunId)
    requires op.Claim? || op.Start? || op.Renew?
    requires id in w.db.leases && id in w.db.runs && !Presents(op, w.db.leases[id].token)
    requires w.db.runs[id].status in {Claimed, Running} && Agreement(w.db.runs, w.db.leases)
    ensures
      var after := Apply(w.db, op, w.clock);
      && id in after.runs && after.runs[id] == w.db.runs[id] && id in after.leases
      && after.leases[id] == w.db.leases[id]
  {
    hide Agreement, Apply, ClaimRun, MarkRunning, RenewLease, OnlyRun, Alone, RoomFor;
    ApplyIs(w.db, op, w.clock);
    match op
    case Claim(schedule, policy, r, worker, now, ttl, token) =>
      ClaimGrantedIff(w.db, schedule, policy, r, worker, now, ttl, token);
    case Start(r, worker, token, now) =>
      StartRecords(w.db, r, worker, token, now);
      if MarkRunning(w.db, r, worker, token, now).err.None? {
        OnlyRunMeans(w.db, MarkRunning(w.db, r, worker, token, now).db, r, id);
      }
    case Renew(r, worker, token, now, ttl) =>
      RenewalExtends(w.db, r, worker, token, now, ttl);
      if RenewLease(w.db, r, worker, token, now, ttl).err.None? {
        OnlyRunMeans(w.db, RenewLease(w.db, r, worker, token, now, ttl).db, r, id);
      }
  }

  /** A run given back, or taken back at a moment when this lease has not run out. */
  lemma GivenBackHeld(w: World, op: Op, id: RunId)
    requires op.Release? || op.RecoverTracked? || op.RecoverClaimed?
    requires id in w.db.leases && id in w.db.runs && !Presents(op, w.db.leases[id].token)
    requires (op.RecoverTracked? || op.RecoverClaimed? ==> op.now < w.db.leases[id].expiresAt)
             && Agreement(w.db.runs, w.db.leases)
    ensures
      var after := Apply(w.db, op, w.clock);
      && id in after.runs && after.runs[id] == w.db.runs[id] && id in after.leases
      && after.leases[id] == w.db.leases[id]
  {
    hide Agreement, Apply, RequeueExternalRun, ResetClaimedRun, GivenBack;
    ApplyIs(w.db, op, w.clock);
    match op
    case Release(r, worker, token, now) =>
      RunsGivenBackIff(w.db, r, worker, token, now);
      if RequeueExternalRun(w.db, r, worker, token, now, false).err.None? {
        GivenBackMeans(w.db, RequeueExternalRun(w.db, r, worker, token, now, false).db, r, id);
      }
    case RecoverTracked(r, now) =>
      RunsGivenBackIff(w.db, r, "", 0, now);
      if RequeueExternalRun(w.db, r, "", 0, now, true).err.None? {
        GivenBackMeans(w.db, RequeueExternalRun(w.db, r, "", 0, now, true).db, r, id);
      }
    case RecoverClaimed(r, now) =>
      RunsGivenBackIff(w.db, r, "", 0, now);
      if ResetClaimedRun(w.db, r, now).db != w.db { GivenBackMeans(w.db, ResetClaimedRun(w.db, r, now).db, r, id); }
  }

  lemma FinishHeld(w: World, op: Op, id: RunId)
    requires Finishes(op) && id in w.db.leases && !Presents(op, w.db.leases[id].token) && id in w.db.runs
    requires op.RecoverOrdinary? ==> op.finishedAt < w.db.leases[id].expiresAt
    requires Inv(w) && Enabled(w, op)
    ensures
      var after := Apply(w.db, op, w.clock);
      && id in after.runs && after.runs[id] == w.db.runs[id] && id in after.leases
      && after.leases[id] == w.db.leases[id]
  {
    hide Inv, Enabled, Apply, FinishTx, Handed;
    FinishInputsHold(w, op);
    AgreementOf(w);
    if FinishTx(w.db, op).err.None? && Handed(op).run.id == id { FinishNeedsLease(w.db, op, id); }
    FinishKeepsOthers(w.db, op, w.clock, id);
  }

  lemma QuietHeld(w: World, op: Op, id: RunId)
    requires Quiet(op) && id in w.db.leases
    requires Inv(w) && Enabled(w, op)
    ensures
      var after := Apply(w.db, op, w.clock);
      && id in w.db.runs
      && id in after.runs && after.runs[id] == w.db.runs[id] && id in after.leases
      && after.leases[id] == w.db.leases[id]
  {
    HeldFacts(w, id);
    NewIds(w, op, id);
    hide Inv, Enabled, Apply, Quiet;
    QuietKeeps(w.db, op, w.clock, id);
  }

  lemma NewIds(w: World, op: Op, id: RunId)
    requires id in w.ids && Enabled(w, op)
    ensures (op.Insert? ==> op.run.id != id) && (op.Deliver? ==> op.id != id)
  {
    hide FirstAttempt;
  }

  lemma AgreementOf(w: World)
    requires Inv(w)
    ensures Agreement(w.db.runs, w.db.leases)
  {
    hide Agreement, Rows, Chain, JobsAgree, EventsAgree, DeadAgree, HistoryOk;
  }

  lemma OnlyRunMeans(db: Db, after: Db, id: RunId, other: RunId)
    requires OnlyRun(db, after, id) && other in db.runs && other in db.leases
    ensures other != id ==>
              && other in after.runs && after.runs[other] == db.runs[other]
              && other in after.leases && after.leases[other] == db.leases[other]
  {
  }

  lemma GivenBackMeans(db: Db, after: Db, id: RunId, other: RunId)
    requires GivenBack(db, after, id) && other in db.runs && other in db.leases
    ensures other != id ==>
              && other in after.runs && after.runs[other] == db.runs[other]
              && other in after.leases && after.leases[other] == db.leases[other]
  {
  }

  /** The transaction behind a step on one run. */
  lemma ApplyIs(db: Db, op: Op, clock: Time)
    ensures
      match op
      case Claim(schedule, policy, id, worker, now, ttl, token) =>
        Apply(db, op, clock) == ClaimRun(db, schedule, policy, id, worker, now, ttl, token).db
      case Start(id, worker, token, now) => Apply(db, op, clock) == MarkRunning(db, id, worker, token, now).db
      case Renew(id, worker, token, now, ttl) => Apply(db, op, clock) == RenewLease(db, id, worker, token, now, ttl).db
      case Release(id, worker, token, now) =>
        Apply(db, op, clock) == RequeueExternalRun(db, id, worker, token, now, false).db
      case RecoverTracked(id, now) => Apply(db, op, clock) == RequeueExternalRun(db, id, "", 0, now, true).db
      case RecoverClaimed(id, now) => Apply(db, op, clock) == ResetClaimedRun(db, id, now).db
      case Complete(_, _, _, _, _, _, _, _, _, _) => Finishes(op)
      case RecoverOrdinary(_, _, _, _, _) => Finishes(op)
      case _ => Quiet(op)
  {
    hide ClaimRun, MarkRunning, RenewLease, RequeueExternalRun, ResetClaimedRun;
  }

  lemma OpTimes(w: World, op: Op)
    requires Inv(w) && Enabled(w, op)
    ensures op.RecoverClaimed? || op.RecoverTracked? ==> op.now <= w.clock
    ensures op.RecoverOrdinary? ==> op.finishedAt <= w.clock
    ensures Agreement(w.db.runs, w.db.leases)
  {
    AgreementOf(w);
    hide Inv, Agreement;
  }

  /** From any moment to the end of its lease, a run is its holder's: as long as the clock has not reached that end and
      nobody presents the token, neither the lease nor the row changes, whatever anyone else does. */
  lemma {:induction false} LeaseHolds(states: seq<World>, ops: seq<Op>, i: nat, j: nat, id: RunId)
    requires i <= j < |states| && |states| == |ops| + 1 && id in states[i].db.leases
    requires forall k | i <= k < j :: !Presents(ops[k], states[i].db.leases[id].token)
    requires states[j].clock < states[i].db.leases[id].expiresAt
    requires Behaviour(states, ops)
    ensures id in states[j].db.leases && states[j].db.leases[id] == states[i].db.leases[id]
    ensures id in states[i].db.runs && id in states[j].db.runs && states[j].db.runs[id] == states[i].db.runs[id]
    decreases j
  {
    hide Behaviour, Inv, Enabled, Step, Evolves, Presents;
    ReachableInv(states, ops, i);
    HeldFacts(states[i], id);
    if i < j {
      BehaviourStep(states, ops, j - 1);
      ClockAhead(states[j - 1], ops[j - 1]);
      LeaseHolds(states, ops, i, j - 1, id);
      HeldStep(states[j - 1], ops[j - 1], id);
    }
  }

  lemma HeldFacts(w: World, id: RunId)
    requires Inv(w) && id in w.db.leases
    ensures id in w.db.runs && w.db.runs[id].status in {Claimed, Running} && w.db.runs[id].id == id
    ensures w.db.runs[id].owner == Some(w.db.leases[id].worker)
    ensures forall other | other in w.db.leases && w.db.leases[other].token == w.db.leases[id].token :: other == id
    ensures id in w.ids
  {
  }

  lemma ClockAhead(w: World, op: Op)
    requires Enabled(w, op)
    ensures w.clock <= Step(w, op).clock
  {
    hide Apply, CauseOf, LiveTokens;
  }

  // ---------------------------------------------------------------- reports

  /** The report of the current holder is accepted, even after the lease has run out. */
  lemma ReportAcceptedIff(db: Db, op: Op)
    requires op.Complete? && Agreement(db.runs, db.leases)
    ensures FinishTx(db, op).err.None? <==> Holds(db, op.read.run.id, op.worker, op.token)
  {
    LockAcceptsHolderIff(db, op.read.run.id, op.worker, op.token, op.now, false);
    hide Agreement, LockRunLease, HasAttempt, BackoffSeconds, ShouldRetry, WithRetry, FinishedRow, DropToken;
  }

  /** An expired execution is failed by recovery exactly when it is running and its lease has run out. */
  lemma ExpiryAcceptedIff(db: Db, op: Op)
    requires op.RecoverOrdinary? && Agreement(db.runs, db.leases)
    ensures
      var id := op.read.run.id;
      FinishTx(db, op).err.None? <==>
        id in db.leases && id in db.runs && db.runs[id].status == Running && db.leases[id].expiresAt <= op.finishedAt
  {
    hide HasAttempt, BackoffSeconds, ShouldRetry, WithRetry, FinishedRow, DropToken;
  }

  /** There is an attempt left, and nothing says that it would be in vain. */
  predicate TriedAgain(result: Result, retry: RetryPolicy, attempt: nat) {
    && result.error.Some? && !result.cancelled && !result.terminalFailure
    && retry.strategy != RetryNone && attempt < retry.maxAttempts
  }

  /** What a finish makes of a run, from the fields of the result alone. */
  ghost predicate Reported(before: Db, after: Db, op: Op, result: Result)
    requires Finishes(op)
  {
    var id, again := op.read.run.id, TriedAgain(result, op.retry, op.read.run.attempt);
    && id in before.runs && id in after.runs && op.retryId !in before.runs && op.deadId !in before.dead
    && after == before.(runs := after.runs, leases := before.leases - {id}, dead := after.dead)
    && (after.runs[id].status == Succeeded <==> result.error.None?)
    && (after.runs[id].status == Cancelled <==> result.error.Some? && result.cancelled)
    && (after.runs[id].status == Failed <==> again)
    && (after.runs[id].status == DeadLettered <==> result.error.Some? && !result.cancelled && !again)
    && after.runs[id].finishedAt == Some(op.finishedAt)
    && after.runs[id].detail.httpStatus == result.httpStatus && after.runs[id].detail.exitCode == result.exitCode
    && after.runs[id].detail.result == result.json
    && after.runs[id].detail.error == (if result.error.Some? then result.error else op.read.run.detail.error)
    && after.runs[id].startedAt == StartOf(op) && after.runs[id].claimExpires.None?
    && (again <==> op.retryId in after.runs) && (again ==> NextAttempt(before.runs[id], after.runs[op.retryId], op))
    && (op.deadId in after.dead <==> result.error.Some? && !result.cancelled && !again)
    && (op.deadId in after.dead ==>
          && after.dead[op.deadId].run == id && after.dead[op.deadId].schedule == before.runs[id].schedule
          && after.dead[op.deadId].key == before.runs[id].key && Some(after.dead[op.deadId].reason) == result.error
          && after.dead[op.deadId].payload == result.json)
    && (forall other | other in before.runs && other != id :: other in after.runs
         && after.runs[other] == before.runs[other])
    && (forall d | d in before.dead :: d in after.dead && after.dead[d] == before.dead[d])
    && (forall other | other in after.runs && other !in before.runs :: other == op.retryId)
    && (forall d | d in after.dead && d !in before.dead :: d == op.deadId)
  }

  /** The next attempt: the same occurrence once more, due when its backoff is over. */
  predicate NextAttempt(row: Run, retry: Run, op: Op)
    requires Finishes(op)
  {
    var at := op.finishedAt + BackoffSeconds(op.retry, row.attempt) * SECOND;
    && retry.status == RetryScheduled && retry.attempt == row.attempt + 1 && retry.key == row.key
    && retry.schedule == row.schedule && retry.nominal == op.read.run.nominal && retry.due == at
    && retry.retryAt == Some(at)
    && retry.owner.None? && retry.claimExpires.None? && retry.startedAt.None? && retry.finishedAt.None?
  }

  /** The start the finisher knows of: the one on the row it read, else the one it made. */
  function StartOf(op: Op): Option<Time>
    requires Finishes(op)
  {
    if op.read.run.startedAt.Some? then op.read.run.startedAt
    else Some(if op.Complete? then op.startedAt else op.finishedAt)
  }

  function ResultOf(op: Op): Result
    requires Finishes(op)
  {
    if op.Complete? then op.result else EXPIRED_RESULT
  }

  lemma HandedFields(op: Op)
    requires Finishes(op)
    ensures
      var run, result, again := Handed(op).run, ResultOf(op), TriedAgain(ResultOf(op), op.retry, op.read.run.attempt);
      && run.id == op.read.run.id
      && (run.status == Succeeded <==> result.error.None?)
      && (run.status == Cancelled <==> result.error.Some? && result.cancelled)
      && (run.status == Failed <==> again)
      && (run.status == DeadLettered <==> result.error.Some? && !result.cancelled && !again)
      && run.finishedAt == Some(op.finishedAt)
      && run.detail.httpStatus == result.httpStatus && run.detail.exitCode == result.exitCode
      && run.detail.result == result.json
      && run.detail.error == (if result.error.Some? then result.error else op.read.run.detail.error)
      && run.startedAt == StartOf(op)
    ensures Handed(op).retry.Some? <==> TriedAgain(ResultOf(op), op.retry, op.read.run.attempt)
    ensures Handed(op).retry.Some? ==>
              && Handed(op).retry.value.id == op.retryId && NextAttempt(op.read.run, RetryRow(Handed(op).retry.value),
                   op)
              && Handed(op).retry.value.key == op.read.run.key && Handed(op).retry.value.attempt
                   == op.read.run.attempt + 1
    ensures Handed(op).dead.Some? <==> Handed(op).run.status == DeadLettered
    ensures Handed(op).dead.Some? ==>
              && Handed(op).dead.value.run == op.read.run.id && Handed(op).dead.value.schedule == op.read.run.schedule
              && Handed(op).dead.value.key == op.read.run.key && Some(Handed(op).dead.value.reason)
                   == ResultOf(op).error
              && Handed(op).dead.value.payload == ResultOf(op).json
  {
    hide BackoffSeconds;
  }

  lemma FinishedTables(db: Db, op: Op)
    requires Finishes(op) && FinishTx(db, op).err.None?
    ensures
      var id := Handed(op).run.id;
      && id in db.runs && id in db.leases
      && FinishTx(db, op).db.runs
         == WithRetry(db.runs[id := FinishedRow(db.runs[id], Handed(op).run, db.leases[id].worker, FinishNow(op))],
           Handed(op).retry)
      && FinishTx(db, op).db.leases == DropToken(db.leases, db.leases[id].token)
      && FinishTx(db, op).db.dead
         == (if Handed(op).dead.Some? then db.dead[op.deadId := Handed(op).dead.value] else db.dead)
      && FinishTx(db, op).db
         == db.(runs := FinishTx(db, op).db.runs, leases := FinishTx(db, op).db.leases,
           dead := FinishTx(db, op).db.dead)
  {
    hide WithRetry, DropToken, FinishedRow, Outcome.Complete;
  }

  lemma FinishReports(w: World, op: Op)
    requires Finishes(op) && FinishTx(w.db, op).err.None?
    requires Inv(w) && Enabled(w, op)
    ensures Reported(w.db, Step(w, op).db, op, ResultOf(op))
  {
    hide Inv, Enabled, FinishTx, Handed, HasAttempt, BackoffSeconds, DropToken, Step, Apply, TriedAgain, NextAttempt,
         RetryRow,
         Agreement;
    FinishInputsHold(w, op);
    FreshDeadId(w, op);
    AgreementOf(w);
    StepDb(w, op);
    FinishLeases(w.db, op, w.clock);
    FinishedTables(w.db, op);
    HandedFields(op);
    ReadAgrees(w, op.read);
    var id := op.read.run.id;
    DropTokenIsRemovalOf(w.db, id);
    SameRetry(w.db.runs[id], op);
    if Handed(op).retry.Some? {
      RetryIsInserted(w, op);
      RetryIsFree(w, op);
    }
  }

  lemma FreshDeadId(w: World, op: Op)
    requires Finishes(op) && Inv(w) && Enabled(w, op)
    ensures op.deadId !in w.db.dead && op.retryId !in w.db.runs
  {
    hide TablesOk;
  }

  lemma DropTokenIsRemovalOf(db: Db, id: RunId)
    requires id in db.leases && Agreement(db.runs, db.leases)
    ensures DropToken(db.leases, db.leases[id].token) == db.leases - {id}
  {
    DropTokenIsRemoval(db.leases, id);
    hide DropToken;
  }

  lemma SameRetry(row: Run, op: Op)
    requires Finishes(op) && SameIdentity(row, op.read.run)
    ensures forall retry :: NextAttempt(row, retry, op) <==> NextAttempt(op.read.run, retry, op)
  {
    hide BackoffSeconds;
  }

  lemma RetryIsFree(w: World, op: Op)
    requires Finishes(op) && FinishTx(w.db, op).err.None? && Handed(op).retry.Some? && Handed(op).run.status == Failed
    requires Inv(w) && Enabled(w, op)
    ensures
      var id := Handed(op).run.id;
      && id in w.db.runs && id in w.db.leases
      && var runs := w.db.runs[id := FinishedRow(w.db.runs[id], Handed(op).run, w.db.leases[id].worker, FinishNow(op))];
         WithRetry(runs, Handed(op).retry) == runs[op.retryId := RetryRow(Handed(op).retry.value)]
  {
    hide Inv, Enabled, FinishTx, Handed, BackoffSeconds, DropToken, FinishedRow, RetryRow, TriedAgain, NextAttempt;
    RetryIsInserted(w, op);
    FinishInputsHold(w, op);
    HandedFields(op);
    AcceptedFinish(w.db, op);
    ReadAgrees(w, op.read);
    var id := Handed(op).run.id;
    RowKeepsIdentity(w.db.runs[id], Handed(op).run, w.db.leases[id].worker, FinishNow(op));
  }

  lemma RowKeepsIdentity(row: Run, run: Run, worker: WorkerId, now: Time)
    ensures SameIdentity(row, FinishedRow(row, run, worker, now))
  {
  }

  /** In any run of the system, the holder's report ends the attempt as the fields of its result say: no error is
      success, a cancellation is final, a failure is tried again exactly when it is not final and the policy has an
      attempt left, and is dead-lettered with its error and payload otherwise. */
  lemma ReportOutcome(states: seq<World>, ops: seq<Op>, i: nat)
    requires |states| == |ops| + 1 && i < |ops| && ops[i].Complete?
    requires Holds(states[i].db, ops[i].read.run.id, ops[i].worker, ops[i].token)
    requires Behaviour(states, ops)
    ensures Reported(states[i].db, states[i + 1].db, ops[i], ops[i].result)
  {
    hide Behaviour, Inv, Enabled, Step, FinishTx, Reported;
    BehaviourStep(states, ops, i);
    AgreementOf(states[i]);
    ReportAcceptedIff(states[i].db, ops[i]);
    FinishReports(states[i], ops[i]);
  }

  /** Recovery ends an expired execution as a failure with the expiry message, to be tried again if the policy has an
      attempt left. */
  lemma ExpiryOutcome(states: seq<World>, ops: seq<Op>, i: nat)
    requires |states| == |ops| + 1 && i < |ops| && ops[i].RecoverOrdinary?
    requires
      var db, id := states[i].db, ops[i].read.run.id;
      id in db.leases && id in db.runs && db.runs[id].status == Running && db.leases[id].expiresAt <= ops[i].finishedAt
    requires Behaviour(states, ops)
    ensures
      var lost := Result(None, None, "", Some("worker lease expired during execution"), false, false, false);
      Reported(states[i].db, states[i + 1].db, ops[i], lost)
  {
    hide Behaviour, Inv, Enabled, Step, FinishTx, Reported;
    BehaviourStep(states, ops, i);
    AgreementOf(states[i]);
    ExpiryAcceptedIff(states[i].db, ops[i]);
    FinishReports(states[i], ops[i]);
  }

  // ---------------------------------------------------------------- when a retry may start

  /** A later attempt is due when the backoff after the one before it is over. */
  ghost predicate BacksOff(runs: map<RunId, Run>, policies: ScheduleId -> Policy, a: RunId, b: RunId) {
    a in runs && b in runs && runs[a].key == runs[b].key && runs[b].attempt == runs[a].attempt + 1 ==>
      && runs[a].finishedAt.Some? && runs[b].retryAt == Some(runs[b].due)
      && runs[b].due
         == runs[a].finishedAt.value + BackoffSeconds(policies(runs[a].schedule).retry, runs[a].attempt) * SECOND
  }

  lemma NewRowIsOpen(w: World, op: Op, id: RunId)
    requires Enabled(w, op) && id in Apply(w.db, op, w.clock).runs && id !in w.db.runs
    requires !Finishes(op)
    ensures Apply(w.db, op, w.clock).runs[id].status != Failed && Apply(w.db, op, w.clock).runs[id].attempt == 1
  {
    hide Apply, Enabled;
    OtherNewRows(w.db, op, w.clock, id);
    if op.Insert? { InsertedIsFirst(w, op); } else { DeliveredIsPending(w, op, id); }
  }

  lemma InsertedIsFirst(w: World, op: Op)
    requires op.Insert? && Enabled(w, op)
    ensures op.run.attempt == 1 && op.run.status != Failed
  {
    hide HasAttempt, KeyPresent;
  }

  lemma DeliveredIsPending(w: World, op: Op, id: RunId)
    requires !Finishes(op) && !op.Insert? && id in Apply(w.db, op, w.clock).runs && id !in w.db.runs
    ensures Apply(w.db, op, w.clock).runs[id].status == Pending
  {
    hide HasAttempt, PolicyAdmits, SameOccurrenceActive, CheckpointConflict, ReconcileConflict, OccurrenceOpen,
         Compactable, Prunable, DropToken;
  }

  /** What a step adds that is a later attempt is the retry of the run it finished. */
  lemma NewRetry(w: World, op: Op, id: RunId)
    requires id in Step(w, op).db.runs && id !in w.db.runs
    requires Inv(w) && Enabled(w, op)
    ensures !(Finishes(op) && id == op.retryId && FinishTx(w.db, op).err.None?) ==>
              Step(w, op).db.runs[id].attempt == 1 && Step(w, op).db.runs[id].status != Failed
  {
    hide Inv, Enabled, Apply, Step, FinishTx, Handed, FinishedRow, RetryRow;
    StepDb(w, op);
    if Finishes(op) {
      FinishLeases(w.db, op, w.clock);
      if FinishTx(w.db, op).err.None? {
        AcceptedFinish(w.db, op);
        HandedIds(op);
      }
    } else {
      NewRowIsOpen(w, op, id);
    }
  }

  lemma PairBacksOff(states: seq<World>, ops: seq<Op>, policies: ScheduleId -> Policy, i: nat, a: RunId, b: RunId)
    requires |states| == |ops| + 1 && i < |ops| && UsesPolicy(ops[i], policies)
    requires BacksOff(states[i].db.runs, policies, a, b)
    requires Behaviour(states, ops)
    ensures BacksOff(states[i + 1].db.runs, policies, a, b)
  {
    hide Behaviour, Inv, Enabled, Step, FinishTx, Reported, BackoffSeconds, RowMoves, TriedAgain, Evolves;
    BehaviourStep(states, ops, i);
    HistoryEvolves(states, ops, i, i + 1);
    var w, op, v := states[i], ops[i], states[i + 1];
    if a in v.db.runs && b in v.db.runs && v.db.runs[a].key == v.db.runs[b].key
      && v.db.runs[b].attempt == v.db.runs[a].attempt + 1 {
      ChainPair(v, a, b);
      if b in w.db.runs && a in w.db.runs {
        EvolvedRow(w, v, a);
        EvolvedRow(w, v, b);
        ChainPair(w, a, b);
        RunTransitions(states, ops, i, b);
        StepMoves(states, ops, i, b);
        MovesKeepDue(w.db.runs[b], v.db.runs[b], op);
      } else if b in w.db.runs {
        NewRetry(w, op, a);
        NotARetry(w, op, a);
      } else {
        NewRetry(w, op, b);
        FirstAttemptsAreOne(v, a);
        FinishReports(w, op);
        NewRetryPair(w, v, op, policies, a, b);
      }
    }
  }

  lemma ChainPair(w: World, a: RunId, b: RunId)
    requires Inv(w) && a in w.db.runs && b in w.db.runs && w.db.runs[a].key == w.db.runs[b].key
    ensures w.db.runs[a].attempt < w.db.runs[b].attempt ==>
              w.db.runs[a].status == Failed && w.db.runs[a].finishedAt.Some?
    ensures w.db.runs[a].attempt == w.db.runs[b].attempt ==> a == b
    ensures w.db.runs[a].schedule == w.db.runs[b].schedule
  {
    hide Rows, Agreement, JobsAgree, EventsAgree, DeadAgree, HistoryOk, HasSuccessor;
    assert Ordered(w.db.runs[a], w.db.runs[b]);
  }

  lemma EvolvedRow(w: World, v: World, id: RunId)
    requires Evolves(w, v) && id in w.db.runs && id in v.db.runs
    ensures SameIdentity(w.db.runs[id], v.db.runs[id])
    ensures Finished(w.db.runs[id].status) ==> v.db.runs[id] == w.db.runs[id]
  {
    hide JobsEvolve, EventsEvolve;
  }

  lemma MovesKeepDue(before: Run, after: Run, op: Op)
    requires RowMoves(before, after, op)
    ensures after.due == before.due
  {
    hide Transition;
  }

  lemma NotARetry(w: World, op: Op, id: RunId)
    requires id in Step(w, op).db.runs && id !in w.db.runs
    requires Inv(w) && Enabled(w, op)
    ensures Step(w, op).db.runs[id].status != Failed
  {
    hide Inv, Enabled, Step, FinishTx, Reported, TriedAgain;
    NewRetry(w, op, id);
    if Finishes(op) && id == op.retryId && FinishTx(w.db, op).err.None? {
      FinishReports(w, op);
      ReportedRetry(w, op);
    }
  }

  lemma ReportedRetry(w: World, op: Op)
    requires Finishes(op) && Reported(w.db, Step(w, op).db, op, ResultOf(op)) && op.retryId in Step(w, op).db.runs
    ensures
      var after, id := Step(w, op).db, op.read.run.id;
      && id in w.db.runs && id in after.runs && NextAttempt(w.db.runs[id], after.runs[op.retryId], op)
      && after.runs[id].finishedAt == Some(op.finishedAt)
  {
    hide Step, TriedAgain, NextAttempt;
  }

  lemma FirstAttemptsAreOne(w: World, id: RunId)
    requires Inv(w) && id in w.db.runs
    ensures w.db.runs[id].attempt >= 1
  {
    hide Chain, Agreement, JobsAgree, EventsAgree, DeadAgree, HistoryOk;
  }

  lemma NewRetryPair(w: World, v: World, op: Op, policies: ScheduleId -> Policy, a: RunId, b: RunId)
    requires Finishes(op) && b == op.retryId && UsesPolicy(op, policies) && v == Step(w, op)
    requires a in v.db.runs && b in v.db.runs && v.db.runs[a].key == v.db.runs[b].key
    requires v.db.runs[b].attempt == v.db.runs[a].attempt + 1
    requires Reported(w.db, v.db, op, ResultOf(op))
    requires Inv(v) && Inv(w) && Enabled(w, op)
    ensures BacksOff(v.db.runs, policies, a, b)
  {
    hide Inv, Enabled, Step, Reported, TriedAgain, BackoffSeconds;
    ReportedRetry(w, op);
    FinishInputsHold(w, op);
    ReadAgrees(w, op.read);
    StepKeepsInv(w, op);
    EvolvedRow(w, v, op.read.run.id);
    ChainPair(v, a, op.read.run.id);
  }

  /** In every run of the system under fixed policies. */
  lemma {:induction false} RetriesBackOff(states: seq<World>, ops: seq<Op>, policies: ScheduleId -> Policy, i: nat,
                                          a: RunId, b: RunId)
    requires FixedPolicy(ops, policies) && i < |states|
    requires Behaviour(states, ops)
    ensures BacksOff(states[i].db.runs, policies, a, b)
    decreases i
  {
    hide Behaviour, Inv, Enabled, Step, UsesPolicy, BacksOff;
    BehaviourShape(states, ops);
    if i == 0 {
      InitiallyIdle(states[0], "");
      NoneBacksOff(policies, a, b);
    } else {
      RetriesBackOff(states, ops, policies, i - 1, a, b);
      PairBacksOff(states, ops, policies, i - 1, a, b);
    }
  }

  lemma NoneBacksOff(policies: ScheduleId -> Policy, a: RunId, b: RunId)
    ensures BacksOff(map[], policies, a, b)
  {
  }

  /** A run may be started at `now`: it is pending and due, or a retry whose time has come. */
  predicate Runnable(row: Run, now: Time) {
    || (row.status == Pending && row.due <= now)
    || (row.status == RetryScheduled && row.retryAt.Some? && row.retryAt.value <= now)
  }

  /** Attempt n + 1 is not started before the end of attempt n plus its backoff, given back in between or not. */
  lemma RetryWaitsForBackoff(states: seq<World>, ops: seq<Op>, policies: ScheduleId -> Policy, i: nat, a: RunId,
                             b: RunId,
                             now: Time)
    requires FixedPolicy(ops, policies) && i < |states| && a in states[i].db.runs && b in states[i].db.runs
    requires states[i].db.runs[a].key == states[i].db.runs[b].key
    requires states[i].db.runs[b].attempt == states[i].db.runs[a].attempt + 1 && Runnable(states[i].db.runs[b], now)
    requires Behaviour(states, ops)
    ensures states[i].db.runs[a].finishedAt.Some?
    ensures
      var row := states[i].db.runs[a];
      now >= row.finishedAt.value + BackoffSeconds(policies(row.schedule).retry, row.attempt) * SECOND
  {
    hide Behaviour, BackoffSeconds;
    RetriesBackOff(states, ops, policies, i, a, b);
  }

  // ---------------------------------------------------------------- insertion and delivery

  /** A run is inserted exactly when its id and its attempt of the occurrence are new and its schedule is known. */
  lemma InsertAcceptedIff(db: Db, run: Run)
    ensures
      var tx := InsertRun(db, run);
      && (tx.err == Some(AlreadyExists) <==>
            run.id in db.runs
            || exists id | id in db.runs :: db.runs[id].key == run.key && db.runs[id].attempt == run.attempt)
      && (tx.err.None? ==> run.schedule in db.enabled && tx.db == db.(runs := db.runs[run.id := run]))
      && (tx.err.Some? ==> tx.db == db)
      && (run.schedule in db.enabled && tx.err != Some(AlreadyExists) ==> tx.err.None?)
  {
  }

  /** A first delivery records the event as it came and adds one run of it: pending, due at once, never started. */
  lemma DeliveryCreates(db: Db, schedule: ScheduleId, event: EventData, id: RunId, now: Time)
    requires TriggerEvent(db, schedule, event, id, now).created
    ensures
      var tx := TriggerEvent(db, schedule, event, id, now);
      var key := Event(schedule, event.source, event.id);
      && tx.run == id && tx.err.None? && id in tx.db.runs && id !in db.runs && key in tx.db.events && key !in db.events
      && tx.db == db.(runs := db.runs[id := tx.db.runs[id]],
           events := db.events[key := EventRow(schedule, event, id, now)])
      && var run := tx.db.runs[id];
         && run.id == id && run.schedule == schedule && run.key == key && run.attempt == 1 && run.status == Pending
         && run.nominal == now && run.due == now && run.createdAt == now && run.owner.None? && run.claimExpires.None?
         && run.startedAt.None? && run.finishedAt.None? && run.retryAt.None? && run.detail == NO_DETAIL
  {
    hide HasAttempt;
  }

  /** A delivery for a schedule nobody created is not found, and changes nothing. */
  lemma UnknownScheduleIff(db: Db, schedule: ScheduleId, event: EventData, id: RunId, now: Time)
    ensures TriggerEvent(db, schedule, event, id, now).err == Some(NotFound) <==> schedule !in db.enabled
    ensures !TriggerEvent(db, schedule, event, id, now).created ==> TriggerEvent(db, schedule, event, id, now).db == db
  {
    hide HasAttempt;
  }

  // ---------------------------------------------------------------- checkpoints

  /** An operator may ask the runner about a job: it is open and kept, and either its address is known or the target
      names a lookup address for a submission whose acceptance is not. */
  lemma ReconcilableIff(db: Db, key: Key)
    requires key in db.jobs
    ensures
      var job := GetExternalJob(db, key).value;
      job.canReconcile <==>
        && job.status in {Submitting, Queued, JobRunning} && !job.compacted
        && (|| (job.jobId != "" && job.statusUrl != "")
            || (job.status == Submitting && job.target.httpJob.Some? && job.target.httpJob.value.lookupUrl != ""))
  {
  }

  /** What a job asked for, of whom and until when. */
  predicate SameAsked(a: ExternalJob, b: ExternalJob) {
    a.deadlineAt == b.deadlineAt && a.submittedAt == b.submittedAt && a.target == b.target
  }

  predicate SameIdentified(a: ExternalJob, b: ExternalJob) { a.jobId == b.jobId && a.statusUrl == b.statusUrl }

  /** A checkpoint is stored exactly when the holder of a live lease brings it and it goes with what is stored: what was
      asked for is unchanged and still kept, a known identity is unchanged, a final report is repeated as it was. */
  lemma SaveAcceptedIff(db: Db, run: Run, worker: WorkerId, token: Token, job: ExternalJob, now: Time)
    requires Agreement(db.runs, db.leases) && JobsAgree(db.jobs) && Checkpointable(job)
    ensures
      var tx := SaveExternalJob(db, run, worker, token, job, now);
      && (tx.err.None? <==>
            && Holds(db, run.id, worker, token) && now < db.leases[run.id].expiresAt
            && (run.key in db.jobs ==>
                  var prior := GetExternalJob(db, run.key).value;
                  && !prior.compacted && SameAsked(prior, job)
                  && (prior.jobId != "" ==> SameIdentified(prior, job))
                  && (prior.status in {JobSucceeded, JobFailed, JobCancelled} ==>
                        prior.status == job.status && prior.seen == job.seen)))
      && (tx.err.Some? ==> tx.db == db)
  {
    LockAcceptsHolderIff(db, run.id, worker, token, now, true);
    hide Agreement, LockRunLease;
    if run.key in db.jobs { assert JobRowAgrees(db.jobs[run.key]); }
  }

  /** Reconciliation is accepted exactly for an occurrence with no open attempt whose stored job is the one observed
      before, still open and kept, with the same order and either its known identity or, for a submission with a
      lookup address, a first one. */
  lemma ReconcileAcceptedIff(db: Db, run: Run, expected: ExternalJob, observed: ExternalJob, now: Time)
    requires JobsAgree(db.jobs)
    ensures
      var tx := ReconcileExternalJob(db, run, expected, observed, now);
      && (tx.err.None? <==>
            && run.id in db.runs && run.key in db.jobs
            && (forall id | id in db.runs && db.runs[id].key == run.key ::
                  db.runs[id].status !in {Pending, RetryScheduled, Claimed, Running})
            && var current := GetExternalJob(db, run.key).value;
               && !current.compacted && current.status in {Submitting, Queued, JobRunning}
               && current.Json() == expected.Json() && current.target == expected.target
               && SameAsked(current, observed)
               && (if current.jobId != "" then SameIdentified(current, observed)
                   else observed.jobId != "" && observed.statusUrl != "" && current.status == Submitting
                        && current.target.httpJob.Some? && current.target.httpJob.value.lookupUrl != ""))
      && (tx.err.Some? ==> tx.db == db)
  {
    if run.key in db.jobs { assert JobRowAgrees(db.jobs[run.key]); }
  }

  // ---------------------------------------------------------------- retention

  /** Retention takes exactly the runs that ended before the cutoff and whose occurrence has
      no open remote job; one that
      ended at the cutoff or later stays, and so does every open one. What stays is unchanged; leases and dead letters
      stay with their runs; a job becomes a tombstone exactly when it is over and no attempt is left. */
  lemma RetentionTakesExactly(db: Db, cutoff: Time)
    ensures
      var after := Prune(db, cutoff);
      && (forall id ::
            id in after.runs <==>
              id in db.runs && !(
                && db.runs[id].status in {Succeeded, Failed, DeadLettered, Cancelled, Skipped}
                && db.runs[id].finishedAt.Some? && db.runs[id].finishedAt.value < cutoff
                && (db.runs[id].key in db.jobs ==>
                      db.jobs[db.runs[id].key].status !in {Submitting, Queued, JobRunning})))
      && (forall id | id in after.runs :: after.runs[id] == db.runs[id])
      && (forall id :: id in after.leases <==> id in db.leases && id in after.runs)
      && (forall id | id in after.leases :: after.leases[id] == db.leases[id])
      && (forall d :: d in after.dead <==> d in db.dead && db.dead[d].run in after.runs)
      && (forall d | d in after.dead :: after.dead[d] == db.dead[d])
      && after.events == db.events && after.enabled == db.enabled && after.jobs.Keys == db.jobs.Keys
      && (forall k | k in db.jobs && !db.jobs[k].compacted ::
            after.jobs[k].compacted <==>
              && db.jobs[k].status in {JobSucceeded, JobFailed, JobCancelled}
              && (forall id | id in after.runs :: after.runs[id].key != k))
      && (forall k | k in db.jobs && (after.jobs[k].compacted ==> db.jobs[k].compacted) :: after.jobs[k] == db.jobs[k])
  {
  }
}
