/** The promises of the run ledger over whole runs: linear lease tokens, attempt chains, bounded
    concurrency, agreeing denormalised state, remote-job lifecycles, bounded retries, event deduplication. */
module LedgerTheorems {
  import opened Domain
  import opened Ledger
  import opened Outcome
  import opened LedgerInvariants
  import opened LedgerRuns
  import opened LedgerProofs

  // ---------------------------------------------------------------- lease tokens

  /** Whoever presents a token without a live lease is refused and changes no table. */
  lemma DeadTokenIsPowerless(db: Db, token: Token, run: Run, worker: WorkerId, job: ExternalJob, retry: Option<Run>,
                             deadId: DeadId, dead: Option<DeadLetter>, now: Time, ttl: int)
    requires token !in LiveTokens(db.leases)
    ensures MarkRunning(db, run.id, worker, token, now).db == db
            && MarkRunning(db, run.id, worker, token, now).err.Some?
    ensures RenewLease(db, run.id, worker, token, now, ttl).db == db
            && RenewLease(db, run.id, worker, token, now, ttl).err.Some?
    ensures SaveExternalJob(db, run, worker, token, job, now).db == db
            && SaveExternalJob(db, run, worker, token, job, now).err.Some?
    ensures RequeueExternalRun(db, run.id, worker, token, now, false)
            == Tx(db, LockRunLease(db, run.id, worker, token, now, true))
    ensures LockRunLease(db, run.id, worker, token, now, true).Some?
    ensures FinishExternalRun(db, run, worker, token, retry, deadId, dead, now, false).db == db
    ensures FinishExternalRun(db, run, worker, token, retry, deadId, dead, now, false).err.Some?
  {
    assert forall id | id in db.leases :: db.leases[id].token in LiveTokens(db.leases);
  }

  predicate Presents(op: Op, token: Token) {
    match op
    case Start(_, _, t, _) => t == token
    case Renew(_, _, t, _, _) => t == token
    case Save(_, _, t, _, _) => t == token
    case Complete(_, _, t, _, _, _, _, _, _, _) => t == token
    case Release(_, _, t, _) => t == token
    case _ => false
  }

  /** An issued token is live or retired, never both. Retirement is for good, keeps its one cause,
      and from then on every step that presents the token leaves every table as it was. */
  lemma TokensAreLinear(states: seq<World>, ops: seq<Op>, i: nat, j: nat, token: Token)
    requires i <= j < |states| && token in states[i].issued
    requires Behaviour(states, ops)
    ensures token in LiveTokens(states[i].db.leases) <==> token !in states[i].retired
    ensures token in states[i].retired ==>
              && token in states[j].retired && states[j].retired[token] == states[i].retired[token]
              && token !in LiveTokens(states[j].db.leases)
    ensures token in states[i].retired && j < |ops| && Presents(ops[j], token) ==> states[j + 1].db == states[j].db
  {
    HistoryEvolves(states, ops, i, j);
    hide TablesOk, RunsEvolve, JobsEvolve, EventsEvolve;
    if token in states[i].retired && j < |ops| && Presents(ops[j], token) {
      PresentingDeadToken(states[j], ops[j], token);
    }
  }

  lemma PresentingDeadToken(w: World, op: Op, token: Token)
    requires token !in LiveTokens(w.db.leases) && Presents(op, token)
    ensures Apply(w.db, op, w.clock) == w.db
  {
    var job := ExternalJob("", "", Submitting, NO_OBSERVATION, 0, 0, 0, false, false, NO_TARGET);
    match op
    case Start(id, worker, _, now) => DeadTokenIsPowerless(w.db, token, FreshRun(id, "", Manual(id), 0, 0), worker, job,
      None, 0, None, now, 0);
    case Renew(id, worker, _, now, ttl) => DeadTokenIsPowerless(w.db, token, FreshRun(id, "", Manual(id), 0, 0), worker,
      job, None, 0, None, now, ttl);
    case Save(read, worker, _, given, now) => DeadTokenIsPowerless(w.db, token, read.run, worker, given, None, 0, None,
      now, 0);
    case Complete(read, worker, _, retry, result, startedAt, finishedAt, retryId, deadId, now) =>
      var done := Outcome.Complete(read.run, retry, result, startedAt, finishedAt, retryId);
      DeadTokenIsPowerless(w.db, token, done.run, worker, job, done.retry, deadId, done.dead, now, 0);
    case Release(id, worker, _, now) => DeadTokenIsPowerless(w.db, token, FreshRun(id, "", Manual(id), 0, 0), worker,
      job, None, 0, None, now, 0);
  }

  /** A live token is retired only by its own holder, or by a recovery that finds its lease expired. */
  lemma RetirementIsEarned(w: World, op: Op, id: RunId)
    requires id in w.db.leases && w.db.leases[id].token !in LiveTokens(Step(w, op).db.leases)
    requires Inv(w) && Enabled(w, op)
    ensures
      var lease := w.db.leases[id];
      || ((op.Complete? || op.Release?) && Presents(op, lease.token))
      || (op.RecoverClaimed? && op.id == id && lease.expiresAt <= op.now)
      || (op.RecoverTracked? && op.id == id && lease.expiresAt <= op.now)
      || (op.RecoverOrdinary? && op.read.run.id == id && lease.expiresAt <= op.finishedAt)
  {
    hide TablesOk, HistoryOk, LiveTokens, Inv, Enabled, FinishExternalRun, RequeueExternalRun, ResetClaimedRun,
         Outcome.Complete,
         RunsEvolve, JobsEvolve, EventsEvolve;
    OpEffect(w, op);
    DropKeepsOthers(w.db, id, 0);
    match op
    case Complete(read, worker, token, retry, result, startedAt, finishedAt, retryId, deadId, now) =>
      var done := Outcome.Complete(read.run, retry, result, startedAt, finishedAt, retryId);
      FinishDrops(w, done.run, worker, token, done.retry, deadId, done.dead, now, false, id);
    case Release(r, worker, token, now) => RequeueDrops(w, r, worker, token, now, false, id);
    case RecoverTracked(r, now) => RequeueDrops(w, r, "", 0, now, true, id);
    case RecoverClaimed(r, now) => ResetDrops(w, r, now, id);
    case RecoverOrdinary(read, retry, finishedAt, retryId, deadId) =>
      var done := Outcome.Complete(read.run, retry, EXPIRED_RESULT, finishedAt, finishedAt, retryId);
      CompletedRunId(read.run, retry, EXPIRED_RESULT, finishedAt, finishedAt, retryId);
      FinishDrops(w, done.run, "", 0, done.retry, deadId, done.dead, finishedAt, true, id);
    case _ =>
  }

  lemma FinishDrops(w: World, run: Run, worker: WorkerId, token: Token, retry: Option<Run>, deadId: DeadId,
                    dead: Option<DeadLetter>,
                    now: Time, expired: bool, id: RunId)
    requires Inv(w) && id in w.db.leases
    requires w.db.leases[id].token !in LiveTokens(FinishExternalRun(w.db, run, worker, token, retry, deadId, dead, now,
             expired).db.leases)
    ensures if expired then run.id == id && w.db.leases[id].expiresAt <= now else token == w.db.leases[id].token
  {
    assert w.db.leases[id].token in LiveTokens(w.db.leases);
    if run.id in w.db.leases {
      DropKeepsOthers(w.db, id, w.db.leases[run.id].token);
      if w.db.leases[run.id].token == w.db.leases[id].token { SameTokenSameRun(w, run.id, id); }
    }
    hide LiveTokens, Inv, HasAttempt;
  }

  lemma RequeueDrops(w: World, r: RunId, worker: WorkerId, token: Token, now: Time, expired: bool, id: RunId)
    requires Inv(w) && id in w.db.leases
    requires w.db.leases[id].token !in LiveTokens(RequeueExternalRun(w.db, r, worker, token, now, expired).db.leases)
    ensures if expired then r == id && w.db.leases[id].expiresAt <= now else token == w.db.leases[id].token
  {
    assert w.db.leases[id].token in LiveTokens(w.db.leases);
    DropKeepsOthers(w.db, id, token);
    if r in w.db.leases {
      DropKeepsOthers(w.db, id, w.db.leases[r].token);
      if w.db.leases[r].token == w.db.leases[id].token { SameTokenSameRun(w, r, id); }
    }
    hide LiveTokens, Inv;
  }

  lemma ResetDrops(w: World, r: RunId, now: Time, id: RunId)
    requires Inv(w) && id in w.db.leases
    requires w.db.leases[id].token !in LiveTokens(ResetClaimedRun(w.db, r, now).db.leases)
    ensures r == id && w.db.leases[id].expiresAt <= now
  {
    assert w.db.leases[id].token in LiveTokens(w.db.leases);
    if r in w.db.leases {
      DropKeepsOthers(w.db, id, w.db.leases[r].token);
      if w.db.leases[r].token == w.db.leases[id].token { SameTokenSameRun(w, r, id); }
    }
    hide LiveTokens, Inv;
  }

  lemma SameTokenSameRun(w: World, a: RunId, b: RunId)
    requires Inv(w) && a in w.db.leases && b in w.db.leases && w.db.leases[a].token == w.db.leases[b].token
    ensures a == b
  {
  }

  lemma DropKeepsOthers(db: Db, id: RunId, token: Token)
    requires id in db.leases
    ensures db.leases[id].token in LiveTokens(db.leases)
    ensures db.leases[id].token != token ==> db.leases[id].token in LiveTokens(DropToken(db.leases, token))
  {
    if db.leases[id].token != token {
      assert DropToken(db.leases, token)[id].token == db.leases[id].token;
    }
  }

  /** However stale the snapshot a recovery acts on, it touches a run only if that run's lease, as it is
      now, has expired; every other run and every other lease stays as it is. */
  lemma RecoveryIsSafe(w: World, op: Op, id: RunId)
    requires Inv(w) && Enabled(w, op) && (op.RecoverClaimed? || op.RecoverTracked? || op.RecoverOrdinary?)
    requires id in w.db.runs
    ensures
      var after := Apply(w.db, op, w.clock);
      var subject := if op.RecoverOrdinary? then op.read.run.id else op.id;
      var at := if op.RecoverOrdinary? then op.finishedAt else op.now;
      && id in after.runs
      && (after.runs[id] != w.db.runs[id] || (id in w.db.leases && id !in after.leases) ==>
            id == subject && id in w.db.leases && w.db.leases[id].expiresAt <= at)
      && (id in after.leases ==> id in w.db.leases && after.leases[id] == w.db.leases[id])
  {
    RecoveredRun(w, op, id);
    hide Inv, Apply, Enabled, LiveTokens;
    if id in w.db.leases && id !in Apply(w.db, op, w.clock).leases {
      LostToken(w, op, id);
      RetirementIsEarned(w, op, id);
    }
  }

  lemma LostToken(w: World, op: Op, id: RunId)
    requires Inv(w) && Enabled(w, op) && id in w.db.leases && !op.Claim? && id !in Apply(w.db, op, w.clock).leases
    ensures w.db.leases[id].token !in LiveTokens(Step(w, op).db.leases)
  {
    var after := Apply(w.db, op, w.clock);
    LeasesComeFromClaims(w.db, op, w.clock);
    LeaseRowsSurvive(w, op);
    hide Apply, Enabled;
    forall other | other in after.leases ensures after.leases[other].token != w.db.leases[id].token {
      if after.leases[other].token == w.db.leases[id].token {
        SameTokenSameRun(w, other, id);
      }
    }
  }

  /** Only a claim issues a token; every other step keeps the tokens of the leases it keeps. */
  lemma LeaseRowsSurvive(w: World, op: Op)
    requires !op.Claim?
    ensures forall id | id in Apply(w.db, op, w.clock).leases ::
              id in w.db.leases && Apply(w.db, op, w.clock).leases[id].token == w.db.leases[id].token
  {
    hide HasAttempt, Outcome.Complete, WithRetry, PolicyAdmits, SameOccurrenceActive,
         CheckpointConflict, ReconcileConflict, OccurrenceOpen, Unsubmitted, Compactable, Prunable;
  }

  lemma RecoveredRun(w: World, op: Op, id: RunId)
    requires Inv(w) && Enabled(w, op) && (op.RecoverClaimed? || op.RecoverTracked? || op.RecoverOrdinary?)
             && id in w.db.runs
    ensures
      var after := Apply(w.db, op, w.clock);
      var subject := if op.RecoverOrdinary? then op.read.run.id else op.id;
      var at := if op.RecoverOrdinary? then op.finishedAt else op.now;
      && id in after.runs
      && (after.runs[id] != w.db.runs[id] ==> id == subject && id in w.db.leases && w.db.leases[id].expiresAt <= at)
      && (id in after.leases ==> id in w.db.leases && after.leases[id] == w.db.leases[id])
  {
    hide Inv, HasAttempt, BackoffSeconds, ShouldRetry;
    if op.RecoverOrdinary? { RetryIdIsNew(w, op); }
  }

  /** The lock transactions take accepts exactly the holder of the run's live lease. Heartbeats, starts,
      checkpoints and releases also need it unexpired; the outcome of a finished execution does not. */
  lemma LockAcceptsHolderIff(db: Db, id: RunId, worker: WorkerId, token: Token, now: Time, requireUnexpired: bool)
    requires Agreement(db.runs, db.leases)
    ensures LockRunLease(db, id, worker, token, now, requireUnexpired).None? <==>
              && id in db.leases && db.leases[id].token == token && db.leases[id].worker == worker
              && (requireUnexpired ==> now < db.leases[id].expiresAt)
  {
  }

  lemma RetryIdIsNew(w: World, op: Op)
    requires (op.Complete? || op.RecoverOrdinary?) && Inv(w) && Enabled(w, op)
    ensures op.retryId !in w.db.runs
  {
    hide TablesOk;
  }

  // ---------------------------------------------------------------- attempt chains

  /** At every moment the present attempts of an occurrence are a contiguous run of numbers, all but the
      last failed and the last not failed; a finished attempt keeps its row until retention removes it for good. */
  lemma AttemptChains(states: seq<World>, ops: seq<Op>, i: nat, j: nat, a: RunId, b: RunId, n: nat)
    requires i <= j < |states|
    requires a in states[i].db.runs && b in states[i].db.runs && states[i].db.runs[a].key == states[i].db.runs[b].key
    requires states[i].db.runs[a].attempt <= n <= states[i].db.runs[b].attempt
    requires Behaviour(states, ops)
    ensures HasAttempt(states[i].db.runs, states[i].db.runs[a].key, n)
    ensures states[i].db.runs[a].attempt == states[i].db.runs[b].attempt ==> a == b
    ensures states[i].db.runs[a].attempt < states[i].db.runs[b].attempt ==> states[i].db.runs[a].status == Failed
    ensures states[i].db.runs[b].status == Failed ==>
              HasAttempt(states[i].db.runs, states[i].db.runs[b].key, states[i].db.runs[b].attempt + 1)
    ensures Finished(states[i].db.runs[a].status) && a in states[j].db.runs ==>
              states[j].db.runs[a] == states[i].db.runs[a]
    ensures a !in states[j].db.runs ==> forall k | j <= k < |states| :: a !in states[k].db.runs
  {
    HistoryEvolves(states, ops, i, j);
    var runs := states[i].db.runs;
    AttemptsContiguous(runs, a, b, n);
    assert Ordered(runs[a], runs[b]);
    assert runs[b].status == Failed ==> HasSuccessor(runs, b);
    assert a in states[j].ids;
    hide Inv, TablesOk, HistoryOk, RunsEvolve, JobsEvolve, EventsEvolve, HasAttempt;
    forall k | j <= k < |states| && a !in states[j].db.runs ensures a !in states[k].db.runs {
      HistoryEvolves(states, ops, j, k);
    }
  }

  function LaterAttempts(runs: map<RunId, Run>, key: Key, n: nat): set<RunId> {
    set id | id in runs && runs[id].key == key && runs[id].attempt > n
  }

  /** No occurrence is stranded: behind every failed attempt there is one that is not failed. */
  lemma {:induction false} NoOccurrenceStranded(runs: map<RunId, Run>, id: RunId) returns (last: RunId)
    requires Chain(runs) && id in runs
    ensures last in runs && runs[last].key == runs[id].key && runs[last].status != Failed
    ensures forall other | other in runs && runs[other].key == runs[id].key :: runs[other].attempt <= runs[last].attempt
    decreases |LaterAttempts(runs, runs[id].key, runs[id].attempt)|
  {
    if runs[id].status != Failed {
      last := id;
    } else {
      assert HasSuccessor(runs, id);
      var next :| next in runs && runs[next].key == runs[id].key && runs[next].attempt == runs[id].attempt + 1;
      var here := LaterAttempts(runs, runs[id].key, runs[id].attempt);
      var there := LaterAttempts(runs, runs[id].key, runs[next].attempt);
      assert next in here && there <= here - {next};
      SubsetCardinality(there, here - {next});
      last := NoOccurrenceStranded(runs, next);
    }
  }

  /** A holder reports an outcome, or recovery fails an expired execution. */
  predicate Finishes(op: Op) { op.Complete? || op.RecoverOrdinary? }

  function FinishTx(db: Db, op: Op): Tx
    requires Finishes(op)
  {
    if op.Complete? then CompleteTx(db, op) else RecoverOrdinaryTx(db, op)
  }

  /** The row the actor hands in, with its retry or dead letter. */
  function Handed(op: Op): Completion
    requires Finishes(op)
  {
    if op.Complete? then
      Outcome.Complete(op.read.run, op.retry, op.result, op.startedAt, op.finishedAt, op.retryId)
    else
      Outcome.Complete(op.read.run, op.retry, EXPIRED_RESULT, op.finishedAt, op.finishedAt, op.retryId)
  }

  function FinishNow(op: Op): Time
    requires Finishes(op)
  {
    if op.Complete? then op.now else op.finishedAt
  }

  lemma FinishInputsHold(w: World, op: Op)
    requires Finishes(op) && Inv(w) && Enabled(w, op)
    ensures op.retryId !in w.db.runs && op.read in w.known && op.read.at <= op.finishedAt
  {
    hide TablesOk;
  }

  lemma HandedRetry(op: Op)
    requires Finishes(op) && Handed(op).run.status == Failed
    ensures
      var retry := Handed(op).retry;
      && retry.Some? && retry.value.id == op.retryId && retry.value.status == RetryScheduled
      && retry.value.key == op.read.run.key && retry.value.attempt == op.read.run.attempt + 1
      && retry.value.schedule == op.read.run.schedule && retry.value.createdAt == op.finishedAt
      && retry.value.retryAt == Some(op.finishedAt + BackoffSeconds(op.retry, op.read.run.attempt) * SECOND)
      && Handed(op).run.finishedAt == Some(op.finishedAt) && Handed(op).run.id == op.read.run.id
  {
    hide BackoffSeconds, ShouldRetry;
  }

  lemma AcceptedFinish(db: Db, op: Op)
    requires Finishes(op) && FinishTx(db, op).err.None?
    ensures
      var id := Handed(op).run.id;
      && id in db.runs && id in db.leases && Active(db.runs[id].status)
      && FinishTx(db, op).db.runs
         == WithRetry(db.runs[id := FinishedRow(db.runs[id], Handed(op).run, db.leases[id].worker, FinishNow(op))],
           Handed(op).retry)
  {
    hide WithRetry, DropToken, FinishedRow, Outcome.Complete;
  }

  /** The retry insert never meets its ON CONFLICT clause, whether a holder or an expiry recovery fails the attempt. */
  lemma RetryIsInserted(w: World, op: Op)
    requires Finishes(op) && FinishTx(w.db, op).err.None? && Handed(op).run.status == Failed
    requires Inv(w) && Enabled(w, op)
    ensures
      var after := FinishTx(w.db, op).db.runs;
      && !HasAttempt(w.db.runs, op.read.run.key, op.read.run.attempt + 1)
      && op.retryId in after && after[op.retryId].status == RetryScheduled
      && after[op.retryId].key == op.read.run.key && after[op.retryId].attempt == op.read.run.attempt + 1
      && after[op.retryId].retryAt == Some(op.finishedAt + BackoffSeconds(op.retry, op.read.run.attempt) * SECOND)
      && op.read.run.id in after && after[op.read.run.id].status == Failed
  {
    hide Chain, Rows, Agreement, Enabled, HistoryOk, JobsAgree, EventsAgree, DeadAgree, HasAttempt, BackoffSeconds,
         WithRetry, Handed, FinishTx;
    FinishInputsHold(w, op);
    var id := op.read.run.id;
    HandedRetry(op);
    AcceptedFinish(w.db, op);
    var row := FinishedRow(w.db.runs[id], Handed(op).run, w.db.leases[id].worker, FinishNow(op));
    ReadAgrees(w, op.read);
    FinishKeepsChain(w.db.runs, id, row, Handed(op).retry);
  }

  lemma LateFirstAttempt(runs: map<RunId, Run>, run: Run)
    requires Rows(runs) && run.id !in runs && run.attempt == 1 && run.status != Failed
    requires KeyPresent(runs, run.key) && !HasAttempt(runs, run.key, 1)
    ensures !Chain(runs[run.id := run])
  {
    var other :| other in runs && runs[other].key == run.key;
    HasAttemptWitness(runs, other);
    hide HasAttempt, HasSuccessor, KeyPresent;
    var after := runs[run.id := run];
    assert after[other] == runs[other] && after[run.id] == run;
    assert !Ordered(after[run.id], after[other]);
  }

  lemma FreshFirstAttempt(runs: map<RunId, Run>, run: Run)
    requires Chain(runs) && run.id !in runs && run.status != Failed && !KeyPresent(runs, run.key)
    ensures Chain(runs[run.id := run])
  {
    SuccessorsKept(runs, runs[run.id := run]);
    hide HasAttempt, HasSuccessor;
  }

  /** A first attempt, to be run or skipped, keeps the chain exactly when the caller's guard holds: the slot collides
      with its own first attempt, or no attempt of the occurrence is left. */
  lemma InsertKeepsChainIff(db: Db, run: Run)
    requires Rows(db.runs) && Chain(db.runs) && run.id !in db.runs && run.schedule in db.enabled
    requires run.attempt == 1 && run.status != Failed
    ensures Chain(InsertRun(db, run).db.runs) <==> (KeyPresent(db.runs, run.key) ==> HasAttempt(db.runs, run.key, 1))
  {
    hide Chain, Rows, HasAttempt, KeyPresent;
    if !KeyPresent(db.runs, run.key) {
      AbsentHasNoAttempt(db.runs, run.key);
      FreshFirstAttempt(db.runs, run);
    } else if !HasAttempt(db.runs, run.key, 1) {
      LateFirstAttempt(db.runs, run);
    }
  }

  lemma AbsentHasNoAttempt(runs: map<RunId, Run>, key: Key)
    requires !KeyPresent(runs, key)
    ensures !HasAttempt(runs, key, 1)
  {
  }

  // ---------------------------------------------------------------- denormalised state

  /** The status page counts expired claims on run rows; that is the number of expired leases. */
  lemma ExpiredClaimsAreExpiredLeases(states: seq<World>, ops: seq<Op>, i: nat, now: Time)
    requires i < |states|
    requires Behaviour(states, ops)
    ensures forall id ::
              (id in states[i].db.runs && Active(states[i].db.runs[id].status)) <==> id in states[i].db.leases
    ensures forall id | id in states[i].db.leases ::
              && states[i].db.runs[id].owner == Some(states[i].db.leases[id].worker)
              && states[i].db.runs[id].claimExpires == Some(states[i].db.leases[id].expiresAt)
    ensures ClaimedExpired(states[i].db, now) == ExpiredRuns(states[i].db, now)
    ensures |ClaimedExpired(states[i].db, now)| == |ExpiredRuns(states[i].db, now)|
    ensures forall k | k in states[i].db.jobs :: states[i].db.jobs[k].status == Decode(states[i].db.jobs[k]).status
  {
    ReachableInv(states, ops, i);
  }

  /** A run is dead-lettered exactly when one dead letter records it. */
  lemma DeadLettersAgree(states: seq<World>, ops: seq<Op>, i: nat, id: RunId)
    requires i < |states| && id in states[i].db.runs
    requires Behaviour(states, ops)
    ensures states[i].db.runs[id].status == DeadLettered <==> HasDeadLetter(states[i].db.dead, id)
    ensures forall d, e | d in states[i].db.dead && e in states[i].db.dead
            && states[i].db.dead[d].run == states[i].db.dead[e].run :: d == e
  {
    ReachableInv(states, ops, i);
    if states[i].db.runs[id].status == DeadLettered {
      assert HasDeadLetter(states[i].db.dead, id);
    }
  }

  // ---------------------------------------------------------------- remote-job lifecycle

  lemma JobsBetween(w: World, v: World, key: Key)
    requires Inv(w) && Inv(v) && Evolves(w, v) && key in w.db.jobs
    ensures key in v.db.jobs && JobEvolves(w.db.jobs[key], v.db.jobs[key])
    ensures JobRowAgrees(w.db.jobs[key]) && JobRowAgrees(v.db.jobs[key])
  {
    hide Rows, Chain, Agreement, EventsAgree, DeadAgree, HistoryOk, RunsEvolve, EventsEvolve;
  }

  /** Over any stretch of any run of saves, polls, lookups, reconciliations and compactions. */
  lemma RemoteJobLifecycle(states: seq<World>, ops: seq<Op>, i: nat, j: nat, key: Key)
    requires i <= j < |states| && key in states[i].db.jobs
    requires Behaviour(states, ops)
    ensures key in states[j].db.jobs
    ensures
      var a, b := states[i].db.jobs[key].checkpoint, states[j].db.jobs[key].checkpoint;
      && b.submittedAt == a.submittedAt && b.deadlineAt == a.deadlineAt
      && (a.jobId != "" ==> b.jobId == a.jobId)
      && (a.jobId == "" <==> a.status == Submitting)
      && (a.Terminal() ==> b.status == a.status && b.Terminal())
      && (a.compacted ==> b.compacted && a.Terminal())
  {
    hide Inv, Evolves, Behaviour;
    HistoryEvolves(states, ops, i, j);
    JobsBetween(states[i], states[j], key);
  }

  /** What a holder saves is what the next execution loads, target included; the runs and leases stay. */
  lemma CheckpointRoundTrip(db: Db, run: Run, worker: WorkerId, token: Token, job: ExternalJob, now: Time)
    requires SaveExternalJob(db, run, worker, token, job, now).err.None?
    ensures
      var after := SaveExternalJob(db, run, worker, token, job, now).db;
      && GetExternalJob(after, run.key) == Some(job.(updatedAt := now, canReconcile := job.ReconciliationAvailable()))
      && after == db.(jobs := after.jobs) && forall k | k in after.jobs && k != run.key ::
            k in db.jobs && after.jobs[k] == db.jobs[k]
  {
    hide LockRunLease;
    var tx := SaveExternalJob(db, run, worker, token, job, now);
    assert tx.db.jobs[run.key].snapshot == Frozen(job.target);
  }

  /** Reconciliation compares and swaps: it takes effect only on the very checkpoint it observed, while no attempt
      is open and the job is unresolved, and it leaves the recorded outcome of every run alone. */
  lemma ReconcileComparesAndSwaps(db: Db, run: Run, expected: ExternalJob, observed: ExternalJob, now: Time)
    ensures
      var tx := ReconcileExternalJob(db, run, expected, observed, now);
      && tx.db == db.(jobs := tx.db.jobs)
      && (tx.err.Some? ==> tx.db == db)
      && (tx.err.None? ==>
            && !OccurrenceOpen(db.runs, run.key)
            && GetExternalJob(db, run.key).Some?
            && GetExternalJob(db, run.key).value.Json() == expected.Json() && GetExternalJob(db, run.key).value.target
                 == expected.target
            && !expected.Terminal()
            && GetExternalJob(tx.db, run.key) == Some(observed.(updatedAt := now,
                 canReconcile := observed.ReconciliationAvailable())))
  {
    hide OccurrenceOpen;
    var tx := ReconcileExternalJob(db, run, expected, observed, now);
    if tx.err.None? {
      var row := db.jobs[run.key];
      assert Decode(row).target == expected.target && row.snapshot == Frozen(observed.target);
      assert Decode(row).Json().status == expected.status;
      assert Decode(tx.db.jobs[run.key]).target == observed.target;
    }
  }

  /** A compacted job keeps its identity and outcome and forgets where it ran; nothing can write to it again. */
  lemma CompactedIsInert(row: JobRow, job: ExternalJob, expected: ExternalJob)
    requires JobRowAgrees(row) && !Unresolved(row.status)
    ensures
      var kept := Decode(Tombstone(row));
      && kept.compacted && kept.jobId == row.checkpoint.jobId && kept.status == row.status && kept.Terminal()
      && kept.target == NO_TARGET && kept.statusUrl == "" && !kept.ReconciliationAvailable()
    ensures CheckpointConflict(Tombstone(row), job).Some? && ReconcileConflict(Tombstone(row), expected, job)
  {
  }

  lemma OnlyRetentionCompacts(db: Db, op: Op, clock: Time, key: Key)
    requires !op.PruneBefore? && key in db.jobs
    ensures key in Apply(db, op, clock).jobs && Apply(db, op, clock).jobs[key].compacted == db.jobs[key].compacted
  {
    hide KeyPresent, HasAttempt, LockRunLease, LockExpiredRunningRun, Outcome.Complete, WithRetry, DropToken, Decode,
         PolicyAdmits, SameOccurrenceActive, CheckpointConflict, ReconcileConflict, OccurrenceOpen, Unsubmitted,
         SkippedRow,
         Prunable, Compactable;
  }

  lemma RetentionCompacts(db: Db, op: Op, clock: Time, key: Key)
    requires op.PruneBefore? && key in db.jobs && !db.jobs[key].compacted && Apply(db, op, clock).jobs[key].compacted
    ensures !Unresolved(db.jobs[key].status) && !KeyPresent(Apply(db, op, clock).runs, key)
  {
    hide Prunable, KeyPresent;
  }

  /** Compaction happens only in retention, only to terminal jobs, and only once no attempt is left. */
  lemma CompactionIsSafe(w: World, op: Op, key: Key)
    requires key in w.db.jobs && !w.db.jobs[key].compacted
    requires var jobs := Apply(w.db, op, w.clock).jobs; key in jobs && jobs[key].compacted
    requires Inv(w) && Enabled(w, op)
    ensures op.PruneBefore? && w.db.jobs[key].checkpoint.Terminal() && !KeyPresent(Apply(w.db, op, w.clock).runs, key)
  {
    hide KeyPresent, Enabled, Apply, Rows, Chain, Agreement, EventsAgree, DeadAgree, HistoryOk;
    assert JobRowAgrees(w.db.jobs[key]);
    if op.PruneBefore? {
      RetentionCompacts(w.db, op, w.clock, key);
    } else {
      OnlyRetentionCompacts(w.db, op, w.clock, key);
    }
  }

  // ---------------------------------------------------------------- concurrency

  lemma LeasesComeFromClaims(db: Db, op: Op, clock: Time)
    ensures !op.Claim? ==> Apply(db, op, clock).leases.Keys <= db.leases.Keys
  {
    hide HasAttempt, Outcome.Complete, WithRetry, PolicyAdmits, SameOccurrenceActive,
         CheckpointConflict, ReconcileConflict, OccurrenceOpen, Unsubmitted, Compactable, Prunable;
  }

  lemma CheckpointsComeFromSaves(db: Db, op: Op, clock: Time, key: Key)
    requires key !in db.jobs && key in Apply(db, op, clock).jobs
    ensures op.Save? && key == op.read.run.key && Apply(db, op, clock).jobs[key].schedule == op.read.run.schedule
    ensures LockRunLease(db, op.read.run.id, op.worker, op.token, op.now, true).None?
  {
    hide HasAttempt, LockRunLease, LockExpiredRunningRun, Outcome.Complete, WithRetry, PolicyAdmits,
         SameOccurrenceActive,
         CheckpointConflict, ReconcileConflict, OccurrenceOpen, Unsubmitted, Prunable, Compactable, DropToken;
  }

  lemma JobKept(w: World, cause: Cause, db: Db, key: Key)
    requires Effect(w, cause, db) && key in w.db.jobs
    ensures key in db.jobs && JobEvolves(w.db.jobs[key], db.jobs[key])
  {
    hide TablesOk, RunsEvolve, LiveTokens, EventsEvolve;
  }

  /** A job row active after a step was active before it, or belongs to a run that was. */
  lemma JobWasActive(w: World, op: Op, key: Key)
    requires Inv(w) && Enabled(w, op)
    requires var jobs := Apply(w.db, op, w.clock).jobs; key in jobs && Unresolved(jobs[key].status)
    ensures key in ActiveOccurrences(w.db, Apply(w.db, op, w.clock).jobs[key].schedule)
  {
    if key in w.db.jobs {
      hide Apply, Inv, Enabled, Effect;
      OpEffect(w, op);
      JobKept(w, CauseOf(op), Apply(w.db, op, w.clock), key);
    } else {
      assert op.Save? ==> op.read in w.known;
      hide Apply, Inv, Enabled, Effect;
      CheckpointsComeFromSaves(w.db, op, w.clock, key);
      ReadAgrees(w, op.read);
      RunIsActiveOccurrence(w.db, op.read.run.id);
    }
  }

  /** A run active after a step other than a claim was active before it, with the same occurrence. */
  lemma RunWasActive(w: World, op: Op, id: RunId)
    requires Inv(w) && Enabled(w, op) && !op.Claim?
    requires var runs := Apply(w.db, op, w.clock).runs; id in runs && Active(runs[id].status)
    ensures
      var run := Apply(w.db, op, w.clock).runs[id];
      run.key in ActiveOccurrences(w.db, run.schedule)
  {
    OpEffect(w, op);
    LeasesComeFromClaims(w.db, op, w.clock);
    assert id in Apply(w.db, op, w.clock).leases;
    assert id in w.db.leases;
    RunIsActiveOccurrence(w.db, id);
    hide Apply, Enabled, ActiveOccurrences, LiveTokens;
  }

  /** Prune, compaction, reconciliation, recovery and every other step but a claim add no active occurrence. */
  lemma OnlyClaimsActivate(w: World, op: Op, schedule: ScheduleId)
    requires Inv(w) && Enabled(w, op) && !op.Claim?
    ensures ActiveOccurrences(Step(w, op).db, schedule) <= ActiveOccurrences(w.db, schedule)
  {
    var after := Apply(w.db, op, w.clock);
    forall id | id in after.runs && after.runs[id].schedule == schedule && Active(after.runs[id].status)
      ensures after.runs[id].key in ActiveOccurrences(w.db, schedule)
    {
      RunWasActive(w, op, id);
    }
    forall k | k in after.jobs && after.jobs[k].schedule == schedule && Unresolved(after.jobs[k].status)
      ensures k in ActiveOccurrences(w.db, schedule)
    {
      JobWasActive(w, op, k);
    }
    hide Inv, Enabled, Apply, ActiveOccurrences;
    ActiveGrowsOnlyBy(w.db, after, schedule, {});
  }

  lemma ClaimActivatesOne(db: Db, op: Op, schedule: ScheduleId)
    requires op.Claim? && ClaimRun(db, op.schedule, op.policy, op.id, op.worker, op.now, op.ttl, op.token).claimed
    ensures
      var after := ClaimRun(db, op.schedule, op.policy, op.id, op.worker, op.now, op.ttl, op.token).db;
      && PolicyAdmits(db, op.schedule, db.runs[op.id].key, op.policy)
      && ActiveOccurrences(after, schedule) <= ActiveOccurrences(db, schedule) + (if schedule == op.schedule then
           {db.runs[op.id].key} else {})
  {
    hide PolicyAdmits, SameOccurrenceActive;
    var after := ClaimRun(db, op.schedule, op.policy, op.id, op.worker, op.now, op.ttl, op.token).db;
    assert after.jobs == db.jobs && after.runs.Keys == db.runs.Keys;
    forall id | id in after.runs && id != op.id ensures after.runs[id] == db.runs[id] { }
    assert after.runs[op.id].schedule == op.schedule && after.runs[op.id].key == db.runs[op.id].key;
    hide ClaimRun;
  }

  /** A successful claim leaves its schedule within the policy it was checked against, however that policy
      was edited before; other schedules are not affected. */
  lemma ClaimStaysWithinPolicy(w: World, op: Op, schedule: ScheduleId)
    requires op.Claim?
    ensures schedule != op.schedule ==> ActiveOccurrences(Step(w, op).db, schedule) <= ActiveOccurrences(w.db, schedule)
    ensures schedule == op.schedule && Step(w, op).db != w.db ==>
              && |ActiveOccurrences(Step(w, op).db, schedule)| <= op.policy.maxConcurrency
              && (op.policy.overlap != OverlapAllow ==> |ActiveOccurrences(Step(w, op).db, schedule)| <= 1)
  {
    ClaimStepDb(w, op);
    hide PolicyAdmits, SameOccurrenceActive, ActiveOccurrences, Step;
    var tx := ClaimRun(w.db, op.schedule, op.policy, op.id, op.worker, op.now, op.ttl, op.token);
    if tx.claimed {
      ClaimActivatesOne(w.db, op, schedule);
      if schedule == op.schedule {
        AdmittedClaimFits(w.db, tx.db, schedule, w.db.runs[op.id].key, op.policy);
      }
    }
  }

  lemma ClaimStepDb(w: World, op: Op)
    requires op.Claim?
    ensures Step(w, op).db == ClaimRun(w.db, op.schedule, op.policy, op.id, op.worker, op.now, op.ttl, op.token).db
  {
    hide ClaimRun;
  }

  /** Schedule policies stay as configured for the whole run. */
  ghost predicate FixedPolicy(ops: seq<Op>, policies: ScheduleId -> Policy) {
    forall i {:trigger ops[i]} | 0 <= i < |ops| :: UsesPolicy(ops[i], policies)
  }

  ghost predicate UsesPolicy(op: Op, policies: ScheduleId -> Policy) {
    && (op.Claim? ==> op.policy == policies(op.schedule))
    && (op.Complete? ==> op.retry == policies(op.read.run.schedule).retry)
    && (op.RecoverOrdinary? ==> op.retry == policies(op.read.run.schedule).retry)
  }

  predicate WithinPolicy(db: Db, schedule: ScheduleId, policy: Policy) {
    && |ActiveOccurrences(db, schedule)| <= policy.maxConcurrency
    && (policy.overlap != OverlapAllow ==> |ActiveOccurrences(db, schedule)| <= 1)
  }

  lemma StepStaysWithinPolicy(w: World, op: Op, policies: ScheduleId -> Policy, schedule: ScheduleId)
    requires Inv(w) && Enabled(w, op) && UsesPolicy(op, policies) && WithinPolicy(w.db, schedule, policies(schedule))
    ensures WithinPolicy(Step(w, op).db, schedule, policies(schedule))
  {
    hide Inv, Enabled, Step, ActiveOccurrences;
    if op.Claim? {
      ClaimStaysWithinPolicy(w, op, schedule);
    } else {
      OnlyClaimsActivate(w, op, schedule);
    }
    if ActiveOccurrences(Step(w, op).db, schedule) <= ActiveOccurrences(w.db, schedule) {
      SubsetCardinality(ActiveOccurrences(Step(w, op).db, schedule), ActiveOccurrences(w.db, schedule));
    }
  }

  /** At most maxConcurrency active occurrences per schedule in every reachable state, one unless overlap is allowed. */
  lemma {:induction false} ConcurrencyBounded(states: seq<World>, ops: seq<Op>, policies: ScheduleId -> Policy,
                                              schedule: ScheduleId, i: nat)
    requires FixedPolicy(ops, policies) && i < |states|
    requires policies(schedule).maxConcurrency >= 1
    requires Behaviour(states, ops)
    ensures |ActiveOccurrences(states[i].db, schedule)| <= policies(schedule).maxConcurrency
    ensures policies(schedule).overlap != OverlapAllow ==> |ActiveOccurrences(states[i].db, schedule)| <= 1
    decreases i
  {
    hide Behaviour, Inv, Enabled, Step, ActiveOccurrences, UsesPolicy, Initial;
    BehaviourShape(states, ops);
    if i == 0 {
      InitiallyIdle(states[0], schedule);
    } else {
      BehaviourStep(states, ops, i - 1);
      ConcurrencyBounded(states, ops, policies, schedule, i - 1);
      StepStaysWithinPolicy(states[i - 1], ops[i - 1], policies, schedule);
    }
  }

  lemma InitiallyIdle(w: World, schedule: ScheduleId)
    requires Initial(w)
    ensures ActiveOccurrences(w.db, schedule) == {} && w.db.runs == map[]
  {
  }

  /** Two attempts of one occurrence are never active together. */
  lemma OneActiveAttempt(states: seq<World>, ops: seq<Op>, i: nat, a: RunId, b: RunId)
    requires i < |states|
    requires a in states[i].db.runs && b in states[i].db.runs && states[i].db.runs[a].key == states[i].db.runs[b].key
    requires Active(states[i].db.runs[a].status) && Active(states[i].db.runs[b].status)
    requires Behaviour(states, ops)
    ensures a == b
  {
    ReachableInv(states, ops, i);
    assert Ordered(states[i].db.runs[a], states[i].db.runs[b]) && Ordered(states[i].db.runs[b], states[i].db.runs[a]);
  }

  // ---------------------------------------------------------------- bounded retries

  lemma FinishAddsRetry(db: Db, run: Run, worker: WorkerId, token: Token, retry: Option<Run>, deadId: DeadId,
                        dead: Option<DeadLetter>,
                        now: Time, expired: bool, id: RunId)
    requires var after := FinishExternalRun(db, run, worker, token, retry, deadId, dead, now,
             expired).db.runs; id in after && id !in db.runs
    ensures retry.Some? && run.id in db.runs
    ensures FinishExternalRun(db, run, worker, token, retry, deadId, dead, now, expired).db.runs[id]
            == RetryRow(retry.value)
  {
    hide HasAttempt, DropToken;
  }

  lemma RetryOfCompletion(run: Run, retry: RetryPolicy, result: Result, startedAt: Time, finishedAt: Time,
                          retryId: RunId)
    ensures
      var done := Outcome.Complete(run, retry, result, startedAt, finishedAt, retryId);
      && done.run.id == run.id
      && (done.retry.Some? ==>
            && done.retry.value.schedule == run.schedule && done.retry.value.key == run.key
            && done.retry.value.attempt == run.attempt + 1 && ShouldRetry(retry, run.attempt))
  {
    hide BackoffSeconds, ShouldRetry;
  }

  lemma FinishedNewRow(db: Db, op: Op, clock: Time, id: RunId)
    requires (op.Complete? || op.RecoverOrdinary?) && id in Apply(db, op, clock).runs && id !in db.runs
    ensures
      var row := Apply(db, op, clock).runs[id];
      && op.read.run.id in db.runs
      && row.schedule == op.read.run.schedule && row.key == op.read.run.key
      && row.attempt == op.read.run.attempt + 1 && ShouldRetry(op.retry, op.read.run.attempt)
  {
    hide FinishExternalRun, Outcome.Complete, ShouldRetry;
    match op
    case Complete(read, worker, token, retry, result, startedAt, finishedAt, retryId, deadId, now) =>
      var done := Outcome.Complete(read.run, retry, result, startedAt, finishedAt, retryId);
      RetryOfCompletion(read.run, retry, result, startedAt, finishedAt, retryId);
      FinishAddsRetry(db, done.run, worker, token, done.retry, deadId, done.dead, now, false, id);
    case RecoverOrdinary(read, retry, finishedAt, retryId, deadId) =>
      var done := Outcome.Complete(read.run, retry, EXPIRED_RESULT, finishedAt, finishedAt, retryId);
      RetryOfCompletion(read.run, retry, EXPIRED_RESULT, finishedAt, finishedAt, retryId);
      FinishAddsRetry(db, done.run, "", 0, done.retry, deadId, done.dead, finishedAt, true, id);
  }

  lemma OtherNewRows(db: Db, op: Op, clock: Time, id: RunId)
    requires !op.Complete? && !op.RecoverOrdinary? && id in Apply(db, op, clock).runs && id !in db.runs
    ensures if op.Insert? then Apply(db, op, clock).runs[id] == op.run
            else Apply(db, op, clock).runs[id].attempt == 1 && Apply(db, op, clock).runs[id].key.Event?
  {
    hide HasAttempt, PolicyAdmits, SameOccurrenceActive,
         CheckpointConflict, ReconcileConflict, OccurrenceOpen, Unsubmitted, Compactable, Prunable, DropToken;
  }

  lemma InsertsFirstAttempts(w: World, op: Op)
    requires op.Insert? && Enabled(w, op)
    ensures op.run.attempt == 1
  {
    hide HasAttempt, KeyPresent;
  }

  lemma NewRowsAreFirstOrRetries(w: World, op: Op, id: RunId)
    requires Inv(w) && Enabled(w, op) && id in Step(w, op).db.runs && id !in w.db.runs
    ensures
      var row := Step(w, op).db.runs[id];
      || row.attempt == 1
      || ((op.Complete? || op.RecoverOrdinary?) && row.schedule == op.read.run.schedule
          && row.attempt == op.read.run.attempt + 1 && ShouldRetry(op.retry, op.read.run.attempt))
  {
    hide Inv, Enabled, Apply, CauseOf, ShouldRetry, LiveTokens;
    if op.Complete? || op.RecoverOrdinary? {
      FinishedNewRow(w.db, op, w.clock, id);
    } else {
      OtherNewRows(w.db, op, w.clock, id);
      if op.Insert? { InsertsFirstAttempts(w, op); }
    }
  }

  predicate WithinAttempts(run: Run, retry: RetryPolicy) {
    run.attempt == 1 || 1 <= run.attempt <= retry.maxAttempts
  }

  lemma StepStaysWithinAttempts(w: World, op: Op, policies: ScheduleId -> Policy, id: RunId)
    requires Inv(w) && Enabled(w, op) && UsesPolicy(op, policies) && id in Step(w, op).db.runs
    requires id in w.db.runs ==> WithinAttempts(w.db.runs[id], policies(w.db.runs[id].schedule).retry)
    ensures WithinAttempts(Step(w, op).db.runs[id], policies(Step(w, op).db.runs[id].schedule).retry)
  {
    if id in w.db.runs {
      StepKeepsInv(w, op);
      hide Inv, Enabled, Step, JobsEvolve, EventsEvolve;
    } else {
      hide Inv, Enabled, Step;
      NewRowsAreFirstOrRetries(w, op, id);
    }
  }

  /** An occurrence gets at most max(1, maxAttempts) attempts. */
  lemma {:induction false} AttemptsBounded(states: seq<World>, ops: seq<Op>, policies: ScheduleId -> Policy, i: nat,
                                           id: RunId)
    requires FixedPolicy(ops, policies) && i < |states| && id in states[i].db.runs
    requires Behaviour(states, ops)
    ensures
      var run := states[i].db.runs[id];
      run.attempt == 1 || 1 <= run.attempt <= policies(run.schedule).retry.maxAttempts
    decreases i
  {
    hide Behaviour, Inv, Enabled, Step, UsesPolicy, Initial, ActiveOccurrences;
    BehaviourShape(states, ops);
    if i == 0 {
      InitiallyIdle(states[0], "");
    } else {
      BehaviourStep(states, ops, i - 1);
      if id in states[i - 1].db.runs {
        AttemptsBounded(states, ops, policies, i - 1, id);
      }
      StepStaysWithinAttempts(states[i - 1], ops[i - 1], policies, id);
    }
  }

  // ---------------------------------------------------------------- events

  /** Over any deliveries, pauses and prunes, one event identity has one first attempt, ever. */
  lemma EventRunsOnce(states: seq<World>, ops: seq<Op>, i: nat, j: nat, a: RunId, b: RunId)
    requires i <= j < |states| && a in states[i].db.runs && b in states[j].db.runs
    requires states[i].db.runs[a].key.Event? && states[j].db.runs[b].key == states[i].db.runs[a].key
    requires states[i].db.runs[a].attempt == 1 && states[j].db.runs[b].attempt == 1
    requires Behaviour(states, ops)
    ensures a == b
  {
    HistoryEvolves(states, ops, i, j);
    assert states[i].db.runs[a].key in states[i].db.events;
  }

  /** A first delivery at moment i decides every later delivery of the same identity: the same data finds
      the same run or learns that it was pruned, other data conflicts, and no later delivery changes a table. */
  lemma EventReplay(states: seq<World>, ops: seq<Op>, i: nat, j: nat, schedule: ScheduleId, event: EventData,
                    data: string, id: RunId, now: Time)
    requires i < |ops| && i + 1 <= j < |states|
    requires ops[i].Deliver? && ops[i].schedule == schedule && ops[i].event == event
    requires TriggerEvent(states[i].db, schedule, event, ops[i].id, ops[i].now).created
    requires schedule in states[j].db.enabled
    requires Behaviour(states, ops)
    ensures
      var again := TriggerEvent(states[j].db, schedule, event.(data := data), id, now);
      && again.db == states[j].db && !again.created && again.run == ops[i].id
      && (data != event.data ==> again.err == Some(EventConflict))
      && (data == event.data ==> again.err == (if ops[i].id in states[j].db.runs then None else Some(HistoryPruned)))
  {
    hide Inv, Evolves, Step, Behaviour, HasAttempt, Enabled;
    BehaviourShape(states, ops);
    HistoryEvolves(states, ops, i + 1, j);
    BehaviourStep(states, ops, i);
    DeliveryIsRecorded(states[i], ops[i]);
    EventKept(states[i + 1], states[j], Event(schedule, event.source, event.id));
  }

  lemma EventKept(w: World, v: World, key: Key)
    requires Evolves(w, v) && key in w.db.events
    ensures key in v.db.events && v.db.events[key] == w.db.events[key]
  {
  }

  lemma DeliveryIsRecorded(w: World, op: Op)
    requires op.Deliver? && TriggerEvent(w.db, op.schedule, op.event, op.id, op.now).created
    ensures
      var key := Event(op.schedule, op.event.source, op.event.id);
      var events := Step(w, op).db.events;
      key in events && events[key].event == op.event && events[key].run == op.id
  {
    hide HasAttempt;
  }

  /** A step that records a first delivery of an event. */
  predicate Records(w: World, op: Op, key: Key) {
    && op.Deliver? && key == Event(op.schedule, op.event.source, op.event.id)
    && TriggerEvent(w.db, op.schedule, op.event, op.id, op.now).created
  }

  lemma OnlyDeliveriesRecord(w: World, op: Op, key: Key)
    requires key !in w.db.events && key in Step(w, op).db.events
    ensures Records(w, op, key)
  {
    hide HasAttempt, Outcome.Complete, WithRetry, PolicyAdmits, SameOccurrenceActive, LockRunLease,
         LockExpiredRunningRun,
         CheckpointConflict, ReconcileConflict, OccurrenceOpen, Unsubmitted, Compactable, Prunable, LiveTokens, CauseOf;
  }

  lemma NoEventsAtFirst(states: seq<World>, ops: seq<Op>, key: Key)
    requires Behaviour(states, ops)
    ensures key !in states[0].db.events
  {
  }

  lemma {:induction false} SeenIff(states: seq<World>, ops: seq<Op>, i: nat, key: Key)
    requires |states| == |ops| + 1 && i <= |ops|
    requires Behaviour(states, ops)
    ensures key in states[i].db.events <==> exists j | 0 <= j < i :: Records(states[j], ops[j], key)
    decreases i
  {
    hide Behaviour, Inv, Evolves, Enabled, Step, Records;
    if i == 0 {
      NoEventsAtFirst(states, ops, key);
    } else {
      SeenIff(states, ops, i - 1, key);
      BehaviourStep(states, ops, i - 1);
      HistoryEvolves(states, ops, i - 1, i);
      if key in states[i - 1].db.events {
        EventKept(states[i - 1], states[i], key);
        var j :| 0 <= j < i - 1 && Records(states[j], ops[j], key);
      } else if key in states[i].db.events {
        OnlyDeliveriesRecord(states[i - 1], ops[i - 1], key);
      } else {
        NothingRecorded(states[i - 1], ops[i - 1], key);
      }
    }
  }

  lemma NothingRecorded(w: World, op: Op, key: Key)
    requires key !in Step(w, op).db.events
    ensures !Records(w, op, key)
  {
    hide HasAttempt, LiveTokens, CauseOf;
    if Records(w, op, key) { DeliveryIsRecorded(w, op); }
  }

  lemma DeliveredIdIsNew(w: World, op: Op)
    requires op.Deliver? && Inv(w) && Enabled(w, op)
    ensures op.id !in w.db.runs
  {
    hide TablesOk;
  }

  lemma EventsOfInv(w: World)
    requires Inv(w)
    ensures EventsAgree(w.db.runs, w.db.events)
  {
    hide Rows, Chain, Agreement, JobsAgree, EventsAgree, DeadAgree, HistoryOk;
  }

  lemma DeliveryOutcome(w: World, op: Op)
    requires op.Deliver? && Inv(w) && Enabled(w, op)
    ensures
      var key := Event(op.schedule, op.event.source, op.event.id);
      var tx := TriggerEvent(w.db, op.schedule, op.event, op.id, op.now);
      && Step(w, op).db == tx.db
      && (tx.created <==> op.schedule in w.db.enabled && key !in w.db.events && w.db.enabled[op.schedule])
      && (tx.err == Some(SchedulePaused) <==>
            op.schedule in w.db.enabled && key !in w.db.events && !w.db.enabled[op.schedule])
      && tx.err != Some(AlreadyExists) && (tx.created <==> tx.db != w.db)
  {
    hide Inv, KeyPresent, HasAttempt, LiveTokens, CauseOf, TablesOk, HistoryOk;
    var key := Event(op.schedule, op.event.source, op.event.id);
    DeliveredIdIsNew(w, op);
    if key !in w.db.events {
      EventsOfInv(w);
      UnrecordedKeyIsAbsent(w.db.runs, w.db.events, key);
      AbsentHasNoAttempt(w.db.runs, key);
    }
  }

  /** A delivery changes the tables exactly when its schedule is known and on and no step before it in the run has
      recorded the same identity. It is refused as paused exactly when the schedule is known and off and the identity
      is new, which records nothing; the insert never collides. */
  lemma DeliveryRecordsIff(states: seq<World>, ops: seq<Op>, i: nat)
    requires |states| == |ops| + 1 && i < |ops| && ops[i].Deliver?
    requires Behaviour(states, ops)
    ensures
      var op, db := ops[i], states[i].db;
      var key := Event(op.schedule, op.event.source, op.event.id);
      var tx := TriggerEvent(db, op.schedule, op.event, op.id, op.now);
      var isNew := !exists j | 0 <= j < i :: Records(states[j], ops[j], key);
      && (states[i + 1].db != db <==> op.schedule in db.enabled && db.enabled[op.schedule] && isNew)
      && (tx.err == Some(SchedulePaused) <==> op.schedule in db.enabled && !db.enabled[op.schedule] && isNew)
      && tx.err != Some(AlreadyExists)
  {
    hide Behaviour, Inv, Enabled, Step, Records, TriggerEvent;
    BehaviourStep(states, ops, i);
    SeenIff(states, ops, i, Event(ops[i].schedule, ops[i].event.source, ops[i].event.id));
    DeliveryOutcome(states[i], ops[i]);
  }
}
