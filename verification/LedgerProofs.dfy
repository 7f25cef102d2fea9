/** Every transaction keeps the ledger invariants and only lets rows evolve in the promised ways. */
module LedgerProofs {
  import opened Domain
  import opened Ledger
  import opened Outcome
  import opened RemoteJob
  import opened LedgerInvariants
  import opened LedgerRuns

  // ---------------------------------------------------------------- how rows may change

  ghost predicate RunsEvolve(before: map<RunId, Run>, after: map<RunId, Run>) {
    forall id | id in before && id in after ::
      SameIdentity(before[id], after[id]) && (Finished(before[id].status) ==> after[id] == before[id])
  }

  /** Deadline and submission time are fixed, the remote identity is set once, a terminal status is final. */
  predicate JobEvolves(a: JobRow, b: JobRow) {
    && b.schedule == a.schedule && b.createdAt == a.createdAt
    && b.checkpoint.submittedAt == a.checkpoint.submittedAt
    && b.checkpoint.deadlineAt == a.checkpoint.deadlineAt
    && (a.checkpoint.jobId != "" ==> b.checkpoint.jobId == a.checkpoint.jobId)
    && (a.checkpoint.jobId != "" && !b.compacted ==> b.checkpoint.statusUrl == a.checkpoint.statusUrl)
    && (b.snapshot == a.snapshot || b.snapshot.Erased?)
    && (!Unresolved(a.status) ==> b.status == a.status && SameResult(a, b))
  }

  /** After a terminal status only the refresh time changes, or the row becomes a tombstone. */
  predicate SameResult(a: JobRow, b: JobRow) {
    || b.checkpoint == a.checkpoint.(updatedAt := b.checkpoint.updatedAt)
    || b.checkpoint == Tombstone(a).checkpoint.(updatedAt := b.checkpoint.updatedAt)
  }

  ghost predicate JobsEvolve(before: map<Key, JobRow>, after: map<Key, JobRow>) {
    forall k | k in before :: k in after && JobEvolves(before[k], after[k])
  }

  ghost predicate EventsEvolve(before: map<Key, EventRow>, after: map<Key, EventRow>) {
    forall k | k in before :: k in after && after[k] == before[k]
  }

  ghost predicate Evolves(w: World, v: World) {
    && RunsEvolve(w.db.runs, v.db.runs)
    && (forall id | id in w.ids && id !in w.db.runs :: id !in v.db.runs)
    && JobsEvolve(w.db.jobs, v.db.jobs)
    && EventsEvolve(w.db.events, v.db.events)
    && w.ids <= v.ids && w.issued <= v.issued && w.known <= v.known && w.clock <= v.clock
    && (forall t | t in w.retired :: t in v.retired && v.retired[t] == w.retired[t])
  }

  lemma JobEvolvesTransitive(a: JobRow, b: JobRow, c: JobRow)
    requires JobRowAgrees(a) && JobRowAgrees(b) && JobRowAgrees(c) && JobEvolves(a, b) && JobEvolves(b, c)
    ensures JobEvolves(a, c)
  {
  }

  lemma EvolvesTransitive(u: World, v: World, w: World)
    requires TablesOk(u.db) && TablesOk(v.db) && TablesOk(w.db) && HistoryOk(u) && HistoryOk(v)
    requires Evolves(u, v) && Evolves(v, w)
    ensures Evolves(u, w)
  {
    forall k | k in u.db.jobs ensures k in w.db.jobs && JobEvolves(u.db.jobs[k], w.db.jobs[k]) {
      JobEvolvesTransitive(u.db.jobs[k], v.db.jobs[k], w.db.jobs[k]);
    }
    forall id | id in u.db.runs && id in w.db.runs
      ensures SameIdentity(u.db.runs[id], w.db.runs[id]) && (Finished(u.db.runs[id].status) ==>
                w.db.runs[id] == u.db.runs[id])
    {
      assert id in v.ids;
    }
  }

  /** What one transaction may do to the tables and the tokens. */
  ghost predicate Effect(w: World, cause: Cause, db: Db) {
    && TablesOk(db)
    && RunsEvolve(w.db.runs, db.runs)
    && (forall id | id in db.runs && id !in w.db.runs :: id !in w.ids && db.runs[id].createdAt <= w.clock)
    && (forall d | d in db.dead && d !in w.db.dead :: d !in w.deadIds)
    && JobsEvolve(w.db.jobs, db.jobs)
    && EventsEvolve(w.db.events, db.events)
    && (forall t | t in LiveTokens(db.leases) && t in w.issued :: t in LiveTokens(w.db.leases))
    && (LiveTokens(w.db.leases) <= LiveTokens(db.leases) || cause != NotARetirement)
  }

  // ---------------------------------------------------------------- table by table

  lemma EventsRewrite(runs: map<RunId, Run>, after: map<RunId, Run>, events: map<Key, EventRow>)
    requires EventsAgree(runs, events) && after.Keys == runs.Keys
    requires forall id | id in runs :: SameIdentity(runs[id], after[id])
    ensures EventsAgree(after, events)
  {
  }

  lemma DeadRewrite(runs: map<RunId, Run>, after: map<RunId, Run>, dead: map<DeadId, DeadLetter>)
    requires DeadAgree(runs, dead) && after.Keys == runs.Keys
    requires forall id | id in runs :: SameIdentity(runs[id], after[id])
    requires forall id | id in runs :: runs[id].status == DeadLettered <==> after[id].status == DeadLettered
    ensures DeadAgree(after, dead)
  {
  }

  /** Rewriting unfinished rows without failing or dead-lettering any of them. */
  lemma RewriteKeepsTables(db: Db, after: Db)
    requires TablesOk(db) && after.runs.Keys == db.runs.Keys
    requires forall id | id in db.runs :: SameIdentity(db.runs[id], after.runs[id])
    requires forall id | id in db.runs && after.runs[id] != db.runs[id] ::
               && !Finished(db.runs[id].status) && after.runs[id].status != Failed
               && after.runs[id].status != DeadLettered
               && (Finished(after.runs[id].status) ==>
                     after.runs[id].finishedAt.Some? && after.runs[id].createdAt <= after.runs[id].finishedAt.value)
    requires after.jobs == db.jobs && after.events == db.events && after.dead == db.dead
    requires Agreement(after.runs, after.leases)
    ensures TablesOk(after) && RunsEvolve(db.runs, after.runs)
  {
    hide Rows, Chain, Agreement, JobsAgree, EventsAgree, DeadAgree;
    ChainRewrite(db.runs, after.runs);
    EventsRewrite(db.runs, after.runs, db.events);
    DeadRewrite(db.runs, after.runs, db.dead);
  }

  lemma WriteKeepsTables(db: Db, after: Db, id: RunId, row: Run)
    requires TablesOk(db) && id in db.runs && SameIdentity(db.runs[id], row)
    requires Waiting(db.runs[id].status) || Active(db.runs[id].status)
    requires Waiting(row.status) || Active(row.status)
    requires after.runs == db.runs[id := row] && after.jobs == db.jobs && after.events == db.events
             && after.dead == db.dead
    requires Agreement(after.runs, after.leases)
    ensures TablesOk(after) && RunsEvolve(db.runs, after.runs)
  {
    hide Rows, Chain, Agreement, JobsAgree, EventsAgree, DeadAgree, RunsEvolve;
    RewriteKeepsTables(db, after);
  }

  lemma LeaseFacts(db: Db, id: RunId)
    requires Agreement(db.runs, db.leases)
    ensures id in db.leases <==> id in db.runs && Active(db.runs[id].status)
    ensures id in db.leases ==> db.leases[id].token in LiveTokens(db.leases)
  {
  }

  // ---------------------------------------------------------------- effects of the lease transactions

  lemma JobsReflexive(jobs: map<Key, JobRow>)
    ensures JobsEvolve(jobs, jobs)
  {
  }

  /** A transaction on runs, leases and dead letters that inserts at most one run and one dead letter. */
  lemma RowEffect(w: World, cause: Cause, db: Db, newRun: RunId, newDead: DeadId)
    requires HistoryOk(w) && TablesOk(db) && RunsEvolve(w.db.runs, db.runs)
    requires newRun in db.runs && newRun !in w.db.runs ==> newRun !in w.ids && db.runs[newRun].createdAt <= w.clock
    requires db.runs.Keys <= w.db.runs.Keys + {newRun}
    requires db.dead.Keys <= w.db.dead.Keys + {newDead}
    requires newDead in db.dead && newDead !in w.db.dead ==> newDead !in w.deadIds
    requires db.jobs == w.db.jobs && db.events == w.db.events
    requires forall t | t in LiveTokens(db.leases) && t in w.issued :: t in LiveTokens(w.db.leases)
    requires LiveTokens(w.db.leases) <= LiveTokens(db.leases) || cause != NotARetirement
    ensures Effect(w, cause, db)
  {
    hide Rows, Chain, Agreement, JobsAgree, EventsAgree, DeadAgree, RunsEvolve, JobsEvolve, HistoryOk, TablesOk;
    JobsReflexive(db.jobs);
  }

  lemma NoEffect(w: World, cause: Cause)
    requires Inv(w)
    ensures Effect(w, cause, w.db)
  {
    JobsReflexive(w.db.jobs);
    hide Rows, Chain, Agreement, JobsAgree, EventsAgree, DeadAgree, JobsEvolve, HistoryOk, TablesOk;
  }

  /** The same for transactions that insert nothing. */
  lemma UpdateEffect(w: World, cause: Cause, db: Db)
    requires Inv(w) && TablesOk(db) && RunsEvolve(w.db.runs, db.runs)
    requires db.runs.Keys == w.db.runs.Keys && db.dead == w.db.dead && db.jobs == w.db.jobs && db.events == w.db.events
    requires forall t | t in LiveTokens(db.leases) && t in w.issued :: t in LiveTokens(w.db.leases)
    requires LiveTokens(w.db.leases) <= LiveTokens(db.leases) || cause != NotARetirement
    ensures Effect(w, cause, db)
  {
    hide Rows, Chain, Agreement, JobsAgree, EventsAgree, DeadAgree, RunsEvolve, JobsEvolve, HistoryOk, TablesOk;
    JobsReflexive(db.jobs);
  }

  lemma ClaimKeepsTables(db: Db, schedule: ScheduleId, policy: Policy, id: RunId, worker: WorkerId, now: Time, ttl: int,
                         token: Token)
    requires TablesOk(db) && token !in LiveTokens(db.leases)
    requires ClaimRun(db, schedule, policy, id, worker, now, ttl, token).claimed
    ensures
      var tx := ClaimRun(db, schedule, policy, id, worker, now, ttl, token);
      TablesOk(tx.db) && RunsEvolve(db.runs, tx.db.runs) && LiveTokens(tx.db.leases) == LiveTokens(db.leases) + {token}
  {
    hide PolicyAdmits, SameOccurrenceActive;
    var tx := ClaimRun(db, schedule, policy, id, worker, now, ttl, token);
    LeaseFacts(db, id);
    hide Rows, Chain, Agreement, JobsAgree, EventsAgree, DeadAgree, RunsEvolve;
    AgreementRewrite(db.runs, db.leases, id, tx.db.runs[id], tx.db.leases[id]);
    LiveAfterClaim(db.leases, id, tx.db.leases[id]);
    WriteKeepsTables(db, tx.db, id, tx.db.runs[id]);
  }

  lemma ClaimEffect(w: World, schedule: ScheduleId, policy: Policy, id: RunId, worker: WorkerId, now: Time, ttl: int,
                    token: Token)
    requires Inv(w) && token !in w.issued
    ensures Effect(w, NotARetirement, ClaimRun(w.db, schedule, policy, id, worker, now, ttl, token).db)
  {
    hide TablesOk, RunsEvolve, Effect, ClaimRun, LiveTokens;
    var tx := ClaimRun(w.db, schedule, policy, id, worker, now, ttl, token);
    ClaimShape(w.db, schedule, policy, id, worker, now, ttl, token);
    if tx.claimed {
      ClaimKeepsTables(w.db, schedule, policy, id, worker, now, ttl, token);
      UpdateEffect(w, NotARetirement, tx.db);
    } else {
      NoEffect(w, NotARetirement);
    }
  }

  lemma ClaimShape(db: Db, schedule: ScheduleId, policy: Policy, id: RunId, worker: WorkerId, now: Time, ttl: int,
                   token: Token)
    ensures
      var tx := ClaimRun(db, schedule, policy, id, worker, now, ttl, token);
      && tx.db == db.(runs := tx.db.runs, leases := tx.db.leases) && tx.db.runs.Keys == db.runs.Keys
      && (!tx.claimed ==> tx.db == db)
  {
    hide PolicyAdmits, SameOccurrenceActive;
  }

  lemma StartEffect(w: World, id: RunId, worker: WorkerId, token: Token, now: Time)
    requires Inv(w)
    ensures Effect(w, NotARetirement, MarkRunning(w.db, id, worker, token, now).db)
  {
    var tx := MarkRunning(w.db, id, worker, token, now);
    if tx.err.None? {
      LeaseFacts(w.db, id);
      AgreementRewrite(w.db.runs, w.db.leases, id, tx.db.runs[id], w.db.leases[id]);
      assert w.db.leases[id := w.db.leases[id]] == w.db.leases;
      hide Rows, Chain, Agreement, JobsAgree, EventsAgree, DeadAgree, RunsEvolve, HistoryOk, Effect;
      WriteKeepsTables(w.db, tx.db, id, tx.db.runs[id]);
      UpdateEffect(w, NotARetirement, tx.db);
    } else {
      hide Effect;
      NoEffect(w, NotARetirement);
    }
  }

  lemma RenewKeepsTables(db: Db, id: RunId, worker: WorkerId, token: Token, now: Time, ttl: int)
    requires TablesOk(db) && RenewLease(db, id, worker, token, now, ttl).err.None?
    ensures
      var tx := RenewLease(db, id, worker, token, now, ttl);
      TablesOk(tx.db) && RunsEvolve(db.runs, tx.db.runs) && LiveTokens(tx.db.leases) == LiveTokens(db.leases)
  {
    var tx := RenewLease(db, id, worker, token, now, ttl);
    hide Rows, Chain, Agreement, JobsAgree, EventsAgree, DeadAgree, RunsEvolve;
    AgreementRewrite(db.runs, db.leases, id, tx.db.runs[id], tx.db.leases[id]);
    LiveAfterWrite(db.leases, id, tx.db.leases[id]);
    WriteKeepsTables(db, tx.db, id, tx.db.runs[id]);
  }

  lemma RenewEffect(w: World, id: RunId, worker: WorkerId, token: Token, now: Time, ttl: int)
    requires Inv(w)
    ensures Effect(w, NotARetirement, RenewLease(w.db, id, worker, token, now, ttl).db)
  {
    hide TablesOk, HistoryOk, RunsEvolve, Effect;
    var tx := RenewLease(w.db, id, worker, token, now, ttl);
    if tx.err.None? {
      RenewKeepsTables(w.db, id, worker, token, now, ttl);
      UpdateEffect(w, NotARetirement, tx.db);
    } else {
      NoEffect(w, NotARetirement);
    }
  }

  /** Giving a run back removes exactly its lease. */
  lemma ReleaseKeepsTables(db: Db, after: Db, id: RunId, now: Time)
    requires TablesOk(db) && id in db.leases
    requires id in db.runs && after == db.(runs := db.runs[id := Released(db.runs[id], now)],
             leases := DropToken(db.leases, db.leases[id].token))
    ensures TablesOk(after) && RunsEvolve(db.runs, after.runs)
    ensures LiveTokens(after.leases) == LiveTokens(db.leases) - {db.leases[id].token}
  {
    LeaseFacts(db, id);
    hide Rows, Chain, Agreement, JobsAgree, EventsAgree, DeadAgree, RunsEvolve;
    AgreementRelease(db.runs, db.leases, id, after.runs[id]);
    WriteKeepsTables(db, after, id, after.runs[id]);
  }

  lemma ReleaseEffect(w: World, cause: Cause, id: RunId, now: Time)
    requires Inv(w) && id in w.db.leases && id in w.db.runs && cause != NotARetirement
    ensures Effect(w, cause, w.db.(runs := w.db.runs[id := Released(w.db.runs[id], now)],
            leases := DropToken(w.db.leases, w.db.leases[id].token)))
  {
    hide TablesOk, HistoryOk, RunsEvolve, Effect;
    var after := w.db.(runs := w.db.runs[id := Released(w.db.runs[id], now)], leases := DropToken(w.db.leases,
      w.db.leases[id].token));
    ReleaseKeepsTables(w.db, after, id, now);
    UpdateEffect(w, cause, after);
  }

  lemma RequeueEffect(w: World, cause: Cause, id: RunId, worker: WorkerId, token: Token, now: Time, expired: bool)
    requires Inv(w) && cause != NotARetirement
    ensures Effect(w, cause, RequeueExternalRun(w.db, id, worker, token, now, expired).db)
  {
    hide TablesOk, HistoryOk, Effect;
    if RequeueExternalRun(w.db, id, worker, token, now, expired).err.None? {
      ReleaseEffect(w, cause, id, now);
    } else {
      NoEffect(w, cause);
    }
  }

  lemma ResetEffect(w: World, cause: Cause, id: RunId, now: Time)
    requires Inv(w) && cause != NotARetirement
    ensures Effect(w, cause, ResetClaimedRun(w.db, id, now).db)
  {
    hide TablesOk, HistoryOk, Effect;
    if id in w.db.runs && w.db.runs[id].status == Claimed && id in w.db.leases && w.db.leases[id].expiresAt <= now {
      ReleaseEffect(w, cause, id, now);
    } else {
      NoEffect(w, cause);
    }
  }

  // ---------------------------------------------------------------- finishing

  lemma DeadAgreeAfterFinish(runs: map<RunId, Run>, after: map<RunId, Run>, dead: map<DeadId, DeadLetter>, id: RunId,
                             deadId: DeadId, letter: Option<DeadLetter>)
    requires DeadAgree(runs, dead) && id in runs && !Finished(runs[id].status) && deadId !in dead
    requires runs.Keys <= after.Keys
    requires forall r | r in runs && r != id :: after[r] == runs[r]
    requires forall r | r in after && r !in runs :: after[r].status != DeadLettered
    requires letter.Some? <==> after[id].status == DeadLettered
    requires letter.Some? ==>
               letter.value.run == id && letter.value.schedule == after[id].schedule
               && letter.value.key == after[id].key
    ensures DeadAgree(after, if letter.Some? then dead[deadId := letter.value] else dead)
  {
    var dead' := if letter.Some? then dead[deadId := letter.value] else dead;
    forall r | r in after && after[r].status == DeadLettered ensures HasDeadLetter(dead', r) {
      if r == id {
        assert dead'[deadId].run == id;
      } else {
        assert HasDeadLetter(dead, r);
        var d :| d in dead && dead[d].run == r;
        assert d in dead' && dead'[d].run == r;
      }
    }
  }

  lemma EventsAgreeAfterFinish(runs: map<RunId, Run>, after: map<RunId, Run>, events: map<Key, EventRow>, id: RunId)
    requires EventsAgree(runs, events) && id in runs
    requires forall r | r in runs :: r in after && after[r].key == runs[r].key && after[r].attempt == runs[r].attempt
    requires forall r | r in after && r !in runs :: after[r].key == runs[id].key && after[r].attempt > 1
    ensures EventsAgree(after, events)
  {
  }

  /** The retry that belongs to a failed row. */
  predicate RetryOf(retry: Option<Run>, row: Run) {
    && (retry.Some? <==> row.status == Failed)
    && (retry.Some? ==>
          && retry.value.key == row.key && retry.value.schedule == row.schedule
          && retry.value.attempt == row.attempt + 1
          && row.finishedAt == Some(retry.value.createdAt) && retry.value.status == RetryScheduled)
  }

  /** The dead letter that belongs to a dead-lettered row. */
  predicate LetterOf(letter: Option<DeadLetter>, row: Run) {
    && (letter.Some? <==> row.status == DeadLettered)
    && (letter.Some? ==>
          letter.value.run == row.id && letter.value.schedule == row.schedule && letter.value.key == row.key)
  }

  lemma FinishKeepsChain(runs: map<RunId, Run>, id: RunId, row: Run, retry: Option<Run>)
    requires Rows(runs) && Chain(runs) && id in runs && Active(runs[id].status)
    requires SameIdentity(runs[id], row) && Finished(row.status) && row.finishedAt.Some?
             && row.createdAt <= row.finishedAt.value
    requires RetryOf(retry, row) && (retry.Some? ==> retry.value.id !in runs)
    ensures Rows(WithRetry(runs[id := row], retry)) && Chain(WithRetry(runs[id := row], retry))
    ensures retry.Some? ==>
              WithRetry(runs[id := row], retry) == runs[id := row][retry.value.id := RetryRow(retry.value)]
    ensures retry.Some? ==> !HasAttempt(runs, row.key, row.attempt + 1)
    ensures retry.None? ==> WithRetry(runs[id := row], retry) == runs[id := row]
  {
    if retry.Some? {
      ChainFailAndRetry(runs, id, row, retry.value);
      RetryNumberIsFree(runs, id, runs[id]);
      assert runs[id := runs[id]] == runs;
    } else {
      ChainRewrite(runs, runs[id := row]);
    }
  }

  lemma RowNumbered(db: Db, id: RunId)
    requires Rows(db.runs) && id in db.runs
    ensures db.runs[id].id == id && db.runs[id].attempt >= 1
  {
  }

  lemma ReadAgrees(w: World, read: Read)
    requires Inv(w) && read in w.known && read.run.id in w.db.runs
    ensures SameIdentity(w.db.runs[read.run.id], read.run) && read.run.createdAt <= read.at
            && w.db.runs[read.run.id].id == read.run.id
  {
  }

  lemma AgreementAfterFinish(runs: map<RunId, Run>, leases: map<RunId, Lease>, id: RunId, row: Run, retry: Option<Run>)
    requires Agreement(runs, leases) && id in leases && !Active(row.status) && row.claimExpires.None?
    requires retry.Some? ==> retry.value.id !in runs && retry.value.status == RetryScheduled
    ensures Agreement(WithRetry(runs[id := row], retry), DropToken(leases, leases[id].token))
    ensures LiveTokens(DropToken(leases, leases[id].token)) == LiveTokens(leases) - {leases[id].token}
  {
    hide Agreement, HasAttempt, LiveTokens, DropToken;
    LeaseFactsOf(runs, leases, id);
    AgreementRelease(runs, leases, id, row);
    if retry.Some? && !HasAttempt(runs[id := row], retry.value.key, retry.value.attempt) {
      AgreementInsert(runs[id := row], DropToken(leases, leases[id].token), RetryRow(retry.value));
    }
  }

  lemma LeaseFactsOf(runs: map<RunId, Run>, leases: map<RunId, Lease>, id: RunId)
    requires Agreement(runs, leases) && id in leases
    ensures id in runs
  {
  }

  lemma RunsEvolveAfterFinish(runs: map<RunId, Run>, id: RunId, row: Run, retry: Option<Run>)
    requires id in runs && Active(runs[id].status) && SameIdentity(runs[id], row)
    requires retry.Some? ==> retry.value.id !in runs
    ensures RunsEvolve(runs, WithRetry(runs[id := row], retry))
  {
    hide HasAttempt;
  }

  predicate FinishInputs(db: Db, id: RunId, row: Run, retry: Option<Run>, deadId: DeadId, letter: Option<DeadLetter>) {
    && id in db.runs && Active(db.runs[id].status) && deadId !in db.dead
    && SameIdentity(db.runs[id], row) && row.id == id && row.attempt >= 1
    && Finished(row.status) && row.finishedAt.Some? && row.createdAt <= row.finishedAt.value
    && row.claimExpires.None?
    && RetryOf(retry, row) && (retry.Some? ==> retry.value.id !in db.runs)
    && LetterOf(letter, row)
  }

  function Letters(dead: map<DeadId, DeadLetter>, deadId: DeadId, letter: Option<DeadLetter>): map<DeadId, DeadLetter> {
    if letter.Some? then dead[deadId := letter.value] else dead
  }

  lemma FinishKeepsLetters(db: Db, id: RunId, row: Run, retry: Option<Run>, deadId: DeadId, letter: Option<DeadLetter>)
    requires DeadAgree(db.runs, db.dead) && EventsAgree(db.runs, db.events)
             && FinishInputs(db, id, row, retry, deadId, letter)
    ensures DeadAgree(WithRetry(db.runs[id := row], retry), Letters(db.dead, deadId, letter))
    ensures EventsAgree(WithRetry(db.runs[id := row], retry), db.events)
  {
    var runs := WithRetry(db.runs[id := row], retry);
    hide DeadAgree, EventsAgree, HasAttempt;
    EventsAgreeAfterFinish(db.runs, runs, db.events, id);
    DeadAgreeAfterFinish(db.runs, runs, db.dead, id, deadId, letter);
  }

  /** Finishing one active run together with its retry or dead letter and the end of its lease. */
  lemma FinishRowsKeepTables(db: Db, id: RunId, row: Run, retry: Option<Run>, deadId: DeadId,
                             letter: Option<DeadLetter>)
    requires TablesOk(db) && id in db.leases && FinishInputs(db, id, row, retry, deadId, letter)
    ensures
      var after := db.(runs := WithRetry(db.runs[id := row], retry),
                       leases := DropToken(db.leases, db.leases[id].token),
                       dead := Letters(db.dead, deadId, letter));
      && TablesOk(after) && RunsEvolve(db.runs, after.runs)
      && LiveTokens(after.leases) == LiveTokens(db.leases) - {db.leases[id].token}
  {
    hide Rows, Chain, JobsAgree, EventsAgree, DeadAgree, Agreement, RunsEvolve, WithRetry, Letters, HasAttempt;
    RunsEvolveAfterFinish(db.runs, id, row, retry);
    FinishKeepsChain(db.runs, id, row, retry);
    AgreementAfterFinish(db.runs, db.leases, id, row, retry);
    FinishKeepsLetters(db, id, row, retry, deadId, letter);
  }

  /** An accepted outcome is a finished row with the retry or dead letter that belongs to it. */
  lemma FinishedInputs(db: Db, run: Run, retry: RetryPolicy, result: Result, startedAt: Time, finishedAt: Time,
                       retryId: RunId, deadId: DeadId, worker: WorkerId, token: Token, now: Time, expired: bool)
    requires run.id in db.runs && SameIdentity(db.runs[run.id], run) && db.runs[run.id].attempt >= 1
             && run.createdAt <= finishedAt
    requires retryId !in db.runs && deadId !in db.dead
    requires
      var done := Outcome.Complete(run, retry, result, startedAt, finishedAt, retryId);
      FinishExternalRun(db, done.run, worker, token, done.retry, deadId, done.dead, now, expired).err.None?
    ensures
      var done := Outcome.Complete(run, retry, result, startedAt, finishedAt, retryId);
      var tx := FinishExternalRun(db, done.run, worker, token, done.retry, deadId, done.dead, now, expired);
      && run.id in db.leases && (done.retry.Some? ==>
            done.retry.value.id == retryId && done.retry.value.createdAt == finishedAt)
      && var row := FinishedRow(db.runs[run.id], done.run, db.leases[run.id].worker, now);
         && FinishInputs(db, run.id, row, done.retry, deadId, done.dead)
         && tx.db == db.(runs := WithRetry(db.runs[run.id := row], done.retry),
                         leases := DropToken(db.leases, db.leases[run.id].token),
                         dead := Letters(db.dead, deadId, done.dead))
  {
    hide WithRetry, DropToken, BackoffSeconds, ShouldRetry;
  }

  lemma AddedRun(runs: map<RunId, Run>, retry: Option<Run>)
    ensures WithRetry(runs, retry).Keys <= runs.Keys + (if retry.Some? then {retry.value.id} else {})
    ensures retry.Some? && retry.value.id !in runs && retry.value.id in WithRetry(runs, retry) ==>
              WithRetry(runs, retry)[retry.value.id].createdAt == retry.value.createdAt
  {
    hide HasAttempt;
  }

  /** Any actor finishing the run of a row it read: an accepted outcome keeps everything, a
      refused one changes nothing. */
  lemma FinishEffect(w: World, cause: Cause, read: Read, retry: RetryPolicy, result: Result, startedAt: Time,
                     finishedAt: Time,
                     retryId: RunId, deadId: DeadId, worker: WorkerId, token: Token, now: Time, expired: bool)
    requires Inv(w) && read in w.known && read.at <= finishedAt <= w.clock && retryId !in w.ids && deadId !in w.deadIds
    requires cause != NotARetirement
    ensures
      var done := Outcome.Complete(read.run, retry, result, startedAt, finishedAt, retryId);
      Effect(w, cause, FinishExternalRun(w.db, done.run, worker, token, done.retry, deadId, done.dead, now, expired).db)
  {
    assert retryId !in w.db.runs && deadId !in w.db.dead;
    hide TablesOk, HistoryOk, RunsEvolve, Effect, HasAttempt, LiveTokens, DropToken, WithRetry, FinishInputs,
         FinishExternalRun, Outcome.Complete;
    var done := Outcome.Complete(read.run, retry, result, startedAt, finishedAt, retryId);
    var tx := FinishExternalRun(w.db, done.run, worker, token, done.retry, deadId, done.dead, now, expired);
    if tx.err.None? {
      FinishedIsPresent(w.db, done.run, worker, token, done.retry, deadId, done.dead, now, expired);
      CompletedRunId(read.run, retry, result, startedAt, finishedAt, retryId);
      ReadAgrees(w, read);
      AttemptPositive(w, read.run.id);
      FinishedInputs(w.db, read.run, retry, result, startedAt, finishedAt, retryId, deadId, worker, token, now,
        expired);
      var row := FinishedRow(w.db.runs[read.run.id], done.run, w.db.leases[read.run.id].worker, now);
      FinishRowsKeepTables(w.db, read.run.id, row, done.retry, deadId, done.dead);
      AddedRun(w.db.runs[read.run.id := row], done.retry);
      RowEffect(w, cause, tx.db, retryId, deadId);
    } else {
      RefusedFinish(w.db, done.run, worker, token, done.retry, deadId, done.dead, now, expired);
      NoEffect(w, cause);
    }
  }

  lemma FinishedIsPresent(db: Db, run: Run, worker: WorkerId, token: Token, retry: Option<Run>, deadId: DeadId,
                          dead: Option<DeadLetter>, now: Time, expired: bool)
    requires FinishExternalRun(db, run, worker, token, retry, deadId, dead, now, expired).err.None?
    ensures run.id in db.runs && run.id in db.leases
  {
  }

  lemma RefusedFinish(db: Db, run: Run, worker: WorkerId, token: Token, retry: Option<Run>, deadId: DeadId,
                      dead: Option<DeadLetter>, now: Time, expired: bool)
    requires FinishExternalRun(db, run, worker, token, retry, deadId, dead, now, expired).err.Some?
    ensures FinishExternalRun(db, run, worker, token, retry, deadId, dead, now, expired).db == db
  {
  }

  lemma CompletedRunId(run: Run, retry: RetryPolicy, result: Result, startedAt: Time, finishedAt: Time, retryId: RunId)
    ensures Outcome.Complete(run, retry, result, startedAt, finishedAt, retryId).run.id == run.id
  {
  }

  lemma AttemptPositive(w: World, id: RunId)
    requires id in w.db.runs && Inv(w)
    ensures w.db.runs[id].attempt >= 1
  {
    RowNumbered(w.db, id);
    hide Chain, Agreement, JobsAgree, EventsAgree, DeadAgree, HistoryOk;
  }

  // ---------------------------------------------------------------- insertion

  /** A new first attempt of an occurrence with no attempt in the table. */
  lemma InsertKeepsTables(db: Db, after: Db, row: Run)
    requires TablesOk(db) && row.id !in db.runs && !KeyPresent(db.runs, row.key)
    requires row.attempt == 1 && row.claimExpires.None? && (row.status == Pending || row.status == Skipped)
    requires Finished(row.status) ==> row.finishedAt == Some(row.createdAt)
    requires after == db.(runs := db.runs[row.id := row], events := after.events)
    requires EventsAgree(after.runs, after.events)
    ensures TablesOk(after) && RunsEvolve(db.runs, after.runs)
  {
    ChainInsert(db.runs, row);
    AgreementInsert(db.runs, db.leases, row);
    DeadInsert(db.runs, db.dead, row);
    hide Rows, Chain, JobsAgree, EventsAgree, DeadAgree, Agreement;
  }

  lemma AgreementInsert(runs: map<RunId, Run>, leases: map<RunId, Lease>, row: Run)
    requires Agreement(runs, leases) && row.id !in runs && !Active(row.status) && row.claimExpires.None?
    ensures Agreement(runs[row.id := row], leases)
  {
  }

  lemma DeadInsert(runs: map<RunId, Run>, dead: map<DeadId, DeadLetter>, row: Run)
    requires DeadAgree(runs, dead) && row.id !in runs && row.status != DeadLettered
    ensures DeadAgree(runs[row.id := row], dead)
  {
  }

  lemma EventsInsert(runs: map<RunId, Run>, events: map<Key, EventRow>, row: Run)
    requires EventsAgree(runs, events) && row.id !in runs && !row.key.Event?
    ensures EventsAgree(runs[row.id := row], events)
  {
  }

  lemma InsertEffect(w: World, run: Run)
    requires Inv(w) && run.id !in w.ids && FirstAttempt(run, w.db, w.clock)
    ensures Effect(w, NotARetirement, InsertRun(w.db, run).db)
  {
    var tx := InsertRun(w.db, run);
    if tx.err.None? {
      EventsInsert(w.db.runs, w.db.events, run);
      hide Rows, Chain, JobsAgree, EventsAgree, DeadAgree, Agreement, RunsEvolve, HistoryOk, Effect;
      InsertKeepsTables(w.db, tx.db, run);
      hide TablesOk;
      RowEffect(w, NotARetirement, tx.db, run.id, 0);
    } else {
      hide TablesOk, HistoryOk, Effect;
      NoEffect(w, NotARetirement);
    }
  }

  /** A key without deduplication record has no run. */
  lemma UnrecordedKeyIsAbsent(runs: map<RunId, Run>, events: map<Key, EventRow>, key: Key)
    requires EventsAgree(runs, events) && key.Event? && key !in events
    ensures !KeyPresent(runs, key)
  {
  }

  lemma EventsDeliver(runs: map<RunId, Run>, events: map<Key, EventRow>, row: Run, entry: EventRow)
    requires EventsAgree(runs, events) && row.id !in runs && row.key !in events && row.attempt == 1
    requires row.key == Event(entry.schedule, entry.event.source, entry.event.id) && entry.run == row.id
    ensures EventsAgree(runs[row.id := row], events[row.key := entry])
  {
  }

  lemma DeliveredTables(db: Db, schedule: ScheduleId, event: EventData, id: RunId, now: Time)
    requires id !in db.runs && TriggerEvent(db, schedule, event, id, now).db != db
    requires TablesOk(db)
    ensures
      var tx := TriggerEvent(db, schedule, event, id, now);
      && TablesOk(tx.db) && RunsEvolve(db.runs, tx.db.runs) && EventsEvolve(db.events, tx.db.events)
      && tx.db == db.(runs := db.runs[id := FreshRun(id, schedule, Event(schedule, event.source, event.id), now, now)],
           events := tx.db.events)
  {
    hide Rows, Chain, JobsAgree, EventsAgree, DeadAgree, Agreement, RunsEvolve, HasAttempt, KeyPresent;
    var key := Event(schedule, event.source, event.id);
    var row := FreshRun(id, schedule, key, now, now);
    UnrecordedKeyIsAbsent(db.runs, db.events, key);
    EventsDeliver(db.runs, db.events, row, EventRow(schedule, event, id, now));
    InsertKeepsTables(db, TriggerEvent(db, schedule, event, id, now).db, row);
  }

  lemma DeliverEffect(w: World, schedule: ScheduleId, event: EventData, id: RunId, now: Time)
    requires id !in w.ids && now <= w.clock && Inv(w)
    ensures Effect(w, NotARetirement, TriggerEvent(w.db, schedule, event, id, now).db)
  {
    var tx := TriggerEvent(w.db, schedule, event, id, now);
    if tx.db != w.db {
      assert id !in w.db.runs by { hide TablesOk; }
      hide TablesOk, HistoryOk, RunsEvolve, EventsEvolve, JobsEvolve, TriggerEvent, LiveTokens;
      DeliveredTables(w.db, schedule, event, id, now);
      JobsReflexive(w.db.jobs);
    } else {
      hide TablesOk, HistoryOk, Effect, TriggerEvent;
      NoEffect(w, NotARetirement);
    }
  }

  // ---------------------------------------------------------------- remote-job checkpoints

  lemma JobWrite(jobs: map<Key, JobRow>, key: Key, row: JobRow)
    requires JobsAgree(jobs) && JobRowAgrees(row)
    requires key in jobs ==> JobEvolves(jobs[key], row)
    ensures JobsAgree(jobs[key := row]) && JobsEvolve(jobs, jobs[key := row])
  {
  }

  lemma RunsReflexive(runs: map<RunId, Run>)
    ensures RunsEvolve(runs, runs)
  {
  }

  lemma JobEffect(w: World, db: Db)
    requires Inv(w) && db == w.db.(jobs := db.jobs)
    requires JobsAgree(db.jobs) && JobsEvolve(w.db.jobs, db.jobs)
    ensures Effect(w, NotARetirement, db)
  {
    RunsReflexive(db.runs);
    hide Rows, Chain, JobsAgree, EventsAgree, DeadAgree, Agreement, RunsEvolve, JobsEvolve, HistoryOk;
  }

  lemma AcceptedCheckpoint(row: JobRow, given: ExternalJob, now: Time)
    requires JobRowAgrees(row) && Checkpointable(given)
    requires CheckpointConflict(row, given.(canReconcile := given.ReconciliationAvailable())).None?
    ensures
      var job := given.(canReconcile := given.ReconciliationAvailable());
      var after := row.(checkpoint := job.(updatedAt := now).Json(), status := job.status, updatedAt := now);
      JobRowAgrees(after) && JobEvolves(row, after)
  {
  }

  /** Any checkpoint a lease holder saves, of a shape the executor produces, advances the stored one legally. */
  lemma SaveEffect(w: World, run: Run, worker: WorkerId, token: Token, given: ExternalJob, now: Time)
    requires Inv(w) && Checkpointable(given)
    ensures Effect(w, NotARetirement, SaveExternalJob(w.db, run, worker, token, given, now).db)
  {
    hide LockRunLease, CheckpointConflict;
    var tx := SaveExternalJob(w.db, run, worker, token, given, now);
    if tx.err.None? {
      if run.key in w.db.jobs {
        AcceptedCheckpoint(w.db.jobs[run.key], given, now);
        hide JobRowAgrees, JobEvolves;
      }
      JobWrite(w.db.jobs, run.key, tx.db.jobs[run.key]);
      hide Rows, Chain, JobsAgree, EventsAgree, DeadAgree, Agreement, JobsEvolve, HistoryOk, Effect;
      JobEffect(w, tx.db);
    } else {
      hide TablesOk, HistoryOk, Effect;
      NoEffect(w, NotARetirement);
    }
  }

  lemma ReconcileEffect(w: World, run: Run, expected: ExternalJob, observed: ExternalJob, now: Time)
    requires Inv(w) && Checkpointable(observed)
    ensures Effect(w, NotARetirement, ReconcileExternalJob(w.db, run, expected, observed, now).db)
  {
    var tx := ReconcileExternalJob(w.db, run, expected, observed, now);
    if tx.err.None? {
      JobWrite(w.db.jobs, run.key, tx.db.jobs[run.key]);
      hide Rows, Chain, JobsAgree, EventsAgree, DeadAgree, Agreement, JobsEvolve, HistoryOk, Effect;
      JobEffect(w, tx.db);
    } else {
      hide TablesOk, HistoryOk, Effect;
      NoEffect(w, NotARetirement);
    }
  }

  // ---------------------------------------------------------------- queue and retention

  lemma AgreementSkip(runs: map<RunId, Run>, after: map<RunId, Run>, leases: map<RunId, Lease>, skip: set<RunId>)
    requires Agreement(runs, leases) && after.Keys == runs.Keys
    requires forall id | id in skip ::
               id in runs && Waiting(runs[id].status) && !Active(after[id].status)
               && after[id].claimExpires == runs[id].claimExpires
    requires forall id | id in runs && id !in skip :: after[id] == runs[id]
    ensures leases - skip == leases && Agreement(after, leases)
  {
    forall id | id in leases ensures id !in skip { }
  }

  lemma QueueEffect(w: World, schedule: ScheduleId, overlap: OverlapPolicy, keep: RunId)
    requires Inv(w)
    ensures Effect(w, NotARetirement, Coalesce(w.db, schedule, overlap, keep, w.clock))
  {
    hide TablesOk, RunsEvolve, Effect, LiveTokens;
    var after := Coalesce(w.db, schedule, overlap, keep, w.clock);
    CoalesceKeepsTables(w.db, schedule, overlap, keep, w.clock);
    hide HistoryOk;
    UpdateEffect(w, NotARetirement, after);
  }

  lemma CoalesceRows(db: Db, schedule: ScheduleId, overlap: OverlapPolicy, keep: RunId, now: Time)
    ensures
      var after := Coalesce(db, schedule, overlap, keep, now);
      var skip := Unsubmitted(db, schedule) - {keep};
      && after.runs.Keys == db.runs.Keys
      && (forall id | id in skip ::
            && id in db.runs && Waiting(db.runs[id].status) && after.runs[id].status == Skipped
            && SameIdentity(db.runs[id], after.runs[id])
            && after.runs[id].claimExpires == db.runs[id].claimExpires && after.runs[id].finishedAt == Some(now))
      && (forall id | id in db.runs && id !in skip :: after.runs[id] == db.runs[id])
  {
  }

  lemma CoalesceKeepsTables(db: Db, schedule: ScheduleId, overlap: OverlapPolicy, keep: RunId, now: Time)
    requires TablesOk(db) && forall id | id in db.runs :: db.runs[id].createdAt <= now
    ensures
      var after := Coalesce(db, schedule, overlap, keep, now);
      TablesOk(after) && RunsEvolve(db.runs, after.runs) && after.leases == db.leases
  {
    var after := Coalesce(db, schedule, overlap, keep, now);
    CoalesceRows(db, schedule, overlap, keep, now);
    hide Rows, Chain, JobsAgree, EventsAgree, DeadAgree, Agreement, RunsEvolve, Unsubmitted;
    AgreementSkip(db.runs, after.runs, db.leases, Unsubmitted(db, schedule) - {keep});
    RewriteKeepsTables(db, after);
  }

  lemma LeasedStays(db: Db, cutoff: Time, id: RunId)
    requires Agreement(db.runs, db.leases) && id in db.leases
    ensures id in DeletePrunable(db, cutoff).runs
  {
  }

  lemma AgreementKept(runs: map<RunId, Run>, kept: map<RunId, Run>, leases: map<RunId, Lease>)
    requires Agreement(runs, leases)
    requires forall id | id in kept :: id in runs && kept[id] == runs[id]
    requires forall id | id in leases :: id in kept
    ensures Agreement(kept, leases)
  {
  }

  lemma AgreementPrune(db: Db, cutoff: Time)
    requires Agreement(db.runs, db.leases)
    ensures Agreement(DeletePrunable(db, cutoff).runs, DeletePrunable(db, cutoff).leases)
    ensures DeletePrunable(db, cutoff).leases == db.leases
  {
    hide Agreement, Prunable;
    forall id | id in db.leases ensures id in DeletePrunable(db, cutoff).runs {
      LeasedStays(db, cutoff, id);
    }
    assert DeletePrunable(db, cutoff).leases == db.leases;
    AgreementKept(db.runs, DeletePrunable(db, cutoff).runs, db.leases);
  }

  lemma DeadPrune(db: Db, cutoff: Time)
    requires DeadAgree(db.runs, db.dead)
    ensures DeadAgree(DeletePrunable(db, cutoff).runs, DeletePrunable(db, cutoff).dead)
  {
    var after := DeletePrunable(db, cutoff);
    forall id | id in after.runs && after.runs[id].status == DeadLettered ensures HasDeadLetter(after.dead, id) {
      assert HasDeadLetter(db.dead, id);
      var d :| d in db.dead && db.dead[d].run == id;
      assert d in after.dead;
    }
  }

  lemma EventsPrune(db: Db, cutoff: Time)
    requires EventsAgree(db.runs, db.events)
    ensures EventsAgree(DeletePrunable(db, cutoff).runs, db.events)
  {
  }

  lemma CompactEvolves(db: Db)
    requires JobsAgree(db.jobs)
    ensures JobsAgree(Compact(db).jobs) && JobsEvolve(db.jobs, Compact(db).jobs)
  {
    hide KeyPresent;
  }

  lemma PruneKeepsTables(db: Db, cutoff: Time)
    requires TablesOk(db)
    ensures
      var after := Prune(db, cutoff);
      && TablesOk(after) && after.leases == db.leases && JobsEvolve(db.jobs, after.jobs)
      && after.runs.Keys <= db.runs.Keys && after.dead.Keys <= db.dead.Keys && RunsEvolve(db.runs, after.runs)
  {
    hide Rows, Chain, JobsAgree, EventsAgree, DeadAgree, Agreement, JobsEvolve, Prunable, Compactable;
    ChainPrune(db, cutoff);
    AgreementPrune(db, cutoff);
    DeadPrune(db, cutoff);
    EventsPrune(db, cutoff);
    CompactEvolves(DeletePrunable(db, cutoff));
  }

  lemma PruneKeepsEvents(db: Db, cutoff: Time)
    ensures Prune(db, cutoff).events == db.events
  {
  }

  lemma PruneEffect(w: World, cutoff: Time)
    requires Inv(w)
    ensures Effect(w, NotARetirement, Prune(w.db, cutoff))
  {
    PruneKeepsTables(w.db, cutoff);
    PruneKeepsEvents(w.db, cutoff);
    hide TablesOk, JobsEvolve, HistoryOk, RunsEvolve, Prune;
  }

  // ---------------------------------------------------------------- the step theorem

  lemma OpEffect(w: World, op: Op)
    requires Inv(w) && Enabled(w, op)
    ensures Effect(w, CauseOf(op), Apply(w.db, op, w.clock))
  {
    hide Inv, Effect, FirstAttempt, Checkpointable;
    match op
    case Advance(_) => NoEffect(w, CauseOf(op));
    case ReadRun(_) => NoEffect(w, CauseOf(op));
    case SetEnabled(schedule, on) => SetEnabledEffect(w, schedule, on);
    case Insert(run) => InsertEffect(w, run);
    case Deliver(schedule, event, id, now) => DeliverEffect(w, schedule, event, id, now);
    case Claim(schedule, policy, id, worker, now, ttl, token) => ClaimEffect(w, schedule, policy, id, worker, now, ttl,
      token);
    case Start(id, worker, token, now) => StartEffect(w, id, worker, token, now);
    case Renew(id, worker, token, now, ttl) => RenewEffect(w, id, worker, token, now, ttl);
    case Save(read, worker, token, job, now) => SaveEffect(w, read.run, worker, token, job, now);
    case Complete(read, worker, token, retry, result, startedAt, finishedAt, retryId, deadId, now) =>
      FinishEffect(w, Finish, read, retry, result, startedAt, finishedAt, retryId, deadId, worker, token, now, false);
    case Release(id, worker, token, now) => RequeueEffect(w, OwnedRelease, id, worker, token, now, false);
    case RecoverClaimed(id, now) => ResetEffect(w, ClaimReset, id, now);
    case RecoverTracked(id, now) => RequeueEffect(w, ExpiryRequeue, id, "", 0, now, true);
    case RecoverOrdinary(read, retry, finishedAt, retryId, deadId) =>
      FinishEffect(w, ExpiryFailure, read, retry, EXPIRED_RESULT, finishedAt, finishedAt, retryId, deadId, "", 0,
        finishedAt, true);
    case Reconcile(read, expected, observed, now) => ReconcileEffect(w, read.run, expected, observed, now);
    case EnforceQueue(schedule, overlap, keep) => QueueEffect(w, schedule, overlap, keep);
    case PruneBefore(cutoff) => PruneEffect(w, cutoff);
  }

  lemma SetEnabledEffect(w: World, schedule: ScheduleId, on: bool)
    requires Inv(w)
    ensures Effect(w, NotARetirement, w.db.(enabled := w.db.enabled[schedule := on]))
  {
    JobsReflexive(w.db.jobs);
    hide Rows, Chain, Agreement, JobsAgree, EventsAgree, DeadAgree, JobsEvolve, HistoryOk;
  }

  lemma StepTokens(w: World, op: Op)
    requires Inv(w) && Effect(w, CauseOf(op), Apply(w.db, op, w.clock))
    ensures
      var v := Step(w, op);
      && v.issued == LiveTokens(v.db.leases) + v.retired.Keys
      && LiveTokens(v.db.leases) !! v.retired.Keys
      && (forall t | t in v.retired :: v.retired[t] != NotARetirement)
      && (forall t | t in w.retired :: t in v.retired && v.retired[t] == w.retired[t])
      && w.issued <= v.issued
  {
    hide TablesOk, RunsEvolve, JobsEvolve, EventsEvolve, Apply, CauseOf, LiveTokens;
  }

  lemma StepReads(w: World, op: Op)
    requires Inv(w) && Enabled(w, op) && Effect(w, CauseOf(op), Apply(w.db, op, w.clock))
    ensures
      var v := Step(w, op);
      && v.db.runs.Keys <= v.ids && v.db.dead.Keys <= v.deadIds
      && (forall id | id in v.db.runs :: v.db.runs[id].createdAt <= v.clock)
      && (forall r | r in v.known ::
            && r.at <= v.clock && r.run.createdAt <= r.at && r.run.id in v.ids
            && (r.run.id in v.db.runs ==> SameIdentity(r.run, v.db.runs[r.run.id]))
            && (r.run.key.Event? ==> r.run.key in v.db.events))
  {
    hide Rows, Chain, Agreement, JobsAgree, DeadAgree, JobsEvolve, LiveTokens, CauseOf;
    var v := Step(w, op);
    assert w.clock <= v.clock;
    hide Enabled;
    if op.ReadRun? && op.id in w.db.runs {
      assert v.db == w.db;
      RowNumbered(w.db, op.id);
    } else {
      hide Apply;
    }
  }

  lemma StepDb(w: World, op: Op)
    ensures Step(w, op).db == Apply(w.db, op, w.clock)
  {
    hide Apply, CauseOf;
  }

  /** Every step keeps the invariant, and rows evolve only as promised. */
  lemma StepKeepsInv(w: World, op: Op)
    requires Inv(w) && Enabled(w, op)
    ensures Inv(Step(w, op)) && Evolves(w, Step(w, op))
  {
    OpEffect(w, op);
    assert w.clock <= Step(w, op).clock;
    hide Enabled, Apply;
    StepHistory(w, op);
    StepEvolves(w, op);
    hide TablesOk, HistoryOk, Evolves;
  }

  lemma StepHistory(w: World, op: Op)
    requires Inv(w) && Enabled(w, op) && Effect(w, CauseOf(op), Apply(w.db, op, w.clock))
    ensures HistoryOk(Step(w, op))
  {
    hide Enabled, Inv, Effect, Step;
    StepTokens(w, op);
    StepReads(w, op);
  }

  lemma StepEvolves(w: World, op: Op)
    requires Inv(w) && Effect(w, CauseOf(op), Apply(w.db, op, w.clock)) && w.clock <= Step(w, op).clock
    ensures Evolves(w, Step(w, op))
  {
    StepTokens(w, op);
    hide Enabled, TablesOk, RunsEvolve, JobsEvolve, EventsEvolve, Apply, CauseOf, LiveTokens, HistoryOk;
  }

  lemma InitialInv(w: World)
    requires Initial(w)
    ensures Inv(w)
  {
    assert LiveTokens(w.db.leases) == {};
  }

  lemma BehaviourShape(states: seq<World>, ops: seq<Op>)
    requires Behaviour(states, ops)
    ensures |states| == |ops| + 1 && Initial(states[0])
  {
  }

  lemma {:induction false} ReachableInv(states: seq<World>, ops: seq<Op>, i: nat)
    requires i < |states|
    requires Behaviour(states, ops)
    ensures Inv(states[i])
    decreases i
  {
    hide Inv, Enabled, Step, Initial;
    if i == 0 {
      InitialInv(states[0]);
    } else {
      ReachableInv(states, ops, i - 1);
      StepKeepsInv(states[i - 1], ops[i - 1]);
    }
  }

  lemma BehaviourStep(states: seq<World>, ops: seq<Op>, i: nat)
    requires i < |ops|
    requires Behaviour(states, ops)
    ensures i + 1 < |states| && Inv(states[i]) && Enabled(states[i], ops[i]) && states[i + 1] == Step(states[i], ops[i])
  {
    hide Inv, Enabled, Step;
    ReachableInv(states, ops, i);
  }

  /** A run of the system can go on with any step that is enabled. */
  lemma ExtendBehaviour(states: seq<World>, ops: seq<Op>, op: Op)
    requires |states| == |ops| + 1 && Enabled(states[|ops|], op) && Behaviour(states, ops)
    ensures Behaviour(states + [Step(states[|ops|], op)], ops + [op])
  {
    hide Enabled, Step, Initial;
  }

  lemma EvolvesReflexive(w: World)
    ensures Evolves(w, w)
  {
  }

  /** Between any two moments of any run. */
  lemma {:induction false} HistoryEvolves(states: seq<World>, ops: seq<Op>, i: nat, j: nat)
    requires i <= j < |states|
    requires Behaviour(states, ops)
    ensures Inv(states[i]) && Inv(states[j]) && Evolves(states[i], states[j])
    decreases j
  {
    hide *;
    BehaviourShape(states, ops);
    ReachableInv(states, ops, i);
    ReachableInv(states, ops, j);
    if i == j {
      EvolvesReflexive(states[i]);
    } else {
      HistoryEvolves(states, ops, i, j - 1);
      BehaviourStep(states, ops, j - 1);
      StepKeepsInv(states[j - 1], ops[j - 1]);
      EvolvesCompose(states[i], states[j - 1], states[j]);
    }
  }

  lemma EvolvesCompose(u: World, v: World, w: World)
    requires Inv(u) && Inv(v) && Inv(w) && Evolves(u, v) && Evolves(v, w)
    ensures Evolves(u, w)
  {
    hide Evolves, TablesOk, HistoryOk;
    EvolvesTransitive(u, v, w);
  }
}
