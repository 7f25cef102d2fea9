/** The promise of tracked jobs over whole runs of executor, ledger, wire and runner together:
    at most one remote job per occurrence, asked for with one unchanging request. */
module RemoteTheorems {
  import opened Domain
  import opened Ledger
  import opened LedgerInvariants
  import opened LedgerRuns
  import opened RemoteJob
  import opened RemoteProtocol
  import opened RemoteProofs

  /** What no step takes back: orders, settled jobs, messages and the checkpoints executions were started from. */
  ghost predicate Moves(s: System, t: System) {
    && OrdersGrow(s.orders, t.orders) && RunnerGrows(s.runner, t.runner)
    && SameLoads(s.executions, t.executions) && s.wire <= t.wire
  }

  lemma NextMoves(s: System, act: Act)
    requires Possible(s, act)
    ensures Moves(s, Next(s, act))
  {
    hide Step, Enabled, ApplyJobResponse, Checkpointable, Checkpointed, Observed, Moves, Posted, Handled, Restarted,
         Started, Transacted;
    match act
    case Transact(op) => RestMoves(s, act);
    case Execute(_, _, _, _, _, _) => RestMoves(s, act);
    case Intend(n, started, now) =>
      CheckpointMoves(s, n, Intent(started, s.executions[n].timeout, s.executions[n].target), Ready, now);
    case Submit(n) => PostedMoves(s, n);
    case Accept(n, _, response, now) =>
      ObservedMoves(s, n, ApplyJobResponse(s.executions[n].job.value, response, true, now), now);
    case Poll(n, response, now) =>
      if s.executions[n].job.Some? {
        ObservedMoves(s, n, ApplyJobResponse(s.executions[n].job.value, response, false, now), now);
      } else {
        StandingStill(s);
      }
    case Handle(post, id, write) => HandledMoves(s, post, id, write);
    case _ => RestMoves(s, act);
  }

  lemma StandingStill(s: System)
    ensures Moves(s, s)
  {
  }

  lemma PostedMoves(s: System, n: nat)
    requires n in s.executions
    ensures Moves(s, Posted(s, n))
  {
    hide PostOf;
  }

  lemma HandledMoves(s: System, post: Post, id: string, write: Write)
    ensures Moves(s, Handled(s, post, id, write))
  {
  }

  lemma RestMoves(s: System, act: Act)
    requires Possible(s, act)
    requires act.Transact? || act.Execute? || act.Crash? || act.Reconciling? || act.Answer? || act.Restart?
             || act.Forget?
    ensures Moves(s, Next(s, act))
  {
    hide Step, Enabled, Started, ApplyJobResponse, Checkpointable, Checkpointed, Observed, Posted, Handled;
  }

  lemma ObservedMoves(s: System, n: nat, applied: Applied, now: Time)
    requires n in s.executions
    ensures Moves(s, Observed(s, n, applied, now))
  {
    hide Checkpointed;
    if applied.Applied? { CheckpointMoves(s, n, applied.job, Tracking, now); }
  }

  lemma CheckpointMoves(s: System, n: nat, job: ExternalJob, phase: Phase, now: Time)
    requires n in s.executions
    ensures Moves(s, Checkpointed(s, n, job, phase, now))
  {
    hide Step, SaveExternalJob;
  }

  lemma {:induction false} HistoryMoves(states: seq<System>, acts: seq<Act>, i: nat, j: nat)
    requires i <= j < |states|
    requires Protocol(states, acts)
    ensures Moves(states[i], states[j])
    decreases j
  {
    hide Possible, Next, Fresh;
    if i < j {
      HistoryMoves(states, acts, i, j - 1);
      NextMoves(states[j - 1], acts[j - 1]);
    }
  }

  /** Every request on the wire follows a durable intent of its occurrence and carries exactly the target
      frozen there together with the recorded event, however the schedule has been edited since. */
  lemma PostsFollowTheirIntent(states: seq<System>, acts: seq<Act>, i: nat, p: Post)
    requires i < |states| && p in states[i].wire
    requires Protocol(states, acts)
    ensures p.key in states[i].w.db.jobs
    ensures
      var db := states[i].w.db;
      db.jobs[p.key].snapshot.Frozen? ==>
        && p.url == db.jobs[p.key].snapshot.target.url
        && Payload(db.jobs[p.key].snapshot.target.body, EventOf(db, p.key)) == Some(p.request)
  {
    ProtocolSound(states, acts, i);
    hide Inv, ExecutionOk, RunnerOk, AckOk, IdsReal, Protocol;
  }

  /** The intent is durable before the request leaves. */
  lemma IntentPrecedesPost(states: seq<System>, acts: seq<Act>, i: nat, p: Post)
    requires |states| == |acts| + 1 && i < |acts| && p in states[i + 1].wire && p !in states[i].wire
    requires Protocol(states, acts)
    ensures acts[i] == Submit(p.sender) && p.key in states[i].w.db.jobs && p.sender in states[i].executions
    ensures p.key == states[i].executions[p.sender].read.run.key
  {
    ProtocolSound(states, acts, i);
    OnlySubmitSends(states[i], acts[i], p);
    SubmitterHasIntent(states[i], p.sender);
  }

  lemma OnlySubmitSends(s: System, act: Act, p: Post)
    requires Possible(s, act) && p in Next(s, act).wire && p !in s.wire
    ensures act == Submit(p.sender) && p.sender in s.executions && s.executions[p.sender].phase == Ready
    ensures PostOf(s.executions[p.sender], p.sender) == Some(p)
  {
    hide Step, Enabled, Started, ApplyJobResponse, SaveExternalJob, Checkpointable, ReconcileExternalJob;
  }

  lemma SubmitterHasIntent(s: System, n: nat)
    requires n in s.executions && s.executions[n].phase == Ready
    requires Sound(s)
    ensures s.executions[n].read.run.key in s.w.db.jobs
  {
    assert ExecutionOk(s.executions[n], s.w, s.orders, s.runner);
    hide Inv, IdsReal, RunnerOk, PostOk, AckOk, EventIs, RealId;
  }

  /** All requests of one occurrence, ever, are the same request to the same address. */
  lemma OneRequestPerOccurrence(states: seq<System>, acts: seq<Act>, i: nat, j: nat, p: Post, q: Post)
    requires i <= j < |states| && p in states[i].wire && q in states[j].wire && p.key == q.key
    requires Protocol(states, acts)
    ensures p.url == q.url && p.request == q.request
  {
    ProtocolSound(states, acts, i);
    ProtocolSound(states, acts, j);
    HistoryMoves(states, acts, i, j);
    SoundPost(states[i], p);
    SoundPost(states[j], q);
    hide Sound, Protocol, RunnerOk, RunnerGrows, SameLoads;
  }

  /** An execution that starts from a checkpoint with a job id never submits, in any continuation. */
  lemma IdentifiedNeverResubmits(states: seq<System>, acts: seq<Act>, k: nat, i: nat, p: Post)
    requires k < |acts| && k < i < |states| && p in states[i].wire
    requires acts[k].Execute? && acts[k].read.run.key in states[k].w.db.jobs
    requires states[k].w.db.jobs[acts[k].read.run.key].checkpoint.jobId != ""
    requires Protocol(states, acts)
    ensures p.sender != acts[k].n
  {
    hide Sound, Next, Possible, Fresh, RunnerGrows, OrdersGrow, SentByUnidentified;
    var n := acts[k].n;
    assert states[k + 1] == Next(states[k], acts[k]);
    StartedWithIdentity(states[k], acts[k]);
    ProtocolSound(states, acts, i);
    HistoryMoves(states, acts, k + 1, i);
    PostSender(states[i], p);
    hide Protocol;
    SenderUnidentified(p, states[i].executions);
  }

  lemma StartedWithIdentity(s: System, act: Act)
    requires act.Execute? && act.read.run.key in s.w.db.jobs && s.w.db.jobs[act.read.run.key].checkpoint.jobId != ""
    ensures act.n in Next(s, act).executions
    ensures Next(s, act).executions[act.n].loaded.Some? && Next(s, act).executions[act.n].loaded.value.jobId != ""
  {
  }

  lemma SenderUnidentified(p: Post, executions: map<nat, Execution>)
    requires SentByUnidentified(p, executions)
    ensures p.sender in executions && (executions[p.sender].loaded.Some? ==>
              executions[p.sender].loaded.value.jobId == "")
  {
  }

  lemma PostSender(s: System, p: Post)
    requires p in s.wire && Sound(s)
    ensures SentByUnidentified(p, s.executions)
  {
    hide Inv, ExecutionOk, OrdersOk, IdsReal, RunnerOk, PostOk, AckOk;
  }

  /** Over all runners, an occurrence has at most one job, and no request is ever answered
      with an instruction conflict. */
  lemma OneRemoteJob(states: seq<System>, acts: seq<Act>, i: nat, a: (string, Key), b: (string, Key))
    requires i < |states| && a in states[i].runner && b in states[i].runner && a.1 == b.1
    requires Protocol(states, acts)
    ensures a == b && states[i].conflicts == {}
  {
    ProtocolSound(states, acts, i);
    RunnerJobsBacked(states[i].runner, states[i].orders, a, b);
    hide Inv, ExecutionOk, OrdersOk, IdsReal, RunnerOk, PostOk, AckOk;
  }

  lemma RunnerJobsBacked(runner: map<(string, Key), RunnerJob>, orders: map<Key, Order>, a: (string, Key),
                         b: (string, Key))
    requires RunnerOk(runner, orders) ==> a in runner && b in runner && a.1 == b.1
    ensures RunnerOk(runner, orders) ==> a == b
  {
    if RunnerOk(runner, orders) {
      assert Backed(orders, a.1, a.0, runner[a].instructions) && Backed(orders, b.1, b.0, runner[b].instructions);
    }
  }

  /** A job id in the ledger names a job its runner has durably recorded under exactly that id, now and from then on. */
  lemma RecordedIdIsReal(states: seq<System>, acts: seq<Act>, i: nat, j: nat, key: Key) returns (url: string)
    requires i <= j < |states| && key in states[i].w.db.jobs
    requires states[i].w.db.jobs[key].checkpoint.jobId != ""
    requires Protocol(states, acts)
    ensures (url, key) in states[j].runner && states[j].runner[(url, key)].settled
    ensures states[j].runner[(url, key)].id == states[i].w.db.jobs[key].checkpoint.jobId
    ensures key in states[j].orders && Some(states[j].runner[(url, key)].instructions)
            == RequestFor(states[j].orders[key])
  {
    ProtocolSound(states, acts, i);
    ProtocolSound(states, acts, j);
    HistoryMoves(states, acts, i, j);
    url := states[i].orders[key].target.url;
    assert RealId(states[i].orders, states[i].runner, key, states[i].w.db.jobs[key].checkpoint.jobId);
    assert Backed(states[j].orders, key, url, states[j].runner[(url, key)].instructions);
    hide Inv, ExecutionOk, PostOk, AckOk, Protocol;
  }

  /** No request is ever answered with an instruction conflict. */
  lemma NoConflicts(states: seq<System>, acts: seq<Act>, i: nat)
    requires i < |states|
    requires Protocol(states, acts)
    ensures states[i].conflicts == {}
  {
    ProtocolSound(states, acts, i);
    hide Protocol, Inv, ExecutionOk, OrdersOk, IdsReal, RunnerOk, PostOk, AckOk;
  }

  /** Every runner's job is the one its occurrence's order asks that runner for. */
  lemma JobsAreOrdered(states: seq<System>, acts: seq<Act>, i: nat, slot: (string, Key))
    requires i < |states| && slot in states[i].runner
    requires Protocol(states, acts)
    ensures Backed(states[i].orders, slot.1, slot.0, states[i].runner[slot].instructions)
  {
    ProtocolSound(states, acts, i);
    hide Protocol, Inv, ExecutionOk, OrdersOk, IdsReal, PostOk, AckOk, Backed;
  }

  /** A recorded job id is held by the runner its order was addressed to. */
  lemma RecordedAtOrder(states: seq<System>, acts: seq<Act>, i: nat, key: Key)
    requires i < |states| && key in states[i].w.db.jobs && states[i].w.db.jobs[key].checkpoint.jobId != ""
    requires Protocol(states, acts)
    ensures key in states[i].orders
    ensures
      var slot := (states[i].orders[key].target.url, key);
      && slot in states[i].runner && states[i].runner[slot].settled
      && states[i].runner[slot].id == states[i].w.db.jobs[key].checkpoint.jobId
  {
    ProtocolSound(states, acts, i);
    hide Protocol, Inv, ExecutionOk, OrdersOk, RunnerOk, PostOk, AckOk;
    assert RealId(states[i].orders, states[i].runner, key, states[i].w.db.jobs[key].checkpoint.jobId);
  }

  // ---------------------------------------------------------------- what a poll may change

  /** The columns that say what was asked for, of whom and until when. */
  predicate SameOrder(a: JobRow, b: JobRow) {
    && b.schedule == a.schedule && b.snapshot == a.snapshot && b.createdAt == a.createdAt
    && b.checkpoint.submittedAt == a.checkpoint.submittedAt && b.checkpoint.deadlineAt == a.checkpoint.deadlineAt
  }

  lemma SavedOver(db: Db, run: Run, worker: WorkerId, token: Token, job: ExternalJob, now: Time)
    requires SaveExternalJob(db, run, worker, token, job, now).err.None? && run.key in db.jobs
    ensures LockRunLease(db, run.id, worker, token, now, true).None?
            && run.key in SaveExternalJob(db, run, worker, token, job, now).db.jobs
    ensures
      var before, after := db.jobs[run.key], SaveExternalJob(db, run, worker, token, job, now).db.jobs[run.key];
      && SameOrder(before, after) && after.checkpoint.status == job.status == after.status
      && after.checkpoint.seen == job.seen
      && after.checkpoint.jobId == job.jobId && after.checkpoint.statusUrl == job.statusUrl
      && (before.checkpoint.jobId != "" ==>
            job.jobId == before.checkpoint.jobId && job.statusUrl == before.checkpoint.statusUrl)
      && (before.checkpoint.Terminal() ==> after.checkpoint.status == before.checkpoint.status)
  {
    hide LockRunLease;
  }

  lemma SaveTouchesOneJob(db: Db, run: Run, worker: WorkerId, token: Token, job: ExternalJob, now: Time)
    ensures
      var tx := SaveExternalJob(db, run, worker, token, job, now);
      && tx.db == db.(jobs := tx.db.jobs) && (tx.err.Some? ==> tx.db == db)
      && (tx.err.None? ==> run.key in tx.db.jobs && tx.db.jobs == db.jobs[run.key := tx.db.jobs[run.key]])
  {
    hide LockRunLease, CheckpointConflict;
  }

  /** An answer about another job, or one outside the contract. */
  predicate Foreign(job: ExternalJob, response: Response) {
    || response.jobId !in {"", job.jobId} || response.statusUrl !in {"", job.statusUrl}
    || response.status.None? || response.status == Some(Submitting) || !response.namedSafeArtifacts
    || (response.percent.Some? && !(response.finite && 0.0 <= response.percent.value <= 100.0))
  }

  lemma TrackedJob(s: System, n: nat)
    requires n in s.executions && s.executions[n].phase == Tracking
    requires Sound(s)
    ensures
      var e := s.executions[n];
      && e.job.Some? && e.job.value.jobId != "" && e.read.run.key in s.orders && e.read.run.key in s.w.db.jobs
  {
    assert ExecutionOk(s.executions[n], s.w, s.orders, s.runner);
    hide Inv, IdsReal, RunnerOk, PostOk, AckOk, EventIs, RealId;
  }

  /** What is left of a step that only writes a checkpoint. */
  predicate OnlyCheckpoints(s: System, t: System, n: nat, key: Key) {
    && n in t.executions && t == s.(w := t.w, executions := s.executions[n := t.executions[n]])
    && t.w.db == s.w.db.(jobs := t.w.db.jobs)
    && key in t.w.db.jobs && t.w.db.jobs == s.w.db.jobs[key := t.w.db.jobs[key]]
  }

  /** What a poll writes keeps everything asked for and a recorded identity, leaves a final status alone, takes the
      answer's status, and needs the run's live lease. */
  predicate Polls(before: JobRow, after: JobRow, db: Db, e: Execution, response: Response, now: Time)
    requires e.job.Some?
  {
    && SameOrder(before, after)
    && (before.checkpoint.jobId != "" ==>
          after.checkpoint.jobId == before.checkpoint.jobId && after.checkpoint.statusUrl
            == before.checkpoint.statusUrl)
    && (before.checkpoint.Terminal() ==> after.checkpoint.status == before.checkpoint.status)
    && (after != before ==>
          && after.checkpoint.jobId == e.job.value.jobId
          && response.status == Some(after.checkpoint.status) && after.status == after.checkpoint.status
          && after.checkpoint.seen == response.seen
          && e.read.run.id in db.leases && db.leases[e.read.run.id].token == e.token
          && now < db.leases[e.read.run.id].expiresAt)
  }

  lemma ForeignIsRefused(job: ExternalJob, response: Response, now: Time)
    requires job.jobId != ""
    ensures Foreign(job, response) ==> ApplyJobResponse(job, response, false, now).Rejected?
  {
  }

  lemma AcceptedAnswer(job: ExternalJob, response: Response, now: Time)
    requires ApplyJobResponse(job, response, false, now).Applied?
    ensures
      var next := ApplyJobResponse(job, response, false, now).job;
      && next.jobId == job.jobId && next.statusUrl == job.statusUrl
      && Some(next.status) == response.status && next.seen == response.seen
  {
  }

  lemma CheckpointWrites(s: System, n: nat, job: ExternalJob, now: Time)
    requires n in s.executions && s.executions[n].read.run.key in s.orders
    ensures
      var t, e := Checkpointed(s, n, job, Tracking, now), s.executions[n];
      && t == s.(w := t.w, executions := s.executions[n := t.executions[n]])
      && t.w.db == SaveExternalJob(s.w.db, e.read.run, e.worker, e.token, job, now).db
  {
    hide SaveExternalJob, CauseOf, LiveTokens;
  }

  lemma PollStep(s: System, act: Act)
    requires act.Poll? && act.n in s.executions && s.executions[act.n].job.Some?
             && s.executions[act.n].job.value.jobId != ""
    requires s.executions[act.n].read.run.key in s.orders && s.executions[act.n].read.run.key in s.w.db.jobs
    ensures
      var t, e := Next(s, act), s.executions[act.n];
      var key := e.read.run.key;
      && OnlyCheckpoints(s, t, act.n, key)
      && Polls(s.w.db.jobs[key], t.w.db.jobs[key], s.w.db, e, act.response, act.now)
      && (Foreign(e.job.value, act.response) ==> t.w == s.w && t.executions[act.n].phase == Stopped)
  {
    hide ApplyJobResponse, Checkpointed, SaveExternalJob, Foreign, SameOrder, LockRunLease;
    var e := s.executions[act.n];
    var key := e.read.run.key;
    ForeignIsRefused(e.job.value, act.response, act.now);
    var applied := ApplyJobResponse(e.job.value, act.response, false, act.now);
    SameOrderItself(s.w.db.jobs[key]);
    assert s.w.db.jobs == s.w.db.jobs[key := s.w.db.jobs[key]];
    if applied.Applied? {
      AcceptedAnswer(e.job.value, act.response, act.now);
      CheckpointWrites(s, act.n, applied.job, act.now);
      SaveTouchesOneJob(s.w.db, e.read.run, e.worker, e.token, applied.job, act.now);
      var t := Next(s, act);
      assert OnlyCheckpoints(s, t, act.n, key);
      if SaveExternalJob(s.w.db, e.read.run, e.worker, e.token, applied.job, act.now).err.None? {
        SavedOver(s.w.db, e.read.run, e.worker, e.token, applied.job, act.now);
        LockHolds(s.w.db, e.read.run.id, e.worker, e.token, act.now);
      }
    }
  }

  lemma SameOrderItself(row: JobRow)
    ensures SameOrder(row, row)
  {
  }

  lemma LockHolds(db: Db, id: RunId, worker: WorkerId, token: Token, now: Time)
    requires LockRunLease(db, id, worker, token, now, true).None?
    ensures id in db.leases && db.leases[id].token == token && now < db.leases[id].expiresAt
  {
  }

  lemma PollPossible(s: System, act: Act)
    requires act.Poll? && Possible(s, act)
    ensures act.n in s.executions && s.executions[act.n].phase == Tracking
  {
  }

  /** What a poll can do in any run, whatever the runner answers: it writes the checkpoint of its own occurrence and
      nothing else, as Polls says. A foreign answer changes no table and ends the execution. */
  lemma PollWritesOnlyItsCheckpoint(states: seq<System>, acts: seq<Act>, i: nat)
    requires |states| == |acts| + 1 && i < |acts| && acts[i].Poll?
    requires Protocol(states, acts)
    ensures acts[i].n in states[i].executions && states[i].executions[acts[i].n].job.Some?
    ensures
      var s, t, e := states[i], states[i + 1], states[i].executions[acts[i].n];
      var key := e.read.run.key;
      && key in s.w.db.jobs && OnlyCheckpoints(s, t, acts[i].n, key)
      && Polls(s.w.db.jobs[key], t.w.db.jobs[key], s.w.db, e, acts[i].response, acts[i].now)
      && (Foreign(e.job.value, acts[i].response) ==> t.w == s.w && t.executions[acts[i].n].phase == Stopped)
  {
    hide Protocol, Possible, Sound, Next, Foreign, Polls, OnlyCheckpoints;
    ProtocolSound(states, acts, i);
    ProtocolStep(states, acts, i);
    PollPossible(states[i], acts[i]);
    TrackedJob(states[i], acts[i].n);
    PollStep(states[i], acts[i]);
  }

  lemma ProtocolStep(states: seq<System>, acts: seq<Act>, i: nat)
    requires i < |acts|
    requires Protocol(states, acts)
    ensures i + 1 < |states| && Possible(states[i], acts[i]) && states[i + 1] == Next(states[i], acts[i])
  {
    hide Possible, Next, Fresh;
  }
}
