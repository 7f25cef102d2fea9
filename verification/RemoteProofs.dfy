/** Every step of the remote-job protocol keeps its invariant. */
module RemoteProofs {
  import opened Domain
  import opened Ledger
  import opened LedgerInvariants
  import opened LedgerRuns
  import opened LedgerProofs
  import opened LedgerTheorems
  import opened RemoteJob
  import opened RemoteProtocol

  // ---------------------------------------------------------------- what later states keep

  predicate OrdersGrow(before: map<Key, Order>, after: map<Key, Order>) {
    forall k | k in before :: k in after && after[k] == before[k]
  }

  predicate RunnerGrows(before: map<(string, Key), RunnerJob>, after: map<(string, Key), RunnerJob>) {
    forall slot | slot in before && before[slot].settled :: slot in after && after[slot] == before[slot]
  }

  lemma EventStable(w: World, v: World, key: Key, event: Option<EventData>)
    requires Inv(w) && Inv(v) && Evolves(w, v) && EventIs(w.db, key, event)
    ensures EventIs(v.db, key, event)
  {
    hide Rows, Chain, Agreement, JobsAgree, DeadAgree, HistoryOk, RunsEvolve, JobsEvolve;
  }

  lemma ExecutionMoves(e: Execution, w: World, v: World, orders: map<Key, Order>, orders': map<Key, Order>,
                       runner: map<(string, Key), RunnerJob>, runner': map<(string, Key), RunnerJob>)
    requires Inv(w) && Inv(v) && Evolves(w, v) && OrdersGrow(orders, orders') && RunnerGrows(runner, runner')
    requires ExecutionOk(e, w, orders, runner)
    ensures ExecutionOk(e, v, orders', runner')
  {
    EventStable(w, v, e.read.run.key, e.event);
    hide Inv, EventIs, RunsEvolve, JobsEvolve, EventsEvolve, Checkpointable;
  }

  /** Everything but the ledger's own tables carries over to a state that extends this one. */
  ghost predicate Extends(s: System, t: System) {
    && Inv(s.w) && Inv(t.w) && Evolves(s.w, t.w)
    && OrdersGrow(s.orders, t.orders) && RunnerGrows(s.runner, t.runner)
  }

  lemma CarryExecutions(s: System, t: System)
    requires Extends(s, t) && Sound(s)
    ensures forall n | n in s.executions :: ExecutionOk(s.executions[n], t.w, t.orders, t.runner)
  {
    forall n | n in s.executions ensures ExecutionOk(s.executions[n], t.w, t.orders, t.runner) {
      ExecutionMoves(s.executions[n], s.w, t.w, s.orders, t.orders, s.runner, t.runner);
    }
  }

  predicate SameLoads(before: map<nat, Execution>, after: map<nat, Execution>) {
    forall n | n in before :: n in after && after[n].loaded == before[n].loaded
  }

  lemma CarryMessages(s: System, t: System)
    requires Extends(s, t) && Sound(s) && SameLoads(s.executions, t.executions)
    ensures forall p | p in s.wire :: PostOk(p, t.orders) && SentByUnidentified(p, t.executions)
    ensures forall a | a in s.acks :: AckOk(a, t.runner)
  {
    hide Inv, Evolves, ExecutionOk, OrdersOk, IdsReal, RunnerOk;
  }

  lemma CarryIds(jobs: map<Key, JobRow>, s: System, t: System)
    requires Extends(s, t) && IdsReal(jobs, s.orders, s.runner)
    ensures IdsReal(jobs, t.orders, t.runner)
  {
    hide Inv, Evolves;
  }

  lemma CarryRunner(runner: map<(string, Key), RunnerJob>, orders: map<Key, Order>, orders': map<Key, Order>)
    requires OrdersGrow(orders, orders') && RunnerOk(runner, orders)
    ensures RunnerOk(runner, orders')
  {
  }

  // ---------------------------------------------------------------- ledger transactions

  lemma OthersKeepIds(db: Db, op: Op, clock: Time, key: Key)
    requires !op.Save? && !op.Reconcile? && key in db.jobs
    ensures key in Apply(db, op, clock).jobs && Apply(db, op, clock).jobs[key].checkpoint.jobId
            == db.jobs[key].checkpoint.jobId
  {
    hide KeyPresent, HasAttempt, LockRunLease, LockExpiredRunningRun, Outcome.Complete, WithRetry, DropToken, Decode,
         PolicyAdmits, SameOccurrenceActive, CheckpointConflict, ReconcileConflict, OccurrenceOpen, Unsubmitted,
         SkippedRow,
         Prunable, Compactable;
  }

  predicate OrderIs(db: Db, k: Key, order: Order) {
    && k in db.jobs
    && (db.jobs[k].snapshot.Frozen? ==> db.jobs[k].snapshot.target == order.target)
    && EventIs(db, k, order.event)
  }

  lemma OrderSurvives(w: World, v: World, k: Key, order: Order)
    requires Inv(w) && Inv(v) && Evolves(w, v) && OrderIs(w.db, k, order)
    ensures OrderIs(v.db, k, order)
  {
    EventStable(w, v, k, order.event);
    JobsBetween(w, v, k);
    hide Inv, Evolves, EventIs, JobRowAgrees;
  }

  lemma OrdersSurvive(w: World, v: World, orders: map<Key, Order>)
    requires Inv(w) && Inv(v) && Evolves(w, v) && OrdersOk(w.db, orders) && v.db.jobs.Keys == w.db.jobs.Keys
    ensures OrdersOk(v.db, orders)
  {
    hide Inv, Evolves, EventIs;
    forall k | k in orders ensures OrderIs(v.db, k, orders[k]) {
      OrderSurvives(w, v, k, orders[k]);
    }
  }

  lemma KeysStay(w: World, op: Op)
    requires Inv(w) && Enabled(w, op)
    ensures w.db.jobs.Keys <= Apply(w.db, op, w.clock).jobs.Keys
  {
    hide Apply, Inv, Enabled, Effect, JobEvolves;
    OpEffect(w, op);
    EffectKeepsJobs(w, CauseOf(op), Apply(w.db, op, w.clock));
  }

  lemma EffectKeepsJobs(w: World, cause: Cause, after: Db)
    requires Effect(w, cause, after)
    ensures w.db.jobs.Keys <= after.jobs.Keys
  {
    hide TablesOk, RunsEvolve, EventsEvolve, JobEvolves, LiveTokens;
  }

  lemma NoKeysAdded(db: Db, op: Op, clock: Time)
    requires !op.Save?
    ensures Apply(db, op, clock).jobs.Keys <= db.jobs.Keys
  {
    hide Apply;
    forall k | k in Apply(db, op, clock).jobs ensures k in db.jobs {
      if k !in db.jobs { CheckpointsComeFromSaves(db, op, clock, k); }
    }
  }

  lemma KeysKept(w: World, op: Op)
    requires Inv(w) && Enabled(w, op) && !op.Save?
    ensures Step(w, op).db.jobs.Keys == w.db.jobs.Keys
  {
    hide Apply, Step, Inv, Enabled;
    KeysStay(w, op);
    NoKeysAdded(w.db, op, w.clock);
    StepDb(w, op);
  }

  lemma IdsSurvive(s: System, op: Op)
    requires IdsReal(s.w.db.jobs, s.orders, s.runner) && !op.Save? && !op.Reconcile?
    requires Step(s.w, op).db.jobs.Keys == s.w.db.jobs.Keys
    ensures IdsReal(Step(s.w, op).db.jobs, s.orders, s.runner)
  {
    StepDb(s.w, op);
    hide Step, Apply, RealId;
    forall k | k in s.w.db.jobs ensures Apply(s.w.db, op, s.w.clock).jobs[k].checkpoint.jobId
      == s.w.db.jobs[k].checkpoint.jobId {
      OthersKeepIds(s.w.db, op, s.w.clock, k);
    }
  }

  /** A step of one enabled ledger transaction, with the orders and the runner carried over. */
  lemma StepExtends(s: System, t: System, op: Op)
    requires Inv(s.w) && Enabled(s.w, op) && t.w == Step(s.w, op)
    requires OrdersGrow(s.orders, t.orders) && RunnerGrows(s.runner, t.runner)
    ensures Extends(s, t)
  {
    StepKeepsInv(s.w, op);
    hide Inv, Enabled, Step, Evolves, OrdersGrow, RunnerGrows;
  }

  lemma StaysExtends(s: System, t: System)
    requires Inv(s.w) && t.w == s.w && OrdersGrow(s.orders, t.orders) && RunnerGrows(s.runner, t.runner)
    ensures Extends(s, t)
  {
    EvolvesReflexive(s.w);
    hide Inv, Evolves, OrdersGrow, RunnerGrows;
  }

  /** The parts that carry over when a state extends another without new messages. */
  lemma Carry(s: System, t: System)
    requires Sound(s) && Extends(s, t) && SameLoads(s.executions, t.executions)
    ensures forall n | n in s.executions :: ExecutionOk(s.executions[n], t.w, t.orders, t.runner)
    ensures forall p | p in s.wire :: PostOk(p, t.orders) && SentByUnidentified(p, t.executions)
    ensures forall a | a in s.acks :: AckOk(a, t.runner)
    ensures RunnerOk(s.runner, t.orders) && IdsReal(s.w.db.jobs, t.orders, t.runner)
  {
    hide Inv, Evolves, ExecutionOk, OrdersOk, IdsReal, RunnerOk, PostOk, AckOk, SentByUnidentified, OrdersGrow,
         RunnerGrows, SameLoads;
    CarryExecutions(s, t);
    CarryMessages(s, t);
    CarryRunner(s.runner, s.orders, t.orders);
    CarryIds(s.w.db.jobs, s, t);
  }

  lemma TransactSound(s: System, op: Op)
    requires Sound(s) && Enabled(s.w, op) && !op.Save? && !op.Reconcile?
    ensures Sound(Transacted(s, op))
  {
    var t := Transacted(s, op);
    hide Inv, Enabled, Step, Evolves, ExecutionOk, OrdersOk, IdsReal, RunnerOk, PostOk, AckOk, SentByUnidentified;
    KeysKept(s.w, op);
    IdsSurvive(s, op);
    StepExtends(s, t, op);
    OrdersSurvive(s.w, t.w, s.orders);
    hide Extends;
    Carry(s, t);
  }

  // ---------------------------------------------------------------- checkpoints

  function OrdersAfter(orders: map<Key, Order>, key: Key, order: Order): map<Key, Order> {
    if key in orders then orders else orders[key := order]
  }

  lemma SavedRow(db: Db, run: Run, worker: WorkerId, token: Token, job: ExternalJob, now: Time)
    requires SaveExternalJob(db, run, worker, token, job, now).err.None?
    ensures
      var after := SaveExternalJob(db, run, worker, token, job, now).db;
      && run.key in after.jobs && after.jobs == db.jobs[run.key := after.jobs[run.key]] && after.events == db.events
      && after.jobs[run.key].snapshot == Frozen(job.target) && after.jobs[run.key].checkpoint.jobId == job.jobId
      && (run.key in db.jobs ==> db.jobs[run.key].snapshot == Frozen(job.target))
  {
    hide LockRunLease;
  }

  /** A checkpoint the ledger accepts belongs to the order of its occurrence, or makes it. */
  lemma AcceptedSave(db: Db, run: Run, worker: WorkerId, token: Token, job: ExternalJob, now: Time,
                     event: Option<EventData>,
                     orders: map<Key, Order>, runner: map<(string, Key), RunnerJob>)
    requires OrdersOk(db, orders) && IdsReal(db.jobs, orders, runner) && EventIs(db, run.key, event)
    requires job.jobId != "" ==> RealId(orders, runner, run.key, job.jobId)
    requires SaveExternalJob(db, run, worker, token, job, now).err.None?
    ensures
      var after := SaveExternalJob(db, run, worker, token, job, now).db;
      var orders' := OrdersAfter(orders, run.key, Order(job.target, event));
      && OrdersOk(after, orders') && IdsReal(after.jobs, orders', runner)
      && run.key in orders' && orders'[run.key].target == job.target
      && OrdersGrow(orders, orders')
  {
    hide SaveExternalJob, RealId, EventIs;
    SavedRow(db, run, worker, token, job, now);
    var after := SaveExternalJob(db, run, worker, token, job, now).db;
    var orders' := OrdersAfter(orders, run.key, Order(job.target, event));
    assert orders'[run.key].target == job.target;
    forall k | k in orders' ensures k in after.jobs && (after.jobs[k].snapshot.Frozen? ==>
        after.jobs[k].snapshot.target == orders'[k].target) && EventIs(after, k, orders'[k].event) {
      SameEvents(db, after, k, orders'[k].event);
    }
    forall k | k in after.jobs && after.jobs[k].checkpoint.jobId != ""
      ensures RealId(orders', runner, k, after.jobs[k].checkpoint.jobId) {
      RealIdKept(orders, orders', runner, k, after.jobs[k].checkpoint.jobId);
    }
  }

  lemma SameEvents(db: Db, after: Db, k: Key, event: Option<EventData>)
    requires after.events == db.events
    ensures EventIs(after, k, event) <==> EventIs(db, k, event)
  {
  }

  lemma RealIdKept(orders: map<Key, Order>, orders': map<Key, Order>, runner: map<(string, Key), RunnerJob>, k: Key,
                   id: string)
    requires OrdersGrow(orders, orders')
    ensures RealId(orders, runner, k, id) ==> RealId(orders', runner, k, id)
  {
  }

  lemma RefusedSave(db: Db, run: Run, worker: WorkerId, token: Token, job: ExternalJob, now: Time)
    requires SaveExternalJob(db, run, worker, token, job, now).err.Some?
    ensures SaveExternalJob(db, run, worker, token, job, now).db == db
  {
    hide LockRunLease, CheckpointConflict;
  }

  lemma SaveStep(w: World, e: Execution, job: ExternalJob, now: Time)
    requires e.read in w.known && Checkpointable(job) && now <= w.clock
    ensures Enabled(w, SaveOp(e, job, now))
    ensures Step(w, SaveOp(e, job, now)).db == SaveExternalJob(w.db, e.read.run, e.worker, e.token, job, now).db
  {
    hide SaveExternalJob, CauseOf;
  }

  predicate MayCheckpoint(e: Execution, job: ExternalJob, phase: Phase, orders: map<Key, Order>,
                          runner: map<(string, Key), RunnerJob>) {
    && Checkpointable(job)
    && (job.jobId != "" ==> RealId(orders, runner, e.read.run.key, job.jobId))
    && (if job.jobId == "" then phase == Ready && e.loaded.None? else phase == Tracking)
  }

  lemma CheckpointedExecution(e: Execution, job: ExternalJob, phase: Phase, refused: bool, w: World,
                              orders: map<Key, Order>, runner: map<(string, Key), RunnerJob>)
    requires e.read in w.known && EventIs(w.db, e.read.run.key, e.event)
    requires MayCheckpoint(e, job, phase, orders, runner)
    requires !refused ==> e.read.run.key in orders && orders[e.read.run.key].target == job.target
    ensures ExecutionOk(e.(phase := if refused || job.Terminal() then Stopped else phase, job := Some(job)), w, orders,
            runner)
  {
  }

  lemma CheckpointedLedger(s: System, n: nat, job: ExternalJob, phase: Phase, now: Time)
    requires n in s.executions && now <= s.w.clock && MayCheckpoint(s.executions[n], job, phase, s.orders, s.runner)
    requires s.executions[n].read in s.w.known && EventIs(s.w.db, s.executions[n].read.run.key, s.executions[n].event)
    requires OrdersOk(s.w.db, s.orders) && IdsReal(s.w.db.jobs, s.orders, s.runner)
    ensures
      var t := Checkpointed(s, n, job, phase, now);
      var e := s.executions[n];
      && OrdersOk(t.w.db, t.orders) && IdsReal(t.w.db.jobs, t.orders, t.runner) && OrdersGrow(s.orders, t.orders)
      && (SaveExternalJob(s.w.db, e.read.run, e.worker, e.token, job, now).err.None? ==>
            e.read.run.key in t.orders && t.orders[e.read.run.key].target == job.target)
  {
    hide Enabled, Step, OrdersOk, IdsReal, SaveExternalJob, EventIs, RealId, Checkpointable;
    var e := s.executions[n];
    SaveStep(s.w, e, job, now);
    if SaveExternalJob(s.w.db, e.read.run, e.worker, e.token, job, now).err.None? {
      AcceptedSave(s.w.db, e.read.run, e.worker, e.token, job, now, e.event, s.orders, s.runner);
    } else {
      RefusedSave(s.w.db, e.read.run, e.worker, e.token, job, now);
    }
  }

  lemma CheckpointedShape(s: System, n: nat, job: ExternalJob, phase: Phase, now: Time)
    requires n in s.executions
    ensures
      var t := Checkpointed(s, n, job, phase, now);
      var e := s.executions[n];
      var refused := SaveExternalJob(s.w.db, e.read.run, e.worker, e.token, job, now).err.Some?;
      && t == s.(w := Step(s.w, SaveOp(e, job, now)), executions := t.executions, orders := t.orders)
      && t.executions == s.executions[n := e.(phase := if refused || job.Terminal() then Stopped
           else phase, job := Some(job))]
  {
    hide Step, SaveExternalJob;
  }

  lemma CheckpointedExtends(s: System, n: nat, job: ExternalJob, phase: Phase, now: Time)
    requires n in s.executions && now <= s.w.clock && MayCheckpoint(s.executions[n], job, phase, s.orders, s.runner)
    requires Sound(s)
    ensures
      var t := Checkpointed(s, n, job, phase, now);
      && Extends(s, t) && OrdersOk(t.w.db, t.orders) && IdsReal(t.w.db.jobs, t.orders, t.runner)
      && ExecutionOk(t.executions[n], t.w, t.orders, t.runner)
  {
    var t := Checkpointed(s, n, job, phase, now);
    var e := s.executions[n];
    var refused := SaveExternalJob(s.w.db, e.read.run, e.worker, e.token, job, now).err.Some?;
    CheckpointedShape(s, n, job, phase, now);
    assert ExecutionOk(e, s.w, s.orders, s.runner) && e.read in s.w.known && EventIs(s.w.db, e.read.run.key, e.event);
    assert Checkpointable(job);
    hide *;
    SoundLedger(s);
    SaveStep(s.w, e, job, now);
    CheckpointedLedger(s, n, job, phase, now);
    RunnerGrowsItself(s.runner);
    StepExtends(s, t, SaveOp(e, job, now));
    MovedCheckpoint(s, t, e, job, phase);
    CheckpointedExecution(e, job, phase, refused, t.w, t.orders, t.runner);
  }

  lemma RunnerGrowsItself(runner: map<(string, Key), RunnerJob>)
    ensures RunnerGrows(runner, runner)
  {
  }

  lemma SoundLedger(s: System)
    requires Sound(s)
    ensures Inv(s.w) && OrdersOk(s.w.db, s.orders) && IdsReal(s.w.db.jobs, s.orders, s.runner)
  {
    hide Inv, OrdersOk, IdsReal, ExecutionOk, PostOk, AckOk, RunnerOk, SentByUnidentified;
  }

  lemma CheckpointedSound(s: System, n: nat, job: ExternalJob, phase: Phase, now: Time)
    requires n in s.executions && now <= s.w.clock && MayCheckpoint(s.executions[n], job, phase, s.orders, s.runner)
    requires Sound(s)
    ensures Sound(Checkpointed(s, n, job, phase, now))
  {
    hide Inv, Evolves, ExecutionOk, OrdersOk, IdsReal, RunnerOk, PostOk, AckOk, SentByUnidentified, MayCheckpoint,
         Extends, Checkpointed, OrdersGrow, RunnerGrows;
    var t := Checkpointed(s, n, job, phase, now);
    CheckpointedExtends(s, n, job, phase, now);
    CheckpointedShape(s, n, job, phase, now);
    hide Step, SaveExternalJob;
    Carry(s, t);
    ExtendsInv(s, t);
  }

  lemma ExtendsInv(s: System, t: System)
    requires Extends(s, t)
    ensures Inv(t.w)
  {
    hide Inv;
  }

  lemma MovedCheckpoint(s: System, t: System, e: Execution, job: ExternalJob, phase: Phase)
    requires Extends(s, t) && ExecutionOk(e, s.w, s.orders, s.runner)
             && MayCheckpoint(e, job, phase, s.orders, s.runner)
    ensures e.read in t.w.known && EventIs(t.w.db, e.read.run.key, e.event)
            && MayCheckpoint(e, job, phase, t.orders, t.runner)
  {
    EventStable(s.w, t.w, e.read.run.key, e.event);
    hide Inv, RunsEvolve, JobsEvolve, EventsEvolve, EventIs, Checkpointable;
  }

  // ---------------------------------------------------------------- executions

  /** Changing one execution and nothing else of the ledger, the runner or the wire. */
  lemma ExecutionSound(s: System, n: nat, e: Execution)
    requires ExecutionOk(e, s.w, s.orders, s.runner) && (n in s.executions ==> e.loaded == s.executions[n].loaded)
    requires Sound(s)
    ensures Sound(s.(executions := s.executions[n := e]))
  {
    hide Inv, ExecutionOk, OrdersOk, IdsReal, RunnerOk, PostOk, AckOk;
  }

  lemma StartedOk(w: World, read: Read, worker: WorkerId, token: Token, target: Target, timeout: int,
                  orders: map<Key, Order>, runner: map<(string, Key), RunnerJob>)
    requires read in w.known && OrdersOk(w.db, orders) && IdsReal(w.db.jobs, orders, runner) && Inv(w)
    ensures ExecutionOk(Started(read, worker, token, target, timeout, w.db), w, orders, runner)
  {
    hide Inv, RealId, EventIs;
    var key := read.run.key;
    ReadEvent(w, read);
    if key in w.db.jobs {
      RowAgrees(w, key);
    }
  }

  lemma ReadEvent(w: World, read: Read)
    requires read in w.known && Inv(w)
    ensures EventIs(w.db, read.run.key, EventOf(w.db, read.run.key))
  {
    hide Rows, Chain, Agreement, JobsAgree, DeadAgree;
  }

  lemma RowAgrees(w: World, key: Key)
    requires key in w.db.jobs && Inv(w)
    ensures JobRowAgrees(w.db.jobs[key])
  {
    hide Rows, Chain, Agreement, EventsAgree, DeadAgree, HistoryOk, JobRowAgrees;
  }

  lemma ExecuteSound(s: System, act: Act)
    requires act.Execute? && Possible(s, act)
    requires Sound(s)
    ensures Sound(Next(s, act))
  {
    hide Inv, ExecutionOk, OrdersOk, IdsReal, RunnerOk, PostOk, AckOk, SentByUnidentified, Started;
    StartedOk(s.w, act.read, act.worker, act.token, act.target, act.timeout, s.orders, s.runner);
    ExecutionSound(s, act.n, Started(act.read, act.worker, act.token, act.target, act.timeout, s.w.db));
  }

  lemma StoppedSound(s: System, n: nat)
    requires n in s.executions
    requires Sound(s)
    ensures Sound(s.(executions := s.executions[n := s.executions[n].(phase := Stopped)]))
  {
    var e := s.executions[n].(phase := Stopped);
    assert ExecutionOk(s.executions[n], s.w, s.orders, s.runner);
    assert ExecutionOk(e, s.w, s.orders, s.runner);
    hide Inv, ExecutionOk, OrdersOk, IdsReal, RunnerOk, PostOk, AckOk, SentByUnidentified;
    ExecutionSound(s, n, e);
  }

  lemma SubmitFacts(e: Execution, n: nat, w: World, orders: map<Key, Order>, runner: map<(string, Key), RunnerJob>)
    requires e.phase == Ready && ExecutionOk(e, w, orders, runner) && OrdersOk(w.db, orders)
    ensures PostOf(e, n).Some? ==> PostOk(PostOf(e, n).value, orders) && PostOf(e, n).value.sender == n
    ensures ExecutionOk(e.(phase := Submitted), w, orders, runner)
    ensures e.loaded.Some? ==> e.loaded.value.jobId == ""
  {
    hide RealId;
  }

  lemma SoundExecution(s: System, n: nat)
    requires n in s.executions && Sound(s)
    ensures ExecutionOk(s.executions[n], s.w, s.orders, s.runner) && OrdersOk(s.w.db, s.orders)
            && s.executions[n].read in s.w.known
  {
    hide Inv, OrdersOk, IdsReal, RunnerOk, PostOk, AckOk, SentByUnidentified, JobOk, EventIs;
  }

  lemma WireSound(s: System, p: Post)
    requires PostOk(p, s.orders) && SentByUnidentified(p, s.executions) && Sound(s)
    ensures Sound(s.(wire := s.wire + {p}))
  {
    hide Inv, ExecutionOk, OrdersOk, IdsReal, RunnerOk, PostOk, AckOk, SentByUnidentified;
  }

  lemma SubmitSound(s: System, n: nat)
    requires n in s.executions && s.executions[n].phase == Ready
    requires Sound(s)
    ensures Sound(Posted(s, n))
  {
    hide Sound, ExecutionOk, OrdersOk, PostOk, PostOf;
    var e := s.executions[n];
    SoundExecution(s, n);
    SubmitFacts(e, n, s.w, s.orders, s.runner);
    if PostOf(e, n).Some? {
      var t := s.(executions := s.executions[n := e.(phase := Submitted)]);
      ExecutionSound(s, n, e.(phase := Submitted));
      WireSound(t, PostOf(e, n).value);
      assert Posted(s, n) == t.(wire := t.wire + {PostOf(e, n).value});
    } else {
      StoppedSound(s, n);
    }
  }

  // ---------------------------------------------------------------- observations

  lemma AcceptFacts(e: Execution, response: Response, ack: Ack, now: Time, w: World, orders: map<Key, Order>,
                    runner: map<(string, Key), RunnerJob>)
    requires e.phase == Submitted && e.job.Some? && ExecutionOk(e, w, orders, runner) && AckOk(ack, runner)
    requires ack.url == e.job.value.target.url && ack.key == e.read.run.key && response.jobId == ack.jobId
    ensures
      var applied := ApplyJobResponse(e.job.value, response, true, now);
      applied.Applied? ==> MayCheckpoint(e, applied.job, Tracking, orders, runner)
  {
    AppliedResponse(e.job.value, response, true, now);
    hide ApplyJobResponse, Checkpointable, EventIs;
  }

  lemma PollFacts(e: Execution, response: Response, now: Time, w: World, orders: map<Key, Order>,
                  runner: map<(string, Key), RunnerJob>)
    requires e.phase == Tracking && ExecutionOk(e, w, orders, runner)
    ensures e.job.Some?
    ensures
      var applied := ApplyJobResponse(e.job.value, response, false, now);
      applied.Applied? ==> MayCheckpoint(e, applied.job, Tracking, orders, runner)
  {
    AppliedResponse(e.job.value, response, false, now);
    hide ApplyJobResponse, Checkpointable, EventIs;
  }

  lemma SoundAck(s: System, a: Ack)
    requires a in s.acks && Sound(s)
    ensures AckOk(a, s.runner)
  {
    hide Inv, ExecutionOk, OrdersOk, IdsReal, RunnerOk, PostOk, AckOk, SentByUnidentified;
  }

  lemma AcceptSound(s: System, act: Act)
    requires act.Accept? && Possible(s, act)
    requires Sound(s)
    ensures Sound(Next(s, act))
  {
    hide Sound, ExecutionOk, OrdersOk, AckOk, ApplyJobResponse, Checkpointed, MayCheckpoint;
    var e := s.executions[act.n];
    SoundExecution(s, act.n);
    SoundAck(s, act.ack);
    AcceptFacts(e, act.response, act.ack, act.now, s.w, s.orders, s.runner);
    var applied := ApplyJobResponse(e.job.value, act.response, true, act.now);
    if applied.Applied? {
      CheckpointedSound(s, act.n, applied.job, Tracking, act.now);
    } else {
      StoppedSound(s, act.n);
    }
  }

  lemma PollSound(s: System, act: Act)
    requires act.Poll? && Possible(s, act)
    requires Sound(s)
    ensures Sound(Next(s, act))
  {
    hide Sound, ExecutionOk, OrdersOk, ApplyJobResponse, Checkpointed, MayCheckpoint;
    var e := s.executions[act.n];
    SoundExecution(s, act.n);
    PollFacts(e, act.response, act.now, s.w, s.orders, s.runner);
    var applied := ApplyJobResponse(e.job.value, act.response, false, act.now);
    if applied.Applied? {
      CheckpointedSound(s, act.n, applied.job, Tracking, act.now);
    } else {
      StoppedSound(s, act.n);
    }
  }

  lemma IntendSound(s: System, act: Act)
    requires act.Intend? && Possible(s, act)
    requires Sound(s)
    ensures Sound(Next(s, act))
  {
    var e := s.executions[act.n];
    assert ExecutionOk(e, s.w, s.orders, s.runner) && e.loaded.None?;
    hide Inv, ExecutionOk, OrdersOk, IdsReal, RunnerOk, PostOk, AckOk, Checkpointed, SentByUnidentified, RealId;
    CheckpointedSound(s, act.n, Intent(act.started, e.timeout, e.target), Ready, act.now);
  }

  /** What an operator's reconciliation may write. */
  lemma ReconciledIds(db: Db, read: Read, expected: ExternalJob, response: Response, ack: Ack, now: Time,
                      orders: map<Key, Order>, runner: map<(string, Key), RunnerJob>)
    requires OrdersOk(db, orders) && IdsReal(db.jobs, orders, runner) && Checkpointable(expected)
    requires expected.jobId == "" ==>
               AckOk(ack, runner) && ack.url == expected.target.url && ack.key == read.run.key
                 && response.jobId == ack.jobId
    requires ApplyJobResponse(expected, response, expected.jobId == "", now).Applied?
    ensures
      var observed := ApplyJobResponse(expected, response, expected.jobId == "", now).job;
      IdsReal(ReconcileExternalJob(db, read.run, expected, observed, now).db.jobs, orders, runner)
  {
    AppliedResponse(expected, response, expected.jobId == "", now);
    hide ApplyJobResponse, OccurrenceOpen, EventIs;
  }

  lemma ReconcilingSound(s: System, act: Act)
    requires act.Reconciling? && Possible(s, act)
    requires Sound(s)
    ensures Sound(Next(s, act))
  {
    hide Sound, OrdersOk, IdsReal, AckOk, ApplyJobResponse, Inv, Step, ReconcileExternalJob, Transacted;
    var applied := ApplyJobResponse(act.expected, act.response, act.expected.jobId == "", act.now);
    if applied.Applied? {
      if act.expected.jobId == "" { SoundAck(s, act.ack); }
      SoundLedger(s);
      AppliedResponse(act.expected, act.response, act.expected.jobId == "", act.now);
      ReconciledIds(s.w.db, act.read, act.expected, act.response, act.ack, act.now, s.orders, s.runner);
      ReconcileSound(s, Reconcile(act.read, act.expected, applied.job, act.now));
    }
  }

  lemma ReconcileSound(s: System, op: Op)
    requires op.Reconcile? && Enabled(s.w, op)
    requires IdsReal(ReconcileExternalJob(s.w.db, op.read.run, op.expected, op.observed, op.now).db.jobs, s.orders,
             s.runner)
    requires Sound(s)
    ensures Sound(Transacted(s, op))
  {
    hide Inv, Evolves, ExecutionOk, OrdersOk, IdsReal, RunnerOk, PostOk, AckOk, SentByUnidentified,
         ReconcileExternalJob;
    var t := Transacted(s, op);
    StepDb(s.w, op);
    hide Enabled, Step;
    KeysKept(s.w, op);
    RunnerGrowsItself(s.runner);
    StepExtends(s, t, op);
    ExtendsParts(s, t);
    OrdersSurvive(s.w, t.w, s.orders);
    hide Extends;
    Carry(s, t);
  }

  lemma ExtendsParts(s: System, t: System)
    requires Extends(s, t)
    ensures Inv(s.w) && Inv(t.w) && Evolves(s.w, t.w)
  {
    hide Inv, Evolves;
  }

  // ---------------------------------------------------------------- the runner

  /** A step of the runner alone. */
  lemma RunnerSound(s: System, t: System)
    requires t == s.(runner := t.runner, acks := t.acks)
    requires RunnerGrows(s.runner, t.runner) && RunnerOk(t.runner, s.orders)
    requires forall a | a in t.acks && a !in s.acks :: AckOk(a, t.runner)
    requires Sound(s)
    ensures Sound(t)
  {
    hide Inv, Evolves, ExecutionOk, OrdersOk, IdsReal, RunnerOk, PostOk, AckOk, SentByUnidentified, RunnerGrows;
    StaysExtends(s, t);
    hide Extends;
    Carry(s, t);
  }

  lemma SoundPost(s: System, p: Post)
    requires p in s.wire && Sound(s)
    ensures PostOk(p, s.orders) && RunnerOk(s.runner, s.orders)
  {
    hide Inv, ExecutionOk, OrdersOk, IdsReal, RunnerOk, PostOk, AckOk, SentByUnidentified;
  }

  /** The runner holds the instructions of the order, so a second request for it never conflicts. */
  lemma NoConflict(runner: map<(string, Key), RunnerJob>, orders: map<Key, Order>, post: Post)
    requires RunnerOk(runner, orders) && PostOk(post, orders) && (post.url, post.key) in runner
    ensures runner[(post.url, post.key)].instructions == post.request
  {
  }

  lemma HandleSound(s: System, act: Act)
    requires act.Handle? && act.post in s.wire
    requires Sound(s)
    ensures Sound(Next(s, act))
  {
    hide Sound, RunnerOk, PostOk, Step, Checkpointed, Observed, Posted, Started, Restarted, ApplyJobResponse;
    var t := Next(s, act);
    var slot := (act.post.url, act.post.key);
    SoundPost(s, act.post);
    if slot in s.runner { NoConflict(s.runner, s.orders, act.post); }
    RunnerOkAfter(s.runner, t.runner, s.orders, slot, act.post);
    RunnerSound(s, t);
  }

  lemma RunnerOkAfter(runner: map<(string, Key), RunnerJob>, runner': map<(string, Key), RunnerJob>, orders: map<Key,
                      Order>, slot: (string, Key), post: Post)
    requires RunnerOk(runner, orders) && PostOk(post, orders) && slot == (post.url, post.key)
    requires forall x | x in runner' ::
               (x in runner && runner'[x] == runner[x]) || (x == slot && runner'[x].instructions == post.request)
    ensures RunnerOk(runner', orders)
  {
  }

  lemma RunnerStepSound(s: System, act: Act)
    requires (act.Answer? || act.Restart? || act.Forget?) && Possible(s, act)
    requires Sound(s)
    ensures Sound(Next(s, act))
  {
    hide Inv, ExecutionOk, OrdersOk, IdsReal, SentByUnidentified, PostOk, Backed;
    var t := Next(s, act);
    assert RunnerOk(t.runner, s.orders);
    RunnerSound(s, t);
  }

  // ---------------------------------------------------------------- every state

  lemma NextSound(s: System, act: Act)
    requires Possible(s, act)
    requires Sound(s)
    ensures Sound(Next(s, act))
  {
    hide Sound;
    match act
    case Transact(op) => TransactSound(s, op);
    case Execute(_, _, _, _, _, _) => ExecuteSound(s, act);
    case Intend(_, _, _) => IntendSound(s, act);
    case Submit(n) => SubmitSound(s, n);
    case Accept(_, _, _, _) => AcceptSound(s, act);
    case Poll(_, _, _) => PollSound(s, act);
    case Crash(n) =>
      if n in s.executions { StoppedSound(s, n); }
    case Reconciling(_, _, _, _, _) => ReconcilingSound(s, act);
    case Handle(_, _, _) => HandleSound(s, act);
    case Answer(_) => RunnerStepSound(s, act);
    case Restart(_) => RunnerStepSound(s, act);
    case Forget(_) => RunnerStepSound(s, act);
  }

  lemma FreshSound(s: System)
    requires Fresh(s)
    ensures Sound(s)
  {
    InitialInv(s.w);
    hide Inv;
  }

  lemma {:induction false} ProtocolSound(states: seq<System>, acts: seq<Act>, i: nat)
    requires i < |states|
    requires Protocol(states, acts)
    ensures Sound(states[i])
    decreases i
  {
    hide Sound, Possible, Next, Fresh;
    if i == 0 {
      FreshSound(states[0]);
    } else {
      ProtocolSound(states, acts, i - 1);
      NextSound(states[i - 1], acts[i - 1]);
    }
  }
}
