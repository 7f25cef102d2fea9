/** The tracked remote job end to end: dispatcher executions, the ledger, a lossy wire and the job runner.
    Executions crash, outlive their lease and race their successors; schedules are edited at any time;
    requests are delayed, duplicated and lost; answers are lost; runner writes fail half way. */
module RemoteProtocol {
  import opened Domain
  import opened Ledger
  import opened LedgerRuns
  import opened RemoteJob

  /** A submission on the wire, and which execution sent it. */
  datatype Post = Post(url: string, key: Key, request: Request, sender: nat)

  /** The runner's word that a job is durably recorded. */
  datatype Ack = Ack(url: string, key: Key, jobId: string)

  /** A runner's job file entry. It is settled once its write was confirmed or it was loaded at a start. */
  datatype RunnerJob = RunnerJob(id: string, instructions: Request, settled: bool)

  datatype Phase = Loaded | Ready | Submitted | Tracking | Stopped

  /** One call of executeJob: the run row and lease it was started with, the checkpoint and event it loaded. */
  datatype Execution = Execution(
    read: Read,
    worker: WorkerId,
    token: Token,
    target: Target,
    timeout: int,
    loaded: Option<ExternalJob>,
    event: Option<EventData>,
    phase: Phase,
    job: Option<ExternalJob>)

  /** What an occurrence asked its runner to do, fixed when its intent became durable. */
  datatype Order = Order(target: Target, event: Option<EventData>)

  datatype System = System(
    w: World,
    executions: map<nat, Execution>,
    wire: set<Post>,
    runner: map<(string, Key), RunnerJob>,
    acks: set<Ack>,
    conflicts: set<Post>,            // requests answered with an instruction conflict
    orders: map<Key, Order>)         // history: the order behind every intent

  datatype Act =
    | Transact(op: Op)                                  // any other ledger transaction by anyone
    | Execute(n: nat, read: Read, worker: WorkerId, token: Token, target: Target, timeout: int)
    | Intend(n: nat, started: Time, now: Time)
    | Submit(n: nat)
    | Accept(n: nat, ack: Ack, response: Response, now: Time)
    | Poll(n: nat, response: Response, now: Time)
    | Crash(n: nat)
    | Reconciling(read: Read, expected: ExternalJob, response: Response, ack: Ack, now: Time)
    | Handle(post: Post, id: string, write: Write)
    | Answer(slot: (string, Key))
    | Restart(url: string)
    | Forget(slot: (string, Key))

  function EventOf(db: Db, key: Key): Option<EventData> {
    if key in db.events then Some(db.events[key].event) else None
  }

  // ---------------------------------------------------------------- steps

  function Transacted(s: System, op: Op): System { s.(w := Step(s.w, op)) }

  /** executeJob up to its first request: a terminal or compacted checkpoint ends it, an identity goes on to polling. */
  function Started(read: Read, worker: WorkerId, token: Token, target: Target, timeout: int, db: Db): Execution {
    var loaded := GetExternalJob(db, read.run.key);
    Execution(read, worker, token, target, timeout, loaded, EventOf(db, read.run.key),
              if loaded.None? then Loaded
              else if loaded.value.Terminal() || loaded.value.compacted then Stopped
              else if loaded.value.jobId == "" then Ready
              else Tracking,
              loaded)
  }

  function SaveOp(e: Execution, job: ExternalJob, now: Time): Op { Save(e.read, e.worker, e.token, job, now) }

  /** A checkpoint: on success the execution goes on to `phase`, on refusal it stops. */
  function Checkpointed(s: System, n: nat, job: ExternalJob, phase: Phase, now: Time): System
    requires n in s.executions
  {
    var e := s.executions[n];
    var op := SaveOp(e, job, now);
    var refused := SaveExternalJob(s.w.db, e.read.run, e.worker, e.token, job, now).err.Some?;
    var key := e.read.run.key;
    s.(w := Step(s.w, op),
       executions := s.executions[n := e.(phase := if refused || job.Terminal() then Stopped
         else phase, job := Some(job))],
       orders := if refused || key in s.orders then s.orders else s.orders[key := Order(job.target, e.event)])
  }

  function Observed(s: System, n: nat, applied: Applied, now: Time): System
    requires n in s.executions
  {
    if applied.Applied? then Checkpointed(s, n, applied.job, Tracking, now)
    else s.(executions := s.executions[n := s.executions[n].(phase := Stopped)])
  }

  function PostOf(e: Execution, n: nat): Option<Post> {
    if e.job.None? || e.job.value.jobId != "" || !Submittable(e.job.value.target) then None
    else
      match Payload(e.job.value.target.body, e.event)
      case None => None
      case Some(request) => Some(Post(e.job.value.target.url, e.read.run.key, request, n))
  }

  function Posted(s: System, n: nat): System
    requires n in s.executions
  {
    var e := s.executions[n];
    var post := PostOf(e, n);
    s.(wire := if post.Some? then s.wire + {post.value} else s.wire,
       executions := s.executions[n := e.(phase := if post.Some? then Submitted else Stopped)])
  }

  /** The runner's submit handler for one delivery of a request. */
  function Handled(s: System, post: Post, id: string, write: Write): System {
    var slot := (post.url, post.key);
    if slot in s.runner && s.runner[slot].settled then
      if s.runner[slot].instructions != post.request then s.(conflicts := s.conflicts + {post})
      else s.(acks := s.acks + {Ack(post.url, post.key, s.runner[slot].id)})
    else
      match write
      case FailedBefore => s
      case FailedAfterRename => s.(runner := s.runner[slot := RunnerJob(id, post.request, false)])
      case Confirmed => s.(runner := s.runner[slot := RunnerJob(id, post.request, true)],
        acks := s.acks + {Ack(post.url, post.key, id)})
  }

  /** Starting again loads the file, so what was on disk counts. */
  function Restarted(runner: map<(string, Key), RunnerJob>, url: string): map<(string, Key), RunnerJob> {
    map slot | slot in runner :: if slot.0 == url then runner[slot].(settled := true) else runner[slot]
  }

  function Next(s: System, act: Act): System {
    match act
    case Transact(op) => Transacted(s, op)
    case Execute(n, read, worker, token, target, timeout) =>
      s.(executions := s.executions[n := Started(read, worker, token, target, timeout, s.w.db)])
    case Intend(n, started, now) =>
      if n !in s.executions then s else Checkpointed(s, n, Intent(started, s.executions[n].timeout,
        s.executions[n].target), Ready, now)
    case Submit(n) => if n !in s.executions then s else Posted(s, n)
    case Accept(n, _, response, now) =>
      if n !in s.executions || s.executions[n].job.None? then s
      else Observed(s, n, ApplyJobResponse(s.executions[n].job.value, response, true, now), now)
    case Poll(n, response, now) =>
      if n !in s.executions || s.executions[n].job.None? then s
      else Observed(s, n, ApplyJobResponse(s.executions[n].job.value, response, false, now), now)
    case Crash(n) => s.(executions := if n in s.executions then s.executions[n := s.executions[n].(phase := Stopped)]
      else s.executions)
    case Reconciling(read, expected, response, _, now) =>
      var applied := ApplyJobResponse(expected, response, expected.jobId == "", now);
      if applied.Rejected? then s else Transacted(s, Reconcile(read, expected, applied.job, now))
    case Handle(post, id, write) => Handled(s, post, id, write)
    case Answer(slot) =>
      if slot in s.runner then s.(acks := s.acks + {Ack(slot.0, slot.1, s.runner[slot].id)}) else s
    case Restart(url) => s.(runner := Restarted(s.runner, url))
    case Forget(slot) => s.(runner := s.runner - {slot})
  }

  /** When a step can happen. An execution may hold any token and any edited target; fencing is the ledger's task. */
  predicate Possible(s: System, act: Act) {
    match act
    case Transact(op) => Enabled(s.w, op) && !op.Save? && !op.Reconcile?
    case Execute(n, read, _, _, _, _) => n !in s.executions && read in s.w.known
    case Intend(n, _, now) => n in s.executions && s.executions[n].phase == Loaded && now <= s.w.clock
    case Submit(n) => n in s.executions && s.executions[n].phase == Ready
    case Accept(n, ack, response, now) =>
      && n in s.executions && s.executions[n].phase == Submitted && s.executions[n].job.Some?
      && ack in s.acks && ack.url == s.executions[n].job.value.target.url && ack.key == s.executions[n].read.run.key
      && response.jobId == ack.jobId && now <= s.w.clock
    case Poll(n, _, now) => n in s.executions && s.executions[n].phase == Tracking && now <= s.w.clock
    case Crash(n) => true
    case Reconciling(read, expected, response, ack, now) =>
      && read in s.w.known && Checkpointable(expected) && now <= s.w.clock
      && (expected.jobId == "" ==>
            ack in s.acks && ack.url == expected.target.url && ack.key == read.run.key && response.jobId == ack.jobId)
    case Handle(post, _, _) => post in s.wire
    case Answer(slot) => slot in s.runner && s.runner[slot].settled
    case Restart(_) => true
    case Forget(slot) => slot in s.runner && !s.runner[slot].settled
  }

  predicate Fresh(s: System) {
    Initial(s.w) && s == System(s.w, map[], {}, map[], {}, {}, map[])
  }

  ghost predicate Protocol(states: seq<System>, acts: seq<Act>) {
    && |states| == |acts| + 1
    && Fresh(states[0])
    && forall i {:trigger acts[i]} | 0 <= i < |acts| ::
          Possible(states[i], acts[i]) && states[i + 1] == Next(states[i], acts[i])
  }

  // ---------------------------------------------------------------- invariants

  /** Every checkpoint row has its order; the frozen snapshot and the event record are that order's. */
  ghost predicate OrdersOk(db: Db, orders: map<Key, Order>) {
    && orders.Keys == db.jobs.Keys
    && (forall k | k in orders ::
          && (db.jobs[k].snapshot.Frozen? ==> db.jobs[k].snapshot.target == orders[k].target)
          && EventIs(db, k, orders[k].event))
  }

  /** The event of an occurrence is settled: recorded, or the occurrence is not an event's. */
  predicate EventIs(db: Db, key: Key, event: Option<EventData>) {
    event == EventOf(db, key) && (key.Event? ==> key in db.events)
  }

  function RequestFor(order: Order): Option<Request> { Payload(order.target.body, order.event) }

  predicate Backed(orders: map<Key, Order>, key: Key, url: string, request: Request) {
    key in orders && url == orders[key].target.url && RequestFor(orders[key]) == Some(request)
  }

  predicate PostOk(p: Post, orders: map<Key, Order>) { Backed(orders, p.key, p.url, p.request) }

  /** An id is real when the runner at the ordered address has durably recorded the occurrence's job under it. */
  predicate RealId(orders: map<Key, Order>, runner: map<(string, Key), RunnerJob>, key: Key, id: string) {
    && key in orders
    && (orders[key].target.url, key) in runner
    && runner[(orders[key].target.url, key)].settled
    && runner[(orders[key].target.url, key)].id == id
  }

  predicate JobOk(job: ExternalJob, key: Key, orders: map<Key, Order>, runner: map<(string, Key), RunnerJob>) {
    && key in orders && job.target == orders[key].target && Checkpointable(job)
    && (job.jobId != "" ==> RealId(orders, runner, key, job.jobId))
  }

  predicate ExecutionOk(e: Execution, w: World, orders: map<Key, Order>, runner: map<(string, Key), RunnerJob>) {
    && e.read in w.known
    && EventIs(w.db, e.read.run.key, e.event)
    && (e.phase == Loaded ==> e.loaded.None?)
    && (e.phase == Ready || e.phase == Submitted || e.phase == Tracking ==>
          && e.job.Some? && JobOk(e.job.value, e.read.run.key, orders, runner)
          && (e.job.value.jobId == "" <==> e.phase != Tracking))
    && (e.loaded.Some? && e.loaded.value.jobId != "" ==> e.phase == Tracking || e.phase == Stopped)
  }

  ghost predicate RunnerOk(runner: map<(string, Key), RunnerJob>, orders: map<Key, Order>) {
    forall slot | slot in runner :: Backed(orders, slot.1, slot.0, runner[slot].instructions)
  }

  predicate AckOk(a: Ack, runner: map<(string, Key), RunnerJob>) {
    (a.url, a.key) in runner && runner[(a.url, a.key)].settled && runner[(a.url, a.key)].id == a.jobId
  }

  ghost predicate IdsReal(jobs: map<Key, JobRow>, orders: map<Key, Order>, runner: map<(string, Key), RunnerJob>) {
    forall k | k in jobs && jobs[k].checkpoint.jobId != "" :: RealId(orders, runner, k, jobs[k].checkpoint.jobId)
  }

  /** No execution that loaded a recorded identity ever submitted. */
  predicate SentByUnidentified(p: Post, executions: map<nat, Execution>) {
    p.sender in executions && (executions[p.sender].loaded.Some? ==> executions[p.sender].loaded.value.jobId == "")
  }

  ghost predicate Sound(s: System) {
    && Inv(s.w)
    && OrdersOk(s.w.db, s.orders)
    && (forall n | n in s.executions :: ExecutionOk(s.executions[n], s.w, s.orders, s.runner))
    && (forall p | p in s.wire :: PostOk(p, s.orders) && SentByUnidentified(p, s.executions))
    && RunnerOk(s.runner, s.orders)
    && (forall a | a in s.acks :: AckOk(a, s.runner))
    && IdsReal(s.w.db.jobs, s.orders, s.runner)
    && s.conflicts == {}
  }
}
