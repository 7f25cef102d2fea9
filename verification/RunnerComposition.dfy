/** The job runner inside the remote-job protocol: its whole life, interleaved with executors, the ledger, the wire
    and other runners, is a run of the protocol, so what the protocol promises of a runner holds of this one. */
module RunnerComposition {
  import opened Domain
  import opened RemoteJob
  import P = RemoteProtocol
  import T = RemoteTheorems
  import opened Runner
  import opened RunnerProofs
  import opened RunnerRefinement

  /** What the protocol sees of one move: a handled request, a restart with what it forgot, or nothing. */
  function Seen(system: P.System, s: State, m: Move, post: P.Post, url: string, idOf: Key -> JobId): P.System {
    match m
    case Submitting(id, _, _, _, write) =>
      if s.closed then system else P.Handled(system, post, id, WriteSeen(s, id, write))
    case Restarting(order) =>
      if Load(s.file).Some? && ResumeOrder(Load(s.file).value, order)
      then system.(runner := P.Restarted(system.runner - Lost(s, url, system.runner, idOf), url))
      else system
    case _ => system
  }

  /** A submission handles a request from the wire, under the hashes of its key and instructions. */
  predicate Handles(system: P.System, m: Move, post: P.Post, url: string, idOf: Key -> JobId,
                    printOf: Request -> string) {
    m.Submitting? ==>
      post in system.wire && post.url == url && m.id == idOf(post.key) && m.fingerprint == printOf(post.request)
  }

  // ---------------------------------------------------------------- every move

  lemma WorkerMoveRefines(s: State, m: Move, url: string, slots: Slots, idOf: Key -> JobId, printOf: Request -> string)
    requires m.Begins? || m.Reports? || m.Decides? || m.Concludes? || m.Finishes?
    requires Can(s, m) && Represents(s, url, slots, idOf, printOf)
    ensures Represents(Moved(s, m), url, slots, idOf, printOf)
  {
    hide Represents, Updated;
    var id := s.working[m.worker].id;
    if id !in s.jobs {
      LeftRefines(s, m.worker, url, slots, idOf, printOf);
    } else {
      var job, next := WorkerWrites(s, m);
      UpdateRefines(s, url, slots, m.worker, job, m.write, next, idOf, printOf);
      LeftRefines(s, m.worker, url, slots, idOf, printOf);
    }
  }

  /** A worker's move records its job with the fingerprint kept, or leaves it. */
  lemma WorkerWrites(s: State, m: Move) returns (job: Job, next: Option<Pc>)
    requires m.Begins? || m.Reports? || m.Decides? || m.Concludes? || m.Finishes?
    requires Can(s, m) && s.working[m.worker].id in s.jobs
    ensures job.fingerprint == s.jobs[s.working[m.worker].id].fingerprint
    ensures Moved(s, m) == Updated(s, m.worker, job, m.write, next) || Moved(s, m) == Left(s, m.worker)
  {
    hide Updated;
    job, next := s.jobs[s.working[m.worker].id], None;
    match m
    case Begins(worker, write) =>
      next := Some(if job.result.None? then Reporting else AfterReport(job.result.value));
      job := job.(status := JRunning);
    case Reports(worker, text, write) =>
      if text.None? {
        job := job.(status := JFailed);
      } else {
        var report := Report(text.value, if job.request.channel == NoChannel then None
          else Some(Delivery(DPending, 0, "")));
        job, next := job.(result := Some(report)), Some(AfterReport(report));
      }
    case Decides(worker, write) =>
      if HasDelivery(job) {
        job, next := Decided(job);
      }
    case Concludes(worker, write) =>
      if HasDelivery(job) {
        var d := Answered(DeliveryOf(job), job.request.channel, s.working[worker].pc.outcome);
        job, next := WithDelivery(job, d), Some(if d.status == DPending then Deciding else Finishing);
      }
    case Finishes(worker, write) => job := job.(status := JSucceeded);
  }

  lemma Decided(given: Job) returns (job: Job, next: Option<Pc>)
    requires HasDelivery(given)
    ensures job.fingerprint == given.fingerprint
    ensures forall s: State, worker, write ::
              worker in s.working && s.working[worker].id in s.jobs && s.jobs[s.working[worker].id] == given ==>
                Decide(s, worker, write) == Updated(s, worker, job, write, next)
  {
    hide Updated;
    var d := DeliveryOf(given);
    if given.request.channel == Native && d.status == DSending {
      job, next := WithDelivery(given, d.(status := DUnknown, lastError := RESTARTED)), Some(Finishing);
    } else if d.attempts >= MAX_DELIVERIES {
      var error := if d.lastError == "" then UNCONFIRMED else d.lastError;
      job, next := WithDelivery(given, d.(status := DFailed, lastError := error)), Some(Finishing);
    } else {
      var mark := if given.request.channel == Native then DSending else DPending;
      job, next := WithDelivery(given, d.(status := mark, attempts := d.attempts + 1)), Some(Sending);
    }
  }

  lemma LeftRefines(s: State, worker: WorkerNo, url: string, slots: Slots, idOf: Key -> JobId,
                    printOf: Request -> string)
    requires Represents(s, url, slots, idOf, printOf)
    ensures Represents(Left(s, worker), url, slots, idOf, printOf)
  {
    SameFilesRefine(s, Left(s, worker), url, slots, slots, idOf, printOf);
  }

  /** What represents a state depends on its jobs and its file, and on this runner's slots alone. */
  lemma SameFilesRefine(s: State, t: State, url: string, before: Slots, after: Slots, idOf: Key -> JobId,
                        printOf: Request -> string)
    requires Represents(s, url, before, idOf, printOf) && t.jobs == s.jobs && t.file == s.file
    requires forall key: Key ::
               ((url, key) in after <==> (url, key) in before) && ((url, key) in after ==>
                   after[(url, key)] == before[(url, key)])
    ensures Represents(t, url, after, idOf, printOf)
  {
    forall key: Key ensures SlotIs(t.jobs, t.file, after, (url, key), idOf(key), printOf) {
      assert SlotIs(s.jobs, s.file, before, (url, key), idOf(key), printOf);
    }
  }

  lemma SubmittingRefines(system: P.System, s: State, m: Move, post: P.Post, url: string, idOf: Key -> JobId,
                          printOf: Request -> string)
    requires m.Submitting? && Hashing(idOf, printOf) && Can(s, m) && Handles(system, m, post, url, idOf, printOf)
    requires Durable(s) && Represents(s, url, system.runner, idOf, printOf)
    ensures Represents(Moved(s, m), url, Seen(system, s, m, post, url, idOf).runner, idOf, printOf)
  {
    hide Durable, Hashing, Submit, P.Handled, Represents, SubmitReply;
    if s.closed {
      ClosedSubmit(s, m);
    } else {
      SubmitRefines(s, system, post, m.url, m.task, m.write, idOf, printOf);
    }
  }

  lemma RestartingRefines(system: P.System, s: State, m: Move, post: P.Post, url: string, idOf: Key -> JobId,
                          printOf: Request -> string)
    requires m.Restarting? && Can(s, m) && Durable(s) && Represents(s, url, system.runner, idOf, printOf)
    ensures Represents(Moved(s, m), url, Seen(system, s, m, post, url, idOf).runner, idOf, printOf)
  {
    hide Durable, Load, Represents, P.Restarted, Lost, ResumeOrder;
    LoadsNow(s);
    if ResumeOrder(Load(s.file).value, m.order) {
      RestartRefines(s, url, system.runner, m.order, idOf, printOf);
    }
  }

  lemma QuietRefines(system: P.System, s: State, m: Move, post: P.Post, url: string, idOf: Key -> JobId,
                     printOf: Request -> string)
    requires m.Enqueuing? || m.Taking? || m.Sends? || m.Leaves? || m.Closing?
    requires Can(s, m) && Represents(s, url, system.runner, idOf, printOf)
    ensures Represents(Moved(s, m), url, Seen(system, s, m, post, url, idOf).runner, idOf, printOf)
  {
    hide Represents;
    SameFilesRefine(s, Moved(s, m), url, system.runner, system.runner, idOf, printOf);
  }

  /** Every move of the runner is what the protocol sees of it. */
  lemma MoveRefines(system: P.System, s: State, m: Move, post: P.Post, url: string, idOf: Key -> JobId,
                    printOf: Request -> string)
    requires Hashing(idOf, printOf) && Can(s, m) && Handles(system, m, post, url, idOf, printOf)
    requires Ok(s) && Represents(s, url, system.runner, idOf, printOf)
    ensures Represents(Moved(s, m), url, Seen(system, s, m, post, url, idOf).runner, idOf, printOf)
  {
    LoadedOk(s);
    hide Ok, Durable, Hashing, Represents, Moved, Handles, Can;
    if m.Submitting? {
      SubmittingRefines(system, s, m, post, url, idOf, printOf);
    } else if m.Restarting? {
      RestartingRefines(system, s, m, post, url, idOf, printOf);
    } else if m.Begins? || m.Reports? || m.Decides? || m.Concludes? || m.Finishes? {
      WorkerMoveRefines(s, m, url, system.runner, idOf, printOf);
    } else {
      QuietRefines(system, s, m, post, url, idOf, printOf);
    }
  }

  lemma ClosedSubmit(s: State, m: Move)
    requires m.Submitting? && Can(s, m) && s.closed
    ensures Moved(s, m) == s
  {
  }

  lemma LoadsNow(s: State)
    requires Durable(s)
    ensures Load(s.file).Some?
  {
    hide Load;
  }

  // ---------------------------------------------------------------- the joint machine

  datatype Joint = Joint(system: P.System, runner: State)

  datatype JointStep =
    | Elsewhere(act: P.Act)                  // executors, the ledger, operators, the wire and other runners
    | Here(move: Move, post: P.Post)         // this runner; the request is that of a submission

  /** An act in which the runner at this address takes no part. Answering for a recorded job is left to the protocol. */
  predicate IsElsewhere(act: P.Act, url: string) {
    match act
    case Handle(post, _, _) => post.url != url
    case Restart(other) => other != url
    case Forget(slot) => slot.0 != url
    case _ => true
  }

  predicate JointCan(j: Joint, step: JointStep, url: string, idOf: Key -> JobId, printOf: Request -> string) {
    match step
    case Elsewhere(act) => IsElsewhere(act, url) && P.Possible(j.system, act)
    case Here(m, post) => Can(j.runner, m) && Handles(j.system, m, post, url, idOf, printOf)
  }

  function JointNext(j: Joint, step: JointStep, url: string, idOf: Key -> JobId): Joint
    requires step.Here? ==> Can(j.runner, step.move)
  {
    match step
    case Elsewhere(act) => j.(system := P.Next(j.system, act))
    case Here(m, post) => Joint(Seen(j.system, j.runner, m, post, url, idOf), Moved(j.runner, m))
  }

  ghost predicate Composed(joints: seq<Joint>, steps: seq<JointStep>, url: string, idOf: Key -> JobId,
                           printOf: Request -> string) {
    && |joints| == |steps| + 1 && Hashing(idOf, printOf)
    && P.Fresh(joints[0].system) && joints[0].runner == FirstStart()
    && forall i {:trigger steps[i]} | 0 <= i < |steps| ::
         JointCan(joints[i], steps[i], url, idOf, printOf) && joints[i + 1] == JointNext(joints[i], steps[i], url, idOf)
  }

  /** A state of the protocol, and a state of the runner, that some run ends in. */
  ghost predicate Reached(s: P.System) {
    exists states: seq<P.System>, acts: seq<P.Act> ::
      P.Protocol(states, acts) && |states| == |acts| + 1 && states[|acts|] == s
  }

  ghost predicate Lived(s: State) {
    exists states: seq<State>, moves: seq<Move> ::
      Life(states, moves) && |states| == |moves| + 1 && states[|moves|] == s
  }

  lemma ReachedFresh(s: P.System)
    requires P.Fresh(s)
    ensures Reached(s)
  {
    hide P.Fresh, P.Possible, P.Next;
    var states: seq<P.System>, acts: seq<P.Act> := [s], [];
    assert P.Protocol(states, acts) && states[|acts|] == s;
  }

  lemma ReachedNext(s: P.System, act: P.Act)
    requires Reached(s) && P.Possible(s, act)
    ensures Reached(P.Next(s, act))
  {
    hide P.Fresh, P.Possible, P.Next;
    var states: seq<P.System>, acts: seq<P.Act> :|
      P.Protocol(states, acts) && |states| == |acts| + 1 && states[|acts|] == s;
    var longer, more := states + [P.Next(s, act)], acts + [act];
    forall i | 0 <= i < |more| ensures P.Possible(longer[i], more[i]) && longer[i + 1] == P.Next(longer[i], more[i]) {
      if i < |acts| { assert P.Possible(states[i], acts[i]); }
    }
    assert P.Protocol(longer, more) && longer[|more|] == P.Next(s, act);
  }

  lemma LivedNext(s: State, m: Move)
    requires Lived(s) && Can(s, m)
    ensures Lived(Moved(s, m))
  {
    hide Can, Moved;
    var states: seq<State>, moves: seq<Move> :|
      Life(states, moves) && |states| == |moves| + 1 && states[|moves|] == s;
    var longer, more := states + [Moved(s, m)], moves + [m];
    forall i | 0 <= i < |more| ensures Can(longer[i], more[i]) && longer[i + 1] == Moved(longer[i], more[i]) {
      if i < |moves| { assert Can(states[i], moves[i]); }
    }
    assert Life(longer, more) && longer[|more|] == Moved(s, m);
  }

  lemma LivedFirst()
    ensures Lived(FirstStart())
  {
    var states: seq<State>, moves: seq<Move> := [FirstStart()], [];
    assert Life(states, moves) && states[|moves|] == FirstStart();
  }

  lemma LivedOk(s: State)
    requires Lived(s)
    ensures Ok(s)
  {
    hide Life, Ok;
    var states: seq<State>, moves: seq<Move> :|
      Life(states, moves) && |states| == |moves| + 1 && states[|moves|] == s;
    LifeOk(states, moves, |moves|);
  }

  /** Slot by slot, the protocol forgets what a restart did not find. */
  lemma {:induction false} ForgetAll(s: P.System, lost: set<(string, Key)>)
    requires Reached(s) && forall slot | slot in lost :: slot in s.runner && !s.runner[slot].settled
    ensures Reached(s.(runner := s.runner - lost))
    decreases |lost|
  {
    hide Reached;
    if lost == {} {
      assert s.runner - lost == s.runner;
      assert s.(runner := s.runner - lost) == s;
    } else {
      var slot :| slot in lost;
      var t := P.Next(s, P.Forget(slot));
      assert P.Possible(s, P.Forget(slot));
      ReachedNext(s, P.Forget(slot));
      assert t == s.(runner := s.runner - {slot});
      ForgetAll(t, lost - {slot});
      assert t.runner - (lost - {slot}) == s.runner - lost;
    }
  }

  lemma RestartIsReached(system: P.System, s: State, order: seq<JobId>, url: string, idOf: Key -> JobId,
                         printOf: Request -> string)
    requires Reached(system) && Durable(s) && Load(s.file).Some? && ResumeOrder(Load(s.file).value, order)
    requires Represents(s, url, system.runner, idOf, printOf)
    ensures Reached(system.(runner := P.Restarted(system.runner - Lost(s, url, system.runner, idOf), url)))
  {
    hide Reached, Durable, Load, Represents, ResumeOrder, P.Restarted;
    var lost := Lost(s, url, system.runner, idOf);
    RestartRefines(s, url, system.runner, order, idOf, printOf);
    hide Lost;
    ForgetAll(system, lost) by { LostIsThere(s, url, system.runner, idOf); }
    ReachedNext(system.(runner := system.runner - lost), P.Restart(url));
  }

  lemma LostIsThere(s: State, url: string, slots: Slots, idOf: Key -> JobId)
    ensures Lost(s, url, slots, idOf) <= slots.Keys
  {
  }

  lemma HandledIsReached(system: P.System, post: P.Post, id: JobId, write: Write)
    requires Reached(system) && post in system.wire
    ensures Reached(P.Handled(system, post, id, write))
  {
    hide Reached, P.Handled;
    ReachedNext(system, P.Handle(post, id, write));
  }

  lemma SeenIsReached(system: P.System, s: State, m: Move, post: P.Post, url: string, idOf: Key -> JobId,
                      printOf: Request -> string)
    requires Reached(system) && Handles(system, m, post, url, idOf, printOf)
    requires Durable(s) && Represents(s, url, system.runner, idOf, printOf)
    ensures Reached(Seen(system, s, m, post, url, idOf))
  {
    hide Reached, Durable, Load, P.Handled, Represents, ResumeOrder, Lost, P.Restarted, WriteSeen;
    if m.Submitting? {
      if !s.closed { HandledIsReached(system, post, m.id, WriteSeen(s, m.id, m.write)); }
    } else if m.Restarting? {
      if Load(s.file).Some? && ResumeOrder(Load(s.file).value, m.order) {
        RestartIsReached(system, s, m.order, url, idOf, printOf);
      }
    }
  }

  lemma ElsewhereKeepsSlots(s: P.System, act: P.Act, url: string, key: Key)
    requires IsElsewhere(act, url)
    ensures
      var after := P.Next(s, act).runner;
      && ((url, key) in after <==> (url, key) in s.runner)
      && ((url, key) in after ==> after[(url, key)] == s.runner[(url, key)])
  {
    hide P.Started, P.PostOf, ApplyJobResponse, P.Transacted;
    if act.Transact? || act.Reconciling? { TransactedKeepsRunner(s); }
  }

  lemma TransactedKeepsRunner(s: P.System)
    ensures forall op :: P.Transacted(s, op).runner == s.runner
  {
  }

  lemma RepresentsNothing(s: P.System, url: string, idOf: Key -> JobId, printOf: Request -> string)
    requires P.Fresh(s)
    ensures Represents(FirstStart(), url, s.runner, idOf, printOf)
  {
  }

  /** Whatever the interleaving, the rest of the system sees a run of the protocol, the runner goes through one of
      its lives, and what the protocol takes to be recorded is what the runner has in memory and on disk. */
  lemma {:induction false} ComposedRefines(joints: seq<Joint>, steps: seq<JointStep>, url: string, idOf: Key -> JobId,
                                           printOf: Request -> string, i: nat)
    requires i < |joints|
    requires Composed(joints, steps, url, idOf, printOf)
    ensures Reached(joints[i].system) && Lived(joints[i].runner)
    ensures Represents(joints[i].runner, url, joints[i].system.runner, idOf, printOf)
    decreases i
  {
    hide Reached, Lived, Represents, P.Fresh, P.Possible, P.Next, Can, Moved, Seen, Hashing, Handles, Durable, Placed,
         Counted;
    if i == 0 {
      ReachedFresh(joints[0].system);
      LivedFirst();
      RepresentsNothing(joints[0].system, url, idOf, printOf);
    } else {
      ComposedRefines(joints, steps, url, idOf, printOf, i - 1);
      var j, step := joints[i - 1], steps[i - 1];
      assert JointCan(j, step, url, idOf, printOf) && joints[i] == JointNext(j, step, url, idOf);
      LivedOk(j.runner);
      match step
      case Elsewhere(act) =>
        ReachedNext(j.system, act);
        forall key: Key
          ensures (url, key) in P.Next(j.system, act).runner <==> (url, key) in j.system.runner
          ensures (url, key) in P.Next(j.system, act).runner ==>
                    P.Next(j.system, act).runner[(url, key)] == j.system.runner[(url, key)]
        {
          ElsewhereKeepsSlots(j.system, act, url, key);
        }
        SameFilesRefine(j.runner, j.runner, url, j.system.runner, P.Next(j.system, act).runner, idOf, printOf);
      case Here(m, post) =>
        LivedNext(j.runner, m);
        LoadedOk(j.runner);
        SeenIsReached(j.system, j.runner, m, post, url, idOf, printOf);
        MoveRefines(j.system, j.runner, m, post, url, idOf, printOf);
    }
  }

  // ---------------------------------------------------------------- the protocol's promises, of this runner

  /** A job this runner has on disk is the only job of its occurrence at any runner, and it has the instructions of
      the occurrence's one order. */
  lemma OneJobPerOccurrence(joints: seq<Joint>, steps: seq<JointStep>, url: string, idOf: Key -> JobId,
                            printOf: Request -> string,
                            i: nat, key: Key, other: (string, Key))
    requires i < |joints| && idOf(key) in joints[i].runner.file
    requires Composed(joints, steps, url, idOf, printOf)
    ensures other in joints[i].system.runner && other.1 == key ==> other == (url, key)
    ensures
      var orders := joints[i].system.orders;
      && key in orders && orders[key].target.url == url && P.RequestFor(orders[key]).Some?
      && joints[i].runner.file[idOf(key)].fingerprint == printOf(P.RequestFor(orders[key]).value)
  {
    hide Composed, Reached, P.Protocol, SlotIs;
    ComposedRefines(joints, steps, url, idOf, printOf, i);
    var j := joints[i];
    assert SlotIs(j.runner.jobs, j.runner.file, j.system.runner, (url, key), idOf(key), printOf);
    FileSlot(j.runner, j.system.runner, (url, key), idOf(key), printOf);
    ReachedPromises(j.system, (url, key), other);
  }

  lemma FileSlot(s: State, slots: Slots, slot: (string, Key), id: JobId, printOf: Request -> string)
    requires SlotIs(s.jobs, s.file, slots, slot, id, printOf)
    ensures id in s.file ==> slot in slots && s.file[id].fingerprint == printOf(slots[slot].instructions)
    ensures slot in slots && slots[slot].settled ==> id in s.jobs && slots[slot].id == id
  {
  }

  lemma ReachedPromises(s: P.System, a: (string, Key), b: (string, Key))
    requires Reached(s)
    ensures a in s.runner && b in s.runner && a.1 == b.1 ==> a == b
    ensures a in s.runner ==> P.Backed(s.orders, a.1, a.0, s.runner[a].instructions)
    ensures s.conflicts == {}
  {
    hide P.Protocol, P.Backed;
    var states: seq<P.System>, acts: seq<P.Act> :|
      P.Protocol(states, acts) && |states| == |acts| + 1 && states[|acts|] == s;
    T.NoConflicts(states, acts, |acts|);
    if a in s.runner { T.JobsAreOrdered(states, acts, |acts|, a); }
    if a in s.runner && b in s.runner && a.1 == b.1 {
      T.OneRemoteJob(states, acts, |acts|, a, b);
    }
  }

  /** This runner never answers a request with an instruction conflict. */
  lemma NeverConflicts(joints: seq<Joint>, steps: seq<JointStep>, url: string, idOf: Key -> JobId,
                       printOf: Request -> string, i: nat)
    requires i < |steps| && steps[i].Here? && steps[i].move.Submitting?
    requires Composed(joints, steps, url, idOf, printOf)
    ensures
      var m := steps[i].move;
      i < |joints| && SubmitReply(joints[i].runner, m.id, m.task, m.fingerprint, m.write) != Conflicting
  {
    hide Represents, P.Fresh, P.Possible, P.Next, Moved, Reached, Lived, P.Handled, Submit, Hashing;
    var j, m, post := joints[i], steps[i].move, steps[i].post;
    assert JointCan(j, steps[i], url, idOf, printOf) && joints[i + 1] == JointNext(j, steps[i], url, idOf);
    ComposedRefines(joints, steps, url, idOf, printOf, i);
    ComposedRefines(joints, steps, url, idOf, printOf, i + 1);
    ReachedPromises(joints[i].system, (url, post.key), (url, post.key));
    ReachedPromises(joints[i + 1].system, (url, post.key), (url, post.key));
    LivedOk(j.runner);
    if !j.runner.closed {
      LoadedOk(j.runner);
      SubmitRefines(j.runner, j.system, post, m.url, m.task, m.write, idOf, printOf);
    }
    hide *;
  }

  lemma LoadedOk(s: State)
    requires Ok(s)
    ensures Durable(s)
  {
  }

  /** A job id recorded in the ledger for an occurrence this runner was asked to do is the id of a job it holds. */
  lemma LedgerIdIsHeld(joints: seq<Joint>, steps: seq<JointStep>, url: string, idOf: Key -> JobId,
                       printOf: Request -> string,
                       i: nat, key: Key)
    requires i < |joints| && key in joints[i].system.w.db.jobs && joints[i].system.w.db.jobs[key].checkpoint.jobId != ""
    requires key in joints[i].system.orders && joints[i].system.orders[key].target.url == url
    requires Composed(joints, steps, url, idOf, printOf)
    ensures
      var id := joints[i].system.w.db.jobs[key].checkpoint.jobId;
      id == idOf(key) && id in joints[i].runner.jobs && id in joints[i].runner.file
  {
    hide Composed, P.Protocol, SlotIs;
    ComposedRefines(joints, steps, url, idOf, printOf, i);
    var j := joints[i];
    assert SlotIs(j.runner.jobs, j.runner.file, j.system.runner, (url, key), idOf(key), printOf);
    FileSlot(j.runner, j.system.runner, (url, key), idOf(key), printOf);
    var states: seq<P.System>, acts: seq<P.Act> :|
      P.Protocol(states, acts) && |states| == |acts| + 1 && states[|acts|] == j.system;
    T.RecordedAtOrder(states, acts, |acts|, key);
    LivedOk(j.runner);
    hide Reached, Lived, Represents, Load, Placed, Counted;
  }
}
