/** One call of executeJob, as RemoteExecutor computes it, is a path of RemoteProtocol's steps: what is proved of every
    run of the protocol holds of the calls. */
module RemoteCalls {
  import opened Domain
  import opened Ledger
  import opened LedgerRuns
  import opened RemoteJob
  import opened RemoteProtocol
  import RemoteExecutor

  function Path(s: System, acts: seq<Act>): System
    decreases |acts|
  {
    if acts == [] then s else Path(Next(s, acts[0]), acts[1..])
  }

  /** Every step of the path can happen when its turn comes. */
  predicate Goes(s: System, acts: seq<Act>)
    decreases |acts|
  {
    acts == [] || (Possible(s, acts[0]) && Goes(Next(s, acts[0]), acts[1..]))
  }

  lemma {:induction false} PathJoins(s: System, first: seq<Act>, second: seq<Act>)
    requires Goes(s, first) && Goes(Path(s, first), second)
    ensures Goes(s, first + second) && Path(s, first + second) == Path(Path(s, first), second)
    decreases |first|
  {
    hide Possible, Next;
    if first == [] {
      assert first + second == second;
    } else {
      PathJoins(Next(s, first[0]), first[1..], second);
      assert (first + second)[1..] == first[1..] + second;
    }
  }

  lemma OneStep(s: System, act: Act)
    requires Possible(s, act)
    ensures Goes(s, [act]) && Path(s, [act]) == Next(s, act)
  {
    hide Possible, Next;
    assert Path(Next(s, act), []) == Next(s, act);
  }

  /** What an execution works from. */
  predicate Works(s: System, n: nat, run: Run, worker: WorkerId, token: Token, phase: Phase, job: ExternalJob) {
    && n in s.executions
    && var e := s.executions[n];
       e.read.run == run && e.worker == worker && e.token == token && e.phase == phase && e.job == Some(job)
  }

  /** A checkpoint written by a step: the tables are the transaction's, and the execution goes on from what it saved. */
  lemma CheckpointStep(s: System, n: nat, run: Run, worker: WorkerId, token: Token, was: Phase, job: ExternalJob,
                       next: ExternalJob, phase: Phase, now: Time)
    requires Works(s, n, run, worker, token, was, job)
    ensures
      var t, tx := Checkpointed(s, n, next, phase, now), SaveExternalJob(s.w.db, run, worker, token, next, now);
      && t.w.db == tx.db && t.w.clock == s.w.clock && t.wire == s.wire && t.runner == s.runner
      && n in t.executions && t.executions[n].event == s.executions[n].event
      && Works(t, n, run, worker, token, if tx.err.Some? || next.Terminal() then Stopped else phase, next)
  {
    hide SaveExternalJob, CauseOf;
  }

  lemma PollNext(s: System, n: nat, run: Run, worker: WorkerId, token: Token, job: ExternalJob, response: Response,
                 now: Time)
    requires Works(s, n, run, worker, token, Tracking, job) && now <= s.w.clock
    ensures
      var t, applied := Next(s, Poll(n, response, now)), ApplyJobResponse(job, response, false, now);
      && Possible(s, Poll(n, response, now))
      && t == (if applied.Applied? then Checkpointed(s, n, applied.job, Tracking, now) else t)
      && (applied.Rejected? ==> t.w == s.w && t.wire == s.wire)
  {
    hide Checkpointed, ApplyJobResponse;
  }

  /** The polling loop is polls of one execution. */
  lemma {:induction false} PolledIsPath(s: System, n: nat, run: Run, worker: WorkerId, token: Token, job: ExternalJob,
                                        answers: seq<RemoteExecutor.Answer>)
    returns (acts: seq<Act>)
    requires Works(s, n, run, worker, token, Tracking, job) && forall a | a in answers :: a.now <= s.w.clock
    ensures Goes(s, acts) && Path(s, acts).wire == s.wire
    ensures Path(s, acts).w.db == RemoteExecutor.Polled(s.w.db, run, worker, token, job, answers).db
    decreases |answers|
  {
    hide ApplyJobResponse, Checkpointed, SaveExternalJob, Possible, Next, Works;
    acts := [];
    if answers != [] && answers[0].response.Some? {
      var a := answers[0];
      assert a in answers;
      var act := Poll(n, a.response.value, a.now);
      PollNext(s, n, run, worker, token, job, a.response.value, a.now);
      OneStep(s, act);
      acts := [act];
      var applied := ApplyJobResponse(job, a.response.value, false, a.now);
      if applied.Applied? {
        var next := applied.job;
        CheckpointStep(s, n, run, worker, token, Tracking, job, next, Tracking, a.now);
        var tx := SaveExternalJob(s.w.db, run, worker, token, next, a.now);
        if tx.err.None? && !next.Terminal() && a.paused == RemoteExecutor.Live {
          var rest := PolledIsPath(Next(s, act), n, run, worker, token, next, answers[1..]);
          PathJoins(s, [act], rest);
          acts := [act] + rest;
        }
      }
    }
  }

  // ---------------------------------------------------------------- the submission and its answer

  /** An act of anyone but execution n. */
  predicate Aside(act: Act, n: nat) {
    match act
    case Execute(m, _, _, _, _, _) => m != n
    case Intend(m, _, _) => m != n
    case Submit(m) => m != n
    case Accept(m, _, _, _) => m != n
    case Poll(m, _, _) => m != n
    case Crash(m) => m != n
    case _ => true
  }

  lemma AsideNext(s: System, act: Act, n: nat)
    requires n in s.executions && Aside(act, n)
    ensures n in Next(s, act).executions && Next(s, act).executions[n] == s.executions[n]
  {
    hide Step, ApplyJobResponse, SaveExternalJob, PostOf, Started, Restarted;
  }

  /** Whatever the others do meanwhile, the execution stands where it stood. */
  lemma {:induction false} AsidePath(s: System, acts: seq<Act>, n: nat)
    requires n in s.executions && Goes(s, acts) && forall act | act in acts :: Aside(act, n)
    ensures n in Path(s, acts).executions && Path(s, acts).executions[n] == s.executions[n]
    decreases |acts|
  {
    hide Possible, Next, Aside;
    if acts != [] {
      AsideNext(s, acts[0], n);
      AsidePath(Next(s, acts[0]), acts[1..], n);
    }
  }

  lemma SameWorks(s: System, t: System, n: nat, run: Run, worker: WorkerId, token: Token, phase: Phase,
                  job: ExternalJob)
    requires Works(s, n, run, worker, token, phase, job) && n in t.executions && t.executions[n] == s.executions[n]
    ensures Works(t, n, run, worker, token, phase, job) && n in s.executions
  {
  }

  lemma SubmitNext(s: System, n: nat, run: Run, worker: WorkerId, token: Token, job: ExternalJob)
    requires Works(s, n, run, worker, token, Ready, job) && job.jobId == ""
    requires Submittable(job.target) && Payload(job.target.body, s.executions[n].event).Some?
    ensures Possible(s, Submit(n))
    ensures
      var t, post := Next(s, Submit(n)), Post(job.target.url, run.key,
        Payload(job.target.body, s.executions[n].event).value, n);
      && t.w == s.w && t.runner == s.runner && t.wire == s.wire + {post}
      && Works(t, n, run, worker, token, Submitted, job)
  {
    hide Submittable;
  }

  lemma AcceptNext(s: System, n: nat, run: Run, worker: WorkerId, token: Token, job: ExternalJob, response: Response,
                   now: Time)
    requires Works(s, n, run, worker, token, Submitted, job) && now <= s.w.clock
    requires Ack(job.target.url, run.key, response.jobId) in s.acks
    ensures
      var act := Accept(n, Ack(job.target.url, run.key, response.jobId), response, now);
      var t, applied := Next(s, act), ApplyJobResponse(job, response, true, now);
      && Possible(s, act)
      && (applied.Applied? ==> t == Checkpointed(s, n, applied.job, Tracking, now))
      && (applied.Rejected? ==> t.w == s.w && t.wire == s.wire)
  {
    hide Checkpointed, ApplyJobResponse;
  }

  lemma AcceptedIsPath(s: System, n: nat, run: Run, worker: WorkerId, token: Token, job: ExternalJob,
                       answers: seq<RemoteExecutor.Answer>)
    returns (acts: seq<Act>)
    requires Works(s, n, run, worker, token, Submitted, job) && forall a | a in answers :: a.now <= s.w.clock
    requires answers != [] && answers[0].response.Some?
    requires Ack(job.target.url, run.key, answers[0].response.value.jobId) in s.acks
    ensures Goes(s, acts) && Path(s, acts).wire == s.wire
    ensures Path(s, acts).w.db == RemoteExecutor.Answered(s.w.db, run, worker, token, job, answers).db
  {
    hide ApplyJobResponse, Checkpointed, SaveExternalJob, Possible, Next, Works;
    var a := answers[0];
    assert a in answers;
    var act := Accept(n, Ack(job.target.url, run.key, a.response.value.jobId), a.response.value, a.now);
    AcceptNext(s, n, run, worker, token, job, a.response.value, a.now);
    OneStep(s, act);
    acts := [act];
    var applied := ApplyJobResponse(job, a.response.value, true, a.now);
    if applied.Applied? {
      var next := applied.job;
      CheckpointStep(s, n, run, worker, token, Submitted, job, next, Tracking, a.now);
      var tx := SaveExternalJob(s.w.db, run, worker, token, next, a.now);
      if tx.err.None? && !next.Terminal() {
        var rest := PolledIsPath(Next(s, act), n, run, worker, token, next, answers[1..]);
        PathJoins(s, [act], rest);
        acts := [act] + rest;
      }
    }
  }

  /** From the request on: what others do before its answer comes, and the answers. */
  lemma SubmittedIsPath(s: System, n: nat, run: Run, worker: WorkerId, token: Token, job: ExternalJob,
                        answers: seq<RemoteExecutor.Answer>, meanwhile: seq<Act>)
    returns (acts: seq<Act>)
    requires Works(s, n, run, worker, token, Ready, job) && job.jobId == ""
    requires Submittable(job.target) && Payload(job.target.body, s.executions[n].event).Some?
    requires answers != [] && answers[0].response.Some?
    requires Goes(Next(s, Submit(n)), meanwhile) && forall act | act in meanwhile :: Aside(act, n)
    requires
      var t := Path(Next(s, Submit(n)), meanwhile);
      && Ack(job.target.url, run.key, answers[0].response.value.jobId) in t.acks
      && forall a | a in answers :: a.now <= t.w.clock
    ensures Goes(s, acts) && [Submit(n)] + meanwhile <= acts
    ensures
      var t := Path(Next(s, Submit(n)), meanwhile);
      && Path(s, acts).w.db == RemoteExecutor.Answered(t.w.db, run, worker, token, job, answers).db
      && Path(s, acts).wire == t.wire
    ensures Next(s, Submit(n)).w == s.w
    ensures Next(s, Submit(n)).wire
            == s.wire + {Post(job.target.url, run.key, Payload(job.target.body, s.executions[n].event).value, n)}
  {
    hide Possible, Next, Works, ApplyJobResponse, SaveExternalJob, Submittable, Aside, Path, Goes;
    SubmitNext(s, n, run, worker, token, job);
    OneStep(s, Submit(n));
    var sent := Next(s, Submit(n));
    WorksIn(sent, n, run, worker, token, Submitted, job);
    AsidePath(sent, meanwhile, n);
    var t := Path(sent, meanwhile);
    SameWorks(sent, t, n, run, worker, token, Submitted, job);
    PathJoins(s, [Submit(n)], meanwhile);
    var rest := AcceptedIsPath(t, n, run, worker, token, job, answers);
    PathJoins(s, [Submit(n)] + meanwhile, rest);
    acts := [Submit(n)] + meanwhile + rest;
  }

  lemma WorksIn(s: System, n: nat, run: Run, worker: WorkerId, token: Token, phase: Phase, job: ExternalJob)
    requires Works(s, n, run, worker, token, phase, job)
    ensures n in s.executions
  {
  }

  // ---------------------------------------------------------------- the whole call

  /** Where an execution stands with the checkpoint it works from. */
  function PhaseOf(job: ExternalJob): Phase {
    if job.Terminal() || job.compacted then Stopped else if job.jobId == "" then Ready else Tracking
  }

  /** The call up to its first request. */
  function Opening(s: System, n: nat, read: Read, worker: WorkerId, token: Token, target: Target, timeout: int,
                   now: Time): seq<Act> {
    [Execute(n, read, worker, token, target, timeout)]
    + if GetExternalJob(s.w.db, read.run.key).Some? then []
      else [Intend(n, if read.run.startedAt.Some? then read.run.startedAt.value else now, now)]
  }

  lemma BegunIsPath(s: System, n: nat, read: Read, worker: WorkerId, token: Token, target: Target, timeout: int,
                    now: Time)
    requires n !in s.executions && read in s.w.known && now <= s.w.clock
    ensures
      var acts := Opening(s, n, read, worker, token, target, timeout, now);
      var t := Path(s, acts);
      var begun := RemoteExecutor.Begun(s.w.db, read.run, worker, token, target, timeout,
        GetExternalJob(s.w.db, read.run.key), now);
      && Goes(s, acts) && n in t.executions
      && t.w.db == begun.0.db && t.w.clock == s.w.clock && t.wire == s.wire && t.runner == s.runner
      && t.executions[n].event == EventOf(s.w.db, read.run.key)
      && (begun.0.err.None? ==> Works(t, n, read.run, worker, token, PhaseOf(begun.1), begun.1))
  {
    hide SaveExternalJob, Checkpointed, Goes, Path, GetExternalJob;
    var act := Execute(n, read, worker, token, target, timeout);
    OneStep(s, act);
    var t := Next(s, act);
    if GetExternalJob(s.w.db, read.run.key).None? {
      var job := Intent(if read.run.startedAt.Some? then read.run.startedAt.value else now, timeout, target);
      var intend := Intend(n, job.submittedAt, now);
      assert Next(t, intend) == Checkpointed(t, n, job, Ready, now);
      OneStep(t, intend);
      PathJoins(s, [act], [intend]);
      StoredIntent(t, n, read, worker, token, target, timeout, job, now);
    } else {
      assert Opening(s, n, read, worker, token, target, timeout, now) == [act];
    }
  }

  lemma StoredIntent(t: System, n: nat, read: Read, worker: WorkerId, token: Token, target: Target, timeout: int,
                     job: ExternalJob, now: Time)
    requires n in t.executions && t.executions[n] == Execution(read, worker, token, target, timeout, None,
             t.executions[n].event, Loaded, None)
    requires job == Intent(job.submittedAt, timeout, target)
    ensures
      var u, tx := Checkpointed(t, n, job, Ready, now), SaveExternalJob(t.w.db, read.run, worker, token, job, now);
      && u.w.db == tx.db && u.w.clock == t.w.clock && u.wire == t.wire && u.runner == t.runner
      && n in u.executions && u.executions[n].event == t.executions[n].event
      && (tx.err.None? ==> Works(u, n, read.run, worker, token, PhaseOf(job), job))
  {
    hide SaveExternalJob, CauseOf;
  }

  /** The requests of a call as they stand on the wire. */
  function Sent(url: string, key: Key, posts: seq<Request>, n: nat): set<Post> {
    set r | r in posts :: Post(url, key, r, n)
  }

  lemma SentOnce(url: string, key: Key, request: Request, n: nat)
    ensures Sent(url, key, [request], n) == {Post(url, key, request, n)} && Sent(url, key, [], n) == {}
  {
    assert request in [request];
  }

  /** The call as RemoteExecutor computes it from the tables it begins with. */
  function CallOf(s: System, read: Read, worker: WorkerId, token: Token, target: Target, timeout: int, now: Time,
                  context: RemoteExecutor.Context, answers: seq<RemoteExecutor.Answer>): RemoteExecutor.Executed {
    RemoteExecutor.Execution(BegunOf(s, read, worker, token, target, timeout, now), read.run, worker, token,
                             EventOf(s.w.db, read.run.key), context, answers)
  }

  function BegunOf(s: System, read: Read, worker: WorkerId, token: Token, target: Target, timeout: int, now: Time)
    : (Tx, ExternalJob)
  {
    RemoteExecutor.Begun(s.w.db, read.run, worker, token, target, timeout, GetExternalJob(s.w.db, read.run.key), now)
  }

  /** The call sends its request and hears from the runner. */
  predicate Hears(s: System, read: Read, worker: WorkerId, token: Token, target: Target, timeout: int, now: Time,
                  context: RemoteExecutor.Context, answers: seq<RemoteExecutor.Answer>) {
    && RemoteExecutor.Submits(BegunOf(s, read, worker, token, target, timeout, now), EventOf(s.w.db, read.run.key),
         context)
    && answers != [] && answers[0].response.Some?
  }

  /** The system when the request has left and the others have done what they do until its answer comes. */
  function Heard(s: System, n: nat, read: Read, worker: WorkerId, token: Token, target: Target, timeout: int, now: Time,
                 meanwhile: seq<Act>): System {
    Path(Next(Path(s, Opening(s, n, read, worker, token, target, timeout, now)), Submit(n)), meanwhile)
  }

  /** Any call, from any state of the system, is a path of the protocol. Without an answer to a request of its own it
      leaves the tables that the call computes, and its request, if any, on the wire. With one, anything may happen
      before the answer comes, the runner's handling of the request included; the call then goes on from the tables
      it finds, and if those are still its own, the result is that of the call. */
  lemma CallIsPath(s: System, n: nat, read: Read, worker: WorkerId, token: Token, target: Target, timeout: int,
                   now: Time, context: RemoteExecutor.Context, answers: seq<RemoteExecutor.Answer>,
                   meanwhile: seq<Act>)
    returns (acts: seq<Act>)
    requires n !in s.executions && read in s.w.known && now <= s.w.clock
    requires !Hears(s, read, worker, token, target, timeout, now, context, answers) ==>
               forall a | a in answers :: a.now <= s.w.clock
    requires Hears(s, read, worker, token, target, timeout, now, context, answers) ==>
               var job := BegunOf(s, read, worker, token, target, timeout, now).1;
               var t := Heard(s, n, read, worker, token, target, timeout, now, meanwhile);
               && Goes(Next(Path(s, Opening(s, n, read, worker, token, target, timeout, now)), Submit(n)), meanwhile)
               && (forall act | act in meanwhile :: Aside(act, n)) && (forall a | a in answers :: a.now <= t.w.clock)
               && Ack(job.target.url, read.run.key, answers[0].response.value.jobId) in t.acks
    ensures Goes(s, acts)
    ensures
      var begun := BegunOf(s, read, worker, token, target, timeout, now);
      var call := CallOf(s, read, worker, token, target, timeout, now, context, answers);
      var t := Heard(s, n, read, worker, token, target, timeout, now, meanwhile);
      var opening := Opening(s, n, read, worker, token, target, timeout, now);
      if Hears(s, read, worker, token, target, timeout, now, context, answers)
      then
        && opening + [Submit(n)] + meanwhile <= acts && Path(s, acts).wire == t.wire
        && Next(Path(s, opening), Submit(n)).wire == s.wire + Sent(begun.1.target.url, read.run.key, call.posts, n)
        && Path(s, acts).w.db == RemoteExecutor.Answered(t.w.db, read.run, worker, token, begun.1, answers).db
        && (t.w.db == begun.0.db ==> Path(s, acts).w.db == call.db)
      else
        && Path(s, acts).w.db == call.db
        && Path(s, acts).wire == s.wire + Sent(begun.1.target.url, read.run.key, call.posts, n)
  {
    hide Goes, Path, RemoteExecutor.Begun, RemoteExecutor.Polled, RemoteExecutor.Answered, GetExternalJob, EventOf,
         Sent,
         Opening, Next, Possible, Aside, Works;
    var begun := BegunOf(s, read, worker, token, target, timeout, now);
    BegunIsPath(s, n, read, worker, token, target, timeout, now);
    acts := Opening(s, n, read, worker, token, target, timeout, now);
    var t := Path(s, acts);
    var run, job, event := read.run, begun.1, EventOf(s.w.db, read.run.key);
    assert Sent(job.target.url, run.key, [], n) == {} by { SentOnce(job.target.url, run.key, Request(map[], None), n); }
    if RemoteExecutor.Submits(begun, event, context) {
      SentOnce(job.target.url, run.key, Payload(job.target.body, event).value, n);
      if answers != [] && answers[0].response.Some? {
        var rest := SubmittedIsPath(t, n, run, worker, token, job, answers, meanwhile);
        PathJoins(s, acts, rest);
        acts := acts + rest;
      } else {
        SubmitNext(t, n, run, worker, token, job);
        OneStep(t, Submit(n));
        PathJoins(s, acts, [Submit(n)]);
        Unanswered(t.w.db, run, worker, token, job, answers);
        acts := acts + [Submit(n)];
      }
    } else if begun.0.err.None? && PhaseOf(job) == Tracking && context == RemoteExecutor.Live
      && Submittable(job.target) {
      RemoteExecutor.NoPostWhilePolling(t.w.db, run, worker, token, job, answers);
      var rest := PolledIsPath(t, n, run, worker, token, job, answers);
      PathJoins(s, acts, rest);
      acts := acts + rest;
    }
  }

  lemma Unanswered(db: Db, run: Run, worker: WorkerId, token: Token, job: ExternalJob,
                   answers: seq<RemoteExecutor.Answer>)
    requires answers == [] || answers[0].response.None?
    ensures RemoteExecutor.Answered(db, run, worker, token, job, answers).db == db
  {
  }
}
