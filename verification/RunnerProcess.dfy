/** The runner as a running process: its locked methods over the job map and the state file, proved against
    the steps of module Runner, and the deliver loop as one uninterrupted call. */
module RunnerProcess {
  import opened Domain
  import opened Runner
  import opened RunnerProofs
  import opened RunnerPaths

  /** What giving up makes of a delivery: unknown when an earlier process was cut off while sending, else failed. */
  function Abandoned(job: Job): DeliveryStatus
    requires HasDelivery(job)
  {
    if job.request.channel == Native && DeliveryOf(job).status == DSending then DUnknown else DFailed
  }

  /** How a delivery ends after these sends. On a native channel only a rate limit is tried again, a refusal has failed,
      and what may have arrived is unknown, as is a send that an earlier process was cut off in; elsewhere everything is
      tried again until an answer comes that is not a failure. A delivery fails for want of attempts only when they are
      used up. */
  predicate Verdict(channel: Channel, d: Delivery, sent: seq<Send>, end: DeliveryStatus) {
    var usedUp := d.attempts + |sent| >= 3;
    if sent == [] then
      if channel == Native && d.status == DSending then end == DUnknown else end == DFailed && usedUp
    else
      var last, tried := sent[|sent| - 1], sent[..|sent| - 1];
      if channel == Native then
        && (forall send | send in tried :: send == RateLimited)
        && match last
           case Delivered => end == DSent
           case RateLimited => end == DFailed && usedUp
           case Rejected4xx => end == DFailed
           case _ => end == DUnknown
      else
        && (forall send | send in tried :: send in {RateLimited, Rejected4xx, Rejected5xx, TransportFailed})
        && if last in {Delivered, Undecodable} then end == DSent else end == DFailed && usedUp
  }

  lemma NothingHard()
    ensures Hard([]) == 0
  {
  }

  lemma LoadRefuses(file: map<JobId, StoredJob>, id: JobId)
    requires |file| > MAX_JOBS || (id in file && (id != file[id].job.id || file[id].fingerprint == ""))
    ensures Load(file).None?
  {
  }

  lemma LoadAccepts(file: map<JobId, StoredJob>, loaded: map<JobId, Job>)
    requires |file| <= MAX_JOBS && loaded.Keys == file.Keys
    requires forall id | id in file ::
               id == file[id].job.id && file[id].fingerprint != "" && loaded[id] == Entry(file[id])
    ensures Load(file) == Some(loaded)
  {
    hide Entry;
    assert loaded == map id | id in file :: Entry(file[id]);
  }

  lemma SubmitCases(s: State, id: JobId, url: string, task: Task, fingerprint: string, write: Write)
    ensures
      var reply, t := SubmitReply(s, id, task, fingerprint, write), Submit(s, id, url, task, fingerprint, write);
      var jobs := s.jobs[id := Job(id, url, JQueued, None, task, fingerprint)];
      if s.closed then reply == ShuttingDown && t == s
      else if id in s.jobs && s.jobs[id].fingerprint != fingerprint then reply == Conflicting && t == s
      else if id in s.jobs then reply == Existing && t == s.(acked := s.acked + {id})
      else if |s.jobs| >= MAX_JOBS then reply == AtCapacity && t == s
      else if write == Confirmed then
        reply == Accepted
        && t == s.(jobs := jobs, file := FileOf(jobs), handing := s.handing + {id}, acked := s.acked + {id})
      else reply == NotRecorded && t == s.(file := if write == FailedBefore then s.file else FileOf(jobs))
  {
    hide FileOf;
  }

  class Process {
    var jobs: map<JobId, Job>
    var file: map<JobId, StoredJob>
    var queue: seq<JobId>
    var handing: set<JobId>
    var closed: bool

    /** The process as the step functions see it, with what its workers and its history are given as. */
    function View(working: map<WorkerNo, Work>, acked: set<JobId>, sends: map<JobId, seq<Send>>): State
      reads this
    {
      State(jobs, file, queue, handing, working, closed, acked, sends)
    }

    constructor (disk: map<JobId, StoredJob>)
      ensures jobs == map[] && file == disk && queue == [] && handing == {} && closed
    {
      jobs, file, queue, handing, closed := map[], disk, [], {}, true;
    }

    method LoadFile() returns (ok: bool)
      modifies this`jobs
      ensures ok == Load(file).Some?
      ensures jobs == if ok then Load(file).value else old(jobs)
    {
      hide Entry, Load;
      if |file| > MAX_JOBS {
        LoadRefuses(file, "");
        return false;
      }
      var loaded: map<JobId, Job> := map[];
      var todo := file.Keys;
      while todo != {}
        invariant todo <= file.Keys && loaded.Keys == file.Keys - todo
        invariant forall id | id in loaded ::
                    id == file[id].job.id && file[id].fingerprint != "" && loaded[id] == Entry(file[id])
      {
        var id :| id in todo;
        if id != file[id].job.id || file[id].fingerprint == "" {
          LoadRefuses(file, id);
          return false;
        }
        loaded := loaded[id := Entry(file[id])];
        todo := todo - {id};
      }
      LoadAccepts(file, loaded);
      jobs := loaded;
      return true;
    }

    /** Every unfinished job goes into the queue once, and the channel is large enough for all of them. */
    method Requeue()
      requires queue == [] && |jobs| <= MAX_JOBS
      modifies this`queue
      ensures ResumeOrder(jobs, queue) && |queue| <= MAX_JOBS
    {
      var todo := jobs.Keys;
      while todo != {}
        invariant todo <= jobs.Keys
        invariant forall i, j | 0 <= i < j < |queue| :: queue[i] != queue[j]
        invariant forall id | id in queue :: id in jobs && Resumable(jobs[id]) && id !in todo
        invariant forall id | id in jobs && Resumable(jobs[id]) && id !in todo :: id in queue
        invariant |queue| + |todo| <= |jobs.Keys|
      {
        var id :| id in todo;
        if Resumable(jobs[id]) {
          assert id !in queue;
          queue := queue + [id];
        }
        todo := todo - {id};
      }
      assert |jobs.Keys| == |jobs|;
    }

    /** newRunner on an existing state directory. */
    method Start() returns (ok: bool)
      requires closed && jobs == map[] && queue == [] && handing == {}
      modifies this
      ensures ok == Load(old(file)).Some?
      ensures ok ==> View(map[], {}, map[]) == Restart(old(View(map[], {}, map[])), queue) && ResumeOrder(jobs, queue)
    {
      hide Load, ResumeOrder;
      ok := LoadFile();
      if !ok { return; }
      LoadedFacts(file);
      assert |jobs| <= MAX_JOBS;
      Requeue();
      closed := false;
    }

    /** Writes a replacement file from the map in memory; the caller rolls back when told that it failed. */
    method PersistLocked(write: Write) returns (ok: bool)
      modifies this`file
      ensures ok == (write == Confirmed)
      ensures file == if write == FailedBefore then old(file) else FileOf(jobs)
    {
      var state: map<JobId, StoredJob> := map[];
      var todo := jobs.Keys;
      while todo != {}
        invariant todo <= jobs.Keys && state.Keys == jobs.Keys - todo
        invariant forall id | id in state :: state[id] == Store(jobs[id])
      {
        var id :| id in todo;
        state := state[id := Store(jobs[id])];
        todo := todo - {id};
      }
      assert state == FileOf(jobs);
      if write != FailedBefore { file := state; }
      ok := write == Confirmed;
    }

    /** One recorded change, or none at all in memory. */
    method Update(id: JobId, next: Job, write: Write) returns (ok: bool)
      modifies this`jobs, this`file
      ensures ok == (!closed && id in old(jobs) && write == Confirmed)
      ensures jobs == if ok then old(jobs)[id := next] else old(jobs)
      ensures file == if closed || id !in jobs || write == FailedBefore then old(file)
              else FileOf(old(jobs)[id := next])
    {
      if closed || id !in jobs { return false; }
      var previous := jobs[id];
      jobs := jobs[id := next];
      ok := PersistLocked(write);
      if !ok {
        jobs := jobs[id := previous];
        assert jobs == old(jobs);
      }
    }

    method SubmitJob(id: JobId, url: string, task: Task, fingerprint: string, write: Write) returns (reply: Reply)
      modifies this
      ensures reply == old(SubmitReply(View(map[], {}, map[]), id, task, fingerprint, write))
      ensures View(map[], if reply == Accepted || reply == Existing then {id} else {}, map[])
              == Submit(old(View(map[], {}, map[])), id, url, task, fingerprint, write)
    {
      hide FileOf, Submit, SubmitReply;
      SubmitCases(View(map[], {}, map[]), id, url, task, fingerprint, write);
      if closed { return ShuttingDown; }
      if id in jobs {
        if jobs[id].fingerprint != fingerprint { return Conflicting; }
        return Existing;
      }
      if |jobs| >= MAX_JOBS { return AtCapacity; }
      jobs := jobs[id := Job(id, url, JQueued, None, task, fingerprint)];
      var ok := PersistLocked(write);
      if !ok {
        jobs := jobs - {id};
        assert jobs == old(jobs);
        return NotRecorded;
      }
      handing := handing + {id};
      return Accepted;
    }

    /** The fields of the process are those of a state of the whole runner. */
    predicate Shows(s: State)
      reads this
    {
      s.jobs == jobs && s.file == file && s.queue == queue && s.handing == handing && s.closed == closed
    }

    /** While the lock is free, others make their moves. */
    method Yield(s: State, moves: seq<Move>, ghost worker: WorkerNo) returns (t: State)
      requires Goes(s, moves) && AllByOthers(moves, worker) && worker in s.working
      requires Shows(s) && Ok(s)
      modifies this
      ensures Shows(t) && Ok(t) && t == Path(s, moves) && Kept(s, t, worker)
      ensures !s.closed && (forall m | m in moves :: !m.Closing?) ==> !t.closed
      ensures moves == [] ==> t == s
    {
      hide Ok, Path, Kept, Goes, Can, Moved;
      OthersKeep(s, moves, worker);
      t := Path(s, moves);
      jobs, file, queue, handing, closed := t.jobs, t.file, t.queue, t.handing, t.closed;
      if !s.closed && forall m | m in moves :: !m.Closing? { StaysOpen(s, moves); }
      NoMoves(s);
    }

    /** update, called by a worker that goes on to `next` if the change is recorded. */
    method Record(s: State, worker: WorkerNo, job: Job, write: Write, next: Pc) returns (ok: bool, t: State)
      requires worker in s.working && s.working[worker].id in s.jobs && Shows(s)
      modifies this`jobs, this`file
      ensures Shows(t) && t == Updated(s, worker, job, write, Some(next))
      ensures ok == (!s.closed && write == Confirmed)
    {
      hide FileOf;
      ok := Update(s.working[worker].id, job, write);
      t := Updated(s, worker, job, write, Some(next));
    }

    /** The last word on a delivery that is not to be sent again. */
    method GiveUp(s: State, worker: WorkerNo, write: Write) returns (ok: bool, t: State)
      requires At(s, worker, Deciding) && Shows(s) && GivesUp(s, worker)
      requires Ok(s)
      modifies this`jobs, this`file
      ensures Shows(t) && Ok(t) && Can(s, Decides(worker, write)) && t == Moved(s, Decides(worker, write))
      ensures ok == (!s.closed && write == Confirmed) && GivenUp(s, t, worker, ok)
    {
      hide Ok, Updated, Path, Goes, GivenUp, OnlyDelivery;
      var id := s.working[worker].id;
      var job := jobs[id];
      var d := DeliveryOf(job);
      var last := if job.request.channel == Native && d.status == DSending
        then d.(status := DUnknown, lastError := RESTARTED)
        else d.(status := DFailed, lastError := if d.lastError == "" then UNCONFIRMED else d.lastError);
      MoveOk(s, Decides(worker, write));
      UpdatedFacts(s, worker, WithDelivery(job, last), write, Finishing);
      ok, t := Record(s, worker, WithDelivery(job, last), write, Finishing);
      LastWord(s, t, worker, last, ok);
    }

    /** The attempt is counted, and on a native channel marked, before anything is sent. */
    method MarkSend(s: State, worker: WorkerNo, write: Write) returns (ok: bool, t: State, ghost marked: Job)
      requires At(s, worker, Deciding) && Shows(s) && !GivesUp(s, worker)
      requires s.working[worker].id in s.jobs && HasDelivery(s.jobs[s.working[worker].id])
      requires Ok(s)
      modifies this`jobs, this`file
      ensures Shows(t) && Ok(t) && Can(s, Decides(worker, write)) && t == Moved(s, Decides(worker, write))
      ensures t.sends == s.sends && t.closed == s.closed && ok == (!s.closed && write == Confirmed)
      ensures HasDelivery(marked) && SameButDelivery(s.jobs[s.working[worker].id], marked)
      ensures DeliveryOf(marked).attempts == DeliveryOf(s.jobs[s.working[worker].id]).attempts + 1
      ensures if ok
              then t.jobs == s.jobs[s.working[worker].id := marked] && At(t, worker, Sending)
                   && t.working[worker].id == s.working[worker].id
              else t.jobs == s.jobs && worker !in t.working
    {
      hide Ok, Updated, Path, Goes;
      var job := jobs[s.working[worker].id];
      var d := DeliveryOf(job);
      var next := WithDelivery(job, d.(status := if job.request.channel == Native then DSending else DPending,
        attempts := d.attempts + 1));
      marked := next;
      MoveOk(s, Decides(worker, write));
      UpdatedFacts(s, worker, next, write, Sending);
      ok, t := Record(s, worker, next, write, Sending);
    }

    /** The outcome is recorded, unless the process is being stopped. */
    method RecordAnswer(s: State, worker: WorkerNo, outcome: Send, write: Write, ended: bool)
      returns (ok: bool, t: State, ghost move: Move)
      requires At(s, worker, Concluding(outcome)) && Shows(s)
      requires s.working[worker].id in s.jobs && HasDelivery(s.jobs[s.working[worker].id])
      requires Ok(s)
      modifies this`jobs, this`file
      ensures Shows(t) && Ok(t) && Can(s, move) && t == Moved(s, move)
      ensures t.sends == s.sends && t.closed == s.closed && ok == (!s.closed && !ended && write == Confirmed)
      ensures
        var id := s.working[worker].id;
        var channel := s.jobs[id].request.channel;
        var answered := Answered(DeliveryOf(s.jobs[id]), channel, outcome);
        if ok
        then t.jobs == s.jobs[id := WithDelivery(s.jobs[id], answered)] && worker in t.working
             && t.working[worker] == Work(id, if answered.status == DPending then Deciding else Finishing)
        else t.jobs == s.jobs && worker !in t.working
    {
      hide Ok, Updated, StatusAfter;
      var id := s.working[worker].id;
      var answered := Answered(DeliveryOf(jobs[id]), jobs[id].request.channel, outcome);
      var next := if answered.status == DPending then Deciding else Finishing;
      if ended {
        move := Leaves(worker);
        ok, t := false, Left(s, worker);
      } else {
        move := Concludes(worker, write);
        UpdatedFacts(s, worker, WithDelivery(jobs[id], answered), write, next);
        ok, t := Record(s, worker, WithDelivery(jobs[id], answered), write, next);
      }
      MoveOk(s, move);
    }

    /** The send itself: others move while it is under way, and before its outcome is recorded. */
    method Transmit(s: State, worker: WorkerNo, outcome: Send, during: State -> seq<Move>, after: State -> seq<Move>)
      returns (t: State, ghost made: seq<Move>)
      requires At(s, worker, Sending) && Shows(s) && s.working[worker].id in s.jobs
      requires Plays(during, worker) && Plays(after, worker)
      requires Ok(s)
      modifies this
      ensures Shows(t) && Ok(t) && Goes(s, made) && t == Path(s, made)
      ensures At(t, worker, Concluding(outcome)) && t.working[worker].id == s.working[worker].id
      ensures
        var id := s.working[worker].id;
        id in t.jobs && t.jobs[id] == s.jobs[id] && SendsOf(t, id) == SendsOf(s, id) + [outcome]
      ensures Idle(during) && Idle(after) ==> t.jobs == s.jobs
      ensures !s.closed && NeverCloses(during) && NeverCloses(after) ==> !t.closed
    {
      hide Ok, Path, Goes, Plays, NeverCloses, Idle, Can, Moved, Kept, SendOut, SendsOf;
      PlaysAt(during, worker, s);
      t := Yield(s, during(s), worker);
      KeptMeans(s, t, worker);
      if Idle(during) { IdleAt(during, s); }
      made := during(s);
      SendFacts(t, worker, outcome);
      OneMoveMore(s, made, Sends(worker, outcome));
      made := made + [Sends(worker, outcome)];
      ghost var sending := t;
      t := SendOut(t, worker, outcome);
      SameShown(sending, t);
      PlaysAt(after, worker, t);
      ghost var answered := t;
      t := Yield(t, after(t), worker);
      KeptMeans(answered, t, worker);
      if Idle(after) { IdleAt(after, answered); }
      PathJoins(s, made, after(answered));
      made := made + after(answered);
    }

    /** The wait before the next attempt, unless the context ends. */
    method Pause(s: State, worker: WorkerNo, ended: bool, others: State -> seq<Move>)
      returns (t: State, ghost made: seq<Move>)
      requires worker in s.working && s.working[worker].id in s.jobs && Shows(s) && Plays(others, worker)
      requires Ok(s)
      modifies this
      ensures Shows(t) && Ok(t) && Goes(s, made) && t == Path(s, made)
      ensures
        var id := s.working[worker].id;
        id in t.jobs && t.jobs[id] == s.jobs[id] && SendsOf(t, id) == SendsOf(s, id)
      ensures if ended then worker !in t.working else worker in t.working && t.working[worker] == s.working[worker]
      ensures Idle(others) ==> t.jobs == s.jobs
      ensures !s.closed && NeverCloses(others) ==> !t.closed
    {
      hide Ok, Path, Goes, Plays, NeverCloses, Idle, Can, Moved, Kept, SendsOf, Left;
      PlaysAt(others, worker, s);
      t := Yield(s, others(s), worker);
      KeptMeans(s, t, worker);
      if Idle(others) { IdleAt(others, s); }
      made := others(s);
      if ended {
        ghost var there := t;
        LeavesOk(t, worker);
        SameSends(t, Left(t, worker), s.working[worker].id);
        OneMoveMore(s, made, Leaves(worker));
        made := made + [Leaves(worker)];
        t := Left(t, worker);
        SameShown(there, t);
      }
    }

    /** Mark, send, record. */
    method SendOnce(s: State, worker: WorkerNo, outcome: Send, mark: Write, record: Write, ended: bool,
                     during: State -> seq<Move>, after: State -> seq<Move>)
      returns (ok: bool, gone: bool, t: State, ghost made: seq<Move>)
      requires At(s, worker, Deciding) && Shows(s) && Delivers(s, worker) && !GivesUp(s, worker)
      requires Plays(during, worker) && Plays(after, worker)
      requires Ok(s)
      modifies this
      ensures Shows(t) && Ok(t) && Goes(s, made) && t == Path(s, made)
      ensures Rounded(s, t, worker, outcome, ok, gone) && (ok ==> gone)
      ensures Idle(during) && Idle(after) ==> OnlyDelivery(s.jobs, t.jobs, s.working[worker].id)
      ensures !s.closed && !ended && mark == Confirmed && record == Confirmed && NeverCloses(during)
              && NeverCloses(after)
              ==> ok && !t.closed
    {
      hide Ok, Path, Goes, Shows, Plays, NeverCloses, Idle, OnlyDelivery, SameButDelivery, StatusAfter, Can, Moved,
           Decide,
           DeliveryOf, FileOf, GivesUp, Rounded;
      var id := s.working[worker].id;
      ghost var marked;
      ok, t, marked := MarkSend(s, worker, mark);
      OneMove(s, Decides(worker, mark));
      made := [Decides(worker, mark)];
      gone := ok;
      if !ok {
        NotMarked(s, t, worker, outcome);
        return;
      }
      ghost var first, more, move := t, [], Closing;
      t, more := Transmit(t, worker, outcome, during, after);
      PathJoins(s, made, more);
      made := made + more;
      ghost var answered := t;
      ok, t, move := RecordAnswer(t, worker, outcome, record, ended);
      OneMoveMore(s, made, move);
      made := made + [move];
      AnswerRounds(s, answered, t, worker, marked, outcome, ok);
    }

    /** One round of the loop: a send, and the wait that follows when it is to be tried again. */
    method SendRound(s: State, worker: WorkerNo, outcome: Send, mark: Write, record: Write, ended: bool, stopped: bool,
                     during: State -> seq<Move>, after: State -> seq<Move>, waiting: State -> seq<Move>)
      returns (ok: bool, gone: bool, t: State, ghost made: seq<Move>)
      requires At(s, worker, Deciding) && Shows(s) && Delivers(s, worker) && !GivesUp(s, worker)
      requires Plays(during, worker) && Plays(after, worker) && Plays(waiting, worker)
      requires Ok(s)
      modifies this
      ensures Shows(t) && Ok(t) && Goes(s, made) && t == Path(s, made)
      ensures Rounded(s, t, worker, outcome, ok, gone)
      ensures Idle(during) && Idle(after) && Idle(waiting) ==> OnlyDelivery(s.jobs, t.jobs, s.working[worker].id)
      ensures !s.closed && !ended && !stopped && mark == Confirmed && record == Confirmed ==>
                NeverCloses(during) && NeverCloses(after) && NeverCloses(waiting) ==> ok && !t.closed
    {
      hide Ok, Path, Goes, Shows, Plays, NeverCloses, Idle, OnlyDelivery, Rounded, GivesUp, DeliveryOf;
      ok, gone, t, made := SendOnce(s, worker, outcome, mark, record, ended, during, after);
      if ok && StatusOf(t, s.working[worker].id) == DPending {
        ghost var tried, more := t, [];
        RoundedMeans(s, t, worker, outcome);
        t, more := Pause(t, worker, stopped, waiting);
        PathJoins(s, made, more);
        made := made + more;
        PausedRound(s, tried, t, worker, outcome, !stopped);
        ok := !stopped;
      }
    }

    /** The deliver loop for one job, as one worker runs it. Between the critical sections, handlers, the other
        workers and the shutdown make any moves they can; `ends` says when the context has ended. The call is a
        path of the runner's moves. */
    method Deliver(s: State, worker: WorkerNo, outcomes: nat -> Send, writes: nat -> Write, ends: nat -> bool,
                   others: nat -> State -> seq<Move>)
      returns (ok: bool, sent: seq<Send>, t: State, ghost made: seq<Move>)
      requires At(s, worker, Deciding) && Shows(s)
      requires forall k :: Plays(others(k), worker)
      requires Ok(s)
      modifies this
      ensures Shows(t) && Ok(t) && Goes(s, made) && t == Path(s, made)
      ensures Delivers(s, worker) && CarriedOut(s, t, worker, sent, outcomes)
      ensures if ok
              then At(t, worker, Finishing) && t.working[worker].id == s.working[worker].id
                   && Judged(s, t, worker, sent)
              else worker !in t.working
      ensures (forall k :: Idle(others(k))) ==> OnlyDelivery(s.jobs, t.jobs, s.working[worker].id)
      ensures !s.closed && (forall k :: writes(k) == Confirmed && !ends(k) && NeverCloses(others(k))) ==> ok
    {
      hide Judged, Ok, Path, Goes, Plays, NeverCloses, Idle, OnlyDelivery, Can, Moved, Decide, DeliveryOf, FileOf, Kept,
           Rounded,
           GivenUp, InLoop, CarriedOut, GivesUp, Abandoned, HasDelivery, SendsOf, Left, Delivers, Shows;
      ghost var idle := forall k :: Idle(others(k));
      ghost var steady := !s.closed && forall k :: writes(k) == Confirmed && !ends(k) && NeverCloses(others(k));
      WorkerDelivers(s, worker);
      NoMoves(s);
      LoopStarts(s, worker, outcomes);
      FirstOnly(s, worker);
      sent, t, made := [], s, [];
      while true
        invariant InLoop(s, t, worker, sent, outcomes) && Delivers(t, worker)
        invariant Shows(t) && Ok(t) && Goes(s, made) && t == Path(s, made)
        invariant idle ==> OnlyDelivery(s.jobs, t.jobs, s.working[worker].id)
        invariant steady ==> !t.closed
        decreases MAX_DELIVERIES - AttemptsOf(t, worker)
      {
        ghost var was := t;
        var k := |sent|;
        LoopMeans(s, t, worker, sent, outcomes);
        if GivesUp(t, worker) {
          ok, t := GiveUp(t, worker, writes(2 * k));
          OneMoveMore(s, made, Decides(worker, writes(2 * k)));
          made := made + [Decides(worker, writes(2 * k))];
          EndsGivenUp(s, was, t, worker, sent, outcomes, ok);
          return;
        }
        var gone;
        ghost var more;
        ok, gone, t, more := SendRound(t, worker, outcomes(k), writes(2 * k), writes(2 * k + 1), ends(2 * k),
          ends(2 * k + 1), others(3 * k), others(3 * k + 1), others(3 * k + 2));
        PathJoins(s, made, more);
        made := made + more;
        RoundOn(s, was, t, worker, sent, outcomes, ok, gone);
        if OnlyDelivery(was.jobs, t.jobs, s.working[worker].id)
          && OnlyDelivery(s.jobs, was.jobs, s.working[worker].id) {
          OnlyOn(s.jobs, was.jobs, t.jobs, s.working[worker].id);
        }
        if gone { sent := sent + [outcomes(k)]; }
        if !ok || StatusOf(t, s.working[worker].id) != DPending { return; }
        LoopMeans(s, t, worker, sent, outcomes);
      }
    }

    /** The fields of two states that show in the process are the same. */
    lemma SameShown(s: State, t: State)
      requires Shows(s) && t.jobs == s.jobs && t.file == s.file && t.queue == s.queue && t.handing == s.handing
      requires t.closed == s.closed
      ensures Shows(t)
    {
    }
  }

  /** The head of the deliver loop ends it: an earlier process was cut off, or the attempts are used up. */
  predicate GivesUp(s: State, worker: WorkerNo) {
    && worker in s.working && s.working[worker].id in s.jobs && HasDelivery(s.jobs[s.working[worker].id])
    && var job := s.jobs[s.working[worker].id];
       (job.request.channel == Native && DeliveryOf(job).status == DSending)
       || DeliveryOf(job).attempts >= MAX_DELIVERIES
  }

  /** The worker's job has a report with a delivery. */
  predicate Delivers(s: State, worker: WorkerNo) {
    worker in s.working && s.working[worker].id in s.jobs && HasDelivery(s.jobs[s.working[worker].id])
  }

  function AttemptsOf(s: State, worker: WorkerNo): nat
    requires Delivers(s, worker)
  {
    DeliveryOf(s.jobs[s.working[worker].id]).attempts
  }

  /** The status of a job's delivery; pending if there is none. */
  function StatusOf(s: State, id: JobId): DeliveryStatus {
    if id in s.jobs && HasDelivery(s.jobs[id]) then DeliveryOf(s.jobs[id]).status else DPending
  }

  /** What a delivery loop leaves, however it ends: its sends are those of the outcomes it met, every one but the
      last to be tried again; it counted an attempt for each, within the limit; on a native channel at most one send
      met anything but a rate limit, and none followed one that was cut off earlier. Of its job only the delivery
      has changed. */
  predicate CarriedOut(s: State, t: State, worker: WorkerNo, sent: seq<Send>, outcomes: nat -> Send)
    requires Delivers(s, worker)
  {
    var id := s.working[worker].id;
    var job := s.jobs[id];
    && id in t.jobs && SameButDelivery(job, t.jobs[id]) && SendsOf(t, id) == SendsOf(s, id) + sent
    && DeliveryOf(t.jobs[id]).attempts >= DeliveryOf(job).attempts + |sent|
    && (DeliveryOf(job).attempts + |sent| <= MAX_DELIVERIES || sent == [])
    && (forall i | 0 <= i < |sent| ::
          sent[i] == outcomes(i) && (i + 1 < |sent| ==> StatusAfter(job.request.channel, sent[i]) == DPending))
    && (job.request.channel == Native ==> Hard(sent) <= 1)
    && (job.request.channel == Native && DeliveryOf(job).status == DSending ==> sent == [])
  }

  /** The delivery has its verdict. */
  predicate Judged(s: State, t: State, worker: WorkerNo, sent: seq<Send>)
    requires Delivers(s, worker)
  {
    var id := s.working[worker].id;
    && id in t.jobs && HasDelivery(t.jobs[id])
    && Verdict(s.jobs[id].request.channel, DeliveryOf(s.jobs[id]), sent, DeliveryOf(t.jobs[id]).status)
  }

  /** The loop is about to decide again. */
  predicate InLoop(s: State, t: State, worker: WorkerNo, sent: seq<Send>, outcomes: nat -> Send)
    requires Delivers(s, worker)
  {
    var id := s.working[worker].id;
    var job := s.jobs[id];
    && CarriedOut(s, t, worker, sent, outcomes) && At(t, worker, Deciding) && t.working[worker].id == id
    && DeliveryOf(t.jobs[id]).attempts == DeliveryOf(job).attempts + |sent|
    && (forall i | 0 <= i < |sent| :: StatusAfter(job.request.channel, sent[i]) == DPending)
    && (job.request.channel == Native ==> Hard(sent) == 0)
    && DeliveryOf(t.jobs[id]).status == if sent == [] then DeliveryOf(job).status else DPending
  }

  /** What giving up does. */
  predicate GivenUp(s: State, t: State, worker: WorkerNo, ok: bool)
    requires Delivers(s, worker)
  {
    var id := s.working[worker].id;
    && t.sends == s.sends && OnlyDelivery(s.jobs, t.jobs, id) && SameButDelivery(s.jobs[id], t.jobs[id])
    && DeliveryOf(t.jobs[id]).attempts == DeliveryOf(s.jobs[id]).attempts
    && (ok ==> At(t, worker, Finishing) && t.working[worker].id == id
               && DeliveryOf(t.jobs[id]).status == Abandoned(s.jobs[id]))
    && (!ok ==> worker !in t.working)
  }

  /** What one round does: it sends once if the mark was recorded, and goes on if the outcome was. */
  predicate Rounded(s: State, t: State, worker: WorkerNo, outcome: Send, ok: bool, gone: bool)
    requires Delivers(s, worker)
  {
    var id := s.working[worker].id;
    && SendsOf(t, id) == SendsOf(s, id) + (if gone then [outcome] else [])
    && id in t.jobs && SameButDelivery(s.jobs[id], t.jobs[id])
    && DeliveryOf(t.jobs[id]).attempts == DeliveryOf(s.jobs[id]).attempts + (if gone then 1 else 0)
    && (ok ==>
          && gone && DeliveryOf(t.jobs[id]).status == StatusAfter(s.jobs[id].request.channel, outcome)
          && worker in t.working
          && t.working[worker] == Work(id, if DeliveryOf(t.jobs[id]).status == DPending then Deciding else Finishing))
    && (!ok ==> worker !in t.working)
  }

  /** How everyone else moves while one worker waits: possible moves, none of them that worker's. */
  ghost predicate Plays(others: State -> seq<Move>, worker: WorkerNo) {
    forall s :: Goes(s, others(s)) && AllByOthers(others(s), worker)
  }

  ghost predicate NeverCloses(others: State -> seq<Move>) { forall s, m | m in others(s) :: !m.Closing? }

  ghost predicate Idle(others: State -> seq<Move>) { forall s :: others(s) == [] }

  lemma NoMoves(s: State)
    ensures Goes(s, []) && Path(s, []) == s
  {
  }

  /** Two job maps that differ at most in the delivery of one job. */
  predicate OnlyDelivery(was: map<JobId, Job>, jobs: map<JobId, Job>, id: JobId) {
    && id in was && jobs.Keys == was.Keys && HasDelivery(was[id]) && HasDelivery(jobs[id])
    && (forall other | other in jobs && other != id :: jobs[other] == was[other])
    && WithDelivery(jobs[id], DeliveryOf(was[id])) == was[id]
  }

  /** The same job, its delivery aside. */
  predicate SameButDelivery(was: Job, job: Job) {
    HasDelivery(was) && HasDelivery(job) && WithDelivery(job, DeliveryOf(was)) == was
  }

  lemma PlaysAt(others: State -> seq<Move>, worker: WorkerNo, s: State)
    requires Plays(others, worker)
    ensures Goes(s, others(s)) && AllByOthers(others(s), worker)
    ensures NeverCloses(others) ==> forall m | m in others(s) :: !m.Closing?
  {
    hide Goes, Path;
  }

  lemma IdleAt(others: State -> seq<Move>, s: State)
    requires Idle(others)
    ensures others(s) == []
  {
  }

  lemma SendFacts(u: State, worker: WorkerNo, outcome: Send)
    requires At(u, worker, Sending)
    requires Ok(u)
    ensures
      var v := SendOut(u, worker, outcome);
      && v == u.(sends := v.sends, working := v.working) && At(v, worker, Concluding(outcome))
      && v.working[worker].id == u.working[worker].id && Ok(v)
      && SendsOf(v, u.working[worker].id) == SendsOf(u, u.working[worker].id) + [outcome]
    ensures Can(u, Sends(worker, outcome)) && Moved(u, Sends(worker, outcome)) == SendOut(u, worker, outcome)
  {
    hide Ok;
    MoveOk(u, Sends(worker, outcome));
  }

  lemma AnswerSame(job: Job, marked: Job, channel: Channel, outcome: Send)
    requires HasDelivery(job) && SameButDelivery(job, marked) && channel == marked.request.channel
    ensures
      var last := WithDelivery(marked, Answered(DeliveryOf(marked), channel, outcome));
      && job.request.channel == channel && SameButDelivery(job, last)
      && DeliveryOf(last).attempts == DeliveryOf(marked).attempts
      && DeliveryOf(last).status == StatusAfter(channel, outcome)
      && DeliveryOf(last) == Answered(DeliveryOf(marked), channel, outcome)
  {
  }

  lemma OnlyOne(was: map<JobId, Job>, jobs: map<JobId, Job>, id: JobId)
    requires id in was && id in jobs && jobs == was[id := jobs[id]] && SameButDelivery(was[id], jobs[id])
    ensures OnlyDelivery(was, jobs, id)
  {
  }

  lemma SameOn(was: Job, mid: Job, job: Job)
    requires SameButDelivery(was, mid) && SameButDelivery(mid, job)
    ensures SameButDelivery(was, job) && HasDelivery(job) && job.request == was.request
  {
  }

  lemma LeavesOk(s: State, worker: WorkerNo)
    requires worker in s.working
    requires Ok(s)
    ensures Ok(Left(s, worker)) && worker !in Left(s, worker).working && Left(s, worker).closed == s.closed
    ensures Left(s, worker) == s.(working := Left(s, worker).working)
    ensures Can(s, Leaves(worker)) && Moved(s, Leaves(worker)) == Left(s, worker)
  {
    hide Ok;
    MoveOk(s, Leaves(worker));
  }

  lemma FirstOnly(s: State, worker: WorkerNo)
    requires Delivers(s, worker)
    ensures OnlyDelivery(s.jobs, s.jobs, s.working[worker].id)
  {
    OnlyItself(s.jobs, s.working[worker].id);
  }

  lemma LoopStarts(s: State, worker: WorkerNo, outcomes: nat -> Send)
    requires Delivers(s, worker) && At(s, worker, Deciding)
    ensures InLoop(s, s, worker, [], outcomes)
  {
    NothingHard();
  }

  lemma LastWord(s: State, t: State, worker: WorkerNo, last: Delivery, ok: bool)
    requires Delivers(s, worker) && t.sends == s.sends
    requires
      var id := s.working[worker].id;
      && last.attempts == DeliveryOf(s.jobs[id]).attempts && last.status == Abandoned(s.jobs[id])
      && if ok
         then t.jobs == s.jobs[id := WithDelivery(s.jobs[id], last)] && At(t, worker, Finishing)
              && t.working[worker].id == id
         else t.jobs == s.jobs && worker !in t.working
    ensures GivenUp(s, t, worker, ok)
  {
    var id := s.working[worker].id;
    if ok {
      OnlyOne(s.jobs, t.jobs, id);
    } else {
      OnlyItself(s.jobs, id);
      SameItself(s.jobs[id]);
    }
  }

  lemma LoopMeans(s: State, t: State, worker: WorkerNo, sent: seq<Send>, outcomes: nat -> Send)
    requires Delivers(s, worker) && InLoop(s, t, worker, sent, outcomes)
    ensures At(t, worker, Deciding) && Delivers(t, worker) && t.working[worker].id == s.working[worker].id
    ensures HasDelivery(t.jobs[s.working[worker].id])
    ensures AttemptsOf(t, worker) == DeliveryOf(t.jobs[s.working[worker].id]).attempts
    ensures !GivesUp(t, worker) ==> AttemptsOf(t, worker) < MAX_DELIVERIES
  {
    hide StatusAfter, Hard;
  }

  lemma EndsGivenUp(s: State, was: State, t: State, worker: WorkerNo, sent: seq<Send>, outcomes: nat -> Send, ok: bool)
    requires Delivers(s, worker) && InLoop(s, was, worker, sent, outcomes)
    requires Delivers(was, worker) && GivenUp(was, t, worker, ok) && GivesUp(was, worker)
    ensures CarriedOut(s, t, worker, sent, outcomes)
    ensures ok ==> Judged(s, t, worker, sent)
    ensures ok ==> At(t, worker, Finishing) && t.working[worker].id == s.working[worker].id
    ensures !ok ==> worker !in t.working
    ensures OnlyDelivery(s.jobs, was.jobs, s.working[worker].id) ==> OnlyDelivery(s.jobs, t.jobs, s.working[worker].id)
  {
    hide StatusAfter, Hard;
    var id := s.working[worker].id;
    SameOn(s.jobs[id], was.jobs[id], t.jobs[id]);
    if OnlyDelivery(s.jobs, was.jobs, id) { OnlyOn(s.jobs, was.jobs, t.jobs, id); }
    UsedUp(s.jobs[id].request.channel, DeliveryOf(s.jobs[id]), sent);
    hide OnlyDelivery, SameButDelivery;
  }

  /** Every send was to be tried again, and no attempt is left. */
  lemma UsedUp(channel: Channel, d: Delivery, sent: seq<Send>)
    requires forall i | 0 <= i < |sent| :: StatusAfter(channel, sent[i]) == DPending
    ensures sent != [] && d.attempts + |sent| >= MAX_DELIVERIES ==> Verdict(channel, d, sent, DFailed)
  {
    if sent != [] {
      AllTried(channel, sent, |sent| - 1);
      AllTried(channel, sent, |sent|);
      assert sent[..|sent|] == sent;
    }
  }

  /** The last send settled it. */
  lemma LastAnswer(channel: Channel, d: Delivery, sent: seq<Send>, last: Send)
    requires forall i | 0 <= i < |sent| :: StatusAfter(channel, sent[i]) == DPending
    ensures StatusAfter(channel, last) != DPending ==> Verdict(channel, d, sent + [last], StatusAfter(channel, last))
  {
    assert (sent + [last])[..|sent|] == sent && sent[..|sent|] == sent;
    AllTried(channel, sent, |sent|);
  }

  /** What is tried again. */
  lemma AllTried(channel: Channel, sent: seq<Send>, n: nat)
    requires n <= |sent| && forall i | 0 <= i < n :: StatusAfter(channel, sent[i]) == DPending
    ensures forall send | send in sent[..n] ::
              if channel == Native then send == RateLimited
              else send in {RateLimited, Rejected4xx, Rejected5xx, TransportFailed}
  {
  }

  lemma RoundOn(s: State, was: State, t: State, worker: WorkerNo, sent: seq<Send>, outcomes: nat -> Send, ok: bool,
                gone: bool)
    requires Delivers(s, worker) && InLoop(s, was, worker, sent, outcomes) && !GivesUp(was, worker)
    requires Delivers(was, worker) && Rounded(was, t, worker, outcomes(|sent|), ok, gone)
    ensures
      var all := if gone then sent + [outcomes(|sent|)] else sent;
      var id := s.working[worker].id;
      && CarriedOut(s, t, worker, all, outcomes)
      && (ok && StatusOf(t, id) != DPending ==>
            && At(t, worker, Finishing) && t.working[worker].id == id
            && Judged(s, t, worker, all))
      && (ok && StatusOf(t, id) == DPending ==> InLoop(s, t, worker, all, outcomes))
      && (!ok ==> worker !in t.working)
      && (ok ==> Delivers(t, worker) && AttemptsOf(t, worker) == AttemptsOf(was, worker) + 1)
  {
    hide StatusAfter, Hard, SameButDelivery, Open;
    var id := s.working[worker].id;
    var channel := s.jobs[id].request.channel;
    SameOn(s.jobs[id], was.jobs[id], t.jobs[id]);
    SameRequest(s.jobs[id], was.jobs[id]);
    HardGrows(sent, outcomes(|sent|));
    HardAnswer(channel, outcomes(|sent|));
    LastAnswer(channel, DeliveryOf(s.jobs[id]), sent, outcomes(|sent|));
  }

  lemma SameRequest(was: Job, job: Job)
    requires SameButDelivery(was, job)
    ensures job.request == was.request && HasDelivery(was) && HasDelivery(job)
  {
  }

  lemma RoundedMeans(s: State, t: State, worker: WorkerNo, outcome: Send)
    requires Delivers(s, worker) && Rounded(s, t, worker, outcome, true, true)
    ensures worker in t.working && t.working[worker].id == s.working[worker].id && s.working[worker].id in t.jobs
  {
    hide StatusAfter, SameButDelivery;
  }

  lemma PausedRound(s: State, was: State, t: State, worker: WorkerNo, outcome: Send, ok: bool)
    requires Delivers(s, worker) && Rounded(s, was, worker, outcome, true, true)
    requires
      var id := s.working[worker].id;
      id in was.jobs && id in t.jobs && t.jobs[id] == was.jobs[id] && SendsOf(t, id) == SendsOf(was, id)
    requires worker in was.working
    requires if ok then worker in t.working && t.working[worker] == was.working[worker] else worker !in t.working
    ensures Rounded(s, t, worker, outcome, ok, true)
  {
    hide StatusAfter, SameButDelivery;
  }

  lemma NotMarked(s: State, t: State, worker: WorkerNo, outcome: Send)
    requires Delivers(s, worker) && t.jobs == s.jobs && t.sends == s.sends && worker !in t.working
    ensures Rounded(s, t, worker, outcome, false, false) && OnlyDelivery(s.jobs, t.jobs, s.working[worker].id)
  {
    SameItself(s.jobs[s.working[worker].id]);
    OnlyItself(s.jobs, s.working[worker].id);
    hide SameButDelivery, OnlyDelivery;
  }

  /** From the marked job to the round's result. */
  lemma AnswerRounds(s: State, was: State, t: State, worker: WorkerNo, marked: Job, outcome: Send, ok: bool)
    requires Delivers(s, worker) && HasDelivery(marked) && SameButDelivery(s.jobs[s.working[worker].id], marked)
    requires DeliveryOf(marked).attempts == DeliveryOf(s.jobs[s.working[worker].id]).attempts + 1
    requires
      var id := s.working[worker].id;
      && id in was.jobs && was.jobs[id] == marked && SendsOf(was, id) == SendsOf(s, id) + [outcome]
      && t.sends == was.sends
      && var answered := Answered(DeliveryOf(marked), marked.request.channel, outcome);
         if ok
         then t.jobs == was.jobs[id := WithDelivery(marked, answered)] && worker in t.working
              && t.working[worker] == Work(id, if answered.status == DPending then Deciding else Finishing)
         else t.jobs == was.jobs && worker !in t.working
    ensures Rounded(s, t, worker, outcome, ok, true)
    ensures was.jobs == s.jobs[s.working[worker].id := marked] ==>
              OnlyDelivery(s.jobs, t.jobs, s.working[worker].id)
  {
    hide StatusAfter;
    var id := s.working[worker].id;
    AnswerSame(s.jobs[id], marked, marked.request.channel, outcome);
    if was.jobs == s.jobs[id := marked] {
      assert t.jobs == s.jobs[id := t.jobs[id]];
      OnlyOne(s.jobs, t.jobs, id);
    }
    hide OnlyDelivery, SameButDelivery;
  }

  lemma KeptMeans(s: State, t: State, worker: WorkerNo)
    requires worker in s.working && s.working[worker].id in s.jobs && Kept(s, t, worker)
    ensures
      var id := s.working[worker].id;
      && worker in t.working && t.working[worker] == s.working[worker] && id in t.jobs && t.jobs[id] == s.jobs[id]
      && SendsOf(t, id) == SendsOf(s, id)
  {
  }

  lemma SameSends(s: State, t: State, id: JobId)
    requires t.sends == s.sends
    ensures SendsOf(t, id) == SendsOf(s, id)
  {
  }

  lemma WorkerDelivers(s: State, worker: WorkerNo)
    requires At(s, worker, Deciding)
    requires Ok(s)
    ensures Delivers(s, worker)
  {
    WorkerFacts(s, worker);
    hide Ok, Covered;
  }

  lemma SameItself(job: Job)
    requires HasDelivery(job)
    ensures SameButDelivery(job, job)
  {
  }

  lemma OnlyItself(jobs: map<JobId, Job>, id: JobId)
    requires id in jobs && HasDelivery(jobs[id])
    ensures OnlyDelivery(jobs, jobs, id)
  {
  }

  lemma OnlyOn(was: map<JobId, Job>, mid: map<JobId, Job>, jobs: map<JobId, Job>, id: JobId)
    requires OnlyDelivery(was, mid, id) && OnlyDelivery(mid, jobs, id)
    ensures OnlyDelivery(was, jobs, id) && id in jobs && HasDelivery(jobs[id])
  {
  }

  lemma HardAnswer(channel: Channel, outcome: Send)
    ensures channel == Native && outcome != RateLimited ==> StatusAfter(channel, outcome) != DPending
    ensures channel == Native && outcome == RateLimited ==> StatusAfter(channel, outcome) == DPending
  {
  }
}
