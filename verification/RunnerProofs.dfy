/** Durability, the queue bound and the delivery bound of the job runner, across any crashes and failing writes. */
module RunnerProofs {
  import opened Domain
  import opened Runner

  // ---------------------------------------------------------------- what holds at every moment

  /** The file always loads, holds every job in memory, and every acknowledged job is in memory. */
  ghost predicate Durable(s: State) {
    && WellKept(s.jobs)
    && Load(s.file).Some?
    && s.jobs.Keys <= s.file.Keys
    && s.acked <= s.jobs.Keys
  }

  /** A job id is waiting for its handler, queued, or with one worker: in one place, once. */
  ghost predicate Placed(s: State) {
    && (forall i, j | 0 <= i < j < |s.queue| :: s.queue[i] != s.queue[j])
    && (forall id | id in s.queue :: id in s.jobs && id !in s.handing)
    && s.handing <= s.jobs.Keys
    && (forall w | w in s.working :: s.working[w].id in s.jobs && s.working[w].id !in s.handing
         && s.working[w].id !in s.queue)
    && (forall v, w | v in s.working && w in s.working && s.working[v].id == s.working[w].id :: v == w)
  }

  /** Sends whose outcome is something other than a rate limit. */
  function Hard(sends: seq<Send>): nat {
    if sends == [] then 0
    else Hard(sends[..|sends| - 1]) + (if sends[|sends| - 1] == RateLimited then 0 else 1)
  }

  lemma HardGrows(sends: seq<Send>, outcome: Send)
    ensures Hard(sends + [outcome]) == Hard(sends) + (if outcome == RateLimited then 0 else 1)
  {
    assert (sends + [outcome])[..|sends|] == sends;
  }

  /** The attempts recorded with a job cover its sends; on a native channel nothing follows a
      send that may have arrived. */
  predicate Covered(job: Job, sends: seq<Send>) {
    && (HasDelivery(job) ==> |sends| <= DeliveryOf(job).attempts <= MAX_DELIVERIES)
    && (!HasDelivery(job) ==> sends == [])
    && (job.request.channel == Native ==> Hard(sends) <= 1)
    && (job.request.channel == Native && Hard(sends) == 1 ==> HasDelivery(job) && DeliveryOf(job).status != DPending)
  }

  predicate InSync(s: State, id: JobId) {
    id in s.jobs && id in s.file && Entry(s.file[id]) == s.jobs[id]
  }

  predicate PcOk(s: State, work: Work) {
    && work.id in s.jobs
    && var job := s.jobs[work.id];
       var sends := SendsOf(s, work.id);
       match work.pc
       case Reporting => job.result.None?
       case Deciding => HasDelivery(job) && Open(DeliveryOf(job))
       case Sending =>
         && InSync(s, work.id) && HasDelivery(job) && |sends| < DeliveryOf(job).attempts
         && (job.request.channel == Native ==> DeliveryOf(job).status == DSending && Hard(sends) == 0)
       case Concluding(outcome) =>
         && InSync(s, work.id) && HasDelivery(job)
         && (job.request.channel == Native ==>
               DeliveryOf(job).status == DSending && Hard(sends) == (if outcome == RateLimited then 0 else 1))
       case _ => true
  }

  ghost predicate Counted(s: State) {
    && (forall id | id in s.jobs :: Covered(s.jobs[id], SendsOf(s, id)))
    && (forall id | id in s.file :: Covered(Entry(s.file[id]), SendsOf(s, id)))
    && (forall id | id !in s.jobs :: SendsOf(s, id) == [])
    && (forall w | w in s.working :: PcOk(s, s.working[w]))
  }

  ghost predicate Ok(s: State) { Durable(s) && Placed(s) && Counted(s) }

  // ---------------------------------------------------------------- writes

  /** Every entry written is the job it was written from. */
  lemma FileEntries(jobs: map<JobId, Job>)
    ensures FileOf(jobs).Keys == jobs.Keys && forall id | id in jobs :: Entry(FileOf(jobs)[id]) == jobs[id]
  {
  }

  lemma FileDurable(jobs: map<JobId, Job>)
    requires WellKept(jobs)
    ensures Load(FileOf(jobs)).Some? && FileOf(jobs).Keys == jobs.Keys
  {
    LoadAfterPersist(jobs);
  }

  lemma StillWellKept(jobs: map<JobId, Job>, id: JobId, job: Job)
    requires WellKept(jobs) && id in jobs && job.id == id && job.fingerprint == jobs[id].fingerprint
    ensures WellKept(jobs[id := job]) && jobs[id := job].Keys == jobs.Keys
  {
    assert jobs[id := job].Keys == jobs.Keys;
    SameSize(jobs[id := job], jobs);
  }

  lemma UpdatedDurable(s: State, worker: WorkerNo, job: Job, write: Write, next: Option<Pc>)
    requires worker in s.working && Durable(s)
    requires var id := s.working[worker].id; id in s.jobs ==> job.id == id && job.fingerprint == s.jobs[id].fingerprint
    ensures Durable(Updated(s, worker, job, write, next))
  {
    hide Load, FileOf, WellKept;
    var id := s.working[worker].id;
    if id in s.jobs {
      StillWellKept(s.jobs, id, job);
      FileDurable(s.jobs[id := job]);
    }
  }

  lemma UpdatedPlaced(s: State, worker: WorkerNo, job: Job, write: Write, next: Option<Pc>)
    requires worker in s.working && Placed(s)
    ensures Placed(Updated(s, worker, job, write, next))
  {
    hide FileOf;
  }

  /** A worker that moves on must leave its job covered and its next position justified. */
  predicate MayMove(s: State, id: JobId, job: Job, next: Option<Pc>) {
    && Covered(job, SendsOf(s, id))
    && (next.Some? ==>
          match next.value
          case Reporting => job.result.None?
          case Deciding => HasDelivery(job) && Open(DeliveryOf(job))
          case Sending =>
            && HasDelivery(job) && |SendsOf(s, id)| < DeliveryOf(job).attempts
            && (job.request.channel == Native ==> DeliveryOf(job).status == DSending && Hard(SendsOf(s, id)) == 0)
          case Concluding(_) => false
          case _ => true)
  }

  /** A worker on another job is not affected by a write, whatever becomes of it. */
  lemma OtherPcOk(s: State, t: State, work: Work, id: JobId, jobs: map<JobId, Job>)
    requires PcOk(s, work) && work.id != id && (forall other | other in s.jobs && other != id ::
               other in jobs && jobs[other] == s.jobs[other])
    requires t.jobs == s.jobs || t.jobs == jobs
    requires t.file == s.file || t.file == FileOf(jobs)
    requires t.sends == s.sends
    ensures PcOk(t, work)
  {
    FileEntries(jobs);
    hide Entry, FileOf, Hard;
  }

  lemma WrittenCovered(s: State, t: State, id: JobId, job: Job)
    requires Counted(s) && Covered(job, SendsOf(s, id)) && t.sends == s.sends
    requires t.jobs == s.jobs || t.jobs == s.jobs[id := job]
    requires t.file == s.file || t.file == FileOf(s.jobs[id := job])
    ensures forall other | other in t.jobs :: Covered(t.jobs[other], SendsOf(t, other))
    ensures forall other | other in t.file :: Covered(Entry(t.file[other]), SendsOf(t, other))
    ensures forall other | other !in t.jobs :: SendsOf(t, other) == []
  {
    FileEntries(s.jobs[id := job]);
    hide Covered, FileOf, Entry, PcOk;
  }

  lemma MovedPcOk(s: State, t: State, id: JobId, job: Job, pc: Pc)
    requires MayMove(s, id, job, Some(pc)) && id in s.jobs && t.jobs == s.jobs[id := job] && t.file == FileOf(t.jobs)
             && t.sends == s.sends
    ensures PcOk(t, Work(id, pc))
  {
    FileEntries(t.jobs);
    hide FileOf, Entry, Covered;
  }

  lemma UpdatedCounted(s: State, worker: WorkerNo, job: Job, write: Write, next: Option<Pc>)
    requires worker in s.working && Placed(s) && Counted(s)
    requires MayMove(s, s.working[worker].id, job, next)
    ensures Counted(Updated(s, worker, job, write, next))
  {
    hide Covered, FileOf, Entry, Hard, PcOk;
    var id := s.working[worker].id;
    var t := Updated(s, worker, job, write, next);
    if id in s.jobs {
      WrittenCovered(s, t, id, job);
    }
    forall w | w in t.working ensures PcOk(t, t.working[w]) {
      if w != worker {
        assert t.working[w] == s.working[w] && s.working[w].id != id;
        OtherPcOk(s, t, s.working[w], id, if id in s.jobs then s.jobs[id := job] else s.jobs);
      } else {
        MovedPcOk(s, t, id, job, next.value);
      }
    }
  }

  lemma UpdatedOk(s: State, worker: WorkerNo, job: Job, write: Write, next: Option<Pc>)
    requires worker in s.working && Ok(s)
    requires MayMove(s, s.working[worker].id, job, next)
    requires s.working[worker].id in s.jobs && job.id == s.working[worker].id
             && job.fingerprint == s.jobs[s.working[worker].id].fingerprint
    ensures Ok(Updated(s, worker, job, write, next))
  {
    hide Durable, Placed, Counted, Updated, MayMove;
    UpdatedDurable(s, worker, job, write, next);
    UpdatedPlaced(s, worker, job, write, next);
    UpdatedCounted(s, worker, job, write, next);
  }

  lemma WorkerFacts(s: State, worker: WorkerNo)
    requires worker in s.working && Ok(s)
    ensures
      var id := s.working[worker].id;
      && id in s.jobs && s.jobs[id].id == id && PcOk(s, s.working[worker]) && Covered(s.jobs[id], SendsOf(s, id))
  {
    hide Covered, Load, PcOk;
  }

  lemma SamePcOk(s: State, t: State, work: Work)
    requires PcOk(s, work) && t.jobs == s.jobs && t.file == s.file && t.sends == s.sends
    ensures PcOk(t, work)
  {
    hide Hard, Entry;
  }

  lemma QuietCounted(s: State, t: State)
    requires Counted(s) && t.jobs == s.jobs && t.file == s.file && t.sends == s.sends
    requires forall w | w in t.working ::
               (w in s.working && t.working[w] == s.working[w]) || (t.working[w].pc == Beginning
               && t.working[w].id in t.jobs)
    ensures Counted(t)
  {
    hide Covered, Entry, PcOk;
    forall w | w in t.working ensures PcOk(t, t.working[w]) {
      if w in s.working && t.working[w] == s.working[w] {
        SamePcOk(s, t, s.working[w]);
      } else {
        BeginningOk(t, t.working[w].id);
      }
    }
  }

  lemma BeginningOk(s: State, id: JobId)
    requires id in s.jobs
    ensures PcOk(s, Work(id, Beginning))
  {
  }

  lemma SameDurable(s: State, t: State)
    requires Durable(s) && t.jobs == s.jobs && t.file == s.file && t.acked <= t.jobs.Keys
    ensures Durable(t)
  {
    hide Load;
  }

  /** A step that leaves the jobs, the file and the sends alone. */
  lemma QuietOk(s: State, t: State)
    requires Placed(t) && t.acked <= t.jobs.Keys && t.jobs == s.jobs && t.file == s.file && t.sends == s.sends
    requires forall w | w in t.working ::
               (w in s.working && t.working[w] == s.working[w]) || (t.working[w].pc == Beginning
               && t.working[w].id in t.jobs)
    requires Ok(s)
    ensures Ok(t)
  {
    hide Durable, Placed, Counted;
    SameDurable(s, t);
    QuietCounted(s, t);
  }

  lemma OkParts(s: State)
    requires Ok(s)
    ensures Placed(s) && s.acked <= s.jobs.Keys
  {
    hide Counted, Placed, Load;
  }

  lemma LeftOk(s: State, worker: WorkerNo)
    requires Ok(s)
    ensures Ok(Left(s, worker))
  {
    hide Ok;
    OkParts(s);
    QuietOk(s, Left(s, worker));
  }

  // ---------------------------------------------------------------- step by step

  lemma BeginOk(s: State, worker: WorkerNo, write: Write)
    requires At(s, worker, Beginning) && Ok(s)
    ensures Ok(Begin(s, worker, write))
  {
    hide Ok, Updated, Hard;
    WorkerFacts(s, worker);
    var id := s.working[worker].id;
    if s.jobs[id].status == JQueued || s.jobs[id].status == JRunning {
      var job := s.jobs[id].(status := JRunning);
      UpdatedOk(s, worker, job, write, Some(if job.result.None? then Reporting else AfterReport(job.result.value)));
    } else {
      LeftOk(s, worker);
    }
  }

  lemma MakeReportOk(s: State, worker: WorkerNo, text: Option<string>, write: Write)
    requires At(s, worker, Reporting) && Ok(s)
    ensures Ok(MakeReport(s, worker, text, write))
  {
    hide Ok, Updated;
    WorkerFacts(s, worker);
    var id := s.working[worker].id;
    if text.None? {
      UpdatedOk(s, worker, s.jobs[id].(status := JFailed), write, None);
    } else {
      var report := Report(text.value, if s.jobs[id].request.channel == NoChannel then None
        else Some(Delivery(DPending, 0, "")));
      UpdatedOk(s, worker, s.jobs[id].(result := Some(report)), write, Some(AfterReport(report)));
    }
  }

  lemma DecideOk(s: State, worker: WorkerNo, write: Write)
    requires At(s, worker, Deciding) && Ok(s)
    ensures Ok(Decide(s, worker, write))
  {
    hide Ok, Updated, Hard;
    WorkerFacts(s, worker);
    var job := s.jobs[s.working[worker].id];
    var d := DeliveryOf(job);
    if job.request.channel == Native && d.status == DSending {
      UpdatedOk(s, worker, WithDelivery(job, d.(status := DUnknown, lastError := RESTARTED)), write, Some(Finishing));
    } else if d.attempts >= MAX_DELIVERIES {
      UpdatedOk(s, worker, WithDelivery(job, d.(status := DFailed, lastError := if d.lastError == "" then UNCONFIRMED
        else d.lastError)), write, Some(Finishing));
    } else {
      UpdatedOk(s, worker, WithDelivery(job, d.(status := if job.request.channel == Native then DSending else DPending,
        attempts := d.attempts + 1)),
                write, Some(Sending));
    }
  }

  lemma ConcludeOk(s: State, worker: WorkerNo, write: Write)
    requires worker in s.working && s.working[worker].pc.Concluding? && Ok(s)
    ensures Ok(Conclude(s, worker, write))
  {
    hide Ok, Updated, Hard;
    WorkerFacts(s, worker);
    var job := s.jobs[s.working[worker].id];
    var d := Answered(DeliveryOf(job), job.request.channel, s.working[worker].pc.outcome);
    UpdatedOk(s, worker, WithDelivery(job, d), write, Some(if d.status == DPending then Deciding else Finishing));
  }

  lemma FinishOk(s: State, worker: WorkerNo, write: Write)
    requires worker in s.working && Ok(s)
    ensures Ok(Finish(s, worker, write))
  {
    hide Ok, Updated, Hard;
    WorkerFacts(s, worker);
    UpdatedOk(s, worker, s.jobs[s.working[worker].id].(status := JSucceeded), write, None);
  }

  lemma SentPcOk(s: State, worker: WorkerNo, outcome: Send, w: WorkerNo)
    requires At(s, worker, Sending) && PcOk(s, s.working[worker]) && w in s.working && PcOk(s, s.working[w])
    requires w != worker ==> s.working[w].id != s.working[worker].id
    ensures PcOk(SendOut(s, worker, outcome), SendOut(s, worker, outcome).working[w])
  {
    HardGrows(SendsOf(s, s.working[worker].id), outcome);
    hide Entry, Hard;
  }

  lemma SentCovered(s: State, worker: WorkerNo, outcome: Send)
    requires At(s, worker, Sending) && PcOk(s, s.working[worker])
             && Covered(s.jobs[s.working[worker].id], SendsOf(s, s.working[worker].id))
    ensures
      var id := s.working[worker].id;
      Covered(s.jobs[id], SendsOf(s, id) + [outcome]) && id in s.file && Entry(s.file[id]) == s.jobs[id]
  {
    HardGrows(SendsOf(s, s.working[worker].id), outcome);
    hide Entry, Hard;
  }

  lemma SendOutCounted(s: State, worker: WorkerNo, outcome: Send)
    requires At(s, worker, Sending) && Placed(s) && Counted(s)
    ensures Counted(SendOut(s, worker, outcome))
  {
    hide Covered, PcOk, Entry, Hard;
    var id := s.working[worker].id;
    var t := SendOut(s, worker, outcome);
    SentCovered(s, worker, outcome);
    forall w | w in t.working ensures PcOk(t, t.working[w]) {
      SentPcOk(s, worker, outcome, w);
    }
    assert SendsOf(t, id) == SendsOf(s, id) + [outcome] && forall other | other != id ::
          SendsOf(t, other) == SendsOf(s, other);
    hide SendsOf, SendOut;
  }

  /** The send itself: its attempt and, on a native channel, its sending mark are already on disk. */
  lemma SendOutOk(s: State, worker: WorkerNo, outcome: Send)
    requires At(s, worker, Sending) && Ok(s)
    ensures Ok(SendOut(s, worker, outcome))
  {
    hide Counted, Durable;
    SendOutCounted(s, worker, outcome);
    SameDurable(s, SendOut(s, worker, outcome)) by { OkParts(s); }
  }

  /** The handler recorded a new job, or failed to. */
  predicate Recording(s: State, id: JobId) {
    !s.closed && id !in s.jobs && |s.jobs| < MAX_JOBS
  }

  lemma SubmitOk(s: State, id: JobId, url: string, task: Task, fingerprint: string, write: Write)
    requires Ok(s) && fingerprint != ""
    ensures Ok(Submit(s, id, url, task, fingerprint, write))
  {
    hide Ok, Placed, Durable, Counted, FileOf;
    var t := Submit(s, id, url, task, fingerprint, write);
    OkParts(s);
    if Recording(s, id) {
      assert Durable(s) && Counted(s) by { AllParts(s); }
      NewJobDurable(s, id, url, task, fingerprint, write);
      NewJobCounted(s, id, url, task, fingerprint, write);
      NewJobPlaced(s, id, url, task, fingerprint, write);
      FromParts(t);
    } else {
      SamePlaced(s, t);
      QuietOk(s, t);
    }
  }

  lemma AllParts(s: State)
    requires Ok(s)
    ensures Durable(s) && Placed(s) && Counted(s)
  {
  }

  lemma FromParts(s: State)
    requires Durable(s) && Placed(s) && Counted(s)
    ensures Ok(s)
  {
  }

  lemma NewJobPlaced(s: State, id: JobId, url: string, task: Task, fingerprint: string, write: Write)
    requires Recording(s, id) && Placed(s)
    ensures Placed(Submit(s, id, url, task, fingerprint, write))
  {
    hide FileOf;
  }

  lemma SamePlaced(s: State, t: State)
    requires Placed(s) && t == s.(acked := t.acked, closed := t.closed)
    ensures Placed(t)
  {
  }

  lemma NewJobDurable(s: State, id: JobId, url: string, task: Task, fingerprint: string, write: Write)
    requires Recording(s, id) && fingerprint != ""
    requires Durable(s)
    ensures Durable(Submit(s, id, url, task, fingerprint, write))
  {
    hide Load, FileOf;
    var jobs := s.jobs[id := Job(id, url, JQueued, None, task, fingerprint)];
    assert WellKept(jobs);
    FileDurable(jobs);
    hide WellKept;
  }

  lemma NewJobCounted(s: State, id: JobId, url: string, task: Task, fingerprint: string, write: Write)
    requires Recording(s, id)
    requires Counted(s)
    ensures Counted(Submit(s, id, url, task, fingerprint, write))
  {
    hide FileOf, Entry, PcOk;
    var job := Job(id, url, JQueued, None, task, fingerprint);
    assert SendsOf(s, id) == [];
    assert Covered(job, []);
    hide Covered, Hard;
    var t := Submit(s, id, url, task, fingerprint, write);
    NewJobShape(s, id, url, task, fingerprint, write);
    hide Submit, SubmitReply;
    WrittenCovered(s, t, id, job);
    forall w | w in t.working ensures PcOk(t, t.working[w]) {
      PcIsPresent(s, s.working[w]);
      OtherPcOk(s, t, s.working[w], id, s.jobs[id := job]);
    }
  }

  lemma NewJobShape(s: State, id: JobId, url: string, task: Task, fingerprint: string, write: Write)
    requires Recording(s, id)
    ensures
      var t := Submit(s, id, url, task, fingerprint, write);
      var jobs := s.jobs[id := Job(id, url, JQueued, None, task, fingerprint)];
      && t.working == s.working && t.sends == s.sends
      && (t.jobs == s.jobs || t.jobs == jobs) && (t.file == s.file || t.file == FileOf(jobs))
  {
    hide FileOf;
  }

  lemma PcIsPresent(s: State, work: Work)
    requires PcOk(s, work)
    ensures work.id in s.jobs
  {
  }

  lemma EnqueueOk(s: State, id: JobId)
    requires Ok(s)
    ensures Ok(Enqueue(s, id))
  {
    hide Ok;
    OkParts(s);
    assert Placed(Enqueue(s, id));
    hide Placed;
    QuietOk(s, Enqueue(s, id));
  }

  lemma TakeOk(s: State, worker: WorkerNo)
    requires worker !in s.working && s.queue != [] && Ok(s)
    ensures Ok(Take(s, worker))
  {
    hide Ok;
    OkParts(s);
    TakePlaced(s, worker);
    hide Placed;
    QuietOk(s, Take(s, worker));
  }

  lemma TakePlaced(s: State, worker: WorkerNo)
    requires worker !in s.working && s.queue != [] && Placed(s)
    ensures Placed(Take(s, worker)) && s.queue[0] in s.jobs
  {
    assert s.queue[0] in s.queue;
    assert forall id | id in Take(s, worker).queue :: id in s.queue;
  }

  lemma CloseOk(s: State)
    requires Ok(s)
    ensures Ok(s.(closed := true))
  {
    hide Ok, Placed;
    OkParts(s);
    SamePlaced(s, s.(closed := true));
    QuietOk(s, s.(closed := true));
  }

  lemma LoadedFacts(file: map<JobId, StoredJob>)
    requires Load(file).Some?
    ensures
      var jobs := Load(file).value;
      && jobs.Keys == file.Keys && WellKept(jobs) && forall id | id in file :: jobs[id] == Entry(file[id])
  {
    var jobs := Load(file).value;
    assert jobs.Keys == file.Keys;
    SameSize(jobs, file);
  }

  lemma NothingSent(s: State, jobs: map<JobId, Job>, id: JobId)
    requires Counted(s) && s.jobs.Keys <= jobs.Keys && id !in jobs
    ensures SendsOf(s, id) == []
  {
    hide Covered, PcOk;
  }

  /** A restart takes the file's word for everything, and the file covers every send. */
  lemma RestartOk(s: State, order: seq<JobId>)
    requires Ok(s)
    ensures Ok(Restart(s, order))
  {
    hide Load, Covered, PcOk, Entry, WellKept;
    assert Load(s.file).Some?;
    LoadedFacts(s.file);
    var jobs := Load(s.file).value;
    if ResumeOrder(jobs, order) {
      var t := s.(jobs := jobs, queue := order, handing := {}, working := map[], closed := false);
      forall id | id !in jobs ensures SendsOf(t, id) == [] { NothingSent(s, jobs, id); }
      assert Durable(t);
      assert Placed(t);
      hide ResumeOrder;
      assert Counted(t) by { RestartCounted(s, t); }
    }
  }

  lemma RestartCounted(s: State, t: State)
    requires Counted(s) && t.sends == s.sends && t.file == s.file && t.working == map[] && t.jobs.Keys == t.file.Keys
    requires forall id | id in t.file :: t.jobs[id] == Entry(t.file[id])
    requires forall id | id !in t.jobs :: SendsOf(t, id) == []
    ensures Counted(t)
  {
    hide Covered, Entry, PcOk;
  }

  // ---------------------------------------------------------------- whole lives

  lemma MoveOk(s: State, m: Move)
    requires Can(s, m) && Ok(s)
    ensures Ok(Moved(s, m))
  {
    hide Ok;
    match m
    case Submitting(id, url, task, fingerprint, write) => SubmitOk(s, id, url, task, fingerprint, write);
    case Enqueuing(id) => EnqueueOk(s, id);
    case Taking(worker) => TakeOk(s, worker);
    case Begins(worker, write) => BeginOk(s, worker, write);
    case Reports(worker, text, write) => MakeReportOk(s, worker, text, write);
    case Decides(worker, write) => DecideOk(s, worker, write);
    case Sends(worker, outcome) => SendOutOk(s, worker, outcome);
    case Concludes(worker, write) => ConcludeOk(s, worker, write);
    case Finishes(worker, write) => FinishOk(s, worker, write);
    case Leaves(worker) => LeftOk(s, worker);
    case Closing => CloseOk(s);
    case Restarting(order) => RestartOk(s, order);
  }

  lemma FirstOk()
    ensures Ok(FirstStart())
  {
  }

  lemma {:induction false} LifeOk(states: seq<State>, moves: seq<Move>, i: nat)
    requires i < |states|
    requires Life(states, moves)
    ensures Ok(states[i])
    decreases i
  {
    hide Durable, Placed, Counted, Can, Moved;
    if i == 0 {
      FirstOk();
    } else {
      LifeOk(states, moves, i - 1);
      MoveOk(states[i - 1], moves[i - 1]);
    }
  }
}
