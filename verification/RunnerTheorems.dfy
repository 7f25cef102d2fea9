/** What the job runner promises over any sequence of requests, writes that fail, sends, shutdowns and crashes. */
module RunnerTheorems {
  import opened Domain
  import opened Runner
  import opened RunnerProofs

  /** An acknowledged job is on disk from then on: whatever happens next, and wherever it stops, a start finds it. */
  lemma AcknowledgedIsDurable(states: seq<State>, moves: seq<Move>, i: nat, j: nat, id: JobId)
    requires i <= j < |states| && id in states[i].acked
    requires Life(states, moves)
    ensures Load(states[j].file).Some? && id in Load(states[j].file).value
    ensures id in states[j].jobs && states[j].jobs[id].id == id
  {
    LifeOk(states, moves, j);
    AckedGrows(states, moves, i, j);
    LoadedFacts(states[j].file);
    hide Life, Placed, Counted, Load;
  }

  lemma {:induction false} AckedGrows(states: seq<State>, moves: seq<Move>, i: nat, j: nat)
    requires i <= j < |states|
    requires Life(states, moves)
    ensures states[i].acked <= states[j].acked
    decreases j
  {
    hide Can, Moved;
    if i < j {
      AckedGrows(states, moves, i, j - 1);
      MoveKeepsAcked(states[j - 1], moves[j - 1]);
    }
  }

  lemma UpdatedKeepsAcked(s: State, worker: WorkerNo, write: Write)
    requires worker in s.working
    ensures forall job, next :: Updated(s, worker, job, write, next).acked == s.acked
  {
    hide FileOf;
  }

  lemma MoveKeepsAcked(s: State, m: Move)
    requires Can(s, m)
    ensures s.acked <= Moved(s, m).acked
  {
    hide Load, FileOf, ResumeOrder, Updated, WithDelivery, AfterReport;
    match m
    case Begins(worker, write) => UpdatedKeepsAcked(s, worker, write);
    case Reports(worker, _, write) => UpdatedKeepsAcked(s, worker, write);
    case Decides(worker, write) => UpdatedKeepsAcked(s, worker, write);
    case Concludes(worker, write) => UpdatedKeepsAcked(s, worker, write);
    case Finishes(worker, write) => UpdatedKeepsAcked(s, worker, write);
    case _ =>
  }

  /** The queue holds distinct recorded jobs, so the channel send of a handler never blocks. */
  lemma EnqueueNeverBlocks(states: seq<State>, moves: seq<Move>, i: nat, id: JobId)
    requires i < |states|
    requires Life(states, moves)
    ensures |states[i].queue| <= MAX_JOBS
    ensures id in states[i].handing ==> |states[i].queue| < MAX_JOBS
    ensures id in states[i].handing ==> Enqueue(states[i], id).queue == states[i].queue + [id] && id !in states[i].queue
  {
    LifeOk(states, moves, i);
    var s := states[i];
    QueueFits(s, id);
    hide Life, Counted, Load;
  }

  lemma QueueFits(s: State, id: JobId)
    requires Placed(s) && WellKept(s.jobs)
    ensures |s.queue| <= |s.jobs| <= MAX_JOBS
    ensures id in s.handing ==> |s.queue| < |s.jobs|
  {
    var queued := set x | x in s.queue;
    DistinctCount(s.queue);
    assert |s.jobs.Keys| == |s.jobs|;
    SubsetCardinality(queued, s.jobs.Keys);
    if id in s.handing {
      SubsetCardinality(queued + {id}, s.jobs.Keys);
    }
  }

  lemma {:induction false} DistinctCount<T>(items: seq<T>)
    requires forall i, j | 0 <= i < j < |items| :: items[i] != items[j]
    ensures |set x | x in items| == |items|
  {
    if items == [] {
      assert (set x | x in items) == {};
    } else {
      var n := |items| - 1;
      DistinctCount(items[..n]);
      assert items == items[..n] + [items[n]];
      assert (set x | x in items) == (set x | x in items[..n]) + {items[n]};
    }
  }

  /** No two workers ever run the same job, and a running job is neither queued nor about to be. */
  lemma OneWorkerPerJob(states: seq<State>, moves: seq<Move>, i: nat, v: WorkerNo, w: WorkerNo)
    requires i < |states| && v in states[i].working && w in states[i].working
    requires states[i].working[v].id == states[i].working[w].id
    requires Life(states, moves)
    ensures v == w && states[i].working[v].id !in states[i].queue && states[i].working[v].id !in states[i].handing
  {
    LifeOk(states, moves, i);
    hide Life, Counted, Durable;
  }

  /** Across all restarts a job's notification leaves the process at most maxDeliveries times; on a native
      channel at most one of those sends met anything but a rate limit. */
  lemma SendsBounded(states: seq<State>, moves: seq<Move>, i: nat, id: JobId)
    requires i < |states|
    requires Life(states, moves)
    ensures |SendsOf(states[i], id)| <= MAX_DELIVERIES
    ensures id in states[i].jobs && states[i].jobs[id].request.channel == Native ==> Hard(SendsOf(states[i], id)) <= 1
  {
    LifeOk(states, moves, i);
    hide Life, Placed, Durable, Entry, Hard, PcOk;
    if id in states[i].jobs {
      assert Covered(states[i].jobs[id], SendsOf(states[i], id));
    }
  }

  /** Before each send its attempt, and on a native channel the sending mark, can be read back from disk. */
  lemma MarkedBeforeSend(states: seq<State>, moves: seq<Move>, i: nat, worker: WorkerNo)
    requires i < |states| && At(states[i], worker, Sending)
    requires Life(states, moves)
    ensures
      var id := states[i].working[worker].id;
      && Load(states[i].file).Some? && id in Load(states[i].file).value
      && var job := Load(states[i].file).value[id];
         && HasDelivery(job) && |SendsOf(states[i], id)| < DeliveryOf(job).attempts
         && (job.request.channel == Native ==> DeliveryOf(job).status == DSending)
  {
    LifeOk(states, moves, i);
    LoadedFacts(states[i].file);
    assert PcOk(states[i], states[i].working[worker]);
    hide Life, Placed, Load, Hard;
  }

  // ---------------------------------------------------------------- a send cut off by a restart

  /** The process really starts again: the file loads and every unfinished job is queued. */
  predicate Starts(s: State, order: seq<JobId>) {
    Load(s.file).Some? && ResumeOrder(Load(s.file).value, order)
  }

  predicate CutOff(job: Job) {
    job.request.channel == Native && HasDelivery(job) && DeliveryOf(job).status in {DSending, DUnknown}
  }

  predicate MarkedUnknown(job: Job) { HasDelivery(job) && DeliveryOf(job).status == DUnknown }

  /** In memory and on disk the delivery is at most marked, and no worker is about to send it or has just done so. */
  ghost predicate Halted(s: State, id: JobId, sends: seq<Send>) {
    && id in s.jobs && CutOff(s.jobs[id]) && id in s.file && CutOff(Entry(s.file[id]))
    && (MarkedUnknown(s.jobs[id]) ==> MarkedUnknown(Entry(s.file[id])))
    && SendsOf(s, id) == sends
    && forall w | w in s.working && s.working[w].id == id :: s.working[w].pc != Sending && !s.working[w].pc.Concluding?
  }

  /** What a worker may write about the cut-off job. */
  predicate KeepsCut(s: State, worker: WorkerNo, job: Job, next: Option<Pc>, id: JobId)
    requires worker in s.working
  {
    s.working[worker].id == id && id in s.jobs ==>
      && CutOff(job) && (MarkedUnknown(s.jobs[id]) ==> MarkedUnknown(job))
      && next != Some(Sending) && (next.Some? ==> !next.value.Concluding?)
  }

  lemma UpdatedHalted(s: State, worker: WorkerNo, job: Job, write: Write, next: Option<Pc>, id: JobId, sends: seq<Send>)
    requires worker in s.working && KeepsCut(s, worker, job, next, id)
    requires Halted(s, id, sends)
    ensures Halted(Updated(s, worker, job, write, next), id, sends)
    ensures MarkedUnknown(s.jobs[id]) ==> MarkedUnknown(Updated(s, worker, job, write, next).jobs[id])
  {
    var mine := s.working[worker].id;
    if mine in s.jobs { FileEntries(s.jobs[mine := job]); }
    hide FileOf, Entry, CutOff, MarkedUnknown;
  }

  lemma LeftHalted(s: State, worker: WorkerNo, id: JobId, sends: seq<Send>)
    requires Halted(s, id, sends)
    ensures Halted(Left(s, worker), id, sends) && Left(s, worker).jobs == s.jobs
  {
    hide CutOff, MarkedUnknown, Entry;
  }

  lemma WorkerMoveHalted(s: State, m: Move, id: JobId, sends: seq<Send>)
    requires m.Begins? || m.Reports? || m.Decides? || m.Concludes? || m.Finishes?
    requires Can(s, m) && PcOk(s, s.working[m.worker])
    requires Halted(s, id, sends)
    ensures Halted(Moved(s, m), id, sends)
    ensures MarkedUnknown(s.jobs[id]) ==> MarkedUnknown(Moved(s, m).jobs[id])
  {
    HaltedWorker(s, m.worker, id, sends);
    hide Halted, Updated, Hard, Entry;
    var mine := s.working[m.worker].id;
    var job := s.jobs[mine];
    match m
    case Begins(worker, write) =>
      if job.status == JQueued || job.status == JRunning {
        var begun := job.(status := JRunning);
        UpdatedHalted(s, worker, begun, write, Some(if begun.result.None? then Reporting
          else AfterReport(begun.result.value)), id, sends);
      } else {
        LeftHalted(s, worker, id, sends);
      }
    case Reports(worker, text, write) =>
      if text.None? {
        UpdatedHalted(s, worker, job.(status := JFailed), write, None, id, sends);
      } else {
        var report := Report(text.value, if job.request.channel == NoChannel then None
          else Some(Delivery(DPending, 0, "")));
        UpdatedHalted(s, worker, job.(result := Some(report)), write, Some(AfterReport(report)), id, sends);
      }
    case Decides(worker, write) => DecideHalted(s, worker, write, id, sends);
    case Concludes(worker, write) =>
      if HasDelivery(job) {
        var d := Answered(DeliveryOf(job), job.request.channel, s.working[worker].pc.outcome);
        UpdatedHalted(s, worker, WithDelivery(job, d), write, Some(if d.status == DPending then Deciding
          else Finishing), id, sends);
      } else {
        LeftHalted(s, worker, id, sends);
      }
    case Finishes(worker, write) => UpdatedHalted(s, worker, job.(status := JSucceeded), write, None, id, sends);
  }

  lemma HaltedWorker(s: State, worker: WorkerNo, id: JobId, sends: seq<Send>)
    requires worker in s.working && Halted(s, id, sends)
    ensures id in s.jobs && CutOff(s.jobs[id])
    ensures s.working[worker].id == id ==> s.working[worker].pc != Sending && !s.working[worker].pc.Concluding?
  {
    hide CutOff, MarkedUnknown, Entry;
  }

  lemma DecideHalted(s: State, worker: WorkerNo, write: Write, id: JobId, sends: seq<Send>)
    requires At(s, worker, Deciding) && s.working[worker].id in s.jobs && PcOk(s, s.working[worker])
    requires Halted(s, id, sends)
    ensures Halted(Decide(s, worker, write), id, sends)
    ensures MarkedUnknown(s.jobs[id]) ==> MarkedUnknown(Decide(s, worker, write).jobs[id])
  {
    hide Halted, Updated, Hard, Entry, Covered, InSync, SendsOf;
    HaltedWorker(s, worker, id, sends);
    var job := s.jobs[s.working[worker].id];
    var d := DeliveryOf(job);
    if job.request.channel == Native && d.status == DSending {
      UpdatedHalted(s, worker, WithDelivery(job, d.(status := DUnknown, lastError := RESTARTED)), write,
        Some(Finishing), id, sends);
    } else if d.attempts >= MAX_DELIVERIES {
      var failed := d.(status := DFailed, lastError := if d.lastError == "" then UNCONFIRMED else d.lastError);
      UpdatedHalted(s, worker, WithDelivery(job, failed), write, Some(Finishing), id, sends);
    } else {
      var next := d.(status := if job.request.channel == Native then DSending else DPending,
        attempts := d.attempts + 1);
      UpdatedHalted(s, worker, WithDelivery(job, next), write, Some(Sending), id, sends);
    }
  }

  lemma QuietMoveHalted(s: State, m: Move, id: JobId, sends: seq<Send>)
    requires m.Enqueuing? || m.Taking? || m.Leaves? || m.Closing?
    requires Can(s, m)
    requires Halted(s, id, sends)
    ensures Halted(Moved(s, m), id, sends) && Moved(s, m).jobs == s.jobs
  {
    hide CutOff, MarkedUnknown, Entry;
  }

  lemma SendHalted(s: State, worker: WorkerNo, outcome: Send, id: JobId, sends: seq<Send>)
    requires At(s, worker, Sending)
    requires Halted(s, id, sends)
    ensures Halted(SendOut(s, worker, outcome), id, sends)
  {
    hide CutOff, MarkedUnknown, Entry;
  }

  lemma RestartHalted(s: State, order: seq<JobId>, id: JobId, sends: seq<Send>)
    requires Load(s.file).Some?
    requires Halted(s, id, sends)
    ensures Halted(Restart(s, order), id, sends)
    ensures MarkedUnknown(s.jobs[id]) ==> MarkedUnknown(Restart(s, order).jobs[id])
  {
    LoadedFacts(s.file);
    hide CutOff, MarkedUnknown, Entry, Load, ResumeOrder;
  }

  lemma SubmitHalted(s: State, m: Move, id: JobId, sends: seq<Send>)
    requires m.Submitting? && Can(s, m)
    requires Halted(s, id, sends)
    ensures Halted(Moved(s, m), id, sends) && Moved(s, m).jobs[id] == s.jobs[id]
  {
    hide CutOff, MarkedUnknown, Entry, FileOf;
    var job := Job(m.id, m.url, JQueued, None, m.task, m.fingerprint);
    if Recording(s, m.id) {
      FileEntries(s.jobs[m.id := job]);
    }
  }

  lemma OtherMoveHalted(s: State, m: Move, id: JobId, sends: seq<Send>)
    requires m.Enqueuing? || m.Taking? || m.Sends? || m.Leaves? || m.Closing? || m.Restarting?
    requires Can(s, m) && Load(s.file).Some?
    requires Halted(s, id, sends)
    ensures Halted(Moved(s, m), id, sends)
    ensures MarkedUnknown(s.jobs[id]) ==> MarkedUnknown(Moved(s, m).jobs[id])
  {
    match m
    case Sends(worker, outcome) => SendHalted(s, worker, outcome, id, sends);
    case Restarting(order) => RestartHalted(s, order, id, sends);
    case _ => QuietMoveHalted(s, m, id, sends);
    hide *;
  }

  lemma MoveHalted(s: State, m: Move, id: JobId, sends: seq<Send>)
    requires Can(s, m)
    requires Ok(s) && Halted(s, id, sends)
    ensures Halted(Moved(s, m), id, sends)
    ensures MarkedUnknown(s.jobs[id]) ==> MarkedUnknown(Moved(s, m).jobs[id])
  {
    assert Load(s.file).Some?;
    hide Halted, Moved, Durable, Placed, PcOk, Covered, Load, Entry;
    if m.Submitting? {
      SubmitHalted(s, m, id, sends);
    } else if m.Begins? || m.Reports? || m.Decides? || m.Concludes? || m.Finishes? {
      WorkerMoveHalted(s, m, id, sends);
    } else {
      OtherMoveHalted(s, m, id, sends);
    }
  }

  lemma RestartHalts(s: State, order: seq<JobId>, id: JobId)
    requires Starts(s, order) && id in s.file && CutOff(Entry(s.file[id]))
    ensures Halted(Restart(s, order), id, SendsOf(s, id))
  {
    LoadedFacts(s.file);
    hide CutOff, MarkedUnknown, Entry, Load, ResumeOrder;
  }

  /** A restart finds a native send under way: its mark is in the file and no outcome is. However the run goes on,
      through any further writes, crashes and restarts, the message is never sent again, its delivery stays marked
      as sending until it is marked as unknown, and from then on as unknown. */
  lemma {:induction false} InterruptedSendIsUnknown(states: seq<State>, moves: seq<Move>, i: nat, j: nat, id: JobId)
    requires |states| == |moves| + 1 && i < |moves| && i < j < |states|
    requires moves[i].Restarting? && Starts(states[i], moves[i].order)
    requires id in states[i].file && CutOff(Entry(states[i].file[id]))
    requires Life(states, moves)
    ensures SendsOf(states[j], id) == SendsOf(states[i], id)
    ensures id in states[j].jobs && CutOff(states[j].jobs[id]) && id in states[j].file
            && CutOff(Entry(states[j].file[id]))
    ensures Halted(states[j], id, SendsOf(states[i], id))
    ensures j > i + 1 && id in states[j - 1].jobs && MarkedUnknown(states[j - 1].jobs[id]) ==>
              MarkedUnknown(states[j].jobs[id])
    decreases j
  {
    hide Ok, Can, Moved, CutOff, MarkedUnknown, Entry, Starts;
    assert Can(states[j - 1], moves[j - 1]) && states[j] == Moved(states[j - 1], moves[j - 1]);
    if j == i + 1 {
      RestartStep(states[i], moves[i]);
      RestartHalts(states[i], moves[i].order, id);
    } else {
      InterruptedSendIsUnknown(states, moves, i, j - 1, id);
      LifeOk(states, moves, j - 1);
      MoveHalted(states[j - 1], moves[j - 1], id, SendsOf(states[i], id));
    }
  }

  lemma RestartStep(s: State, m: Move)
    requires m.Restarting?
    ensures Can(s, m) && Moved(s, m) == Restart(s, m.order)
  {
  }
}
