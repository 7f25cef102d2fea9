/** How a job ends: what a worker that is not interrupted makes of it, and what a restart takes up again. */
module RunnerOutcomes {
  import opened Domain
  import opened Runner
  import opened RunnerProofs
  import opened RunnerPaths
  import opened RunnerProcess

  /** The worker is at this point of this job, and the runner is open. */
  predicate Working(s: State, worker: WorkerNo, id: JobId, pc: Pc) {
    worker in s.working && s.working[worker] == Work(id, pc) && id in s.jobs && !s.closed
  }

  /** Nothing but this job, its sends and this worker's place has changed, and the file holds the jobs as they are. */
  ghost predicate OnlyJob(s: State, t: State, worker: WorkerNo, id: JobId, sent: seq<Send>) {
    && id in s.jobs && id in t.jobs && t.jobs == s.jobs[id := t.jobs[id]]
    && SendsOf(t, id) == SendsOf(s, id) + sent && (forall other | other != id :: SendsOf(t, other) == SendsOf(s, other))
    && t.queue == s.queue && t.handing == s.handing && t.acked == s.acked && t.closed == s.closed
    && t.working.Keys - {worker} == s.working.Keys - {worker}
    && (forall w | w in t.working && w != worker :: w in s.working && t.working[w] == s.working[w])
  }

  lemma OnlyJobOn(s: State, mid: State, t: State, worker: WorkerNo, id: JobId, first: seq<Send>, second: seq<Send>)
    requires OnlyJob(s, mid, worker, id, first) && OnlyJob(mid, t, worker, id, second)
    ensures OnlyJob(s, t, worker, id, first + second)
  {
    hide SendsOf;
    assert (SendsOf(s, id) + first) + second == SendsOf(s, id) + (first + second);
  }

  /** A confirmed change of the worker's job. */
  lemma Recorded(s: State, worker: WorkerNo, id: JobId, pc: Pc, job: Job, next: Option<Pc>)
    requires Working(s, worker, id, pc)
    ensures
      var t := Updated(s, worker, job, Confirmed, next);
      && OnlyJob(s, t, worker, id, []) && t.jobs[id] == job && t.file == FileOf(t.jobs)
      && (if next.Some? then Working(t, worker, id, next.value) else worker !in t.working)
  {
    hide FileOf;
    assert SendsOf(s, id) + [] == SendsOf(s, id);
  }

  lemma SentOut(s: State, worker: WorkerNo, id: JobId, outcome: Send)
    requires Working(s, worker, id, Sending)
    ensures
      var t := SendOut(s, worker, outcome);
      OnlyJob(s, t, worker, id, [outcome]) && t.jobs == s.jobs && Working(t, worker, id, Concluding(outcome))
  {
  }

  // ---------------------------------------------------------------- one delivery, uninterrupted

  /** The attempt is counted and, on a native channel, marked. */
  lemma Marks(s: State, worker: WorkerNo, id: JobId) returns (t: State, mark: Job)
    requires Working(s, worker, id, Deciding) && HasDelivery(s.jobs[id])
    requires DeliveryOf(s.jobs[id]).attempts < MAX_DELIVERIES
    requires s.jobs[id].request.channel == Native ==> DeliveryOf(s.jobs[id]).status != DSending
    ensures Can(s, Decides(worker, Confirmed)) && t == Moved(s, Decides(worker, Confirmed))
    ensures OnlyJob(s, t, worker, id, []) && Working(t, worker, id, Sending) && t.jobs[id] == mark
    ensures SameButDelivery(s.jobs[id], mark)
    ensures DeliveryOf(mark).attempts == DeliveryOf(s.jobs[id]).attempts + 1
  {
    hide Updated, OnlyJob;
    var job := s.jobs[id];
    var d := DeliveryOf(job);
    mark := WithDelivery(job, d.(status := if job.request.channel == Native then DSending else DPending,
      attempts := d.attempts + 1));
    Recorded(s, worker, id, Deciding, mark, Some(Sending));
    t := Updated(s, worker, mark, Confirmed, Some(Sending));
  }

  lemma CanSend(s: State, worker: WorkerNo, id: JobId, outcome: Send)
    requires Working(s, worker, id, Sending)
    ensures Can(s, Sends(worker, outcome)) && Moved(s, Sends(worker, outcome)) == SendOut(s, worker, outcome)
  {
  }

  /** Then the message leaves. */
  lemma MarksAndSends(s: State, worker: WorkerNo, id: JobId, outcome: Send)
    returns (moves: seq<Move>, t: State, mark: Job)
    requires Working(s, worker, id, Deciding) && HasDelivery(s.jobs[id])
    requires DeliveryOf(s.jobs[id]).attempts < MAX_DELIVERIES
    requires s.jobs[id].request.channel == Native ==> DeliveryOf(s.jobs[id]).status != DSending
    ensures Goes(s, moves) && t == Path(s, moves) && OnlyJob(s, t, worker, id, [outcome])
    ensures Working(t, worker, id, Concluding(outcome)) && t.jobs[id] == mark && SameButDelivery(s.jobs[id], mark)
    ensures DeliveryOf(mark).attempts == DeliveryOf(s.jobs[id]).attempts + 1
  {
    hide OnlyJob, SendOut, Path, Goes, Can, Moved, SameButDelivery;
    var marked;
    marked, mark := Marks(s, worker, id);
    OneMove(s, Decides(worker, Confirmed));
    moves := [Decides(worker, Confirmed)];
    SentOut(marked, worker, id, outcome);
    CanSend(marked, worker, id, outcome);
    OneMoveMore(s, moves, Sends(worker, outcome));
    moves := moves + [Sends(worker, outcome)];
    t := SendOut(marked, worker, outcome);
    OnlyJobOn(s, marked, t, worker, id, [], [outcome]);
    assert [] + [outcome] == [outcome];
  }

  /** One round on a delivery that may still be sent: mark, send, record. */
  lemma SendRound(s: State, worker: WorkerNo, id: JobId, outcome: Send) returns (moves: seq<Move>, t: State)
    requires Working(s, worker, id, Deciding) && HasDelivery(s.jobs[id])
    requires DeliveryOf(s.jobs[id]).attempts < MAX_DELIVERIES
    requires s.jobs[id].request.channel == Native ==> DeliveryOf(s.jobs[id]).status != DSending
    ensures Goes(s, moves) && t == Path(s, moves) && OnlyJob(s, t, worker, id, [outcome])
    ensures SameButDelivery(s.jobs[id], t.jobs[id])
    ensures
      var status := DeliveryOf(t.jobs[id]).status;
      && DeliveryOf(t.jobs[id]).attempts == DeliveryOf(s.jobs[id]).attempts + 1
      && status == StatusAfter(s.jobs[id].request.channel, outcome)
      && (DeliveryOf(t.jobs[id]).lastError == "" <==> status == DSent)
      && Working(t, worker, id, if status == DPending then Deciding else Finishing)
  {
    hide Updated, OnlyJob, StatusAfter, SendOut, Path, Goes, Conclude;
    var gone, mark;
    moves, gone, mark := MarksAndSends(s, worker, id, outcome);
    var last := WithDelivery(mark, Answered(DeliveryOf(mark), mark.request.channel, outcome));
    var pc := if DeliveryOf(last).status == DPending then Deciding else Finishing;
    Recorded(gone, worker, id, Concluding(outcome), last, Some(pc));
    ConcludesWith(gone, worker, id, mark, outcome);
    t := Updated(gone, worker, last, Confirmed, Some(pc));
    OneMoveMore(s, moves, Concludes(worker, Confirmed));
    moves := moves + [Concludes(worker, Confirmed)];
    OnlyJobOn(s, gone, t, worker, id, [outcome], []);
    assert [outcome] + [] == [outcome];
  }

  lemma ConcludesWith(s: State, worker: WorkerNo, id: JobId, mark: Job, outcome: Send)
    requires Working(s, worker, id, Concluding(outcome)) && HasDelivery(mark) && s.jobs[id] == mark
    ensures
      var last := WithDelivery(mark, Answered(DeliveryOf(mark), mark.request.channel, outcome));
      Conclude(s, worker, Confirmed)
      == Updated(s, worker, last, Confirmed, Some(if DeliveryOf(last).status == DPending then Deciding else Finishing))
  {
    hide Updated, StatusAfter;
  }

  /** A delivery loop that is not interrupted ends with a verdict. */
  lemma {:induction false} Delivers(s: State, worker: WorkerNo, id: JobId, outcomes: nat -> Send, k: nat)
    returns (moves: seq<Move>, t: State, sent: seq<Send>)
    requires Working(s, worker, id, Deciding) && HasDelivery(s.jobs[id])
    ensures Goes(s, moves) && t == Path(s, moves) && OnlyJob(s, t, worker, id, sent)
    ensures Working(t, worker, id, Finishing) && SameButDelivery(s.jobs[id], t.jobs[id])
    ensures forall i | 0 <= i < |sent| :: sent[i] == outcomes(k + i)
    ensures Verdict(s.jobs[id].request.channel, DeliveryOf(s.jobs[id]), sent, DeliveryOf(t.jobs[id]).status)
    ensures DeliveryOf(t.jobs[id]).lastError == "" <==> DeliveryOf(t.jobs[id]).status == DSent
    decreases MAX_DELIVERIES - DeliveryOf(s.jobs[id]).attempts
  {
    hide Updated, OnlyJob, Path, Goes, SameButDelivery, Verdict, StatusAfter;
    var job := s.jobs[id];
    var d := DeliveryOf(job);
    var cut := job.request.channel == Native && d.status == DSending;
    if cut || d.attempts >= MAX_DELIVERIES {
      var last := if cut then d.(status := DUnknown, lastError := RESTARTED)
        else d.(status := DFailed, lastError := if d.lastError == "" then UNCONFIRMED else d.lastError);
      Recorded(s, worker, id, Deciding, WithDelivery(job, last), Some(Finishing));
      OneMove(s, Decides(worker, Confirmed));
      moves, t, sent := [Decides(worker, Confirmed)], Moved(s, Decides(worker, Confirmed)), [];
      LastWritten(job, last);
    } else {
      var first := outcomes(k);
      moves, t := SendRound(s, worker, id, first);
      sent := [first];
      SameRequest(job, t.jobs[id]);
      if StatusAfter(job.request.channel, first) == DPending {
        var mid := t;
        var more, rest;
        more, t, rest := Delivers(mid, worker, id, outcomes, k + 1);
        PathJoins(s, moves, more);
        OnlyJobOn(s, mid, t, worker, id, sent, rest);
        SameOn(job, mid.jobs[id], t.jobs[id]);
        VerdictOn(job.request.channel, d, DeliveryOf(mid.jobs[id]), first, rest, DeliveryOf(t.jobs[id]).status);
        moves, sent := moves + more, sent + rest;
      } else {
        FirstVerdict(job.request.channel, d, first);
      }
    }
  }

  lemma LastWritten(job: Job, last: Delivery)
    requires HasDelivery(job)
    requires last.status == if job.request.channel == Native && DeliveryOf(job).status == DSending then DUnknown
                            else DFailed
    requires DeliveryOf(job).attempts >= MAX_DELIVERIES
             || (job.request.channel == Native && DeliveryOf(job).status == DSending)
    ensures SameButDelivery(job, WithDelivery(job, last)) && DeliveryOf(WithDelivery(job, last)) == last
    ensures Verdict(job.request.channel, DeliveryOf(job), [], last.status)
  {
  }

  lemma FirstVerdict(channel: Channel, d: Delivery, first: Send)
    requires StatusAfter(channel, first) != DPending
    ensures Verdict(channel, d, [first], StatusAfter(channel, first))
  {
  }

  lemma VerdictOn(channel: Channel, d: Delivery, after: Delivery, first: Send, rest: seq<Send>, end: DeliveryStatus)
    requires StatusAfter(channel, first) == DPending && after.status == DPending && after.attempts == d.attempts + 1
    requires Verdict(channel, after, rest, end)
    ensures Verdict(channel, d, [first] + rest, end)
  {
    if rest != [] {
      var sent := [first] + rest;
      assert sent[|sent| - 1] == rest[|rest| - 1];
      assert sent[..|sent| - 1] == [first] + rest[..|rest| - 1];
    }
  }

  // ---------------------------------------------------------------- one job, uninterrupted

  /** What a job comes to: failed if its source cannot be read, else succeeded with its report, and its notification, if
      it has one that was not settled before, with a verdict on what was sent, and with an error unless it was sent. */
  predicate Comes(was: Job, end: Job, text: Option<string>, sent: seq<Send>) {
    && end == was.(status := end.status, result := end.result)
    && if was.result.None? && text.None? then end.status == JFailed && end.result.None? && sent == []
       else
         && end.status == JSucceeded && end.result.Some?
         && end.result.value.text == (if was.result.Some? then was.result.value.text else text.value)
         && var found := if was.result.Some? then was.result.value.delivery
                         else if was.request.channel == NoChannel then None
                         else Some(Delivery(DPending, 0, ""));
            match found
            case None => end.result.value.delivery.None? && sent == []
            case Some(d) =>
              && end.result.value.delivery.Some?
              && if d.status in {DPending, DSending}
                 then && Verdict(was.request.channel, d, sent, end.result.value.delivery.value.status)
                      && (end.result.value.delivery.value.lastError == "" <==>
                            end.result.value.delivery.value.status == DSent)
                 else end.result.value.delivery == Some(d) && sent == []
  }

  /** The worker reads the source, unless there is a report already. */
  lemma Prepares(s: State, worker: WorkerNo, id: JobId, text: Option<string>) returns (moves: seq<Move>, t: State)
    requires Working(s, worker, id, Beginning) && s.jobs[id].status in {JQueued, JRunning}
    ensures Goes(s, moves) && t == Path(s, moves) && OnlyJob(s, t, worker, id, []) && t.file == FileOf(t.jobs)
    ensures
      var was, job := s.jobs[id], t.jobs[id];
      if was.result.None? && text.None?
      then worker !in t.working && job == was.(status := JFailed)
      else
        && job == was.(status := JRunning, result := job.result) && job.result.Some?
        && job.result == (if was.result.Some? then was.result
                          else Some(Report(text.value, if was.request.channel == NoChannel then None
                                                       else Some(Delivery(DPending, 0, "")))))
        && Working(t, worker, id, AfterReport(job.result.value))
  {
    hide Updated, OnlyJob, Path, Goes, AfterReport, FileOf;
    var was := s.jobs[id];
    var begun := was.(status := JRunning);
    Recorded(s, worker, id, Beginning, begun, Some(if was.result.None? then Reporting
      else AfterReport(was.result.value)));
    OneMove(s, Begins(worker, Confirmed));
    moves, t := [Begins(worker, Confirmed)], Moved(s, Begins(worker, Confirmed));
    if was.result.None? {
      var mid := t;
      var read, next := begun.(status := JFailed), None;
      if text.Some? {
        var report := Report(text.value, if was.request.channel == NoChannel then None
          else Some(Delivery(DPending, 0, "")));
        read, next := begun.(result := Some(report)), Some(AfterReport(report));
      }
      Recorded(mid, worker, id, Reporting, read, next);
      OneMoveMore(s, moves, Reports(worker, text, Confirmed));
      moves, t := moves + [Reports(worker, text, Confirmed)], Moved(mid, Reports(worker, text, Confirmed));
      var none: seq<Send> := [];
      OnlyJobOn(s, mid, t, worker, id, none, none);
      assert none + none == none;
    }
  }

  /** A queued or interrupted job that a worker takes up while the runner is open and its writes succeed comes to its
      end, whatever its source and its notification provider do, and its end is on disk. */
  lemma JobCompletes(s: State, worker: WorkerNo, id: JobId, text: Option<string>, outcomes: nat -> Send)
    returns (moves: seq<Move>, t: State, sent: seq<Send>)
    requires Working(s, worker, id, Beginning) && s.jobs[id].status in {JQueued, JRunning}
    ensures Goes(s, moves) && t == Path(s, moves)
    ensures OnlyJob(s, t, worker, id, sent) && worker !in t.working && t.file == FileOf(t.jobs)
    ensures forall i | 0 <= i < |sent| :: sent[i] == outcomes(i)
    ensures Comes(s.jobs[id], t.jobs[id], text, sent)
  {
    hide Updated, OnlyJob, Path, Goes, FileOf, Verdict, SameButDelivery, Comes, Settles, AfterReport;
    moves, t := Prepares(s, worker, id, text);
    sent := [];
    var was := s.jobs[id];
    if was.result.Some? || text.Some? {
      var prepared := t;
      moves, t, sent := Notifies(s, worker, id, outcomes, moves, prepared);
      ComesTo(was, prepared.jobs[id], t.jobs[id], text, sent);
      moves, t := FinishesJob(s, worker, id, moves, t, sent);
    } else {
      ComesToNothing(was);
    }
  }

  /** The notification, if there is one that is not settled. */
  lemma Notifies(s: State, worker: WorkerNo, id: JobId, outcomes: nat -> Send, before: seq<Move>, mid: State)
    returns (moves: seq<Move>, t: State, sent: seq<Send>)
    requires Goes(s, before) && mid == Path(s, before) && OnlyJob(s, mid, worker, id, [])
    requires id in mid.jobs && mid.jobs[id].result.Some?
    requires Working(mid, worker, id, AfterReport(mid.jobs[id].result.value))
    ensures Goes(s, moves) && t == Path(s, moves) && OnlyJob(s, t, worker, id, sent)
    ensures Working(t, worker, id, Finishing) && id in t.jobs
    ensures forall i | 0 <= i < |sent| :: sent[i] == outcomes(i)
    ensures Settles(mid.jobs[id], t.jobs[id], sent)
  {
    hide *;
    NextAfterReport(mid.jobs[id]);
    if Unsettled(mid.jobs[id]) {
      moves, t, sent := DeliversOn(s, worker, id, outcomes, before, mid);
    } else {
      moves, t, sent := before, mid, [];
    }
  }

  /** There is a delivery, and it is open. */
  predicate Unsettled(job: Job) {
    job.result.Some? && job.result.value.delivery.Some? && job.result.value.delivery.value.status in {DPending,
      DSending}
  }

  lemma NextAfterReport(job: Job)
    requires job.result.Some?
    ensures AfterReport(job.result.value) == if Unsettled(job) then Deciding else Finishing
    ensures !Unsettled(job) ==> Settles(job, job, [])
  {
  }

  lemma DeliversOn(s: State, worker: WorkerNo, id: JobId, outcomes: nat -> Send, before: seq<Move>, mid: State)
    returns (moves: seq<Move>, t: State, sent: seq<Send>)
    requires Goes(s, before) && mid == Path(s, before) && OnlyJob(s, mid, worker, id, [])
    requires Working(mid, worker, id, Deciding) && id in mid.jobs && Unsettled(mid.jobs[id])
    ensures Goes(s, moves) && t == Path(s, moves) && OnlyJob(s, t, worker, id, sent)
    ensures Working(t, worker, id, Finishing)
    ensures forall i | 0 <= i < |sent| :: sent[i] == outcomes(i)
    ensures id in t.jobs && Settles(mid.jobs[id], t.jobs[id], sent)
  {
    hide Updated, OnlyJob, Path, Goes, FileOf, Verdict, SameButDelivery;
    var more;
    more, t, sent := Delivers(mid, worker, id, outcomes, 0);
    PathJoins(s, before, more);
    OnlyJobOn(s, mid, t, worker, id, [], sent);
    assert [] + sent == sent;
    SameRest(mid.jobs[id], t.jobs[id]);
    moves := before + more;
  }

  /** An open delivery gets its verdict, and an error unless it was sent; anything else stays as it is. */
  predicate Settles(was: Job, end: Job, sent: seq<Send>)
  {
    if Unsettled(was)
    then && HasDelivery(end) && SameButDelivery(was, end)
         && Verdict(was.request.channel, DeliveryOf(was), sent, DeliveryOf(end).status)
         && (DeliveryOf(end).lastError == "" <==> DeliveryOf(end).status == DSent)
    else end == was && sent == []
  }

  lemma FinishesJob(s: State, worker: WorkerNo, id: JobId, before: seq<Move>, mid: State, sent: seq<Send>)
    returns (moves: seq<Move>, t: State)
    requires Goes(s, before) && mid == Path(s, before) && OnlyJob(s, mid, worker, id, sent)
    requires Working(mid, worker, id, Finishing)
    ensures Goes(s, moves) && t == Path(s, moves) && OnlyJob(s, t, worker, id, sent) && worker !in t.working
    ensures t.jobs[id] == mid.jobs[id].(status := JSucceeded) && t.file == FileOf(t.jobs)
  {
    hide Updated, OnlyJob, Path, Goes, FileOf;
    Recorded(mid, worker, id, Finishing, mid.jobs[id].(status := JSucceeded), None);
    OneMoveMore(s, before, Finishes(worker, Confirmed));
    moves, t := before + [Finishes(worker, Confirmed)], Moved(mid, Finishes(worker, Confirmed));
    OnlyJobOn(s, mid, t, worker, id, sent, []);
    assert sent + [] == sent;
  }

  lemma ComesToNothing(was: Job)
    requires was.result.None?
    ensures Comes(was, was.(status := JFailed), None, [])
  {
  }

  lemma ComesTo(was: Job, prepared: Job, end: Job, text: Option<string>, sent: seq<Send>)
    requires prepared == was.(status := JRunning, result := prepared.result) && prepared.result.Some?
    requires was.result.Some? || text.Some?
    requires prepared.result == if was.result.Some? then was.result
                                else Some(Report(text.value, if was.request.channel == NoChannel then None
                                                             else Some(Delivery(DPending, 0, ""))))
    requires Settles(prepared, end, sent)
    ensures Comes(was, end.(status := JSucceeded), text, sent)
  {
    hide Verdict, SameButDelivery;
    if Unsettled(prepared) { SameRest(prepared, end); }
  }

  lemma SameRest(was: Job, job: Job)
    requires SameButDelivery(was, job)
    ensures job == was.(result := job.result) && HasDelivery(job) && job.result.value.text == was.result.value.text
  {
  }

  // ---------------------------------------------------------------- starting again

  /** A start succeeds exactly on a file of at most the capacity whose entries name themselves and carry a fingerprint.
      It then has every job of the file with its request and fingerprint, and its queue holds each unfinished one once:
      a job that was interrupted is taken up again, a finished one is not. */
  lemma StartsIff(s: State, order: seq<JobId>)
    requires ResumeOrder(if Load(s.file).Some? then Load(s.file).value else map[], order)
    ensures
      var t := Restart(s, order);
      && (!t.closed <==>
            |s.file| <= 500 && forall id | id in s.file :: s.file[id].job.id == id && s.file[id].fingerprint != "")
      && t.working == map[] && t.handing == {} && t.file == s.file && t.sends == s.sends
      && (!t.closed ==>
            && t.jobs.Keys == s.file.Keys
            && (forall id | id in s.file ::
                  t.jobs[id] == s.file[id].job.(request := s.file[id].request, fingerprint := s.file[id].fingerprint))
            && (forall id :: id in t.queue <==> id in s.file && s.file[id].job.status in {JQueued, JRunning})
            && (forall i, j | 0 <= i < j < |t.queue| :: t.queue[i] != t.queue[j]))
  {
  }

  // ---------------------------------------------------------------- the order of the queue

  lemma QueueMoves(s: State, m: Move)
    requires Can(s, m) && !m.Restarting?
    ensures
      var t := Moved(s, m);
      && s.jobs.Keys <= t.jobs.Keys
      && (m.Taking? ==> t.queue == s.queue[1..] && t.working[m.worker].id == s.queue[0] && t.handing == s.handing)
      && (!m.Taking? ==> t.queue == s.queue || (m.Enqueuing? && t.queue == s.queue + [m.id]))
      && (forall id | id in t.handing :: id in s.handing || id !in s.jobs)
  {
    hide FileOf, Load, ResumeOrder, WithDelivery, StatusAfter, Updated, AfterReport, Submit, Decide, Answered;
    match m
    case Submitting(id, url, task, fingerprint, write) => SubmitKeepsQueue(s, id, url, task, fingerprint, write);
    case Begins(worker, write) => UpdatedKeepsQueue(s, worker, write);
    case Reports(worker, _, write) => UpdatedKeepsQueue(s, worker, write);
    case Decides(worker, write) => DecideKeepsQueue(s, worker, write);
    case Concludes(worker, write) => UpdatedKeepsQueue(s, worker, write);
    case Finishes(worker, write) => UpdatedKeepsQueue(s, worker, write);
    case _ =>
  }

  lemma SubmitKeepsQueue(s: State, id: JobId, url: string, task: Task, fingerprint: string, write: Write)
    ensures
      var t := Submit(s, id, url, task, fingerprint, write);
      && t.queue == s.queue && s.jobs.Keys <= t.jobs.Keys
      && (forall other | other in t.handing :: other in s.handing || other !in s.jobs)
  {
    hide FileOf;
  }

  lemma DecideKeepsQueue(s: State, worker: WorkerNo, write: Write)
    requires worker in s.working
    ensures
      var t := Decide(s, worker, write);
      t.queue == s.queue && t.handing == s.handing && s.jobs.Keys <= t.jobs.Keys
  {
    hide Updated;
    UpdatedKeepsQueue(s, worker, write);
  }

  lemma UpdatedKeepsQueue(s: State, worker: WorkerNo, write: Write)
    requires worker in s.working
    ensures forall job, next ::
              var t := Updated(s, worker, job, write, next);
              t.queue == s.queue && t.handing == s.handing && s.jobs.Keys <= t.jobs.Keys
  {
    hide FileOf;
  }

  /** Until the next restart jobs leave the queue in the order in which they were queued, and none comes back. */
  lemma {:induction false} LeaveInOrder(states: seq<State>, moves: seq<Move>, i: nat, j: nat) returns (n: nat)
    requires i <= j < |states| && |states| == |moves| + 1
    requires forall k | i <= k < j :: !moves[k].Restarting?
    requires Life(states, moves)
    ensures n <= |states[i].queue| <= |states[j].queue| + n
    ensures states[j].queue[..|states[i].queue| - n] == states[i].queue[n..]
    ensures forall id | id in states[j].queue[|states[i].queue| - n..] :: id !in states[i].queue
    ensures forall id | id in states[i].queue :: id in states[j].jobs && id !in states[j].handing
    decreases j
  {
    hide Can, Moved, Ok;
    var first := states[i].queue;
    if i == j {
      LifeOk(states, moves, i);
      QueuedAreKnown(states[i]);
      n := 0;
      assert first[..|first|] == first;
    } else {
      n := LeaveInOrder(states, moves, i, j - 1);
      var s, m, t := states[j - 1], moves[j - 1], states[j];
      assert Can(s, m) && t == Moved(s, m);
      QueueMoves(s, m);
      var left := |first| - n;
      assert s.queue == s.queue[..left] + s.queue[left..];
      if m.Taking? && left > 0 {
        n := n + 1;
        assert first[n..] == first[n - 1..][1..];
      } else if m.Enqueuing? && t.queue == s.queue + [m.id] && t.queue != s.queue {
        EnqueuedWasHanded(s, m);
      }
    }
  }

  lemma QueuedAreKnown(s: State)
    requires Ok(s)
    ensures forall id | id in s.queue :: id in s.jobs && id !in s.handing
  {
    hide Durable, Counted;
  }

  lemma EnqueuedWasHanded(s: State, m: Move)
    requires m.Enqueuing? && Can(s, m)
    ensures m.id in s.handing
  {
  }
}
