/** Sequences of runner moves, and what one worker can rely on while everyone else moves. */
module RunnerPaths {
  import opened Domain
  import opened Runner
  import opened RunnerProofs

  function Path(s: State, moves: seq<Move>): State
    requires Goes(s, moves)
    decreases |moves|
  {
    if moves == [] then s else Path(Moved(s, moves[0]), moves[1..])
  }

  /** Every move can be made when its turn comes. */
  predicate Goes(s: State, moves: seq<Move>)
    decreases |moves|
  {
    moves == [] || (Can(s, moves[0]) && Goes(Moved(s, moves[0]), moves[1..]))
  }

  lemma {:induction false} PathJoins(s: State, first: seq<Move>, second: seq<Move>)
    requires Goes(s, first) && Goes(Path(s, first), second)
    ensures Goes(s, first + second) && Path(s, first + second) == Path(Path(s, first), second)
    decreases |first|
  {
    hide Can, Moved;
    if first == [] {
      assert first + second == second;
    } else {
      PathJoins(Moved(s, first[0]), first[1..], second);
      assert (first + second)[1..] == first[1..] + second;
    }
  }

  lemma OneMove(s: State, m: Move)
    requires Can(s, m)
    ensures Goes(s, [m]) && Path(s, [m]) == Moved(s, m)
  {
    hide Can, Moved;
    assert Goes(Moved(s, m), []) && Path(Moved(s, m), []) == Moved(s, m);
  }

  lemma OneMoveMore(s: State, moves: seq<Move>, m: Move)
    requires Goes(s, moves) && Can(Path(s, moves), m)
    ensures Goes(s, moves + [m]) && Path(s, moves + [m]) == Moved(Path(s, moves), m)
  {
    hide Can, Moved, Path, Goes;
    OneMove(Path(s, moves), m);
    PathJoins(s, moves, [m]);
  }

  /** A move of a handler, of another worker, or the shutdown. */
  predicate ByOthers(m: Move, worker: WorkerNo) {
    match m
    case Taking(w) => w != worker
    case Begins(w, _) => w != worker
    case Reports(w, _, _) => w != worker
    case Decides(w, _) => w != worker
    case Sends(w, _) => w != worker
    case Concludes(w, _) => w != worker
    case Finishes(w, _) => w != worker
    case Leaves(w) => w != worker
    case Restarting(_) => false
    case _ => true
  }

  predicate AllByOthers(moves: seq<Move>, worker: WorkerNo) { forall m | m in moves :: ByOthers(m, worker) }

  /** What others leave to a worker: its place, its job and what was sent for it. */
  predicate Kept(s: State, t: State, worker: WorkerNo)
    requires worker in s.working
  {
    var id := s.working[worker].id;
    && worker in t.working && t.working[worker] == s.working[worker]
    && (id in s.jobs ==> id in t.jobs && t.jobs[id] == s.jobs[id])
    && SendsOf(t, id) == SendsOf(s, id) && (s.closed ==> t.closed)
  }

  lemma LeftKeeps(s: State, worker: WorkerNo, other: WorkerNo)
    requires worker in s.working && other != worker
    ensures Kept(s, Left(s, other), worker)
  {
  }

  lemma OtherWorkerKeeps(s: State, worker: WorkerNo, other: WorkerNo, job: Job, write: Write, next: Option<Pc>)
    requires worker in s.working && other in s.working && other != worker && Placed(s)
    ensures Kept(s, Updated(s, other, job, write, next), worker)
  {
    hide FileOf;
  }

  lemma UpdatesKeep(s: State, worker: WorkerNo, other: WorkerNo, write: Write)
    requires worker in s.working && other in s.working && other != worker && Placed(s)
    ensures forall job, next :: Kept(s, Updated(s, other, job, write, next), worker)
    ensures Kept(s, Left(s, other), worker)
  {
    hide Updated, Kept, Placed;
    LeftKeeps(s, worker, other);
    forall job, next ensures Kept(s, Updated(s, other, job, write, next), worker) {
      OtherWorkerKeeps(s, worker, other, job, write, next);
    }
  }

  lemma OtherKeeps(s: State, m: Move, worker: WorkerNo)
    requires Can(s, m) && ByOthers(m, worker) && worker in s.working && Placed(s)
    ensures Kept(s, Moved(s, m), worker)
  {
    hide FileOf, Updated, Kept, Placed;
    match m
    case Begins(w, write) =>
      BeginKeeps(s, worker, w, write);
    case Reports(w, text, write) =>
      ReportKeeps(s, worker, w, text, write);
    case Decides(w, write) =>
      DecideKeeps(s, worker, w, write);
    case Concludes(w, write) =>
      ConcludeKeeps(s, worker, w, write);
    case Finishes(w, write) =>
      FinishKeeps(s, worker, w, write);
    case _ =>
      QuietKeeps(s, m, worker);
  }

  lemma BeginKeeps(s: State, worker: WorkerNo, w: WorkerNo, write: Write)
    requires worker in s.working && w in s.working && w != worker && Placed(s)
    ensures Kept(s, Begin(s, w, write), worker)
  {
    hide Updated, Left, Kept, Placed;
    UpdatesKeep(s, worker, w, write);
  }

  lemma ReportKeeps(s: State, worker: WorkerNo, w: WorkerNo, text: Option<string>, write: Write)
    requires worker in s.working && w in s.working && w != worker && Placed(s)
    ensures Kept(s, MakeReport(s, w, text, write), worker)
  {
    hide Updated, Left, Kept, Placed;
    UpdatesKeep(s, worker, w, write);
  }

  lemma DecideKeeps(s: State, worker: WorkerNo, w: WorkerNo, write: Write)
    requires worker in s.working && w in s.working && w != worker && Placed(s)
    ensures Kept(s, Decide(s, w, write), worker)
  {
    hide Updated, Left, Kept, Placed;
    UpdatesKeep(s, worker, w, write);
  }

  lemma ConcludeKeeps(s: State, worker: WorkerNo, w: WorkerNo, write: Write)
    requires worker in s.working && w in s.working && w != worker && Placed(s) && s.working[w].pc.Concluding?
    ensures Kept(s, Conclude(s, w, write), worker)
  {
    hide Updated, Left, Kept, Placed;
    UpdatesKeep(s, worker, w, write);
  }

  lemma FinishKeeps(s: State, worker: WorkerNo, w: WorkerNo, write: Write)
    requires worker in s.working && w in s.working && w != worker && Placed(s)
    ensures Kept(s, Finish(s, w, write), worker)
  {
    hide Updated, Left, Kept, Placed;
    UpdatesKeep(s, worker, w, write);
  }

  lemma SubmitKeeps(s: State, worker: WorkerNo, m: Move)
    requires m.Submitting? && worker in s.working
    ensures Kept(s, Submit(s, m.id, m.url, m.task, m.fingerprint, m.write), worker)
  {
    hide FileOf;
  }

  lemma QuietKeeps(s: State, m: Move, worker: WorkerNo)
    requires Can(s, m) && ByOthers(m, worker) && worker in s.working && Placed(s)
    requires m.Submitting? || m.Enqueuing? || m.Taking? || m.Sends? || m.Leaves? || m.Closing?
    ensures Kept(s, Moved(s, m), worker)
  {
    hide FileOf, Submit;
    if m.Submitting? { SubmitKeeps(s, worker, m); }
  }

  /** Whatever the others do, in any number of moves, the state stays sound and the worker's own part is kept. */
  lemma {:induction false} OthersKeep(s: State, moves: seq<Move>, worker: WorkerNo)
    requires Goes(s, moves) && AllByOthers(moves, worker) && worker in s.working
    requires Ok(s)
    ensures Ok(Path(s, moves)) && Kept(s, Path(s, moves), worker)
    decreases |moves|
  {
    hide Can, Moved, Durable, Placed, Counted, SendsOf, ByOthers;
    if moves != [] {
      var t := Moved(s, moves[0]);
      MoveOk(s, moves[0]);
      OtherKeeps(s, moves[0], worker);
      JobIsThere(s, worker);
      OthersKeep(t, moves[1..], worker);
    }
  }

  lemma JobIsThere(s: State, worker: WorkerNo)
    requires worker in s.working && Ok(s)
    ensures s.working[worker].id in s.jobs
  {
    hide Durable, Counted;
  }

  lemma UpdateStaysOpen(s: State, worker: WorkerNo, job: Job, write: Write, next: Option<Pc>)
    requires worker in s.working
    ensures Updated(s, worker, job, write, next).closed == s.closed
  {
    hide FileOf;
  }

  lemma WorkStaysOpen(s: State, m: Move, worker: WorkerNo, write: Write)
    requires Can(s, m) && worker in s.working
    requires m == Begins(worker, write) || m == Decides(worker, write) || m == Concludes(worker, write)
             || m == Finishes(worker, write) || (m.Reports? && m == Reports(worker, m.text, write))
    ensures Moved(s, m).closed == s.closed
  {
    hide Updated;
    forall job, next ensures Updated(s, worker, job, write, next).closed == s.closed {
      UpdateStaysOpen(s, worker, job, write, next);
    }
  }

  lemma MoveStaysOpen(s: State, m: Move)
    requires Can(s, m) && !s.closed && !m.Closing? && !m.Restarting?
    ensures !Moved(s, m).closed
  {
    hide FileOf, Updated, Begin, MakeReport, Decide, Conclude, Finish;
    match m
    case Begins(w, write) => WorkStaysOpen(s, m, w, write);
    case Reports(w, _, write) => WorkStaysOpen(s, m, w, write);
    case Decides(w, write) => WorkStaysOpen(s, m, w, write);
    case Concludes(w, write) => WorkStaysOpen(s, m, w, write);
    case Finishes(w, write) => WorkStaysOpen(s, m, w, write);
    case _ =>
  }

  lemma {:induction false} StaysOpen(s: State, moves: seq<Move>)
    requires Goes(s, moves) && !s.closed && forall m | m in moves :: !m.Closing? && !m.Restarting?
    ensures !Path(s, moves).closed
    decreases |moves|
  {
    hide Can, Moved;
    if moves != [] {
      MoveStaysOpen(s, moves[0]);
      StaysOpen(Moved(s, moves[0]), moves[1..]);
    }
  }

  // ---------------------------------------------------------------- what a worker's own moves do

  /** A recorded change moves the worker on; any other ends its turn. */
  lemma UpdatedFacts(s: State, worker: WorkerNo, job: Job, write: Write, next: Pc)
    requires worker in s.working && s.working[worker].id in s.jobs
    ensures
      var t, id := Updated(s, worker, job, write, Some(next)), s.working[worker].id;
      && t.sends == s.sends && t.closed == s.closed && t.queue == s.queue && t.handing == s.handing
      && (if !s.closed && write == Confirmed
          then t.jobs == s.jobs[id := job] && worker in t.working && t.working[worker] == Work(id, next)
          else t.jobs == s.jobs && worker !in t.working)
  {
    hide FileOf;
  }
}
