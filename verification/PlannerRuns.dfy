/** The planner inside the ledger: passes whose inserts are single ledger transactions, between which dispatchers,
    workers, manual triggers and retention go on. The cadence theorem holds of every such run of the ledger machine. */
module PlannerRuns {
  import opened Domain
  import opened Ledger
  import opened LedgerInvariants
  import opened LedgerRuns
  import opened LedgerProofs
  import opened Timecalc
  import opened Planner
  import opened PlannerTheorems
  import opened PlannerLedger

  /** A tick under way: what it found due, when it began, and how many inserts it has done. */
  datatype Pass = Pass(due: seq<Time>, now: Time, done: nat)

  /** The ledger with one schedule's NextRunAt, its last tick and the tick under way; `upto` is history. */
  datatype Joint = Joint(w: World, nextRunAt: Option<Time>, now: Time, upto: Time, pass: Option<Pass>)

  datatype JointStep =
    | Other(op: Op)                  // any transaction of anyone else
    | Begin(now: Time)
    | Plan(id: RunId, at: Time)      // the pass inserts its next due slot
    | Commit                         // it writes NextRunAt
    | Stop                           // it fails, or the process dies

  function PassRow(f: Fixed, pass: Pass, id: RunId, at: Time): Run
    requires pass.done < |pass.due|
  {
    var nominal := pass.due[pass.done];
    PlannedRun(f.schedule, nominal, ToRun(f.misfire, pass.done, |pass.due|, nominal, pass.now, f.grace), f.misfire, id,
               at)
  }

  predicate HasNext(j: Joint) { j.pass.Some? && j.pass.value.done < |j.pass.value.due| }

  /** What a step does to the ledger; a step of the planner alone lets no time pass. */
  function OpOf(f: Fixed, j: Joint, step: JointStep): Op
    requires step.Plan? ==> HasNext(j)
  {
    match step
    case Other(op) => op
    case Plan(id, at) => Insert(PassRow(f, j.pass.value, id, at))
    case _ => Advance(j.w.clock)
  }

  ghost predicate Can(f: Fixed, j: Joint, step: JointStep) {
    match step
    case Other(op) =>
      && Enabled(j.w, op)
      && (op.Insert? ==> !(op.run.key.Slot? && op.run.key.schedule == f.schedule))
    case Begin(now) => j.pass.None? && j.now <= now <= j.w.clock
    case Plan(id, at) =>
      && HasNext(j) && id !in j.w.ids && at <= j.w.clock && f.schedule in j.w.db.enabled
      && Guarded(j.w.db.runs, OccurrenceKey(f.schedule, j.pass.value.due[j.pass.value.done]))
    case Commit => j.pass.Some? && j.pass.value.done == |j.pass.value.due| && j.nextRunAt.Some?
    case Stop => true
  }

  ghost function Then(f: Fixed, j: Joint, step: JointStep): Joint
    requires LeastNext(f.next) && Can(f, j, step)
  {
    var t := j.(w := Step(j.w, OpOf(f, j, step)));
    match step
    case Other(_) => t
    case Begin(now) =>
      if j.nextRunAt.None? then t.(nextRunAt := f.next(now - 1), now := now)
      else if j.nextRunAt.value > now then t.(now := now)
      else t.(now := now, pass := Some(Pass(Due(f.next, j.nextRunAt.value, now), now, 0)))
    case Plan(_, _) =>
      var slot := j.pass.value.due[j.pass.value.done];
      t.(upto := if slot >= j.upto then slot + 1 else j.upto,
        pass := Some(j.pass.value.(done := j.pass.value.done + 1)))
    case Commit => t.(nextRunAt := Following(f.next, j.nextRunAt.value, j.pass.value.now), pass := None)
    case Stop => t.(pass := None)
  }

  /** The schedule is created at some moment of a run of the ledger. */
  ghost predicate CreatedIn(f: Fixed, j: Joint) {
    && j.nextRunAt == f.next(f.start - 1) && j.now == f.start <= j.w.clock && j.upto == f.start && j.pass.None?
    && (forall id | id in j.w.db.runs :: !(j.w.db.runs[id].key.Slot? && j.w.db.runs[id].key.schedule == f.schedule))
  }

  /** A run of the ledger up to the creation, and the joint run that follows. */
  ghost predicate Joined(f: Fixed, pre: seq<World>, preOps: seq<Op>, js: seq<Joint>, steps: seq<JointStep>) {
    && LeastNext(f.next)
    && |pre| == |preOps| + 1 && Behaviour(pre, preOps)
    && |js| == |steps| + 1 && js[0].w == pre[|preOps|] && CreatedIn(f, js[0])
    && forall i {:trigger steps[i]} | 0 <= i < |steps| ::
          Can(f, js[i], steps[i]) && js[i + 1] == Then(f, js[i], steps[i])
  }

  // ---------------------------------------------------------------- the invariant

  /** Recorded slots are of the stretch so far. */
  ghost predicate Tracks(f: Fixed, j: Joint) {
    forall second | Recorded(j.w.db, f.schedule, second) :: SlotIn(f.next, f.start, j.upto, second)
  }

  /** The stretch covers everything before NextRunAt, and the pass goes through what is due from there on. */
  ghost predicate Paced(f: Fixed, j: Joint)
    requires LeastNext(f.next)
  {
    && f.start <= j.now <= j.w.clock && f.start <= j.upto <= j.now + 1
    && (match j.nextRunAt
        case Some(n) =>
          && IsNextSlot(f.next, n) && f.start <= n
          && (forall t | IsNextSlot(f.next, t) && f.start <= t < n :: t < j.upto)
        case None => forall t | IsNextSlot(f.next, t) && f.start <= t :: t < j.upto)
    && (j.pass.Some? ==> Underway(f, j, j.pass.value))
  }

  ghost predicate Underway(f: Fixed, j: Joint, p: Pass)
    requires LeastNext(f.next)
  {
    && j.nextRunAt.Some? && j.nextRunAt.value <= p.now == j.now && p.due == Due(f.next, j.nextRunAt.value, p.now)
    && p.done <= |p.due| && (p.done > 0 ==> p.due[p.done - 1] < j.upto)
  }

  lemma CreatedTracks(f: Fixed, j: Joint)
    requires LeastNext(f.next) && CreatedIn(f, j)
    ensures Tracks(f, j) && Paced(f, j)
  {
    hide LeastNext, Unix;
    if f.next(f.start - 1).Some? { NextIsSlot(f.next, f.start - 1); } else { NoneAfter(f.next, f.start - 1); }
    forall second ensures !Recorded(j.w.db, f.schedule, second) { }
    hide Recorded, SlotIn, HasAttempt, IsNextSlot;
  }

  // ---------------------------------------------------------------- steps of everyone else

  lemma PruneRecordsNothing(w: World, op: Op, schedule: ScheduleId, second: int)
    requires op.PruneBefore? && Recorded(Step(w, op).db, schedule, second)
    ensures Recorded(w.db, schedule, second)
  {
    hide Prunable, LiveTokens, CauseOf, Compactable;
  }

  lemma ClockAdvances(w: World, op: Op)
    requires Enabled(w, op)
    ensures Step(w, op).clock >= w.clock
  {
    hide Apply, CauseOf, LiveTokens;
    if op.Advance? { } else { hide Enabled; }
  }

  lemma OtherTracks(f: Fixed, j: Joint, op: Op)
    requires LeastNext(f.next) && Can(f, j, Other(op)) && Tracks(f, j) && Inv(j.w)
    ensures Tracks(f, Then(f, j, Other(op)))
  {
    var w := Step(j.w, op);
    hide LeastNext, Enabled, Inv, Step, Recorded, SlotIn;
    forall second | Recorded(w.db, f.schedule, second) ensures Recorded(j.w.db, f.schedule, second) {
      OtherRecords(f, j, op, second);
    }
  }

  lemma OtherRecords(f: Fixed, j: Joint, op: Op, second: int)
    requires Can(f, j, Other(op)) && Recorded(Step(j.w, op).db, f.schedule, second)
    requires Inv(j.w)
    ensures Recorded(j.w.db, f.schedule, second)
  {
    hide Inv, Enabled, Step, Recorded;
    StepDb(j.w, op);
    if op.PruneBefore? {
      PruneRecordsNothing(j.w, op, f.schedule, second);
    } else {
      OthersKeepSlots(j.w, op, f.schedule, second);
    }
  }

  // ---------------------------------------------------------------- the planner's own steps

  lemma IdleStep(w: World)
    ensures Enabled(w, Advance(w.clock)) && Step(w, Advance(w.clock)).db == w.db
    ensures Step(w, Advance(w.clock)).clock == w.clock
  {
    hide LiveTokens;
  }

  /** The row a pass inserts is one the ledger allows. */
  lemma PlanIsAllowed(f: Fixed, j: Joint, id: RunId, at: Time)
    requires LeastNext(f.next) && Can(f, j, Plan(id, at)) && Paced(f, j)
    ensures Enabled(j.w, Insert(PassRow(f, j.pass.value, id, at)))
    ensures IsNextSlot(f.next, j.pass.value.due[j.pass.value.done])
    ensures f.start <= j.pass.value.due[j.pass.value.done] <= j.now
  {
    hide LeastNext, Due, IsNextSlot, HasAttempt;
    var p := j.pass.value;
    DueIsCadence(f.next, j.nextRunAt.value, p.now);
    assert p.due[p.done] in p.due;
    hide Paced, KeyPresent;
  }

  lemma InsertedSlot(db: Db, row: Run, schedule: ScheduleId, second: int)
    requires row.attempt == 1 && row.key.Slot? && row.id !in db.runs
    requires row.schedule == row.key.schedule && row.schedule in db.enabled
    ensures Recorded(InsertRun(db, row).db, schedule, second) <==>
              Recorded(db, schedule, second) || row.key == Slot(schedule, second)
  {
    var after := InsertRun(db, row).db;
    if Recorded(db, schedule, second) { RecordedStays(db, after, schedule, second); }
    if row.key == Slot(schedule, second) { InsertRecords(db, row); }
  }

  lemma PlanShape(f: Fixed, j: Joint, id: RunId, at: Time)
    requires LeastNext(f.next) && Can(f, j, Plan(id, at))
    ensures
      var t, slot := Then(f, j, Plan(id, at)), j.pass.value.due[j.pass.value.done];
      && t.upto == (if slot >= j.upto then slot + 1 else j.upto) && t.nextRunAt == j.nextRunAt && t.now == j.now
      && t.pass == Some(j.pass.value.(done := j.pass.value.done + 1))
      && t.w == Step(j.w, Insert(PassRow(f, j.pass.value, id, at))) && HasNext(j)
  {
    hide LeastNext, Step, Enabled, PassRow;
  }

  /** The stretch grows by the slot inserted. */
  lemma StretchGrows(f: Fixed, before: Db, after: Db, upto: Time, upto': Time, slot: Time)
    requires forall second | Recorded(before, f.schedule, second) :: SlotIn(f.next, f.start, upto, second)
    requires forall second :: Recorded(after, f.schedule, second) <==>
               Recorded(before, f.schedule, second) || second == Unix(slot)
    requires upto <= upto' && f.start <= slot < upto' && IsNextSlot(f.next, slot)
    ensures forall second | Recorded(after, f.schedule, second) :: SlotIn(f.next, f.start, upto', second)
  {
    hide Recorded, Unix, IsNextSlot;
  }

  lemma PlanTracks(f: Fixed, j: Joint, id: RunId, at: Time)
    requires LeastNext(f.next) && Can(f, j, Plan(id, at)) && Paced(f, j) && Tracks(f, j) && Inv(j.w)
    ensures Tracks(f, Then(f, j, Plan(id, at)))
  {
    hide LeastNext, Enabled, Inv, Step, Recorded, Unix, PassRow, Due, IsNextSlot, SlotIn, Paced, Can, Then;
    PlanShape(f, j, id, at);
    var t := Then(f, j, Plan(id, at));
    PlanIsAllowed(f, j, id, at);
    PlanRecords(f, j, id, at);
    StretchGrows(f, j.w.db, t.w.db, j.upto, t.upto, j.pass.value.due[j.pass.value.done]);
  }

  /** Between the stretch and the next due slot lies no other slot. */
  lemma NextDueSlot(f: Fixed, j: Joint, u: Time)
    requires LeastNext(f.next) && Paced(f, j) && HasNext(j)
    requires IsNextSlot(f.next, u) && f.start <= u && j.upto <= u <= j.pass.value.due[j.pass.value.done]
    ensures u == j.pass.value.due[j.pass.value.done]
  {
    hide LeastNext, Due, IsNextSlot;
    var p := j.pass.value;
    DueIsCadence(f.next, j.nextRunAt.value, p.now);
    assert j.nextRunAt.value <= u;
    assert p.due[p.done] in p.due && u in p.due;
    var i :| 0 <= i < |p.due| && p.due[i] == u;
    assert i <= p.done;
    assert p.done > 0 ==> i != p.done - 1;
  }

  lemma PlanRecords(f: Fixed, j: Joint, id: RunId, at: Time)
    requires LeastNext(f.next) && Can(f, j, Plan(id, at)) && Inv(j.w)
    ensures forall second :: Recorded(Then(f, j, Plan(id, at)).w.db, f.schedule, second) <==>
              Recorded(j.w.db, f.schedule, second) || second == Unix(j.pass.value.due[j.pass.value.done])
  {
    var row := PassRow(f, j.pass.value, id, at);
    FreshRow(j.w, id);
    StepDb(j.w, Insert(row));
    hide Inv, Step, Recorded, Unix, LeastNext, InsertRun;
    forall second { InsertedSlot(j.w.db, row, f.schedule, second); }
  }

  lemma FreshRow(w: World, id: RunId)
    requires id !in w.ids
    requires Inv(w)
    ensures id !in w.db.runs
  {
    hide TablesOk;
  }

  lemma PlanPaced(f: Fixed, j: Joint, id: RunId, at: Time)
    requires LeastNext(f.next) && Can(f, j, Plan(id, at)) && Paced(f, j) && Tracks(f, j)
    ensures Paced(f, Then(f, j, Plan(id, at)))
  {
    hide LeastNext, Enabled, Step, PassRow, Due, IsNextSlot, Tracks, Can, Then;
    PlanShape(f, j, id, at);
    PlanIsAllowed(f, j, id, at);
    ClockAdvances(j.w, Insert(PassRow(f, j.pass.value, id, at)));
  }

  lemma OtherPaced(f: Fixed, j: Joint, op: Op)
    requires LeastNext(f.next) && Can(f, j, Other(op)) && Paced(f, j)
    ensures Paced(f, Then(f, j, Other(op)))
  {
    hide LeastNext, Enabled, Step, Due, IsNextSlot;
    ClockAdvances(j.w, op);
  }

  lemma BeginPaced(f: Fixed, j: Joint, now: Time)
    requires LeastNext(f.next) && Can(f, j, Begin(now)) && Paced(f, j)
    ensures Paced(f, Then(f, j, Begin(now)))
    ensures Then(f, j, Begin(now)).w.db == j.w.db && Then(f, j, Begin(now)).upto == j.upto
  {
    hide LeastNext, Enabled, Step, Due;
    IdleStep(j.w);
    if j.nextRunAt.None? && f.next(now - 1).Some? { NextIsSlot(f.next, now - 1); }
  }

  /** A finished pass has recorded everything up to its moment. */
  lemma CommitPaced(f: Fixed, j: Joint)
    requires LeastNext(f.next) && Can(f, j, Commit) && Paced(f, j)
    ensures Paced(f, Then(f, j, Commit))
    ensures Then(f, j, Commit).w.db == j.w.db && Then(f, j, Commit).upto == j.upto
    ensures forall u | IsNextSlot(f.next, u) && f.start <= u <= j.now :: u < j.upto
  {
    hide LeastNext, Enabled, Step, Due, Following;
    IdleStep(j.w);
    var p := j.pass.value;
    var from := j.nextRunAt.value;
    FollowingIsNext(f.next, from, p.now);
    AllDue(f, j);
    if f.next(p.now).Some? { NextIsSlot(f.next, p.now); } else { NoneAfter(f.next, p.now); }
  }

  lemma AllDue(f: Fixed, j: Joint)
    requires LeastNext(f.next) && Can(f, j, Commit) && Paced(f, j)
    ensures forall u | IsNextSlot(f.next, u) && f.start <= u <= j.now :: u < j.upto
  {
    hide LeastNext, Due;
    var p := j.pass.value;
    DueIsCadence(f.next, j.nextRunAt.value, p.now);
    forall u | IsNextSlot(f.next, u) && f.start <= u <= j.now ensures u < j.upto {
      if j.nextRunAt.value <= u {
        assert u in p.due;
        var i :| 0 <= i < |p.due| && p.due[i] == u;
        assert i == p.done - 1 || p.due[i] < p.due[p.done - 1];
      }
    }
  }

  lemma StopPaced(f: Fixed, j: Joint)
    requires LeastNext(f.next) && Can(f, j, Stop) && Paced(f, j)
    ensures Paced(f, Then(f, j, Stop))
    ensures Then(f, j, Stop).w.db == j.w.db && Then(f, j, Stop).upto == j.upto
  {
    hide LeastNext, Enabled, Step, Due;
    IdleStep(j.w);
  }

  lemma SameTracks(f: Fixed, j: Joint, t: Joint)
    requires Tracks(f, j) && t.w.db == j.w.db && t.upto == j.upto
    ensures Tracks(f, t)
  {
    hide Recorded, SlotIn;
  }

  /** Whatever the step, it is one the ledger allows, and the planner keeps up. */
  lemma StepTracks(f: Fixed, j: Joint, step: JointStep)
    requires LeastNext(f.next) && Can(f, j, step) && Paced(f, j) && Tracks(f, j) && Inv(j.w)
    ensures Enabled(j.w, OpOf(f, j, step)) && Then(f, j, step).w == Step(j.w, OpOf(f, j, step))
    ensures Paced(f, Then(f, j, step)) && Tracks(f, Then(f, j, step))
  {
    StepIsLedgerStep(f, j, step);
    hide LeastNext, Enabled, Inv, Step, Paced, Tracks, Then, OpOf, Can;
    match step
    case Other(op) =>
      OtherTracks(f, j, op);
      OtherPaced(f, j, op);
    case Begin(now) =>
      BeginPaced(f, j, now);
      SameTracks(f, j, Then(f, j, step));
    case Plan(id, at) =>
      PlanTracks(f, j, id, at);
      PlanPaced(f, j, id, at);
    case Commit =>
      CommitPaced(f, j);
      SameTracks(f, j, Then(f, j, step));
    case Stop =>
      StopPaced(f, j);
      SameTracks(f, j, Then(f, j, step));
  }

  lemma StepIsLedgerStep(f: Fixed, j: Joint, step: JointStep)
    requires LeastNext(f.next) && Can(f, j, step) && Paced(f, j) && Tracks(f, j)
    ensures Enabled(j.w, OpOf(f, j, step)) && Then(f, j, step).w == Step(j.w, OpOf(f, j, step))
  {
    hide LeastNext, Enabled, Step, Paced, Tracks, PassRow, Due, Following;
    IdleStep(j.w);
    if step.Plan? { PlanIsAllowed(f, j, step.id, step.at); }
  }

  // ---------------------------------------------------------------- the promises, of runs of the ledger

  lemma JoinedStep(f: Fixed, pre: seq<World>, preOps: seq<Op>, js: seq<Joint>, steps: seq<JointStep>, i: nat)
    requires i < |steps|
    requires Joined(f, pre, preOps, js, steps)
    ensures LeastNext(f.next) && |js| == |steps| + 1
    ensures Can(f, js[i], steps[i]) && js[i + 1] == Then(f, js[i], steps[i])
  {
    hide LeastNext, Behaviour, CreatedIn, Can, Then;
  }

  lemma JoinedShape(f: Fixed, pre: seq<World>, preOps: seq<Op>, js: seq<Joint>, steps: seq<JointStep>)
    requires Joined(f, pre, preOps, js, steps)
    ensures LeastNext(f.next) && |js| == |steps| + 1
  {
    hide LeastNext, Behaviour, CreatedIn, Can, Then;
  }

  lemma PlansHaveNext(f: Fixed, j: Joint, step: JointStep)
    requires Can(f, j, step) && step.Plan?
    ensures HasNext(j)
  {
  }

  /** What the planner and everyone else do together is a run of the ledger, step by step. */
  lemma {:induction false} JoinedIsBehaviour(f: Fixed, pre: seq<World>, preOps: seq<Op>, js: seq<Joint>,
                                             steps: seq<JointStep>, n: nat)
    returns (worlds: seq<World>, ops: seq<Op>)
    requires n < |js|
    requires Joined(f, pre, preOps, js, steps)
    ensures |ops| == |preOps| + n && |worlds| == |ops| + 1 && Behaviour(worlds, ops)
    ensures forall k | 0 <= k <= n :: worlds[|preOps| + k] == js[k].w
    ensures forall k | 0 <= k < n :: Can(f, js[k], steps[k]) && ops[|preOps| + k] == OpOf(f, js[k], steps[k])
    ensures LeastNext(f.next) && Paced(f, js[n]) && Tracks(f, js[n]) && Inv(js[n].w)
    decreases n
  {
    hide LeastNext, Behaviour, CreatedIn, Can, Then, Paced, Tracks, Inv, Enabled, Step, OpOf;
    if n == 0 {
      worlds, ops := pre, preOps;
      CreatedTracks(f, js[0]);
    } else {
      JoinedStep(f, pre, preOps, js, steps, n - 1);
      worlds, ops := JoinedIsBehaviour(f, pre, preOps, js, steps, n - 1);
      if steps[n - 1].Plan? { PlansHaveNext(f, js[n - 1], steps[n - 1]); }
      var op := OpOf(f, js[n - 1], steps[n - 1]);
      StepTracks(f, js[n - 1], steps[n - 1]);
      ExtendBehaviour(worlds, ops, op);
      worlds, ops := worlds + [js[n].w], ops + [op];
    }
    ReachableInv(worlds, ops, |ops|);
  }

  lemma OnlyPlansGrow(f: Fixed, j: Joint, step: JointStep)
    requires LeastNext(f.next) && Can(f, j, step) && !step.Plan?
    ensures Then(f, j, step).upto == j.upto
  {
    hide LeastNext, Enabled, Step;
  }

  lemma GrownByPlan(f: Fixed, j: Joint, step: JointStep, second: int)
    requires LeastNext(f.next) && Can(f, j, step) && Paced(f, j) && Inv(j.w)
    requires SlotIn(f.next, f.start, Then(f, j, step).upto, second) && !SlotIn(f.next, f.start, j.upto, second)
    ensures Recorded(Then(f, j, step).w.db, f.schedule, second)
  {
    hide LeastNext, Can, Then, Paced, Recorded, Unix, Inv, IsNextSlot;
    if step.Plan? {
      PlanShape(f, j, step.id, step.at);
      PlanRecords(f, j, step.id, step.at);
      var t := Then(f, j, step);
      var u :| f.start <= u < t.upto && IsNextSlot(f.next, u) && Unix(u) == second;
      NextDueSlot(f, j, u);
    } else {
      OnlyPlansGrow(f, j, step);
    }
  }

  /** Every slot of the stretch was recorded at some moment. */
  lemma {:induction false} EverRecorded(f: Fixed, pre: seq<World>, preOps: seq<Op>, js: seq<Joint>,
                                        steps: seq<JointStep>, i: nat, second: int) returns (k: nat)
    requires i < |js| && SlotIn(f.next, f.start, js[i].upto, second)
    requires Joined(f, pre, preOps, js, steps)
    ensures k <= i && Recorded(js[k].w.db, f.schedule, second)
    decreases i
  {
    hide LeastNext, Behaviour, Can, Then, Paced, Tracks, Inv, Recorded, Unix, IsNextSlot;
    if i == 0 {
      assert false;
    } else {
      JoinedStep(f, pre, preOps, js, steps, i - 1);
      if SlotIn(f.next, f.start, js[i - 1].upto, second) {
        k := EverRecorded(f, pre, preOps, js, steps, i - 1, second);
      } else {
        var _, _ := JoinedIsBehaviour(f, pre, preOps, js, steps, i - 1);
        GrownByPlan(f, js[i - 1], steps[i - 1], second);
        k := i;
      }
    }
  }

  lemma LosingStep(f: Fixed, j: Joint, step: JointStep, second: int)
    requires LeastNext(f.next) && Can(f, j, step) && Paced(f, j) && Tracks(f, j) && Inv(j.w)
    requires Recorded(j.w.db, f.schedule, second) && !Recorded(Then(f, j, step).w.db, f.schedule, second)
    ensures step.Other? && Loses(j.w, step.op, Slot(f.schedule, second))
  {
    hide LeastNext, Paced, Tracks, Inv, Can, Then, Enabled, HasAttempt, Step;
    StepTracks(f, j, step);
    if step.Plan? { PlansHaveNext(f, j, step); }
    var op := OpOf(f, j, step);
    StepDb(j.w, op);
    if !op.PruneBefore? { AttemptsStay(j.w, op, Slot(f.schedule, second), 1); }
  }

  /** Only retention takes a recorded slot away. */
  lemma {:induction false} OnlyRetentionLoses(f: Fixed, pre: seq<World>, preOps: seq<Op>, js: seq<Joint>,
                                              steps: seq<JointStep>, k: nat, i: nat, second: int) returns (m: nat)
    requires k <= i < |js| && Recorded(js[k].w.db, f.schedule, second) && !Recorded(js[i].w.db, f.schedule, second)
    requires Joined(f, pre, preOps, js, steps)
    ensures k <= m < i && steps[m].Other? && Loses(js[m].w, steps[m].op, Slot(f.schedule, second))
    decreases i
  {
    hide LeastNext, Behaviour, CreatedIn, Can, Then, Paced, Tracks, Inv, Recorded, Loses;
    JoinedStep(f, pre, preOps, js, steps, i - 1);
    if Recorded(js[i - 1].w.db, f.schedule, second) {
      var _, _ := JoinedIsBehaviour(f, pre, preOps, js, steps, i - 1);
      LosingStep(f, js[i - 1], steps[i - 1], second);
      m := i - 1;
    } else {
      m := OnlyRetentionLoses(f, pre, preOps, js, steps, k, i - 1, second);
    }
  }

  lemma UnknownIsGuarded(f: Fixed, j: Joint, second: int)
    requires CreatedIn(f, j)
    ensures Guarded(j.w.db.runs, Slot(f.schedule, second))
  {
    hide HasAttempt;
  }

  lemma NotLost(w: World, op: Op, key: Key)
    requires !op.PruneBefore?
    ensures !Loses(w, op, key)
  {
    hide Step, HasAttempt;
  }

  /** Until retention removes a slot's first attempt, the planner may plan the slot, for the first time or again. */
  lemma {:induction false} GuardUntilLost(f: Fixed, pre: seq<World>, preOps: seq<Op>, js: seq<Joint>,
                                          steps: seq<JointStep>, i: nat, second: int)
    requires i < |js| && |js| == |steps| + 1
    requires forall m | 0 <= m < i && steps[m].Other? :: !Loses(js[m].w, steps[m].op, Slot(f.schedule, second))
    requires Joined(f, pre, preOps, js, steps)
    ensures Guarded(js[i].w.db.runs, Slot(f.schedule, second))
    decreases i
  {
    hide LeastNext, Behaviour, CreatedIn, Can, Then, Paced, Tracks, Inv, Loses, Guarded, Enabled, Step;
    if i == 0 {
      UnknownIsGuarded(f, js[0], second);
    } else {
      GuardUntilLost(f, pre, preOps, js, steps, i - 1, second);
      JoinedStep(f, pre, preOps, js, steps, i - 1);
      var _, _ := JoinedIsBehaviour(f, pre, preOps, js, steps, i - 1);
      var j, step := js[i - 1], steps[i - 1];
      StepTracks(f, j, step);
      if !step.Other? {
        if step.Plan? { PlansHaveNext(f, j, step); }
        NotLost(j.w, OpOf(f, j, step), Slot(f.schedule, second));
      }
      StepGuarded(j.w, OpOf(f, j, step), Slot(f.schedule, second));
    }
  }

  /** The cadence theorem, of every run of the ledger with its planner. The slots recorded at some moment so far are
      exactly those of a stretch of the cadence that begins with the schedule and covers everything before NextRunAt.
      Recorded now are those of them that retention has not removed. */
  lemma CadenceInLedger(f: Fixed, pre: seq<World>, preOps: seq<Op>, js: seq<Joint>, steps: seq<JointStep>, i: nat)
    returns (upto: Time)
    requires i < |js|
    requires Joined(f, pre, preOps, js, steps)
    ensures forall second :: SlotIn(f.next, f.start, upto, second) <==>
              exists k :: 0 <= k <= i && Recorded(js[k].w.db, f.schedule, second)
    ensures forall second | SlotIn(f.next, f.start, upto, second) && !Recorded(js[i].w.db, f.schedule, second) ::
              exists m :: 0 <= m < i && steps[m].Other? && Loses(js[m].w, steps[m].op, Slot(f.schedule, second))
    ensures forall t | IsNextSlot(f.next, t) && f.start <= t && (js[i].nextRunAt.Some? ==> t < js[i].nextRunAt.value) ::
              t < upto
    ensures upto <= js[i].now + 1 <= js[i].w.clock + 1
  {
    hide Joined, LeastNext, Behaviour, CreatedIn, Can, Then, Inv, Recorded, Loses, SlotIn, Unix, IsNextSlot, Paced,
         Tracks;
    upto := js[i].upto;
    JoinedShape(f, pre, preOps, js, steps);
    var _, _ := JoinedIsBehaviour(f, pre, preOps, js, steps, i);
    WhatTracksSays(f, js[i]);
    forall second
      ensures SlotIn(f.next, f.start, upto, second) <==>
                exists k :: 0 <= k <= i && Recorded(js[k].w.db, f.schedule, second)
      ensures SlotIn(f.next, f.start, upto, second) && !Recorded(js[i].w.db, f.schedule, second) ==>
                exists m :: 0 <= m < i && steps[m].Other? && Loses(js[m].w, steps[m].op, Slot(f.schedule, second))
    {
      if SlotIn(f.next, f.start, upto, second) {
        var k := EverRecorded(f, pre, preOps, js, steps, i, second);
        if !Recorded(js[i].w.db, f.schedule, second) {
          var m := OnlyRetentionLoses(f, pre, preOps, js, steps, k, i, second);
        }
      }
      if k :| 0 <= k <= i && Recorded(js[k].w.db, f.schedule, second) {
        RecordedStaysInStretch(f, pre, preOps, js, steps, k, i, second);
      }
    }
  }

  lemma WhatTracksSays(f: Fixed, j: Joint)
    requires LeastNext(f.next) && Paced(f, j)
    ensures forall t | IsNextSlot(f.next, t) && f.start <= t && (j.nextRunAt.Some? ==> t < j.nextRunAt.value) ::
              t < j.upto
    ensures j.upto <= j.now + 1 <= j.w.clock + 1
  {
    hide LeastNext, Underway;
  }

  lemma {:induction false} RecordedStaysInStretch(f: Fixed, pre: seq<World>, preOps: seq<Op>, js: seq<Joint>,
                                                  steps: seq<JointStep>, k: nat, i: nat, second: int)
    requires k <= i < |js| && Recorded(js[k].w.db, f.schedule, second)
    requires Joined(f, pre, preOps, js, steps)
    ensures SlotIn(f.next, f.start, js[i].upto, second)
    decreases i
  {
    hide LeastNext, Behaviour, CreatedIn, Can, Then, Inv, Recorded, Unix, IsNextSlot, Paced, Tracks;
    if k == i {
      var _, _ := JoinedIsBehaviour(f, pre, preOps, js, steps, i);
      InStretch(f, js[i], second);
    } else {
      RecordedStaysInStretch(f, pre, preOps, js, steps, k, i - 1, second);
      JoinedStep(f, pre, preOps, js, steps, i - 1);
      UptoGrows(f, js[i - 1], steps[i - 1]);
    }
  }

  lemma InStretch(f: Fixed, j: Joint, second: int)
    requires Tracks(f, j) && Recorded(j.w.db, f.schedule, second)
    ensures SlotIn(f.next, f.start, j.upto, second)
  {
    hide Recorded, SlotIn;
  }

  lemma UptoGrows(f: Fixed, j: Joint, step: JointStep)
    requires LeastNext(f.next) && Can(f, j, step)
    ensures j.upto <= Then(f, j, step).upto
  {
    hide LeastNext, Can, Then;
    if step.Plan? { PlanShape(f, j, step.id, step.at); } else { OnlyPlansGrow(f, j, step); }
  }

  // ---------------------------------------------------------------- a tick that runs alone

  /** Steps that can be taken one after the other, and where they lead. */
  ghost predicate Leads(f: Fixed, j: Joint, steps: seq<JointStep>, t: Joint)
    requires LeastNext(f.next)
    decreases |steps|
  {
    if steps == [] then t == j else Can(f, j, steps[0]) && Leads(f, Then(f, j, steps[0]), steps[1..], t)
  }

  lemma LeadsOn(f: Fixed, j: Joint, step: JointStep, rest: seq<JointStep>, t: Joint)
    requires LeastNext(f.next) && Can(f, j, step) && Leads(f, Then(f, j, step), rest, t)
    ensures Leads(f, j, [step] + rest, t)
  {
    hide LeastNext, Can, Then;
    assert ([step] + rest)[1..] == rest;
  }

  /** Retention has not broken the slots that are due. */
  predicate Unlost(f: Fixed, db: Db, b: Batch) {
    forall i | 0 <= i < |b.due| :: Guarded(db.runs, OccurrenceKey(f.schedule, b.due[i]))
  }

  lemma StaysUnlost(f: Fixed, w: World, op: Op, b: Batch)
    requires Enabled(w, op) && op.Insert? && Unlost(f, w.db, b)
    requires Inv(w)
    ensures Unlost(f, Step(w, op).db, b)
  {
    hide Inv, Enabled, Step, Guarded, Loses, Unix;
    forall i | 0 <= i < |b.due| ensures Guarded(Step(w, op).db.runs, OccurrenceKey(f.schedule, b.due[i])) {
      NotLost(w, op, OccurrenceKey(f.schedule, b.due[i]));
      StepGuarded(w, op, OccurrenceKey(f.schedule, b.due[i]));
    }
  }

  lemma UnlostMeans(f: Fixed, db: Db, b: Batch, i: nat)
    requires i < |b.due| && Unlost(f, db, b)
    ensures Guarded(db.runs, OccurrenceKey(f.schedule, b.due[i]))
  {
    hide Guarded;
  }

  /** Everything the planner relies on, and ids that nobody has used. */
  ghost predicate Ready(f: Fixed, j: Joint, b: Batch, n: nat)
    requires LeastNext(f.next)
  {
    && Inv(j.w) && Paced(f, j) && Tracks(f, j) && f.schedule in j.w.db.enabled
    && (forall id | id in j.w.ids :: id < b.firstId + n)
    && (forall i | 0 <= i < |b.due| :: b.clock(i) <= j.w.clock)
    && Unlost(f, j.w.db, b)
  }

  function StretchEnd(upto: Time, b: Batch, k: nat): Time
    requires k <= |b.due|
  {
    if k > 0 && b.due[k - 1] >= upto then b.due[k - 1] + 1 else upto
  }

  predicate Follows(f: Fixed, b: Batch, p: Pass) {
    && b.due == p.due && b.now == p.now && b.schedule == f.schedule && b.misfire == f.misfire && b.grace == f.grace
    && forall i, k | 0 <= i < k < |b.due| :: b.due[i] < b.due[k]
  }

  lemma PlanReady(f: Fixed, j: Joint, b: Batch, n: nat)
    requires LeastNext(f.next) && n < |b.due| && j.pass.Some? && j.pass.value.done == n && Follows(f, b, j.pass.value)
    requires Ready(f, j, b, n)
    ensures Can(f, j, Plan(b.firstId + n, b.clock(n)))
    ensures Ready(f, Then(f, j, Plan(b.firstId + n, b.clock(n))), b, n + 1)
    ensures Then(f, j, Plan(b.firstId + n, b.clock(n))).w.db == InsertRun(j.w.db, RowOf(b, n)).db
  {
    hide LeastNext, Inv, Paced, Tracks, Enabled, InsertRun, PassRow, RowOf, Unlost, Guarded, Unix;
    var step := Plan(b.firstId + n, b.clock(n));
    UnlostMeans(f, j.w.db, b, n);
    assert Can(f, j, step);
    StepTracks(f, j, step);
    PlanShape(f, j, step.id, step.at);
    assert PassRow(f, j.pass.value, step.id, step.at) == RowOf(b, n) by { SameRow(f, b, j.pass.value, step.at); }
    var op := Insert(RowOf(b, n));
    StepKeepsInv(j.w, op);
    StepDb(j.w, op);
    RowFacts(b, n);
    InsertIds(j.w, RowOf(b, n));
    StaysUnlost(f, j.w, op, b);
  }

  lemma SameRow(f: Fixed, b: Batch, p: Pass, at: Time)
    requires p.done < |b.due| && Follows(f, b, p) && at == b.clock(p.done)
    ensures PassRow(f, p, b.firstId + p.done, at) == RowOf(b, p.done)
  {
  }

  lemma InsertIds(w: World, row: Run)
    requires Inv(w)
    ensures Step(w, Insert(row)).ids <= w.ids + {row.id} && Step(w, Insert(row)).clock == w.clock
    ensures Step(w, Insert(row)).db.enabled == w.db.enabled
  {
    hide TablesOk, HasAttempt, LiveTokens, CauseOf;
  }

  /** The rest of a pass, with nothing in between, up to its k-th insert. */
  lemma {:induction false} PlansLead(f: Fixed, j: Joint, db: Db, upto: Time, b: Batch, n: nat, k: nat, stops: bool)
    returns (steps: seq<JointStep>, t: Joint)
    requires LeastNext(f.next) && n <= k <= |b.due| && (!stops ==> k == |b.due|)
    requires j.pass.Some? && j.pass.value.done == n && Follows(f, b, j.pass.value) && j.nextRunAt.Some?
    requires j.w.db == Inserted(db, b, n) && j.upto == StretchEnd(upto, b, n) && Ready(f, j, b, n)
    ensures Leads(f, j, steps, t)
    ensures t.w.db == Inserted(db, b, k) && t.upto == StretchEnd(upto, b, k) && t.now == j.now && t.pass.None?
    ensures t.nextRunAt == if stops then j.nextRunAt else Following(f.next, j.nextRunAt.value, b.now)
    decreases k - n
  {
    hide LeastNext, Ready, Inserted, Can, Then, Leads, InsertRun, RowOf, Follows, Following;
    if n < k {
      var step := Plan(b.firstId + n, b.clock(n));
      PlanReady(f, j, b, n);
      PlanShape(f, j, step.id, step.at);
      OneMore(db, b, n);
      StretchOneMore(f, b, j.pass.value, upto, n);
      var rest;
      rest, t := PlansLead(f, Then(f, j, step), db, upto, b, n + 1, k, stops);
      LeadsOn(f, j, step, rest, t);
      steps := [step] + rest;
    } else {
      var step := if stops then Stop else Commit;
      EndShape(f, j, step, b);
      t := Then(f, j, step);
      Arrived(f, t);
      LeadsOn(f, j, step, [], t);
      steps := [step] + [];
    }
  }

  lemma Arrived(f: Fixed, t: Joint)
    requires LeastNext(f.next)
    ensures Leads(f, t, [], t)
  {
  }

  lemma EndShape(f: Fixed, j: Joint, step: JointStep, b: Batch)
    requires LeastNext(f.next) && j.pass.Some? && Follows(f, b, j.pass.value) && j.nextRunAt.Some?
    requires step.Stop? || (step.Commit? && j.pass.value.done == |b.due|)
    ensures Can(f, j, step)
    ensures
      var t := Then(f, j, step);
      && t.w.db == j.w.db && t.upto == j.upto && t.now == j.now && t.pass.None?
      && t.nextRunAt == if step.Stop? then j.nextRunAt else Following(f.next, j.nextRunAt.value, b.now)
  {
    hide LeastNext, Following, Enabled, Step;
    IdleStep(j.w);
  }

  lemma OneMore(db: Db, b: Batch, n: nat)
    requires n < |b.due|
    ensures Inserted(db, b, n + 1) == InsertRun(Inserted(db, b, n), RowOf(b, n)).db
  {
    hide InsertRun, RowOf;
  }

  lemma StretchOneMore(f: Fixed, b: Batch, p: Pass, upto: Time, n: nat)
    requires n < |b.due| && Follows(f, b, p)
    ensures p.due == b.due && Follows(f, b, p.(done := n + 1))
    ensures
      var end := StretchEnd(upto, b, n);
      StretchEnd(upto, b, n + 1) == if b.due[n] >= end then b.due[n] + 1 else end
  {
  }

  lemma ReadySlot(f: Fixed, j: Joint, b: Batch)
    requires LeastNext(f.next) && j.nextRunAt.Some? && Ready(f, j, b, 0)
    ensures IsNextSlot(f.next, j.nextRunAt.value)
  {
    hide LeastNext, Inv, Tracks, IsNextSlot;
  }

  /** A tick as one step, complete or cut after some insert, is a pass in which nobody else takes a turn. */
  lemma TickIsPass(f: Fixed, j: Joint, tick: PlanStep) returns (steps: seq<JointStep>, t: Joint)
    requires LeastNext(f.next) && tick.Tick? && j.pass.None? && j.nextRunAt.Some?
    requires j.nextRunAt.value <= tick.now && j.now <= tick.now <= j.w.clock
    requires Ready(f, j, BatchOf(f, Due(f.next, j.nextRunAt.value, tick.now), tick), 0)
    ensures Leads(f, j, steps, t)
    ensures
      var after := After(f, PlanState(j.w.db, j.nextRunAt, j.now, j.upto, {}), tick);
      t.w.db == after.db && t.nextRunAt == after.nextRunAt && t.now == after.now && t.upto == after.upto
  {
    hide LeastNext, Due, Inserted, Following, Leads, Choices, Ready, Can, Then;
    var due := Due(f.next, j.nextRunAt.value, tick.now);
    var b := BatchOf(f, due, tick);
    ReadySlot(f, j, b);
    DueIsCadence(f.next, j.nextRunAt.value, tick.now);
    BeginShape(f, j, tick.now, b);
    var rest;
    rest, t := PlansLead(f, Then(f, j, Begin(tick.now)), j.w.db, j.upto, b, 0, Reach(tick.stop, |due|),
      tick.stop.Some?);
    LeadsOn(f, j, Begin(tick.now), rest, t);
    steps := [Begin(tick.now)] + rest;
  }

  lemma BeginShape(f: Fixed, j: Joint, now: Time, b: Batch)
    requires LeastNext(f.next) && j.pass.None? && j.nextRunAt.Some? && j.nextRunAt.value <= now
             && j.now <= now <= j.w.clock
    requires b.due == Due(f.next, j.nextRunAt.value, now) && b.now == now && b.schedule == f.schedule
    requires b.misfire == f.misfire && b.grace == f.grace && Ready(f, j, b, 0)
    requires forall i, k | 0 <= i < k < |b.due| :: b.due[i] < b.due[k]
    ensures Can(f, j, Begin(now))
    ensures
      var t := Then(f, j, Begin(now));
      && t.w.db == j.w.db && t.upto == j.upto && t.now == now && t.nextRunAt == j.nextRunAt && t.pass.Some?
      && t.pass.value.done == 0 && Follows(f, b, t.pass.value) && Ready(f, t, b, 0)
      && Inserted(j.w.db, b, 0) == j.w.db
  {
    hide LeastNext, Enabled, Inv, Paced, Tracks, Due;
    StepTracks(f, j, Begin(now));
    IdleInv(j.w);
  }

  lemma IdleInv(w: World)
    requires Inv(w)
    ensures Inv(Step(w, Advance(w.clock))) && Step(w, Advance(w.clock)).ids == w.ids
    ensures Step(w, Advance(w.clock)).db == w.db && Step(w, Advance(w.clock)).clock == w.clock
  {
    hide TablesOk, LiveTokens;
    IdleStep(w);
    StepKeepsInv(w, Advance(w.clock));
  }
}
