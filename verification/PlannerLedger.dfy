/** Why the planner may treat the rest of the system as "elsewhere": no other ledger step records a slot or
    removes one, retention aside; and until retention removes a first attempt, the ledger takes every planned row. */
module PlannerLedger {
  import opened Domain
  import opened Ledger
  import opened LedgerInvariants
  import opened LedgerRuns
  import opened LedgerProofs
  import opened LedgerTheorems
  import Outcome
  import opened Timecalc
  import opened Planner

  lemma RowsStay(db: Db, op: Op, clock: Time)
    requires !op.PruneBefore?
    ensures db.runs.Keys <= Apply(db, op, clock).runs.Keys
  {
    hide HasAttempt, LockRunLease, LockExpiredRunningRun, Outcome.Complete, DropToken, PolicyAdmits,
         SameOccurrenceActive,
         CheckpointConflict, ReconcileConflict, OccurrenceOpen, Unsubmitted, Prunable, Compactable;
  }

  /** A new row that is not an insert is a retry, a second or later attempt, or an event's run. */
  lemma NewRows(w: World, op: Op, id: RunId)
    requires Inv(w) && Enabled(w, op) && !op.Insert?
    requires id in Apply(w.db, op, w.clock).runs && id !in w.db.runs
    ensures Apply(w.db, op, w.clock).runs[id].attempt > 1 || Apply(w.db, op, w.clock).runs[id].key.Event?
  {
    hide Inv, Apply, Enabled;
    if op.Complete? || op.RecoverOrdinary? {
      FinishedNewRow(w.db, op, w.clock, id);
      ReadIsKnown(w, op);
      ReadAgrees(w, op.read);
      AttemptPositive(w, op.read.run.id);
    } else {
      OtherNewRows(w.db, op, w.clock, id);
    }
  }

  lemma ReadIsKnown(w: World, op: Op)
    requires (op.Complete? || op.RecoverOrdinary?) && Enabled(w, op)
    ensures op.read in w.known
  {
  }

  lemma AttemptsStay(w: World, op: Op, key: Key, n: nat)
    requires Inv(w) && Enabled(w, op) && !op.PruneBefore? && HasAttempt(w.db.runs, key, n)
    ensures HasAttempt(Apply(w.db, op, w.clock).runs, key, n)
  {
    var after := Apply(w.db, op, w.clock);
    OpEffect(w, op);
    RowsStay(w.db, op, w.clock);
    assert RunsEvolve(w.db.runs, after.runs);
    hide Apply, Inv, Enabled, Effect, HasAttempt;
    HasAttemptKept(w.db.runs, after.runs, key, n);
  }

  lemma NoAttempt(runs: map<RunId, Run>, key: Key, n: nat)
    requires !HasAttempt(runs, key, n)
    ensures forall id | id in runs && runs[id].key == key :: runs[id].attempt != n
  {
  }

  /** Elsewhere, manual triggers and inserts for other slots included, no slot is recorded and none is removed. */
  lemma OthersKeepSlots(w: World, op: Op, schedule: ScheduleId, second: int)
    requires Inv(w) && Enabled(w, op) && !op.PruneBefore?
    requires op.Insert? ==> op.run.key != Slot(schedule, second)
    ensures Recorded(Apply(w.db, op, w.clock), schedule, second) <==> Recorded(w.db, schedule, second)
  {
    var after := Apply(w.db, op, w.clock);
    hide Apply, Inv, Enabled;
    if Recorded(w.db, schedule, second) {
      AttemptsStay(w, op, Slot(schedule, second), 1);
    } else if Recorded(after, schedule, second) {
      OpEffect(w, op);
      assert RunsEvolve(w.db.runs, after.runs);
      var id :| id in after.runs && after.runs[id].key == Slot(schedule, second) && after.runs[id].attempt == 1;
      NoAttempt(w.db.runs, Slot(schedule, second), 1);
      if id !in w.db.runs {
        if op.Insert? { OtherNewRows(w.db, op, w.clock, id); } else { NewRows(w, op, id); }
      }
    }
  }

  // ---------------------------------------------------------------- replays

  /** A retention step that removes the first attempt of an occurrence. */
  predicate Loses(w: World, op: Op, key: Key) {
    op.PruneBefore? && HasAttempt(w.db.runs, key, 1) && !HasAttempt(Step(w, op).db.runs, key, 1)
  }

  /** What the ledger asks of a caller that inserts a first attempt. */
  predicate Guarded(runs: map<RunId, Run>, key: Key) { KeyPresent(runs, key) ==> HasAttempt(runs, key, 1) }

  lemma NewRowsByFinish(w: World, op: Op, key: Key, id: RunId)
    requires Inv(w) && Enabled(w, op) && (op.Complete? || op.RecoverOrdinary?)
    requires id in Apply(w.db, op, w.clock).runs && id !in w.db.runs && Apply(w.db, op, w.clock).runs[id].key == key
    ensures KeyPresent(w.db.runs, key)
  {
    hide Inv, Enabled, Apply, Outcome.ShouldRetry;
    FinishedNewRow(w.db, op, w.clock, id);
    ReadIsKnown(w, op);
    ReadAgrees(w, op.read);
  }

  lemma NewRowsFirst(w: World, op: Op, id: RunId)
    requires Enabled(w, op) && !op.Complete? && !op.RecoverOrdinary?
    requires id in Apply(w.db, op, w.clock).runs && id !in w.db.runs
    ensures Apply(w.db, op, w.clock).runs[id].attempt == 1
  {
    hide Enabled, Apply;
    OtherNewRows(w.db, op, w.clock, id);
    if op.Insert? { InsertsFirstAttempts(w, op); }
  }

  lemma KeyKept(w: World, op: Op, id: RunId)
    requires Inv(w) && Enabled(w, op) && id in w.db.runs && id in Apply(w.db, op, w.clock).runs
    ensures Apply(w.db, op, w.clock).runs[id].key == w.db.runs[id].key
  {
    hide Inv, Enabled, Apply, Effect;
    OpEffect(w, op);
    EffectKeepsKey(w, CauseOf(op), Apply(w.db, op, w.clock), id);
  }

  lemma EffectKeepsKey(w: World, cause: Cause, after: Db, id: RunId)
    requires Effect(w, cause, after) && id in w.db.runs && id in after.runs
    ensures after.runs[id].key == w.db.runs[id].key
  {
    hide TablesOk, JobsEvolve, EventsEvolve, LiveTokens;
  }

  lemma PresentRow(runs: map<RunId, Run>, key: Key) returns (id: RunId)
    requires KeyPresent(runs, key)
    ensures id in runs && runs[id].key == key
  {
    id :| id in runs && runs[id].key == key;
  }

  lemma RowIsPresent(runs: map<RunId, Run>, id: RunId)
    requires id in runs
    ensures KeyPresent(runs, runs[id].key)
  {
  }

  /** The first row of an occurrence is its first attempt. */
  lemma NewKey(w: World, op: Op, key: Key)
    requires Inv(w) && Enabled(w, op) && !KeyPresent(w.db.runs, key)
    ensures Guarded(Step(w, op).db.runs, key)
  {
    hide Apply, Inv, Enabled, Step, HasAttempt, KeyPresent;
    StepDb(w, op);
    var after := Apply(w.db, op, w.clock).runs;
    if KeyPresent(after, key) {
      var id := PresentRow(after, key);
      if id in w.db.runs {
        KeyKept(w, op, id);
        RowIsPresent(w.db.runs, id);
      } else if op.Complete? || op.RecoverOrdinary? {
        NewRowsByFinish(w, op, key, id);
      } else {
        NewRowsFirst(w, op, id);
        HasAttemptWitness(after, id);
      }
    }
  }

  lemma StepGuarded(w: World, op: Op, key: Key)
    requires Inv(w) && Enabled(w, op) && Guarded(w.db.runs, key) && !Loses(w, op, key)
    ensures Guarded(Step(w, op).db.runs, key)
  {
    hide Apply, Inv, Enabled, LiveTokens, CauseOf, HasAttempt;
    if !KeyPresent(w.db.runs, key) {
      NewKey(w, op, key);
    } else if !op.PruneBefore? {
      AttemptsStay(w, op, key, 1);
    }
  }

  lemma {:induction false} GuardHolds(states: seq<World>, ops: seq<Op>, i: nat, key: Key)
    requires |states| == |ops| + 1 && i <= |ops| && forall j | 0 <= j < i :: !Loses(states[j], ops[j], key)
    requires Behaviour(states, ops)
    ensures Guarded(states[i].db.runs, key)
    decreases i
  {
    hide Behaviour, Inv, Enabled, Step, Loses, Initial, HasAttempt;
    if i == 0 {
      BehaviourShape(states, ops);
      InitiallyIdle(states[0], "");
    } else {
      GuardHolds(states, ops, i - 1, key);
      BehaviourStep(states, ops, i - 1);
      StepGuarded(states[i - 1], ops[i - 1], key);
    }
  }

  /** In any run of the ledger in which retention has not removed the slot's first attempt, the row a tick plans,
      new or replayed, is an insert the ledger allows. */
  lemma PlannedRowsAreAllowed(states: seq<World>, ops: seq<Op>, i: nat, b: Batch, k: nat)
    requires |states| == |ops| + 1 && i <= |ops| && k < |b.due|
    requires b.firstId + k !in states[i].ids && b.clock(k) <= states[i].clock
    requires forall j | 0 <= j < i :: !Loses(states[j], ops[j], OccurrenceKey(b.schedule, b.due[k]))
    requires Behaviour(states, ops)
    ensures Enabled(states[i], Insert(RowOf(b, k)))
  {
    hide Behaviour, Loses;
    GuardHolds(states, ops, i, OccurrenceKey(b.schedule, b.due[k]));
    PlannedIsFirstAttempt(states[i].db, b, k, states[i].clock);
    RowFacts(b, k);
    hide FirstAttempt, HasAttempt, RowOf;
  }
}
