/** The states a run goes through: the documented transitions, and what becomes of its first
    start and its retry time. */
module RunStates {
  import opened Domain
  import opened Ledger
  import opened Outcome
  import opened LedgerInvariants
  import opened LedgerRuns
  import opened LedgerProofs
  import opened LedgerTheorems

  predicate Concluded(s: RunStatus) { s == Succeeded || s == Failed || s == Cancelled || s == DeadLettered }

  predicate Transition(a: RunStatus, b: RunStatus) {
    || a == b
    || (Waiting(a) && (b == Claimed || b == Skipped))
    || (a == Claimed && (b == Running || b == Pending || Concluded(b)))
    || (a == Running && (b == Pending || Concluded(b)))
  }

  /** The start an execution fills in when the row it works from has none. */
  function FilledStart(op: Op): Time
    requires Finishes(op)
  {
    if op.Complete? then op.startedAt else op.finishedAt
  }

  /** What a step may do to one row: the nominal and due times stay; only a finish touches the start, the retry
      time and the detail of a started run; each change of status has its one kind of step. */
  predicate RowMoves(before: Run, after: Run, op: Op) {
    && Transition(before.status, after.status)
    && after.nominal == before.nominal && after.due == before.due
    && (!Finished(after.status) ==> after.detail == before.detail && after.finishedAt == before.finishedAt)
    && (Waiting(before.status) && Waiting(after.status) ==> after.owner == before.owner)
    && (!Finishes(op) || op.read.run.id != before.id || !Finished(after.status) ==>
          after.retryAt == before.retryAt && (before.startedAt.Some? ==> after.startedAt == before.startedAt))
    && (after.status != before.status ==>
          match after.status
          case Claimed => op.Claim?
          case Running => op.Start? && (before.startedAt.None? ==> after.startedAt == Some(op.now))
          case Pending => (op.Release? || op.RecoverClaimed? || op.RecoverTracked?) && after.owner.None?
          case Skipped => op.EnforceQueue?
          case _ => Finishes(op) && op.read.run.id == before.id)
  }

  lemma FinishWrites(db: Db, op: Op, clock: Time, id: RunId)
    requires Finishes(op) && id in db.runs && op.retryId !in db.runs
    ensures id in Apply(db, op, clock).runs
    ensures FinishTx(db, op).err.Some? || id != op.read.run.id ==> Apply(db, op, clock).runs[id] == db.runs[id]
    ensures FinishTx(db, op).err.None? && id == op.read.run.id ==>
              && Active(db.runs[id].status) && id in db.leases
              && Apply(db, op, clock).runs[id]
                 == FinishedRow(db.runs[id], Handed(op).run, db.leases[id].worker, FinishNow(op))
  {
    hide HasAttempt, BackoffSeconds, ShouldRetry, DropToken, FinishedRow;
  }

  lemma FinishMoves(db: Db, op: Op, clock: Time, id: RunId)
    requires Finishes(op) && id in db.runs && db.runs[id].id == id && op.retryId !in db.runs
    ensures id in Apply(db, op, clock).runs && RowMoves(db.runs[id], Apply(db, op, clock).runs[id], op)
    ensures FinishTx(db, op).err.Some? || id != op.read.run.id ==> Apply(db, op, clock).runs[id] == db.runs[id]
    ensures FinishTx(db, op).err.None? && id == op.read.run.id ==>
              && Active(db.runs[id].status) && Finished(Apply(db, op, clock).runs[id].status)
              && Apply(db, op, clock).runs[id].retryAt == op.read.run.retryAt
              && Apply(db, op, clock).runs[id].startedAt
                 == (if op.read.run.startedAt.Some? then op.read.run.startedAt else Some(FilledStart(op)))
  {
    hide Apply, FinishTx, BackoffSeconds, ShouldRetry;
    FinishWrites(db, op, clock, id);
  }

  lemma ClaimMoves(db: Db, op: Op, clock: Time, id: RunId)
    requires op.Claim? && id in db.runs && id in Apply(db, op, clock).runs
    ensures RowMoves(db.runs[id], Apply(db, op, clock).runs[id], op)
  {
    hide PolicyAdmits, SameOccurrenceActive;
    var before, after := db.runs[id], Apply(db, op, clock).runs[id];
    assert after == before
           || (Waiting(before.status) && after == before.(status := Claimed, owner := Some(op.worker),
                                                          claimExpires := Some(op.now + op.ttl), updatedAt := op.now));
    hide Apply;
  }

  lemma StartMoves(db: Db, op: Op, clock: Time, id: RunId)
    requires op.Start? && id in db.runs && id in Apply(db, op, clock).runs
    ensures RowMoves(db.runs[id], Apply(db, op, clock).runs[id], op)
  {
    var before, after := db.runs[id], Apply(db, op, clock).runs[id];
    assert after == before
           || (Active(before.status)
               && after == before.(status := Running, updatedAt := op.now,
                                   startedAt := if before.startedAt.Some? then before.startedAt else Some(op.now)));
    hide Apply;
  }

  lemma ReturnMoves(db: Db, op: Op, clock: Time, id: RunId)
    requires (op.Release? || op.RecoverClaimed? || op.RecoverTracked?) && id in db.runs
             && id in Apply(db, op, clock).runs
    ensures RowMoves(db.runs[id], Apply(db, op, clock).runs[id], op)
  {
    hide DropToken;
  }

  lemma QueueMoves(db: Db, op: Op, clock: Time, id: RunId)
    requires op.EnforceQueue? && id in db.runs && id in Apply(db, op, clock).runs
    ensures RowMoves(db.runs[id], Apply(db, op, clock).runs[id], op)
  {
    var before, after := db.runs[id], Apply(db, op, clock).runs[id];
    assert after == before || (Waiting(before.status) && after == SkippedRow(before, op.overlap, clock));
    hide Apply;
  }

  predicate Moves(op: Op) {
    op.Claim? || op.Start? || op.Release? || op.RecoverClaimed? || op.RecoverTracked? || op.EnforceQueue?
  }

  lemma RunStepMoves(db: Db, op: Op, clock: Time, id: RunId)
    requires Moves(op) && id in db.runs && id in Apply(db, op, clock).runs
    ensures RowMoves(db.runs[id], Apply(db, op, clock).runs[id], op)
  {
    hide RowMoves, Apply;
    if op.Claim? {
      ClaimMoves(db, op, clock, id);
    } else if op.Start? {
      StartMoves(db, op, clock, id);
    } else if op.EnforceQueue? {
      QueueMoves(db, op, clock, id);
    } else {
      ReturnMoves(db, op, clock, id);
    }
  }

  predicate OnlyBooks(before: Run, after: Run) {
    after == before.(claimExpires := after.claimExpires, updatedAt := after.updatedAt)
  }

  lemma OtherStepsKeep(db: Db, op: Op, clock: Time, id: RunId)
    requires !Moves(op) && !Finishes(op) && id in db.runs && id in Apply(db, op, clock).runs
    ensures OnlyBooks(db.runs[id], Apply(db, op, clock).runs[id])
  {
    hide HasAttempt, CheckpointConflict, ReconcileConflict, OccurrenceOpen, Compactable, Prunable, DropToken;
  }

  lemma StepMoves(states: seq<World>, ops: seq<Op>, i: nat, id: RunId)
    requires |states| == |ops| + 1 && i < |ops| && id in states[i].db.runs && id in states[i + 1].db.runs
    requires Behaviour(states, ops)
    ensures RowMoves(states[i].db.runs[id], states[i + 1].db.runs[id], ops[i])
  {
    hide Behaviour, Apply, Inv, Enabled, CauseOf, LiveTokens, Moves;
    BehaviourStep(states, ops, i);
    RowId(states[i], id);
    if Finishes(ops[i]) {
      RetryIdIsNew(states[i], ops[i]);
      FinishMoves(states[i].db, ops[i], states[i].clock, id);
    } else if Moves(ops[i]) {
      RunStepMoves(states[i].db, ops[i], states[i].clock, id);
    } else {
      OtherStepsKeep(states[i].db, ops[i], states[i].clock, id);
    }
  }

  lemma RowId(w: World, id: RunId)
    requires id in w.db.runs && Inv(w)
    ensures w.db.runs[id].id == id
  {
    hide Chain, Agreement, JobsAgree, EventsAgree, DeadAgree, HistoryOk;
  }

  // ---------------------------------------------------------------- stale rows

  /** Of a run that is still open, a row read at any time has the retry time, and its start if it has one. */
  predicate ReadHolds(read: Read, row: Run) {
    read.run.retryAt == row.retryAt && (read.run.startedAt.Some? ==> row.startedAt == read.run.startedAt)
  }

  lemma KnownBefore(w: World, op: Op, read: Read)
    requires read in Step(w, op).known && read !in w.known
    ensures op.ReadRun? && op.id in w.db.runs && read.run == w.db.runs[op.id] && Step(w, op).db == w.db
  {
    hide CauseOf, LiveTokens;
    if op.ReadRun? { } else { hide Apply; }
  }

  lemma EarlierRow(w: World, v: World, read: Read)
    requires read in w.known && read.run.id in v.db.runs && !Finished(v.db.runs[read.run.id].status)
    requires Inv(w) && Evolves(w, v)
    ensures read.run.id in w.db.runs && !Finished(w.db.runs[read.run.id].status)
  {
    hide TablesOk, JobsEvolve, EventsEvolve;
  }

  lemma {:induction false} OpenReadHolds(states: seq<World>, ops: seq<Op>, i: nat, read: Read)
    requires i < |states| && read in states[i].known && read.run.id in states[i].db.runs
    requires !Finished(states[i].db.runs[read.run.id].status)
    requires Behaviour(states, ops)
    ensures ReadHolds(read, states[i].db.runs[read.run.id])
    decreases i
  {
    hide Behaviour, Inv, Evolves, Enabled, Step, Initial, Transition;
    NothingKnownAtFirst(states, ops, i, read);
    BehaviourStep(states, ops, i - 1);
    var w, op := states[i - 1], ops[i - 1];
    if read in w.known {
      StepKeepsInv(w, op);
      EarlierRow(w, states[i], read);
      OpenReadHolds(states, ops, i - 1, read);
      RowId(w, read.run.id);
      StepMoves(states, ops, i - 1, read.run.id);
    } else {
      KnownBefore(w, op, read);
      RowId(w, op.id);
    }
  }

  lemma NothingKnownAtFirst(states: seq<World>, ops: seq<Op>, i: nat, read: Read)
    requires i < |states| && read in states[i].known
    requires Behaviour(states, ops)
    ensures 0 < i <= |ops| && |states| == |ops| + 1
  {
  }

  lemma FinishReads(w: World, op: Op)
    requires Finishes(op) && Enabled(w, op)
    ensures op.read in w.known
  {
  }

  /** An accepted finish that works from a row read before the first start, and fills in another one. */
  predicate OverwritesStart(db: Db, op: Op, id: RunId)
    requires id in db.runs
  {
    && Finishes(op) && op.read.run.id == id && FinishTx(db, op).err.None?
    && op.read.run.startedAt.None? && db.runs[id].startedAt != Some(FilledStart(op))
  }

  /** Every step of every run moves every row only along the transitions of the run states. The retry time never
      changes. The first start survives every step but one: a finish by an actor whose row is older than that start
      and who began later. */
  lemma RunTransitions(states: seq<World>, ops: seq<Op>, i: nat, id: RunId)
    requires |states| == |ops| + 1 && i < |ops| && id in states[i].db.runs && id in states[i + 1].db.runs
    requires Behaviour(states, ops)
    ensures RowMoves(states[i].db.runs[id], states[i + 1].db.runs[id], ops[i])
    ensures states[i + 1].db.runs[id].retryAt == states[i].db.runs[id].retryAt
    ensures states[i].db.runs[id].startedAt.Some? ==>
              (states[i + 1].db.runs[id].startedAt == states[i].db.runs[id].startedAt <==>
                  !OverwritesStart(states[i].db, ops[i], id))
  {
    hide Behaviour, Apply, Inv, Enabled, CauseOf, LiveTokens, Transition, FinishTx;
    StepMoves(states, ops, i, id);
    BehaviourStep(states, ops, i);
    RowId(states[i], id);
    if Finishes(ops[i]) {
      RetryIdIsNew(states[i], ops[i]);
      FinishMoves(states[i].db, ops[i], states[i].clock, id);
      if FinishTx(states[i].db, ops[i]).err.None? && id == ops[i].read.run.id {
        FinishReads(states[i], ops[i]);
        OpenReadHolds(states, ops, i, ops[i].read);
      }
    }
  }
}
