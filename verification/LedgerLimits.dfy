/** Where the ledger's promises end for an unfenced write: exactly when a dispatcher may still skip a run that it
    listed earlier. */
module LedgerLimits {
  import opened Domain
  import opened Ledger
  import opened LedgerInvariants
  import opened LedgerRuns
  import opened LedgerProofs
  import opened LedgerTheorems
  import opened RunStates

  // ---------------------------------------------------------------- the unfenced skip

  /** What the ledger promises of a step that hands out no lease: sound tables, fixed outcomes, every lease as it
      was, only legal moves, no run skipped whose remote work was submitted, and every first start, retry time,
      nominal and due time as it was. */
  ghost predicate KeepsPromises(db: Db, after: Db) {
    && TablesOk(after) && RunsEvolve(db.runs, after.runs) && after.leases == db.leases
    && (forall id | id in db.runs :: id in after.runs && Transition(db.runs[id].status, after.runs[id].status))
    && (forall id | id in db.runs && id in after.runs && after.runs[id].status == Skipped :: UnsubmittedOrSame(db, id))
    && (forall id | id in db.runs && id in after.runs :: SameTimes(db.runs[id], after.runs[id]))
  }

  predicate SameTimes(before: Run, after: Run) {
    && after.nominal == before.nominal && after.due == before.due && after.retryAt == before.retryAt
    && (before.startedAt.Some? ==> after.startedAt == before.startedAt)
  }

  predicate UnsubmittedOrSame(db: Db, id: RunId)
    requires id in db.runs
  {
    db.runs[id].key in db.jobs ==> db.runs[id].status == Skipped
  }

  lemma SkipShape(db: Db, listed: Run, overlap: OverlapPolicy, now: Time)
    requires listed.id in db.runs && SameIdentity(db.runs[listed.id], listed)
    ensures
      var after := FinishRun(db, SkippedRow(listed, overlap, now));
      var row := after.runs[listed.id];
      && after == db.(runs := db.runs[listed.id := row], leases := db.leases - {listed.id})
      && row.status == Skipped && row.finishedAt == Some(now) && row.claimExpires == listed.claimExpires
      && row.startedAt == listed.startedAt && row.retryAt == listed.retryAt && row.nominal == db.runs[listed.id].nominal
      && row.due == db.runs[listed.id].due && SameIdentity(db.runs[listed.id], row)
  {
  }

  lemma LegalSkip(db: Db, after: Db, id: RunId)
    requires TablesOk(db) && id in db.runs && Waiting(db.runs[id].status) && db.runs[id].key !in db.jobs
    requires id in after.runs && after == db.(runs := db.runs[id := after.runs[id]], leases := db.leases - {id})
    requires
      var row := after.runs[id];
      && row.status == Skipped && SameIdentity(db.runs[id], row) && row.claimExpires.None?
      && row.finishedAt.Some? && row.createdAt <= row.finishedAt.value && SameTimes(db.runs[id], row)
    ensures KeepsPromises(db, after) && after != db
  {
    hide KeepsPromises, TablesOk, RunsEvolve, Agreement;
    SkipAgrees(db, after, id);
    RewriteKeepsTables(db, after);
    SkipKeeps(db, after, id);
  }

  lemma SkipAgrees(db: Db, after: Db, id: RunId)
    requires TablesOk(db) && id in db.runs && Waiting(db.runs[id].status)
    requires id in after.runs && after == db.(runs := db.runs[id := after.runs[id]], leases := db.leases - {id})
    requires after.runs[id].status == Skipped && after.runs[id].claimExpires.None?
    ensures after.leases == db.leases && Agreement(after.runs, after.leases)
  {
    hide Rows, Chain, JobsAgree, EventsAgree, DeadAgree;
    assert db.runs[id].claimExpires.None?;
    AgreementSkip(db.runs, after.runs, db.leases, {id});
    hide Agreement;
  }

  lemma SkipKeeps(db: Db, after: Db, id: RunId)
    requires TablesOk(after) && RunsEvolve(db.runs, after.runs) && after.leases == db.leases
    requires id in db.runs && Waiting(db.runs[id].status) && db.runs[id].key !in db.jobs
    requires id in after.runs && after.runs == db.runs[id := after.runs[id]] && after.runs[id].status == Skipped
    requires SameTimes(db.runs[id], after.runs[id])
    ensures KeepsPromises(db, after)
  {
    hide TablesOk, RunsEvolve;
  }

  lemma IllegalSkip(db: Db, after: Db, id: RunId)
    requires TablesOk(db) && id in db.runs && !(Waiting(db.runs[id].status) && db.runs[id].key !in db.jobs)
    requires id in after.runs && after == db.(runs := db.runs[id := after.runs[id]], leases := db.leases - {id})
    requires after.runs[id].status == Skipped && after != db
    ensures !KeepsPromises(db, after)
  {
    hide Rows, Chain, JobsAgree, EventsAgree, DeadAgree, TablesOk;
    if db.runs[id].status == Skipped {
      assert id !in db.leases by { hide *; SkippedHasNoLease(db, id); }
      assert after.leases == db.leases;
      assert after.runs[id] != db.runs[id];
    }
    assert db.runs[id].key in db.jobs && db.runs[id].status != Skipped ==> !UnsubmittedOrSame(db, id);
  }

  lemma SkippedHasNoLease(db: Db, id: RunId)
    requires TablesOk(db) && id in db.runs && db.runs[id].status == Skipped
    ensures id !in db.leases
  {
    hide Rows, Chain, JobsAgree, EventsAgree, DeadAgree;
  }

  lemma LosesStart(db: Db, after: Db, id: RunId)
    requires id in db.runs && id in after.runs && !SameTimes(db.runs[id], after.runs[id])
    ensures !KeepsPromises(db, after)
  {
    hide TablesOk, RunsEvolve, SameTimes, Transition, UnsubmittedOrSame;
  }

  // ---------------------------------------------------------------- what a listed row still says

  /** A waiting row belongs to no worker. */
  predicate Unowned(row: Run) { Waiting(row.status) ==> row.owner.None? && row.claimExpires.None? }

  lemma NewRowUnowned(w: World, op: Op, id: RunId)
    requires Enabled(w, op) && id in Apply(w.db, op, w.clock).runs && id !in w.db.runs
    ensures Apply(w.db, op, w.clock).runs[id].owner.None?
  {
    hide HasAttempt, KeyPresent, PolicyAdmits, SameOccurrenceActive, DropToken,
         CheckpointConflict, ReconcileConflict, OccurrenceOpen, Unsubmitted, Compactable, Prunable, FinishedRow;
  }

  lemma {:induction false} WaitingIsUnowned(states: seq<World>, ops: seq<Op>, i: nat, id: RunId)
    requires i < |states| && id in states[i].db.runs
    requires Behaviour(states, ops)
    ensures Unowned(states[i].db.runs[id])
    decreases i
  {
    hide Behaviour, Inv, Enabled, Apply, Initial, Finishes;
    ReachableInv(states, ops, i);
    BehaviourShape(states, ops);
    if !Active(states[i].db.runs[id].status) { IdleRow(states[i], id); }
    if i == 0 {
      InitiallyIdle(states[0], "");
    } else {
      BehaviourStep(states, ops, i - 1);
      var w, op := states[i - 1], ops[i - 1];
      if id in w.db.runs {
        WaitingIsUnowned(states, ops, i - 1, id);
        StepMoves(states, ops, i - 1, id);
      } else {
        NewRowUnowned(w, op, id);
      }
    }
  }

  lemma IdleRow(w: World, id: RunId)
    requires Inv(w) && id in w.db.runs && !Active(w.db.runs[id].status)
    ensures w.db.runs[id].claimExpires.None?
  {
  }

  /** What a row read while it waited still says of the stored row, as long as that is open. */
  predicate ListedHolds(listed: Run, row: Run) {
    && Unowned(listed) && listed.detail == row.detail && listed.nominal == row.nominal && listed.due == row.due
  }

  lemma {:induction false} ListedStillHolds(states: seq<World>, ops: seq<Op>, i: nat, read: Read)
    requires i < |states| && read in states[i].known && read.run.id in states[i].db.runs
    requires !Finished(states[i].db.runs[read.run.id].status)
    requires Behaviour(states, ops)
    ensures ListedHolds(read.run, states[i].db.runs[read.run.id])
    decreases i
  {
    hide Behaviour, Inv, Evolves, Enabled, Step, Initial, Transition, Unowned, Finishes;
    NothingKnownAtFirst(states, ops, i, read);
    BehaviourStep(states, ops, i - 1);
    var w, op := states[i - 1], ops[i - 1];
    if read in w.known {
      StepKeepsInv(w, op);
      EarlierRow(w, states[i], read);
      ListedStillHolds(states, ops, i - 1, read);
      RowId(w, read.run.id);
      StepMoves(states, ops, i - 1, read.run.id);
    } else {
      KnownBefore(w, op, read);
      RowId(w, op.id);
      WaitingIsUnowned(states, ops, i - 1, op.id);
    }
  }

  lemma ReadFacts(w: World, read: Read)
    requires Inv(w) && read in w.known
    ensures read.run.createdAt <= read.at
            && (read.run.id in w.db.runs ==> SameIdentity(read.run, w.db.runs[read.run.id]))
  {
    hide TablesOk;
  }

  // ---------------------------------------------------------------- when the skip is legal

  /** The caller's check: the stored row still waits, its occurrence has no remote job, and its first start is the
      one that was listed. */
  predicate MaySkip(db: Db, listed: Run) {
    listed.id in Unsubmitted(db, listed.schedule) && db.runs[listed.id].startedAt == listed.startedAt
  }

  lemma SkipIsFresh(db: Db, listed: Run, overlap: OverlapPolicy, now: Time)
    requires listed.id in db.runs && SameIdentity(listed, db.runs[listed.id]) && ListedHolds(listed, db.runs[listed.id])
    requires Waiting(listed.status) && Waiting(db.runs[listed.id].status) && Unowned(db.runs[listed.id])
    requires listed.startedAt == db.runs[listed.id].startedAt && listed.retryAt == db.runs[listed.id].retryAt
    ensures FinishRun(db, SkippedRow(listed, overlap, now)) == SkipAll(db, {listed.id}, overlap, now)
  {
    assert FinishRun(db, SkippedRow(listed, overlap, now)).runs[listed.id]
           == SkippedRow(db.runs[listed.id], overlap, now);
  }

  /** A dispatcher that skips a run it listed earlier as waiting, in any run of the system: the skip takes effect
      and keeps every promise exactly when the stored row still waits, its occurrence still has no remote job and no
      first start was recorded since. It then is the very skip that a fresh listing would give. */
  lemma StaleSkipIsLegalIff(states: seq<World>, ops: seq<Op>, i: nat, listed: Read, overlap: OverlapPolicy, now: Time)
    requires i < |states| && listed in states[i].known && Waiting(listed.run.status) && listed.at <= now
    requires Behaviour(states, ops)
    ensures
      var db := states[i].db;
      var after := FinishRun(db, SkippedRow(listed.run, overlap, now));
      && ((after != db && KeepsPromises(db, after)) <==> MaySkip(db, listed.run))
      && (MaySkip(db, listed.run) ==> after == SkipAll(db, {listed.run.id}, overlap, now))
  {
    hide Behaviour, KeepsPromises, TablesOk, HistoryOk, ListedHolds, Unowned, SkipAll;
    ReachableInv(states, ops, i);
    ReadFacts(states[i], listed);
    var db, id := states[i].db, listed.run.id;
    var after := FinishRun(db, SkippedRow(listed.run, overlap, now));
    if id in db.runs {
      SkipShape(db, listed.run, overlap, now);
      if Waiting(db.runs[id].status) && db.runs[id].key !in db.jobs {
        OpenReadHolds(states, ops, i, listed);
        ListedStillHolds(states, ops, i, listed);
        WaitingIsUnowned(states, ops, i, id);
        if db.runs[id].startedAt == listed.run.startedAt {
          SkipIsFresh(db, listed.run, overlap, now);
          ListedUnclaimed(listed.run, db.runs[id]);
          LegalSkip(db, after, id);
        } else {
          LosesStart(db, after, id);
        }
      } else if after != db {
        IllegalSkip(db, after, id);
      }
    }
  }

  lemma ListedUnclaimed(listed: Run, row: Run)
    requires Waiting(listed.status) && ListedHolds(listed, row)
    ensures listed.claimExpires.None?
  {
  }
}
