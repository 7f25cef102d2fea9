/** materializeSchedule over the store: the loops behind one planner step. */
module PlannerProcess {
  import opened Domain
  import opened Ledger
  import opened Timecalc
  import opened Planner
  import opened PlannerTheorems
  import Store

  lemma DueStep(next: Next, slot: Time, now: Time)
    requires LeastNext(next) && slot <= now
    ensures next(slot).Some? ==> next(slot).value > slot
    ensures Due(next, slot, now) == [slot] + (if next(slot).Some? then Due(next, next(slot).value, now) else [])
    ensures Following(next, slot, now) == if next(slot).Some? then Following(next, next(slot).value, now) else None
  {
  }

  lemma NothingDue(next: Next, slot: Time, now: Time)
    requires LeastNext(next) && slot > now
    ensures Due(next, slot, now) == [] && Following(next, slot, now) == Some(slot)
  {
  }

  /** Pending to be run, or skipped at once with the reason. */
  predicate Decided(row: Run, toRun: bool, why: string, at: Time) {
    if toRun then row.status == Pending && row.finishedAt.None? && row.detail == NO_DETAIL
    else row.status == Skipped && row.finishedAt == Some(at) && row.detail == Detail(None, None, "", Some(why))
  }

  class SchedulePlanner {
    const store: Store.Store
    const schedule: ScheduleId
    const misfire: Misfire
    const grace: int
    const next: Next
    var active: bool                 // enabled and not paused
    var nextRunAt: Option<Time>

    constructor (store: Store.Store, schedule: ScheduleId, misfire: Misfire, grace: int, next: Next, created: Time)
      ensures this.store == store && this.schedule == schedule && this.misfire == misfire && this.grace == grace
              && this.next == next
      ensures active && nextRunAt == next(created - 1)
    {
      this.store, this.schedule, this.misfire, this.grace, this.next := store, schedule, misfire, grace, next;
      active, nextRunAt := true, next(created - 1);
    }

    /** Every due slot, and the slot the loop stops at. */
    method CollectDue(now: Time) returns (due: seq<Time>, following: Option<Time>)
      requires LeastNext(next) && nextRunAt.Some? && nextRunAt.value <= now
      ensures due == Due(next, nextRunAt.value, now) && following == Following(next, nextRunAt.value, now)
    {
      hide Due, Following, LeastNext;
      due := [];
      following := nextRunAt;
      while following.Some? && following.value <= now
        invariant due + (if following.Some? then Due(next, following.value, now) else []) == Due(next, nextRunAt.value,
                  now)
        invariant following.Some? ==> Following(next, following.value, now) == Following(next, nextRunAt.value, now)
        invariant following.None? ==> Following(next, nextRunAt.value, now).None?
        decreases if following.Some? && following.value <= now then now - following.value + 1 else 0
      {
        var slot := following.value;
        DueStep(next, slot, now);
        due := due + [slot];
        following := next(slot);
      }
      if following.Some? { NothingDue(next, following.value, now); }
    }

    /** insertOccurrence for the i-th due slot; a slot recorded before is not an error. */
    method InsertOccurrence(b: Batch, i: nat) returns (err: Option<Error>)
      requires i < |b.due|
      modifies store
      ensures Tx(store.Db(), err) == InsertRun(old(store.Db()), RowOf(b, i))
      ensures err.None? ==>
                && b.firstId + i in store.runs
                && var row := store.runs[b.firstId + i];
                   && row.id == b.firstId + i && row.schedule == b.schedule && row.attempt == 1
                   && row.key == Slot(b.schedule, b.due[i] / SECOND) && row.nominal == row.due == b.due[i]
                   && row.owner.None? && row.claimExpires.None? && row.startedAt.None? && row.retryAt.None?
                   && row.createdAt == row.updatedAt == b.clock(i)
                   && (match b.misfire
                       case SkipLate =>
                         Decided(row, b.now - b.due[i] <= b.grace, "skipped due to misfire policy", b.clock(i))
                       case RunOnceIfLate =>
                         Decided(row, i == |b.due| - 1, "skipped due to run_once_if_late policy", b.clock(i))
                       case CatchUp => row.status == Pending && row.finishedAt.None? && row.detail == NO_DETAIL)
    {
      var toRun: bool;
      match b.misfire {
        case SkipLate => toRun := !(b.now - b.due[i] > b.grace);
        case RunOnceIfLate => toRun := !(i < |b.due| - 1);
        case CatchUp => toRun := true;
      }
      err := store.InsertRun(PlannedRun(b.schedule, b.due[i], toRun, b.misfire, b.firstId + i, b.clock(i)));
    }

    /** One tick for this schedule. With `stop` the process dies after that many inserts. The tables and
        NextRunAt move exactly as in the planner's state machine. */
    method MaterializeSchedule(now: Time, stop: Option<nat>, firstId: RunId, clock: nat -> Time) returns (done: bool)
      requires LeastNext(next) && schedule in store.enabled && forall id | id in store.runs :: id < firstId
      modifies this`nextRunAt, store
      ensures !active ==> store.Db() == old(store.Db()) && nextRunAt == old(nextRunAt)
      ensures active ==>
                var f := Fixed(schedule, misfire, grace, next, 0);
                var after := After(f, PlanState(old(store.Db()), old(nextRunAt), now, 0, {}),
                  Tick(now, if done then None else stop, firstId, clock));
                store.Db() == after.db && nextRunAt == after.nextRunAt
      ensures stop.None? ==> done
    {
      hide LeastNext, InsertRun, RowOf;
      if !active { return true; }
      if nextRunAt.None? {
        nextRunAt := next(now - 1);
        return true;
      }
      if nextRunAt.value > now { return true; }
      var due, following := CollectDue(now);
      var b := Batch(schedule, misfire, due, now, grace, firstId, clock);
      ghost var db := store.Db();
      for i := 0 to |due|
        invariant store.Db() == Inserted(db, b, i) && nextRunAt == old(nextRunAt)
        invariant stop.Some? ==> i <= stop.value
      {
        if stop == Some(i) { return false; }
        InsertedRows(db, b, i);
        RowFacts(b, i);
        var err := InsertOccurrence(b, i);
      }
      if stop == Some(|due|) { return false; }
      nextRunAt := following;
      done := true;
    }
  }
}
