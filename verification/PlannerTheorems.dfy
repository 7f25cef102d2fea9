/** The planner over whole sequences of ticks, any of which may be cut short after any insert, while the rest
    of the system works on the same tables: the ledger follows the schedule's cadence exactly. */
module PlannerTheorems {
  import opened Domain
  import opened Ledger
  import opened LedgerInvariants
  import opened Timecalc
  import opened Planner

  /** What stays fixed: the schedule, its cadence, and the moment its first NextRunAt was computed for. */
  datatype Fixed = Fixed(schedule: ScheduleId, misfire: Misfire, grace: int, next: Next, start: Time)

  /** The tables, NextRunAt, the last tick, and as history the moment up to which slots have been recorded
      and the occurrences that ticks have chosen to run. */
  datatype PlanState = PlanState(db: Db, nextRunAt: Option<Time>, now: Time, upto: Time, chosen: set<Key>)

  datatype PlanStep =
    | Tick(now: Time, stop: Option<nat>, firstId: RunId,
      clock: nat -> Time)   // interrupted after `stop` inserts, or complete
    | Elsewhere(db: Db)                                                         // dispatchers, workers, other schedules

  function BatchOf(f: Fixed, due: seq<Time>, step: PlanStep): Batch
    requires step.Tick?
  {
    Batch(f.schedule, f.misfire, due, step.now, f.grace, step.firstId, step.clock)
  }

  /** The occurrences whose first attempt a tick adds to be run. */
  function Choices(before: Db, after: Db): set<Key> {
    set id | id in after.runs && id !in before.runs && after.runs[id].status == Pending :: after.runs[id].key
  }

  function Reach(stop: Option<nat>, n: nat): nat { if stop.Some? && stop.value < n then stop.value else n }

  ghost function After(f: Fixed, s: PlanState, step: PlanStep): PlanState
    requires LeastNext(f.next)
  {
    match step
    case Elsewhere(db) => s.(db := db)
    case Tick(now, stop, _, _) =>
      if s.nextRunAt.None? then s.(nextRunAt := f.next(now - 1), now := now)
      else if s.nextRunAt.value > now then s.(now := now)
      else
        var due := Due(f.next, s.nextRunAt.value, now);
        var k := Reach(stop, |due|);
        var db := Inserted(s.db, BatchOf(f, due, step), k);
        PlanState(db,
                  if stop.None? then Following(f.next, s.nextRunAt.value, now) else s.nextRunAt,
                  now,
                  if k > 0 && due[k - 1] >= s.upto then due[k - 1] + 1 else s.upto,
                  s.chosen + Choices(s.db, db))
  }

  ghost predicate Allowed(f: Fixed, s: PlanState, step: PlanStep) {
    match step
    case Elsewhere(db) => forall second :: Recorded(db, f.schedule, second) <==> Recorded(s.db, f.schedule, second)
    case Tick(now, _, firstId, _) => s.now <= now && f.schedule in s.db.enabled && forall id | id in s.db.runs ::
        id < firstId
  }

  /** Creation computes the least slot from `start` on; nothing has been recorded. */
  ghost predicate Created(f: Fixed, s: PlanState) {
    && s.nextRunAt == f.next(f.start - 1) && s.now == f.start && s.upto == f.start && s.chosen == {}
    && forall second :: !Recorded(s.db, f.schedule, second)
  }

  ghost predicate Planning(f: Fixed, states: seq<PlanState>, steps: seq<PlanStep>) {
    && LeastNext(f.next)
    && |states| == |steps| + 1
    && Created(f, states[0])
    && forall i {:trigger steps[i]} | 0 <= i < |steps| ::
          Allowed(f, states[i], steps[i]) && states[i + 1] == After(f, states[i], steps[i])
  }

  // ---------------------------------------------------------------- the invariant

  /** Some slot from `start` up to (not including) `upto` falls in this second. */
  ghost predicate SlotIn(next: Next, start: Time, upto: Time, second: int) {
    exists t :: start <= t < upto && IsNextSlot(next, t) && Unix(t) == second
  }

  /** The recorded first attempts are those of the slots in that stretch, and of no other second. */
  ghost predicate RecordedExactly(f: Fixed, db: Db, upto: Time) {
    forall second :: Recorded(db, f.schedule, second) <==> SlotIn(f.next, f.start, upto, second)
  }

  ghost predicate FollowsCadence(f: Fixed, s: PlanState) {
    && f.start <= s.now && s.upto <= s.now + 1
    && RecordedExactly(f, s.db, s.upto)
    && (match s.nextRunAt
        case Some(n) => IsNextSlot(f.next, n) && f.start <= n && forall t | IsNextSlot(f.next, t) && f.start <= t < n ::
            t < s.upto
        case None => forall t | IsNextSlot(f.next, t) && f.start <= t :: t < s.upto)
  }

  lemma CreatedFollows(f: Fixed, s: PlanState)
    requires LeastNext(f.next) && Created(f, s)
    ensures FollowsCadence(f, s)
  {
    hide LeastNext;
    if f.next(f.start - 1).Some? {
      NextIsSlot(f.next, f.start - 1);
    } else {
      NoneAfter(f.next, f.start - 1);
    }
  }

  /** Reaching the first k due slots extends the recorded stretch to the k-th of them. */
  lemma ReachedIsStretch(f: Fixed, from: Time, now: Time, b: Batch, k: nat, upto: Time, second: int)
    requires LeastNext(f.next) && IsNextSlot(f.next, from) && f.start <= from
    requires b.due == Due(f.next, from, now) && 0 < k <= |b.due|
    requires forall t | IsNextSlot(f.next, t) && f.start <= t < from :: t < upto
    ensures
      var upto' := if b.due[k - 1] >= upto then b.due[k - 1] + 1 else upto;
      SlotIn(f.next, f.start, upto', second) <==> SlotIn(f.next, f.start, upto, second) || Reached(b, k, second)
    ensures b.due[k - 1] <= now
  {
    hide LeastNext, IsNextSlot, Unix;
    DueIsCadence(f.next, from, now);
    var due := b.due;
    var upto' := if due[k - 1] >= upto then due[k - 1] + 1 else upto;
    assert due[k - 1] in due;
    if Reached(b, k, second) {
      var i :| 0 <= i < k && Unix(due[i]) == second;
      assert due[i] in due && due[i] <= due[k - 1];
    }
    if SlotIn(f.next, f.start, upto', second) {
      var t :| f.start <= t < upto' && IsNextSlot(f.next, t) && Unix(t) == second;
      if t >= upto {
        assert t in due;
        var i :| 0 <= i < |due| && due[i] == t;
        assert i < k;
      }
    }
  }

  lemma TickFollows(f: Fixed, s: PlanState, step: PlanStep)
    requires LeastNext(f.next) && step.Tick? && Allowed(f, s, step) && s.nextRunAt.Some?
             && s.nextRunAt.value <= step.now
    requires FollowsCadence(f, s)
    ensures FollowsCadence(f, After(f, s, step))
  {
    hide LeastNext, Inserted, Recorded, SlotIn, Reached, Due, Following, IsNextSlot;
    var from, now := s.nextRunAt.value, step.now;
    var due := Due(f.next, from, now);
    var b := BatchOf(f, due, step);
    var k := Reach(step.stop, |due|);
    var t := After(f, s, step);
    forall second ensures Recorded(t.db, f.schedule, second) <==> SlotIn(f.next, f.start, t.upto, second) {
      InsertedExactly(s.db, b, k, f.schedule, second);
      if k > 0 { ReachedIsStretch(f, from, now, b, k, s.upto, second); } else { NoneReached(b, second); }
    }
    if k > 0 { ReachedIsStretch(f, from, now, b, k, s.upto, 0); }
    if step.stop.None? {
      DueIsCadence(f.next, from, now);
      FollowingIsNext(f.next, from, now);
      DueNonEmpty(f.next, from, now);
      assert due[|due| - 1] in due;
      forall u | IsNextSlot(f.next, u) && f.start <= u <= now ensures u < t.upto {
        if from <= u {
          assert u in due;
          var i :| 0 <= i < |due| && due[i] == u;
          assert i == |due| - 1 || due[i] < due[|due| - 1];
        }
      }
      if f.next(now).Some? { NextIsSlot(f.next, now); } else { NoneAfter(f.next, now); }
    }
  }

  lemma NoneReached(b: Batch, second: int)
    ensures !Reached(b, 0, second)
  {
  }

  lemma DueNonEmpty(next: Next, from: Time, now: Time)
    requires LeastNext(next) && from <= now
    ensures |Due(next, from, now)| > 0
  {
  }

  lemma StepFollows(f: Fixed, s: PlanState, step: PlanStep)
    requires LeastNext(f.next) && Allowed(f, s, step)
    requires FollowsCadence(f, s)
    ensures FollowsCadence(f, After(f, s, step))
  {
    hide LeastNext, Inserted, Recorded, SlotIn, Reached, Due, Following;
    if step.Tick? {
      if s.nextRunAt.None? {
        if f.next(step.now - 1).Some? { NextIsSlot(f.next, step.now - 1); }
      } else if s.nextRunAt.value <= step.now {
        TickFollows(f, s, step);
      }
    }
  }

  lemma {:induction false} PlanningFollows(f: Fixed, states: seq<PlanState>, steps: seq<PlanStep>, i: nat)
    requires i < |states|
    requires Planning(f, states, steps)
    ensures FollowsCadence(f, states[i])
    decreases i
  {
    hide FollowsCadence, Allowed, After, Created, LeastNext;
    if i == 0 {
      CreatedFollows(f, states[0]);
    } else {
      PlanningFollows(f, states, steps, i - 1);
      StepFollows(f, states[i - 1], steps[i - 1]);
    }
  }

  // ---------------------------------------------------------------- the promises

  /** At every moment the recorded slots are exactly the cadence slots from the start through some point: no
      slot is missing before it, none is recorded beyond it or off the cadence. That point covers every slot
      before NextRunAt and never passes the last tick. */
  lemma LedgerFollowsCadence(f: Fixed, states: seq<PlanState>, steps: seq<PlanStep>, i: nat) returns (upto: Time)
    requires i < |states|
    requires Planning(f, states, steps)
    ensures RecordedExactly(f, states[i].db, upto)
    ensures forall t | IsNextSlot(f.next, t) && f.start <= t && (states[i].nextRunAt.Some? ==>
              t < states[i].nextRunAt.value) :: t < upto
    ensures upto <= states[i].now + 1
    ensures states[i].nextRunAt.Some? ==> IsNextSlot(f.next, states[i].nextRunAt.value)
  {
    PlanningFollows(f, states, steps, i);
    upto := states[i].upto;
    hide Planning, Recorded, SlotIn, LeastNext;
  }

  /** A completed tick that found the schedule due has recorded every slot up to now and no other, and leaves
      NextRunAt at the least slot after now. */
  lemma CompletedTick(f: Fixed, states: seq<PlanState>, steps: seq<PlanStep>, i: nat)
    requires |states| == |steps| + 1 && i < |steps| && steps[i].Tick? && steps[i].stop.None?
             && states[i].nextRunAt.Some?
    requires Planning(f, states, steps)
    ensures
      var now := steps[i].now;
      && states[i + 1].nextRunAt == f.next(now)
      && RecordedExactly(f, states[i + 1].db, now + 1)
  {
    PlanningFollows(f, states, steps, i);
    PlanningFollows(f, states, steps, i + 1);
    var s, t, now := states[i], states[i + 1], steps[i].now;
    assert t == After(f, s, steps[i]) && Allowed(f, s, steps[i]);
    hide Planning, Recorded, LeastNext, Unix, Due, Inserted;
    if s.nextRunAt.value <= now {
      FollowingIsNext(f.next, s.nextRunAt.value, now);
    } else {
      NotYetDue(f, s, now);
    }
    assert t.upto <= now + 1;
    assert forall u | IsNextSlot(f.next, u) && f.start <= u <= now :: u < t.upto by { AllBefore(f, t, now); }
    SameStretch(f, t.upto, now + 1);
  }

  lemma NotYetDue(f: Fixed, s: PlanState, now: Time)
    requires LeastNext(f.next) && FollowsCadence(f, s) && s.nextRunAt.Some? && s.nextRunAt.value > now >= s.now
    ensures f.next(now) == s.nextRunAt
  {
    var n := s.nextRunAt.value;
    assert f.next(n - 1) == Some(n);
    if f.next(now).Some? {
      NextIsSlot(f.next, now);
      hide LeastNext, Recorded, SlotIn;
    } else {
      NoneAfter(f.next, now);
    }
  }

  lemma AllBefore(f: Fixed, t: PlanState, now: Time)
    requires LeastNext(f.next) && FollowsCadence(f, t) && t.nextRunAt == f.next(now)
    ensures forall u | IsNextSlot(f.next, u) && f.start <= u <= now :: u < t.upto
  {
    if f.next(now).Some? { NextIsSlot(f.next, now); }
    hide LeastNext, Recorded, SlotIn;
  }

  lemma SameStretch(f: Fixed, a: Time, b: Time)
    requires a <= b && forall u | IsNextSlot(f.next, u) && f.start <= u < b :: u < a
    ensures forall second :: SlotIn(f.next, f.start, a, second) <==> SlotIn(f.next, f.start, b, second)
  {
  }

  /** A tick, complete or not, rewrites nothing that was recorded: replayed slots keep their rows. */
  lemma TickRewritesNothing(f: Fixed, s: PlanState, step: PlanStep)
    requires LeastNext(f.next) && step.Tick? && Allowed(f, s, step)
    ensures
      var after := After(f, s, step).db;
      && after == s.db.(runs := after.runs)
      && forall id | id in s.db.runs :: id in after.runs && after.runs[id] == s.db.runs[id]
  {
    if s.nextRunAt.Some? && s.nextRunAt.value <= step.now {
      var due := Due(f.next, s.nextRunAt.value, step.now);
      InsertedRows(s.db, BatchOf(f, due, step), Reach(step.stop, |due|));
    }
    hide Inserted, LeastNext, Due;
  }

  /** For a validated schedule the recorded seconds stand for its slots one to one. */
  lemma OneRowPerSlot(c: Timing, cron: CronNext, schedule: ScheduleId, db: Db, s: Time, t: Time, a: RunId, b: RunId)
    requires ValidTiming(c) && CronOk(c, cron) && IsSlot(c, s, cron) && IsSlot(c, t, cron) && Chain(db.runs)
    requires a in db.runs && db.runs[a].key == OccurrenceKey(schedule, s) && db.runs[a].attempt == 1
    requires b in db.runs && db.runs[b].key == OccurrenceKey(schedule, t) && db.runs[b].attempt == 1
    ensures a == b <==> s == t
  {
    if db.runs[a].key == db.runs[b].key { KeysAreInjective(c, cron, schedule, s, t); }
    hide IsSlot, CronOk, ValidTiming;
  }
}
