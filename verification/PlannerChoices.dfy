/** What a misfire policy chooses to run: batch by batch, and over whole sequences of ticks that may be cut short. */
module PlannerChoices {
  import opened Domain
  import opened Ledger
  import opened Timecalc
  import opened Planner
  import opened PlannerTheorems

  // ---------------------------------------------------------------- decisions of one batch

  /** The i-th due slot has a first attempt in one of these states. */
  predicate FirstIn(db: Db, b: Batch, i: nat, among: set<RunStatus>)
    requires i < |b.due|
  {
    exists id | id in db.runs ::
      db.runs[id].key == OccurrenceKey(b.schedule, b.due[i]) && db.runs[id].attempt == 1 && db.runs[id].status in among
  }

  /** Its first attempt waits to be started. */
  predicate WaitsToRun(db: Db, b: Batch, i: nat)
    requires i < |b.due|
  {
    FirstIn(db, b, i, {Pending})
  }

  const NOT_SKIPPED := {Pending, Claimed, Running, Succeeded, Failed, RetryScheduled, DeadLettered, Cancelled}

  /** Its first attempt was not skipped: it waits, runs or has run. */
  predicate Chosen(db: Db, b: Batch, i: nat)
    requires i < |b.due|
  {
    FirstIn(db, b, i, NOT_SKIPPED)
  }

  predicate DistinctSeconds(b: Batch) {
    forall i, j | 0 <= i < j < |b.due| :: Unix(b.due[i]) != Unix(b.due[j])
  }

  lemma FirstWitness(db: Db, b: Batch, i: nat, among: set<RunStatus>, id: RunId)
    requires i < |b.due| && id in db.runs && db.runs[id].attempt == 1 && db.runs[id].status in among
    requires db.runs[id].key == OccurrenceKey(b.schedule, b.due[i])
    ensures FirstIn(db, b, i, among)
  {
  }

  lemma FirstRow(db: Db, b: Batch, i: nat, among: set<RunStatus>) returns (id: RunId)
    requires i < |b.due| && FirstIn(db, b, i, among)
    ensures id in db.runs && db.runs[id].attempt == 1 && db.runs[id].status in among
    ensures db.runs[id].key == OccurrenceKey(b.schedule, b.due[i])
    ensures Recorded(db, b.schedule, Unix(b.due[i]))
  {
    id :| id in db.runs && db.runs[id].key == OccurrenceKey(b.schedule, b.due[i])
          && db.runs[id].attempt == 1 && db.runs[id].status in among;
  }

  /** Every first attempt of slot i after a batch was there before, or is the batch's own row for it. */
  lemma RowsOfSlot(db: Db, b: Batch, i: nat, id: RunId)
    requires Room(db, b) && DistinctSeconds(b) && i < |b.due| && id in Inserted(db, b, |b.due|).runs
    requires Inserted(db, b, |b.due|).runs[id].key == OccurrenceKey(b.schedule, b.due[i])
    ensures if id in db.runs then Inserted(db, b, |b.due|).runs[id] == db.runs[id]
            else id == b.firstId + i && Inserted(db, b, |b.due|).runs[id] == RowOf(b, i)
  {
    hide Inserted, RowOf, Unix, ToRun, Room;
    InsertedRows(db, b, |b.due|);
    if id !in db.runs { RowFacts(b, id - b.firstId); }
  }

  /** With distinct seconds, the earlier inserts of a batch do not record slot i. */
  lemma RecordedBeforeTurn(db: Db, b: Batch, i: nat)
    requires Room(db, b) && DistinctSeconds(b) && i < |b.due|
    ensures Recorded(Inserted(db, b, i), b.schedule, Unix(b.due[i])) <==> Recorded(db, b.schedule, Unix(b.due[i]))
  {
    InsertedExactly(db, b, i, b.schedule, Unix(b.due[i]));
    hide Inserted, Recorded, Unix;
  }

  /** A slot recorded earlier keeps its decision. */
  lemma RecordedDecision(db: Db, b: Batch, i: nat, among: set<RunStatus>)
    requires Room(db, b) && DistinctSeconds(b) && i < |b.due| && Recorded(db, b.schedule, Unix(b.due[i]))
    ensures FirstIn(Inserted(db, b, |b.due|), b, i, among) <==> FirstIn(db, b, i, among)
  {
    hide Inserted, Recorded, RowOf, Unix, Room, DistinctSeconds, FirstIn;
    var after := Inserted(db, b, |b.due|);
    InsertedRows(db, b, |b.due|);
    if FirstIn(after, b, i, among) {
      InsertedRecords(db, b, |b.due|, i);
      RecordedBeforeTurn(db, b, i);
      var id := FirstRow(after, b, i, among);
      RowsOfSlot(db, b, i, id);
      FirstWitness(db, b, i, among, id);
    }
    if FirstIn(db, b, i, among) {
      var id := FirstRow(db, b, i, among);
      FirstWitness(after, b, i, among, id);
    }
  }

  lemma IdIsNew(db: Db, b: Batch, i: nat)
    requires Room(db, b)
    ensures b.firstId + i !in db.runs
  {
  }

  lemma NewSlotRow(db: Db, b: Batch, i: nat)
    requires i < |b.due| && Room(db, b) && DistinctSeconds(b) && !Recorded(db, b.schedule, Unix(b.due[i]))
    ensures b.firstId + i !in db.runs
    ensures b.firstId + i in Inserted(db, b, |b.due|).runs
    ensures Inserted(db, b, |b.due|).runs[b.firstId + i] == RowOf(b, i)
  {
    hide Inserted, Recorded, RowOf, Unix, Room, DistinctSeconds;
    IdIsNew(db, b, i);
    RecordedBeforeTurn(db, b, i);
    InsertedRecords(db, b, |b.due|, i);
    InsertedRows(db, b, |b.due|);
  }

  /** A new slot follows the misfire policy. */
  lemma NewDecision(db: Db, b: Batch, i: nat, among: set<RunStatus>)
    requires Room(db, b) && DistinctSeconds(b) && i < |b.due| && !Recorded(db, b.schedule, Unix(b.due[i]))
    requires Pending in among && Skipped !in among
    ensures FirstIn(Inserted(db, b, |b.due|), b, i, among) <==> ToRun(b.misfire, i, |b.due|, b.due[i], b.now, b.grace)
  {
    hide Inserted, Recorded, RowOf, Unix, Room, ToRun, DistinctSeconds, FirstIn;
    var after := Inserted(db, b, |b.due|);
    RowFacts(b, i);
    NewSlotRow(db, b, i);
    if FirstIn(after, b, i, among) {
      var id := FirstRow(after, b, i, among);
      RowsOfSlot(db, b, i, id);
      NoneRecorded(db, b.schedule, Unix(b.due[i]));
    }
    if ToRun(b.misfire, i, |b.due|, b.due[i], b.now, b.grace) {
      FirstWitness(after, b, i, among, b.firstId + i);
    }
  }

  lemma DecisionsAfter(db: Db, b: Batch, i: nat, among: set<RunStatus>)
    requires Room(db, b) && DistinctSeconds(b) && i < |b.due| && Pending in among && Skipped !in among
    ensures FirstIn(Inserted(db, b, |b.due|), b, i, among) <==>
              if Recorded(db, b.schedule, Unix(b.due[i])) then FirstIn(db, b, i, among)
              else ToRun(b.misfire, i, |b.due|, b.due[i], b.now, b.grace)
  {
    hide Inserted, Recorded, Unix, FirstIn, Room, DistinctSeconds, ToRun;
    if Recorded(db, b.schedule, Unix(b.due[i])) {
      RecordedDecision(db, b, i, among);
    } else {
      NewDecision(db, b, i, among);
    }
  }

  /** skip: a slot found within the grace, its bound included, runs; a later one is recorded as skipped. */
  lemma SkipRunsWithinGrace(db: Db, b: Batch, i: nat)
    requires Room(db, b) && DistinctSeconds(b) && i < |b.due| && b.misfire == SkipLate
    requires !Recorded(db, b.schedule, Unix(b.due[i]))
    ensures WaitsToRun(Inserted(db, b, |b.due|), b, i) <==> b.now - b.due[i] <= b.grace
    ensures Chosen(Inserted(db, b, |b.due|), b, i) <==> b.now - b.due[i] <= b.grace
  {
    DecisionsAfter(db, b, i, {Pending});
    DecisionsAfter(db, b, i, NOT_SKIPPED);
    hide Inserted, Recorded, Unix, FirstIn;
  }

  /** catch_up: every new slot runs, however late it is found. */
  lemma CatchUpRunsAll(db: Db, b: Batch, i: nat)
    requires Room(db, b) && DistinctSeconds(b) && i < |b.due| && b.misfire == CatchUp
    requires !Recorded(db, b.schedule, Unix(b.due[i]))
    ensures WaitsToRun(Inserted(db, b, |b.due|), b, i) && Chosen(Inserted(db, b, |b.due|), b, i)
  {
    DecisionsAfter(db, b, i, {Pending});
    DecisionsAfter(db, b, i, NOT_SKIPPED);
    hide Inserted, Recorded, Unix, FirstIn;
  }

  predicate OnlyLatestChosen(db: Db, b: Batch) {
    forall i | 0 <= i < |b.due| :: Chosen(db, b, i) <==> i == |b.due| - 1
  }

  predicate NoEarlierChosen(db: Db, b: Batch) {
    forall i | 0 <= i < |b.due| && i != |b.due| - 1 :: !Chosen(db, b, i)
  }

  /** run_once_if_late leaves exactly the latest due slot chosen exactly when no earlier due slot had been
      chosen before, and the latest, if it was recorded before, was chosen then. */
  lemma RunsOnceIff(db: Db, b: Batch)
    requires Room(db, b) && DistinctSeconds(b) && |b.due| > 0 && b.misfire == RunOnceIfLate
    ensures OnlyLatestChosen(Inserted(db, b, |b.due|), b) <==>
              && NoEarlierChosen(db, b)
              && (Recorded(db, b.schedule, Unix(b.due[|b.due| - 1])) ==> Chosen(db, b, |b.due| - 1))
  {
    hide Inserted, Recorded, Unix, FirstIn, Room, DistinctSeconds;
    var after, last := Inserted(db, b, |b.due|), |b.due| - 1;
    forall i | 0 <= i < |b.due|
      ensures Chosen(db, b, i) ==> Recorded(db, b.schedule, Unix(b.due[i]))
      ensures Chosen(after, b, i) <==>
                if Recorded(db, b.schedule, Unix(b.due[i])) then Chosen(db, b, i) else i == last
    {
      DecisionsAfter(db, b, i, NOT_SKIPPED);
      if Chosen(db, b, i) { var _ := FirstRow(db, b, i, NOT_SKIPPED); }
    }
    hide Chosen;
    assert OnlyLatestChosen(after, b) ==> Chosen(after, b, last);
    if NoEarlierChosen(db, b) {
      assert forall i | 0 <= i < last :: !Chosen(db, b, i);
    } else {
      var i :| 0 <= i < |b.due| && i != last && Chosen(db, b, i);
      assert Chosen(after, b, i);
    }
  }

  // ---------------------------------------------------------------- distinct seconds

  /** No two slots of the cadence fall in one second. */
  ghost predicate DistinctSlots(next: Next) {
    forall s, t | IsNextSlot(next, s) && IsNextSlot(next, t) && Unix(s) == Unix(t) :: s == t
  }

  /** Every validated schedule has distinct seconds. */
  lemma CadenceIsDistinct(c: Timing, cron: CronNext)
    requires ValidTiming(c) && CronOk(c, cron)
    ensures DistinctSlots(NextOf(c, cron))
  {
    hide NextAfter, IsSlot, CronOk, ValidTiming, NextOf, Unix;
    var next := NextOf(c, cron);
    forall s, t | IsNextSlot(next, s) && IsNextSlot(next, t) && Unix(s) == Unix(t) ensures s == t {
      NextReaches(c, cron, s);
      NextReaches(c, cron, t);
      KeysAreInjective(c, cron, "", s, t);
    }
  }

  lemma BatchIsDistinct(f: Fixed, from: Time, step: PlanStep)
    requires step.Tick? && LeastNext(f.next) && DistinctSlots(f.next) && IsNextSlot(f.next, from)
    ensures DistinctSeconds(BatchOf(f, Due(f.next, from, step.now), step))
  {
    DueIsCadence(f.next, from, step.now);
    hide Due, LeastNext, Unix;
    var due := Due(f.next, from, step.now);
    forall i, j | 0 <= i < j < |due| ensures Unix(due[i]) != Unix(due[j]) {
      assert due[i] in due && due[j] in due;
    }
  }

  // ---------------------------------------------------------------- choices over whole sequences of ticks

  /** The latest slot at a moment. */
  ghost predicate LatestAt(f: Fixed, t: Time, now: Time) {
    IsNextSlot(f.next, t) && f.start <= t <= now && forall u | IsNextSlot(f.next, u) && t < u :: now < u
  }

  /** A slot stays the latest while time runs backwards to it. */
  lemma LatestEarlier(f: Fixed, t: Time, sooner: Time, later: Time)
    requires LatestAt(f, t, later) && t <= sooner <= later
    ensures LatestAt(f, t, sooner)
  {
  }

  lemma DueTail(f: Fixed, from: Time, now: Time)
    requires LeastNext(f.next) && IsNextSlot(f.next, from) && f.start <= from <= now
    ensures
      var due := Due(f.next, from, now);
      |due| > 0 && LatestAt(f, due[|due| - 1], now)
  {
    DueIsCadence(f.next, from, now);
    DueNonEmpty(f.next, from, now);
    hide Due, LeastNext;
    var due := Due(f.next, from, now);
    var last := due[|due| - 1];
    assert last in due;
    forall u | u in due ensures u <= last {
      var i :| 0 <= i < |due| && due[i] == u;
    }
  }

  lemma ChoiceRow(before: Db, after: Db, key: Key) returns (id: RunId)
    requires key in Choices(before, after)
    ensures id in after.runs && id !in before.runs && after.runs[id].status == Pending && after.runs[id].key == key
  {
    id :| id in after.runs && id !in before.runs && after.runs[id].status == Pending && after.runs[id].key == key;
  }

  lemma RowChoice(before: Db, after: Db, id: RunId)
    requires id in after.runs && id !in before.runs && after.runs[id].status == Pending
    ensures after.runs[id].key in Choices(before, after)
  {
  }

  /** Interrupted or not, a tick under run_once_if_late chooses nothing but the latest slot at that moment. */
  lemma TickChoosesLatest(f: Fixed, s: PlanState, step: PlanStep, key: Key) returns (t: Time)
    requires LeastNext(f.next) && step.Tick? && Allowed(f, s, step) && f.misfire == RunOnceIfLate
    requires key in After(f, s, step).chosen && key !in s.chosen
    requires FollowsCadence(f, s)
    ensures LatestAt(f, t, step.now) && key == OccurrenceKey(f.schedule, t)
  {
    hide LeastNext, Inserted, Due, Following, Recorded, SlotIn, RowOf, Choices, Unix, LatestAt;
    var from, now := s.nextRunAt.value, step.now;
    var due := Due(f.next, from, now);
    var b := BatchOf(f, due, step);
    var k := Reach(step.stop, |due|);
    var id := ChoiceRow(s.db, Inserted(s.db, b, k), key);
    InsertedRows(s.db, b, k);
    RowFacts(b, id - b.firstId);
    DueTail(f, from, now);
    t := due[id - b.firstId];
  }

  /** Whatever was chosen was the latest slot at some tick. */
  lemma {:induction false} ChosenWasLatest(f: Fixed, states: seq<PlanState>, steps: seq<PlanStep>, i: nat, key: Key)
    returns (j: nat, t: Time)
    requires i < |states| && key in states[i].chosen && f.misfire == RunOnceIfLate
    requires Planning(f, states, steps)
    ensures j < i && j < |steps| && steps[j].Tick? && LatestAt(f, t, steps[j].now)
            && key == OccurrenceKey(f.schedule, t)
    decreases i
  {
    hide LeastNext, FollowsCadence, LatestAt, After, Created, Allowed;
    CreatedChoseNothing(f, states, steps);
    assert states[i] == After(f, states[i - 1], steps[i - 1]) && Allowed(f, states[i - 1], steps[i - 1]);
    if key in states[i - 1].chosen {
      j, t := ChosenWasLatest(f, states, steps, i - 1, key);
    } else {
      PlanningFollows(f, states, steps, i - 1);
      OnlyTicksChoose(f, states[i - 1], steps[i - 1], key);
      j := i - 1;
      t := TickChoosesLatest(f, states[i - 1], steps[i - 1], key);
    }
  }

  lemma CreatedChoseNothing(f: Fixed, states: seq<PlanState>, steps: seq<PlanStep>)
    requires Planning(f, states, steps)
    ensures states[0].chosen == {}
  {
  }

  lemma OnlyTicksChoose(f: Fixed, s: PlanState, step: PlanStep, key: Key)
    requires LeastNext(f.next) && key in After(f, s, step).chosen && key !in s.chosen
    ensures step.Tick?
  {
    hide LeastNext;
  }

  lemma ChosenStays(f: Fixed, s: PlanState, step: PlanStep)
    requires LeastNext(f.next)
    ensures s.chosen <= After(f, s, step).chosen
  {
    hide LeastNext, Inserted, Due, Following, Choices;
  }

  /** A complete tick that finds the latest slot unrecorded chooses it. */
  lemma CompleteTickChooses(f: Fixed, s: PlanState, step: PlanStep, t: Time)
    requires LeastNext(f.next) && DistinctSlots(f.next) && f.misfire == RunOnceIfLate
    requires step.Tick? && step.stop.None? && Allowed(f, s, step) && FollowsCadence(f, s)
    requires LatestAt(f, t, step.now) && s.upto <= t
    ensures OccurrenceKey(f.schedule, t) in After(f, s, step).chosen
  {
    hide FollowsCadence, LeastNext, Inserted, Following, Due, RowOf, Choices, Unix, Recorded, SlotIn, DistinctSlots,
         LatestAt, DistinctSeconds, Allowed, Room, RecordedExactly, IsNextSlot;
    DueReaches(f, s, step, t);
    var from, now := s.nextRunAt.value, step.now;
    var due := Due(f.next, from, now);
    var b := BatchOf(f, due, step);
    CompleteTickAdds(f, s, step);
    var last := |due| - 1;
    BatchIsDistinct(f, from, step);
    LatestIsLast(f, from, now, t);
    NotYetRecorded(f, s, t);
    TickRoom(f, s, step, due);
    NewSlotRow(s.db, b, last);
    RowFacts(b, last);
    RowChoice(s.db, Inserted(s.db, b, |due|), b.firstId + last);
  }

  lemma DueReaches(f: Fixed, s: PlanState, step: PlanStep, t: Time)
    requires step.Tick? && FollowsCadence(f, s) && LatestAt(f, t, step.now) && s.upto <= t
    ensures s.nextRunAt.Some? && s.nextRunAt.value <= t <= step.now && f.start <= s.nextRunAt.value
    ensures RecordedExactly(f, s.db, s.upto) && IsNextSlot(f.next, s.nextRunAt.value) && IsNextSlot(f.next, t)
  {
    hide RecordedExactly;
  }

  lemma LatestIsLast(f: Fixed, from: Time, now: Time, t: Time)
    requires LeastNext(f.next) && IsNextSlot(f.next, from) && f.start <= from <= t && LatestAt(f, t, now)
    ensures
      var due := Due(f.next, from, now);
      |due| > 0 && due[|due| - 1] == t
  {
    hide LeastNext, Due;
    DueTail(f, from, now);
    DueIsCadence(f.next, from, now);
    assert t in Due(f.next, from, now);
  }

  lemma NotYetRecorded(f: Fixed, s: PlanState, t: Time)
    requires RecordedExactly(f, s.db, s.upto) && DistinctSlots(f.next) && IsNextSlot(f.next, t) && s.upto <= t
    ensures !Recorded(s.db, f.schedule, Unix(t))
  {
    hide Recorded, SlotIn, DistinctSlots, Unix;
    SlotNotYetIn(f, s.upto, t);
  }

  lemma TickRoom(f: Fixed, s: PlanState, step: PlanStep, due: seq<Time>)
    requires step.Tick? && Allowed(f, s, step)
    ensures Room(s.db, BatchOf(f, due, step))
  {
  }

  lemma SlotNotYetIn(f: Fixed, upto: Time, t: Time)
    requires DistinctSlots(f.next) && IsNextSlot(f.next, t) && upto <= t
    ensures !SlotIn(f.next, f.start, upto, Unix(t))
  {
    hide Unix;
  }

  /** The latest slot at a tick, if it was recorded before, was also the latest at an earlier tick. */
  ghost predicate SeenBefore(f: Fixed, s: PlanState, steps: seq<PlanStep>, i: nat)
    requires i <= |steps|
  {
    s.upto <= f.start || exists j :: 0 <= j < i && steps[j].Tick? && steps[j].now == s.now
  }

  lemma {:induction false} NowIsLastTick(f: Fixed, states: seq<PlanState>, steps: seq<PlanStep>, i: nat)
    requires i < |states|
    requires Planning(f, states, steps)
    ensures SeenBefore(f, states[i], steps, i)
    ensures forall j | 0 <= j < i && steps[j].Tick? :: steps[j].now <= states[i].now
    decreases i
  {
    hide LeastNext, FollowsCadence, Following, Inserted, Due, Choices;
    if i > 0 {
      NowIsLastTick(f, states, steps, i - 1);
      assert states[i] == After(f, states[i - 1], steps[i - 1]) && Allowed(f, states[i - 1], steps[i - 1]);
    }
  }

  /** Ticks that all complete choose every slot that is the latest at one of them. */
  lemma {:induction false} LatestIsChosen(f: Fixed, states: seq<PlanState>, steps: seq<PlanStep>, i: nat, j: nat,
                                          t: Time)
    requires j < i < |states| && DistinctSlots(f.next) && f.misfire == RunOnceIfLate
    requires forall k | 0 <= k < |steps| && steps[k].Tick? :: steps[k].stop.None?
    requires |states| == |steps| + 1 && steps[j].Tick? && LatestAt(f, t, steps[j].now)
    requires Planning(f, states, steps)
    ensures OccurrenceKey(f.schedule, t) in states[i].chosen
    decreases i
  {
    hide LeastNext, FollowsCadence, After, Created, Allowed, DistinctSlots, LatestAt, Unix;
    assert states[i] == After(f, states[i - 1], steps[i - 1]) && Allowed(f, states[i - 1], steps[i - 1]);
    if j < i - 1 {
      LatestIsChosen(f, states, steps, i - 1, j, t);
      ChosenStays(f, states[i - 1], steps[i - 1]);
    } else {
      var s := states[j];
      PlanningFollows(f, states, steps, j);
      if s.upto <= t {
        CompleteTickChooses(f, s, steps[j], t);
      } else {
        NowIsLastTick(f, states, steps, j);
        var k := EarlierTick(f, s, steps, j, t);
        LatestEarlier(f, t, steps[k].now, steps[j].now);
        LatestIsChosen(f, states, steps, j, k, t);
        ChosenStays(f, s, steps[j]);
      }
    }
  }

  lemma EarlierTick(f: Fixed, s: PlanState, steps: seq<PlanStep>, j: nat, t: Time) returns (k: nat)
    requires j < |steps| && steps[j].Tick? && LatestAt(f, t, steps[j].now) && t < s.upto
    requires FollowsCadence(f, s) && SeenBefore(f, s, steps, j) && Allowed(f, s, steps[j])
    ensures k < j && steps[k].Tick? && t <= steps[k].now <= steps[j].now
  {
    hide RecordedExactly;
    k :| 0 <= k < j && steps[k].Tick? && steps[k].now == s.now;
  }

  /** The same ticks at the same moments, some of them interrupted in the first sequence and none in the second. */
  ghost predicate SameTicks(steps: seq<PlanStep>, whole: seq<PlanStep>) {
    && |steps| == |whole|
    && (forall k {:trigger steps[k]} | 0 <= k < |steps| :: steps[k].Tick? <==> whole[k].Tick?)
    && (forall k {:trigger whole[k]} | 0 <= k < |steps| && whole[k].Tick? ::
          whole[k].stop.None? && steps[k].now == whole[k].now)
  }

  /** Interruption never makes run_once_if_late choose an occurrence that the same ticks, run to their end,
      would not have chosen; they choose exactly the slots that were the latest at one of them. */
  lemma InterruptionChoosesNoExtra(f: Fixed, states: seq<PlanState>, steps: seq<PlanStep>,
                                   full: seq<PlanState>, whole: seq<PlanStep>, i: nat)
    requires i < |states| && DistinctSlots(f.next) && f.misfire == RunOnceIfLate && SameTicks(steps, whole)
    requires Planning(f, states, steps) && Planning(f, full, whole)
    ensures states[i].chosen <= full[i].chosen
    ensures forall key :: key in full[i].chosen <==>
              exists j, t :: 0 <= j < i && whole[j].Tick? && LatestAt(f, t, whole[j].now)
                && key == OccurrenceKey(f.schedule, t)
  {
    hide Planning, LatestAt, DistinctSlots, Unix;
    assert |states| == |steps| + 1 && |full| == |whole| + 1 by { Lengths(f, states, steps); Lengths(f, full, whole); }
    forall key | key in states[i].chosen ensures key in full[i].chosen {
      var j, t := ChosenWasLatest(f, states, steps, i, key);
      LatestIsChosen(f, full, whole, i, j, t);
    }
    forall key
      ensures key in full[i].chosen <==>
                exists j, t :: 0 <= j < i && whole[j].Tick? && LatestAt(f, t, whole[j].now)
                  && key == OccurrenceKey(f.schedule, t)
    {
      if key in full[i].chosen {
        var j, t := ChosenWasLatest(f, full, whole, i, key);
      }
      if j, t :| 0 <= j < i && whole[j].Tick? && LatestAt(f, t, whole[j].now) && key == OccurrenceKey(f.schedule, t) {
        LatestIsChosen(f, full, whole, i, j, t);
      }
    }
  }

  lemma Lengths(f: Fixed, states: seq<PlanState>, steps: seq<PlanStep>)
    requires Planning(f, states, steps)
    ensures |states| == |steps| + 1
  {
  }

  // ---------------------------------------------------------------- catching up

  /** No tick of a catch_up schedule records a skipped run. */
  lemma CatchUpSkipsNothing(f: Fixed, s: PlanState, step: PlanStep)
    requires LeastNext(f.next) && step.Tick? && Allowed(f, s, step) && f.misfire == CatchUp
    ensures
      var after := After(f, s, step).db;
      forall id | id in after.runs && id !in s.db.runs :: after.runs[id].status == Pending && after.runs[id].key.Slot?
  {
    hide LeastNext, Inserted, Due, Following, RowOf, Choices, Unix;
    if s.nextRunAt.Some? && s.nextRunAt.value <= step.now {
      var due := Due(f.next, s.nextRunAt.value, step.now);
      var b := BatchOf(f, due, step);
      var k := Reach(step.stop, |due|);
      InsertedRows(s.db, b, k);
      forall id | id in Inserted(s.db, b, k).runs && id !in s.db.runs
        ensures Inserted(s.db, b, k).runs[id].status == Pending && Inserted(s.db, b, k).runs[id].key.Slot?
      {
        RowFacts(b, id - b.firstId);
      }
    }
  }

  /** What a tick of a catch_up schedule newly records it chooses. */
  lemma TickChoosesRecorded(f: Fixed, s: PlanState, step: PlanStep, second: int)
    requires LeastNext(f.next) && Allowed(f, s, step) && f.misfire == CatchUp
    requires Recorded(After(f, s, step).db, f.schedule, second) && !Recorded(s.db, f.schedule, second)
    ensures Slot(f.schedule, second) in After(f, s, step).chosen
  {
    hide LeastNext, Inserted, Due, Following, RowOf, Choices, Unix, Recorded;
    if step.Tick? {
      var id := RecordedRow(After(f, s, step).db, f.schedule, second);
      NotRecordedRow(s.db, f.schedule, second, id);
      CatchUpSkipsNothing(f, s, step);
      TickRewritesNothing(f, s, step);
      RowChoice(s.db, After(f, s, step).db, id);
    }
  }

  /** What a tick chooses it records. */
  lemma TickRecordsChoices(f: Fixed, s: PlanState, step: PlanStep, key: Key)
    requires LeastNext(f.next) && step.Tick? && Allowed(f, s, step) && f.misfire == CatchUp
    requires key in After(f, s, step).chosen && key !in s.chosen
    ensures key.Slot? && key.schedule == f.schedule && Recorded(After(f, s, step).db, f.schedule, key.second)
  {
    hide LeastNext, Inserted, Due, Following, RowOf, Choices, Unix;
    var due := Due(f.next, s.nextRunAt.value, step.now);
    var b := BatchOf(f, due, step);
    var k := Reach(step.stop, |due|);
    var id := ChoiceRow(s.db, Inserted(s.db, b, k), key);
    InsertedRows(s.db, b, k);
    RowFacts(b, id - b.firstId);
    assert After(f, s, step).db.runs[id].attempt == 1 && After(f, s, step).db.runs[id].key == key;
  }

  lemma RecordedStaysSo(f: Fixed, s: PlanState, step: PlanStep, second: int)
    requires LeastNext(f.next) && Allowed(f, s, step) && Recorded(s.db, f.schedule, second)
    ensures Recorded(After(f, s, step).db, f.schedule, second)
  {
    hide LeastNext, Recorded, Inserted, Due, Following, RowOf, Choices;
    if step.Tick? {
      TickRewritesNothing(f, s, step);
      RecordedStays(s.db, After(f, s, step).db, f.schedule, second);
    }
  }

  lemma CreatedRecordedNothing(f: Fixed, states: seq<PlanState>, steps: seq<PlanStep>, second: int)
    requires Planning(f, states, steps)
    ensures !Recorded(states[0].db, f.schedule, second) && states[0].chosen == {}
  {
    hide Recorded;
  }

  /** Over any ticks of a catch_up schedule, interrupted or not, what was chosen is what was recorded. */
  lemma {:induction false} ChosenIsRecorded(f: Fixed, states: seq<PlanState>, steps: seq<PlanStep>, i: nat, key: Key)
    requires i < |states| && f.misfire == CatchUp
    requires Planning(f, states, steps)
    ensures key in states[i].chosen <==>
              key.Slot? && key.schedule == f.schedule && Recorded(states[i].db, f.schedule, key.second)
    decreases i
  {
    hide LeastNext, After, Created, Allowed, Recorded;
    if i == 0 {
      CreatedRecordedNothing(f, states, steps, if key.Slot? then key.second else 0);
    } else {
      var s, step := states[i - 1], steps[i - 1];
      assert states[i] == After(f, s, step) && Allowed(f, s, step);
      ChosenIsRecorded(f, states, steps, i - 1, key);
      ChosenStays(f, s, step);
      if key in s.chosen {
        RecordedStaysSo(f, s, step, key.second);
      } else if key in states[i].chosen {
        OnlyTicksChoose(f, s, step, key);
        TickRecordsChoices(f, s, step, key);
      } else if key.Slot? && key.schedule == f.schedule && Recorded(states[i].db, f.schedule, key.second) {
        TickChoosesRecorded(f, s, step, key.second);
      }
    }
  }

  lemma SlotCovered(f: Fixed, s: PlanState, step: PlanStep, t: Time)
    requires LeastNext(f.next) && step.Tick? && step.stop.None? && Allowed(f, s, step)
    requires IsNextSlot(f.next, t) && f.start <= t <= step.now
    requires FollowsCadence(f, s) && FollowsCadence(f, After(f, s, step))
    ensures Recorded(After(f, s, step).db, f.schedule, Unix(t))
  {
    hide LeastNext, Inserted, Due, Following, Recorded, Choices, Unix;
    var v := After(f, s, step);
    if s.nextRunAt.Some? && s.nextRunAt.value <= step.now {
      FollowingIsNext(f.next, s.nextRunAt.value, step.now);
      if f.next(step.now).Some? { NextIsSlot(f.next, step.now); }
    }
    assert t < v.upto;
    assert SlotIn(f.next, f.start, v.upto, Unix(t));
  }

  /** catch_up loses no slot: over any ticks, interrupted or not, every slot of the cadence up to the last completed
      tick has been chosen to run, and nothing off the cadence or beyond the last tick has. */
  lemma CatchUpChoosesEverySlot(f: Fixed, states: seq<PlanState>, steps: seq<PlanStep>, i: nat, j: nat, t: Time)
    requires |states| == |steps| + 1 && i < j < |states| && f.misfire == CatchUp
    requires steps[i].Tick? && steps[i].stop.None? && IsNextSlot(f.next, t) && f.start <= t <= steps[i].now
    requires Planning(f, states, steps)
    ensures OccurrenceKey(f.schedule, t) in states[j].chosen
    ensures forall key | key in states[j].chosen ::
              exists u :: f.start <= u <= states[j].now && IsNextSlot(f.next, u) && key == OccurrenceKey(f.schedule, u)
    decreases j
  {
    hide LeastNext, After, Created, Allowed, Recorded, Planning, FollowsCadence, Unix;
    ChosenKeysAreSlots(f, states, steps, j);
    PlanStepAt(f, states, steps, j - 1);
    if i + 1 == j {
      PlanningFollows(f, states, steps, i);
      PlanningFollows(f, states, steps, j);
      SlotCovered(f, states[i], steps[i], t);
      ChosenIsRecorded(f, states, steps, j, OccurrenceKey(f.schedule, t));
    } else {
      CatchUpChoosesEverySlot(f, states, steps, i, j - 1, t);
      ChosenStays(f, states[j - 1], steps[j - 1]);
    }
  }

  lemma PlanStepAt(f: Fixed, states: seq<PlanState>, steps: seq<PlanStep>, i: nat)
    requires i < |steps|
    requires Planning(f, states, steps)
    ensures LeastNext(f.next) && i + 1 < |states|
    ensures Allowed(f, states[i], steps[i]) && states[i + 1] == After(f, states[i], steps[i])
  {
    hide LeastNext, After, Created, Allowed;
  }

  lemma ChosenKeysAreSlots(f: Fixed, states: seq<PlanState>, steps: seq<PlanStep>, i: nat)
    requires i < |states| && f.misfire == CatchUp
    requires Planning(f, states, steps)
    ensures forall key | key in states[i].chosen ::
              exists u :: f.start <= u <= states[i].now && IsNextSlot(f.next, u) && key == OccurrenceKey(f.schedule, u)
  {
    hide Planning, Recorded, Unix;
    PlanningFollows(f, states, steps, i);
    forall key | key in states[i].chosen
      ensures exists u :: f.start <= u <= states[i].now && IsNextSlot(f.next, u) && key == OccurrenceKey(f.schedule, u)
    {
      ChosenIsRecorded(f, states, steps, i, key);
      assert SlotIn(f.next, f.start, states[i].upto, key.second);
    }
  }

  // ---------------------------------------------------------------- what a crash does change

  /** A schedule every ten seconds from the epoch. */
  const EVERY_TEN := Timing(Interval(10, Some(0)), None, None, 0)

  const NO_CRON: CronNext := (expr, t) => None

  function EveryTen(schedule: ScheduleId): Fixed {
    Fixed(schedule, RunOnceIfLate, 0, NextOf(EVERY_TEN, NO_CRON), 0)
  }

  lemma TenLater(k: nat)
    requires k <= 1
    ensures NextInterval(0, 10, k * 10 * SECOND) == (k + 1) * 10 * SECOND
  {
    var base := k * 10 * SECOND;
    DivisionUnique(base, SECOND, k * 10, 0);
    DivisionUnique(0, SECOND, 0, 0);
    assert ElapsedSeconds(0, base) == k * 10;
    DivisionUnique(k * 10, 10, k, 0);
  }

  lemma EveryTenNext()
    ensures NextAfter(EVERY_TEN, -1, NO_CRON) == At(0)
    ensures NextAfter(EVERY_TEN, 0, NO_CRON) == At(10 * SECOND)
    ensures NextAfter(EVERY_TEN, 10 * SECOND, NO_CRON) == At(20 * SECOND)
  {
    TenLater(0);
    TenLater(1);
    DivisionUnique(10 * SECOND, SECOND, 10, 0);
    DivisionUnique(20 * SECOND, SECOND, 20, 0);
    hide NextInterval;
    assert Unix(10 * SECOND) == 10 && Unix(20 * SECOND) == 20;
    hide Unix;
  }

  lemma EveryTenSlots(schedule: ScheduleId)
    ensures
      var next := EveryTen(schedule).next;
      LeastNext(next) && next(-1) == Some(0) && next(0) == Some(10 * SECOND) && next(10 * SECOND) == Some(20 * SECOND)
  {
    hide LeastNext, IsSlot, NextAfter;
    EveryTenNext();
    assert ValidTiming(EVERY_TEN) && CronOk(EVERY_TEN, NO_CRON);
    NextIsLeast(EVERY_TEN, NO_CRON);
  }

  lemma EveryTenDue(schedule: ScheduleId)
    ensures
      var next := EveryTen(schedule).next;
      && LeastNext(next)
      && Due(next, 0, 0) == [0] && Due(next, 0, 10 * SECOND) == [0, 10 * SECOND]
      && Due(next, 10 * SECOND, 10 * SECOND) == [10 * SECOND]
      && Following(next, 0, 0) == Some(10 * SECOND)
  {
    EveryTenSlots(schedule);
    hide LeastNext, NextOf;
    var next := EveryTen(schedule).next;
    assert Due(next, 20 * SECOND, 10 * SECOND) == [];
    assert Due(next, 10 * SECOND, 10 * SECOND) == [10 * SECOND] + Due(next, 20 * SECOND, 10 * SECOND);
    assert Due(next, 0, 10 * SECOND) == [0] + Due(next, 10 * SECOND, 10 * SECOND);
    assert Due(next, 10 * SECOND, 0) == [];
  }

  const AT_ZERO := Slot("s", 0)

  const AT_TEN := Slot("s", 10)

  function Tables(rows: map<RunId, Run>): Db { Db(map["s" := true], rows, map[], map[], map[], map[]) }

  /** The row a tick at `now` writes. */
  function RowAt(nominal: Time, toRun: bool, id: RunId, clock: nat -> Time, i: nat): Run {
    PlannedRun("s", nominal, toRun, RunOnceIfLate, id, clock(i))
  }

  function Before(): PlanState { PlanState(Tables(map[]), Some(0), 0, 0, {}) }

  /** The tick at 0s. */
  lemma FirstTick(stop: Option<nat>, clock: nat -> Time)
    requires stop.None? || stop.value <= 1
    ensures
      var f := EveryTen("s");
      var all := stop != Some(0);
      && LeastNext(f.next)
      && After(f, Before(), Tick(0, stop, 0, clock))
         == PlanState(Tables(if all then map[0 := RowAt(0, true, 0, clock, 0)] else map[]),
                      Some(if stop.None? then 10 * SECOND else 0), 0, if all then 1 else 0, if all then {AT_ZERO}
                        else {})
  {
    var f := EveryTen("s");
    EveryTenDue("s");
    hide Due, Following, LeastNext, NextOf;
    var b := BatchOf(f, [0], Tick(0, stop, 0, clock));
    assert RowOf(b, 0) == RowAt(0, true, 0, clock, 0);
    assert Inserted(Tables(map[]), b, 0) == Tables(map[]);
    assert Inserted(Tables(map[]), b, 1) == Tables(map[0 := RowAt(0, true, 0, clock, 0)]);
    assert Choices(Tables(map[]), Tables(map[0 := RowAt(0, true, 0, clock, 0)])) == {AT_ZERO};
  }

  lemma TenIsNew(rows: map<RunId, Run>, clock: nat -> Time)
    requires rows == map[] || rows == map[0 := RowAt(0, true, 0, clock, 0)]
    ensures !Recorded(Tables(rows), "s", Unix(10 * SECOND))
    ensures rows != map[] ==> Recorded(Tables(rows), "s", Unix(0))
  {
    assert rows != map[] ==> rows[0].key == AT_ZERO;
  }

  lemma CompleteTickAdds(f: Fixed, s: PlanState, step: PlanStep)
    requires LeastNext(f.next) && step.Tick? && step.stop.None? && s.nextRunAt.Some? && s.nextRunAt.value <= step.now
    ensures
      var due := Due(f.next, s.nextRunAt.value, step.now);
      && After(f, s, step).db == Inserted(s.db, BatchOf(f, due, step), |due|)
      && After(f, s, step).chosen == s.chosen + Choices(s.db, Inserted(s.db, BatchOf(f, due, step), |due|))
  {
    hide LeastNext, Due, Following, Inserted, Choices;
  }

  lemma TenBatch(db: Db, b: Batch, clock: nat -> Time)
    requires db == Tables(map[]) || db == Tables(map[0 := RowAt(0, true, 0, clock, 0)])
    requires b.due == [0, 10 * SECOND] || b.due == [10 * SECOND]
    requires b.schedule == "s" && b.misfire == RunOnceIfLate && b.firstId == 1
    ensures DistinctSeconds(b) && Room(db, b) && AT_TEN == Slot("s", Unix(10 * SECOND))
  {
    hide RowAt;
  }

  /** What the tick at 10s chooses, whether it finds one slot due or two. */
  lemma TenChosen(db: Db, b: Batch, clock: nat -> Time)
    requires db == Tables(map[]) || db == Tables(map[0 := RowAt(0, true, 0, clock, 0)])
    requires b.due == [0, 10 * SECOND] || b.due == [10 * SECOND]
    requires b.schedule == "s" && b.misfire == RunOnceIfLate && b.firstId == 1
    ensures Choices(db, Inserted(db, b, |b.due|)) == {AT_TEN}
  {
    TenIsNew(db.runs, clock);
    TenBatch(db, b, clock);
    hide HasAttempt, Inserted, RowOf, Recorded, Unix, DistinctSeconds, Room, Choices;
    var n := |b.due|;
    InsertedRows(db, b, n);
    var after := Inserted(db, b, n);
    forall key | key in Choices(db, after) ensures key == AT_TEN {
      var id := ChoiceRow(db, after, key);
      RowFacts(b, id - 1);
    }
    NewSlotRow(db, b, n - 1);
    RowFacts(b, n - 1);
    RowChoice(db, after, b.firstId + n - 1);
  }

  /** The tick at 10s, on what the first one left. */
  lemma SecondTick(s: PlanState, clock: nat -> Time)
    requires s.db == Tables(map[]) || s.db == Tables(map[0 := RowAt(0, true, 0, clock, 0)])
    requires s.nextRunAt == Some(0) || s.nextRunAt == Some(10 * SECOND)
    ensures LeastNext(EveryTen("s").next)
    ensures After(EveryTen("s"), s, Tick(10 * SECOND, None, 1, clock)).chosen == s.chosen + {AT_TEN}
  {
    hide Due, LeastNext, NextOf, Inserted, Choices, After, RowAt;
    var f, step := EveryTen("s"), Tick(10 * SECOND, None, 1, clock);
    EveryTenDue("s");
    CompleteTickAdds(f, s, step);
    TenChosen(s.db, BatchOf(f, Due(f.next, s.nextRunAt.value, step.now), step), clock);
  }

  /** The tick at 0s, interrupted or not, and the tick at 10s that follows it. */
  function TwoTicks(stop: Option<nat>, clock: nat -> Time): seq<PlanStep> {
    [Tick(0, stop, 0, clock), Tick(10 * SECOND, None, 1, clock)]
  }

  ghost function TwoTickStates(stop: Option<nat>, clock: nat -> Time): seq<PlanState>
    requires LeastNext(EveryTen("s").next)
  {
    var f := EveryTen("s");
    var mid := After(f, Before(), TwoTicks(stop, clock)[0]);
    [Before(), mid, After(f, mid, TwoTicks(stop, clock)[1])]
  }

  lemma TwoTicksAllowed(rows: map<RunId, Run>, s: PlanState, stop: Option<nat>, clock: nat -> Time)
    requires s.now == 0 && s.db == Tables(rows) && forall id | id in rows :: id == 0
    ensures rows == map[] ==> Allowed(EveryTen("s"), s, TwoTicks(stop, clock)[0])
    ensures Allowed(EveryTen("s"), s, TwoTicks(stop, clock)[1])
  {
  }

  lemma BeforeIsCreated()
    ensures Created(EveryTen("s"), Before())
  {
    EveryTenSlots("s");
    hide LeastNext, NextOf;
    forall second ensures !Recorded(Before().db, "s", second) { }
  }

  lemma TwoTicksPlan(stop: Option<nat>, clock: nat -> Time)
    requires stop.None? || stop.value <= 1
    ensures LeastNext(EveryTen("s").next)
    ensures Planning(EveryTen("s"), TwoTickStates(stop, clock), TwoTicks(stop, clock))
    ensures TwoTickStates(stop, clock)[1].nextRunAt == Some(if stop.None? then 10 * SECOND else 0)
    ensures TwoTickStates(stop, clock)[2].chosen == if stop == Some(0) then {AT_TEN} else {AT_ZERO, AT_TEN}
  {
    hide After, LeastNext, NextOf, Created, RowAt, Allowed;
    EveryTenSlots("s");
    FirstTick(stop, clock);
    var states := TwoTickStates(stop, clock);
    SecondTick(states[1], clock);
    BeforeIsCreated();
    TwoTicksAllowed(map[], states[0], stop, clock);
    TwoTicksAllowed(states[1].db.runs, states[1], stop, clock);
  }

  /** The restart after an insert does not meet the condition of RunsOnceIff, so it leaves both slots chosen. */
  lemma RestartFindsChosen(s: PlanState, clock: nat -> Time)
    requires s.db == Tables(map[0 := RowAt(0, true, 0, clock, 0)]) && s.nextRunAt == Some(0)
    ensures LeastNext(EveryTen("s").next)
    ensures
      var step := Tick(10 * SECOND, None, 1, clock);
      !OnlyLatestChosen(After(EveryTen("s"), s, step).db, BatchOf(EveryTen("s"), [0, 10 * SECOND], step))
  {
    var f, step := EveryTen("s"), Tick(10 * SECOND, None, 1, clock);
    var b := BatchOf(f, [0, 10 * SECOND], step);
    hide Due, LeastNext, NextOf, Inserted, Choices, After, DistinctSeconds, Room, OnlyLatestChosen, NoEarlierChosen,
         RowAt,
         Recorded, Chosen;
    EveryTenDue("s");
    CompleteTickAdds(f, s, step);
    RestartBatch(s.db, b, clock);
    RunsOnceIff(s.db, b);
  }

  lemma RestartBatch(db: Db, b: Batch, clock: nat -> Time)
    requires db == Tables(map[0 := RowAt(0, true, 0, clock, 0)])
    requires b.schedule == "s" && b.due == [0, 10 * SECOND] && b.firstId == 1
    ensures DistinctSeconds(b) && Room(db, b) && !NoEarlierChosen(db, b)
  {
    FirstWitness(db, b, 0, NOT_SKIPPED, 0);
    assert Chosen(db, b, 0);
    hide FirstIn, Chosen, RowAt;
  }

  /** A crash after the insert at 0s and a restart at 10s: the restart finds both slots due and leaves both chosen,
      which the ticks run to their end do as well, one at a time. A crash before the insert loses the slot at 0s,
      although it was found on time. */
  lemma CrashReplay(clock: nat -> Time)
    ensures LeastNext(EveryTen("s").next)
    ensures
      var f := EveryTen("s");
      && Planning(f, TwoTickStates(None, clock), TwoTicks(None, clock))
      && Planning(f, TwoTickStates(Some(1), clock), TwoTicks(Some(1), clock))
      && Planning(f, TwoTickStates(Some(0), clock), TwoTicks(Some(0), clock))
    ensures TwoTickStates(Some(1), clock)[1].nextRunAt == Some(0)
    ensures Due(EveryTen("s").next, 0, 10 * SECOND) == [0, 10 * SECOND]
    ensures
      var restart := TwoTicks(Some(1), clock)[1];
      !OnlyLatestChosen(TwoTickStates(Some(1), clock)[2].db, BatchOf(EveryTen("s"), [0, 10 * SECOND], restart))
    ensures TwoTickStates(Some(1), clock)[2].chosen == {AT_ZERO, AT_TEN} == TwoTickStates(None, clock)[2].chosen
    ensures TwoTickStates(Some(0), clock)[2].chosen == {AT_TEN}
  {
    TwoTicksPlan(None, clock);
    TwoTicksPlan(Some(0), clock);
    TwoTicksPlan(Some(1), clock);
    EveryTenDue("s");
    FirstTick(Some(1), clock);
    hide Planning, LeastNext, Due, After, OnlyLatestChosen, RowAt;
    RestartFindsChosen(TwoTickStates(Some(1), clock)[1], clock);
  }
}
