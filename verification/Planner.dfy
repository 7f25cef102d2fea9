/** internal/planner: turning the slots of a schedule into first attempts, tick by tick. */
module Planner {
  import opened Domain
  import opened Ledger
  import opened LedgerRuns
  import opened Timecalc

  datatype Misfire = SkipLate | RunOnceIfLate | CatchUp

  const LATE_SKIPPED := "skipped due to misfire policy"
  const ONCE_SKIPPED := "skipped due to run_once_if_late policy"

  type Next = Time -> Option<Time>

  // ---------------------------------------------------------------- due slots

  /** The loop of materializeSchedule: from `from` on, every slot up to `now`. */
  ghost function Due(next: Next, from: Time, now: Time): seq<Time>
    requires LeastNext(next)
    decreases if from <= now then now - from + 1 else 0
  {
    if from > now then []
    else if next(from).None? then [from]
    else [from] + Due(next, next(from).value, now)
  }

  /** Where the loop stops: the slot after the last due one. */
  ghost function Following(next: Next, from: Time, now: Time): Option<Time>
    requires LeastNext(next)
    decreases if from <= now then now - from + 1 else 0
  {
    if from > now then Some(from)
    else if next(from).None? then None
    else Following(next, next(from).value, now)
  }

  predicate IsNextSlot(next: Next, t: Time) { next(t - 1) == Some(t) }

  lemma NextIsSlot(next: Next, t: Time)
    requires LeastNext(next) && next(t).Some?
    ensures next(t).value > t && IsNextSlot(next, next(t).value)
    ensures forall u | IsNextSlot(next, u) && t < u :: next(t).value <= u
  {
    var n := next(t).value;
    assert next(n - 1) == next(t);
    forall u | IsNextSlot(next, u) && t < u ensures n <= u {
      assert t <= u - 1 && next(u - 1) == Some(u);
    }
  }

  lemma NoneAfter(next: Next, t: Time)
    requires LeastNext(next) && next(t).None?
    ensures forall u | IsNextSlot(next, u) :: u <= t
  {
    forall u | IsNextSlot(next, u) ensures u <= t {
      assert next(u - 1).Some?;
    }
  }

  /** The due slots are exactly the slots between the first one and now, in order. */
  lemma {:induction false} DueIsCadence(next: Next, from: Time, now: Time)
    requires LeastNext(next) && IsNextSlot(next, from)
    ensures
      var due := Due(next, from, now);
      && (forall i, j | 0 <= i < j < |due| :: due[i] < due[j])
      && (forall t :: t in due <==> from <= t <= now && IsNextSlot(next, t))
      && (forall i | 0 <= i < |due| :: due[i] >= from)
    decreases if from <= now then now - from + 1 else 0
  {
    var due := Due(next, from, now);
    if from <= now {
      if next(from).None? {
        NoneAfter(next, from);
      } else {
        var n := next(from).value;
        NextIsSlot(next, from);
        DueIsCadence(next, n, now);
        var rest := Due(next, n, now);
        assert due == [from] + rest;
        forall t ensures t in due <==> from <= t <= now && IsNextSlot(next, t) {
          assert t in due <==> t == from || t in rest;
        }
      }
    }
  }

  /** The loop leaves the least slot after now, or none when there is none. */
  lemma {:induction false} FollowingIsNext(next: Next, from: Time, now: Time)
    requires LeastNext(next) && IsNextSlot(next, from) && from <= now
    ensures Following(next, from, now) == next(now)
    decreases now - from
  {
    if next(from).Some? {
      var n := next(from).value;
      NextIsSlot(next, from);
      if n <= now {
        FollowingIsNext(next, n, now);
      } else {
        assert next(now) == next(from);
      }
    } else {
      assert next(now).None?;
    }
  }

  // ---------------------------------------------------------------- rows

  /** Whether the i-th of n due slots is to run. */
  predicate ToRun(misfire: Misfire, i: nat, n: nat, nominal: Time, now: Time, grace: int) {
    match misfire
    case SkipLate => now - nominal <= grace
    case RunOnceIfLate => i + 1 >= n
    case CatchUp => true
  }

  function SkipText(misfire: Misfire): string {
    if misfire == SkipLate then LATE_SKIPPED else ONCE_SKIPPED
  }

  /** insertOccurrence's row. */
  function PlannedRun(schedule: ScheduleId, nominal: Time, toRun: bool, misfire: Misfire, id: RunId, at: Time): Run {
    Run(id, schedule, OccurrenceKey(schedule, nominal), nominal, nominal, if toRun then Pending else Skipped, 1, None,
      None, None,
        if toRun then None else Some(at), if toRun then NO_DETAIL else NO_DETAIL.(error := Some(SkipText(misfire))),
        None, at, at)
  }

  datatype Batch = Batch(schedule: ScheduleId, misfire: Misfire, due: seq<Time>, now: Time, grace: int, firstId: RunId,
    clock: nat -> Time)

  function RowOf(b: Batch, i: nat): Run
    requires i < |b.due|
  {
    PlannedRun(b.schedule, b.due[i], ToRun(b.misfire, i, |b.due|, b.due[i], b.now, b.grace), b.misfire, b.firstId + i,
      b.clock(i))
  }

  /** The first n inserts of a tick; a slot already recorded is left as it is. */
  function Inserted(db: Db, b: Batch, n: nat): Db
    requires n <= |b.due|
    decreases n
  {
    if n == 0 then db else InsertRun(Inserted(db, b, n - 1), RowOf(b, n - 1)).db
  }

  predicate Recorded(db: Db, schedule: ScheduleId, second: int) { HasAttempt(db.runs, Slot(schedule, second), 1) }

  predicate Room(db: Db, b: Batch) {
    b.schedule in db.enabled && forall id | id in db.runs :: id < b.firstId
  }

  /** Inserting never rewrites a row and adds only rows of this batch. */
  lemma {:induction false} InsertedRows(db: Db, b: Batch, n: nat)
    requires n <= |b.due| && Room(db, b)
    ensures
      var after := Inserted(db, b, n);
      && after == db.(runs := after.runs)
      && (forall id | id in db.runs :: id in after.runs && after.runs[id] == db.runs[id])
      && (forall id | id in after.runs && id !in db.runs :: b.firstId <= id < b.firstId + n
           && after.runs[id] == RowOf(b, id - b.firstId))
    decreases n
  {
    hide HasAttempt, RowOf, InsertRun;
    if n > 0 {
      InsertedRows(db, b, n - 1);
      RowFacts(b, n - 1);
      InsertGrows(Inserted(db, b, n - 1), RowOf(b, n - 1));
    }
  }

  lemma InsertGrows(db: Db, row: Run)
    requires row.id !in db.runs
    ensures InsertRun(db, row).db == db || InsertRun(db, row).db == db.(runs := db.runs[row.id := row])
  {
    hide HasAttempt;
  }

  lemma RowFacts(b: Batch, i: nat)
    requires i < |b.due|
    ensures
      var row := RowOf(b, i);
      && row.id == b.firstId + i && row.attempt == 1 && row.schedule == b.schedule
      && row.key == Slot(b.schedule, Unix(b.due[i])) && row.nominal == b.due[i] && row.due == b.due[i]
      && row.status == (if ToRun(b.misfire, i, |b.due|, b.due[i], b.now, b.grace) then Pending else Skipped)
  {
  }

  lemma InsertRecords(mid: Db, row: Run)
    requires row.attempt == 1 && row.key.Slot? && row.id !in mid.runs && row.schedule in mid.enabled
    ensures Recorded(InsertRun(mid, row).db, row.key.schedule, row.key.second)
    ensures row.id in InsertRun(mid, row).db.runs <==> !HasAttempt(mid.runs, row.key, 1)
  {
    if !HasAttempt(mid.runs, row.key, 1) {
      assert InsertRun(mid, row).db.runs[row.id].key == row.key;
    }
  }

  lemma RecordedStays(db: Db, after: Db, schedule: ScheduleId, second: int)
    requires Recorded(db, schedule, second)
    requires forall id | id in db.runs ::
               id in after.runs && after.runs[id].key == db.runs[id].key
               && after.runs[id].attempt == db.runs[id].attempt
    ensures Recorded(after, schedule, second)
  {
    var id :| id in db.runs && db.runs[id].key == Slot(schedule, second) && db.runs[id].attempt == 1;
    assert after.runs[id].key == Slot(schedule, second);
  }

  lemma InsertedStep(db: Db, b: Batch, n: nat)
    requires 0 < n <= |b.due| && Room(db, b)
    ensures
      var mid := Inserted(db, b, n - 1);
      && Inserted(db, b, n) == InsertRun(mid, RowOf(b, n - 1)).db
      && RowOf(b, n - 1).id == b.firstId + n - 1 && RowOf(b, n - 1).id !in mid.runs
      && b.schedule in mid.enabled
      && (forall id | id in mid.runs :: id in Inserted(db, b, n).runs && Inserted(db, b, n).runs[id] == mid.runs[id])
      && (forall id | id in Inserted(db, b, n).runs && id !in mid.runs :: id == b.firstId + n - 1)
  {
    InsertedRows(db, b, n - 1);
    RowFacts(b, n - 1);
    hide HasAttempt, RowOf;
  }

  /** After n inserts the first n due slots are recorded; slot i got its row exactly if it was not
      recorded before its turn. */
  lemma {:induction false} InsertedRecords(db: Db, b: Batch, n: nat, i: nat)
    requires i < n <= |b.due| && Room(db, b)
    ensures Recorded(Inserted(db, b, n), b.schedule, Unix(b.due[i]))
    ensures b.firstId + i in Inserted(db, b, n).runs <==> !Recorded(Inserted(db, b, i), b.schedule, Unix(b.due[i]))
    decreases n
  {
    hide HasAttempt, RowOf, Recorded, Inserted, InsertRun, Unix;
    RowFacts(b, n - 1);
    InsertedStep(db, b, n);
    var mid := Inserted(db, b, n - 1);
    if i == n - 1 {
      InsertRecords(mid, RowOf(b, i));
      RecordedIsAttempt(mid, b.schedule, Unix(b.due[i]));
    } else {
      InsertedRecords(db, b, n - 1, i);
      RecordedStays(mid, Inserted(db, b, n), b.schedule, Unix(b.due[i]));
    }
  }

  lemma RecordedIsAttempt(db: Db, schedule: ScheduleId, second: int)
    ensures Recorded(db, schedule, second) <==> HasAttempt(db.runs, Slot(schedule, second), 1)
  {
  }

  lemma NewlyRecorded(db: Db, b: Batch, n: nat, schedule: ScheduleId, second: int) returns (i: nat)
    requires n <= |b.due| && Room(db, b) && Recorded(Inserted(db, b, n), schedule, second)
             && !Recorded(db, schedule, second)
    ensures i < n && Unix(b.due[i]) == second && schedule == b.schedule
  {
    hide Inserted, RowOf, Unix, Room, HasAttempt;
    var after := Inserted(db, b, n);
    var id := RecordedRow(after, schedule, second);
    InsertedRows(db, b, n);
    NotRecordedRow(db, schedule, second, id);
    i := id - b.firstId;
    RowFacts(b, i);
  }

  lemma RecordedRow(db: Db, schedule: ScheduleId, second: int) returns (id: RunId)
    requires Recorded(db, schedule, second)
    ensures id in db.runs && db.runs[id].key == Slot(schedule, second) && db.runs[id].attempt == 1
  {
    id :| id in db.runs && db.runs[id].key == Slot(schedule, second) && db.runs[id].attempt == 1;
  }

  lemma NotRecordedRow(db: Db, schedule: ScheduleId, second: int, id: RunId)
    requires !Recorded(db, schedule, second)
    ensures id in db.runs ==> !(db.runs[id].key == Slot(schedule, second) && db.runs[id].attempt == 1)
  {
  }

  lemma NoneRecorded(db: Db, schedule: ScheduleId, second: int)
    requires !Recorded(db, schedule, second)
    ensures forall id | id in db.runs :: !(db.runs[id].key == Slot(schedule, second) && db.runs[id].attempt == 1)
  {
  }

  predicate Reached(b: Batch, n: nat, second: int)
    requires n <= |b.due|
  {
    exists i :: 0 <= i < n && Unix(b.due[i]) == second
  }

  /** What is recorded afterwards: what was, and the slots reached. */
  lemma InsertedExactly(db: Db, b: Batch, n: nat, schedule: ScheduleId, second: int)
    requires n <= |b.due| && Room(db, b)
    ensures Recorded(Inserted(db, b, n), schedule, second) <==>
              Recorded(db, schedule, second) || (schedule == b.schedule && Reached(b, n, second))
  {
    hide Inserted, RowOf, Recorded, Unix, HasAttempt, Room;
    if Recorded(db, schedule, second) {
      KeptRecorded(db, b, n, schedule, second);
    } else if Recorded(Inserted(db, b, n), schedule, second) {
      var i := NewlyRecorded(db, b, n, schedule, second);
      assert Unix(b.due[i]) == second;
    } else if schedule == b.schedule && Reached(b, n, second) {
      var i :| 0 <= i < n && Unix(b.due[i]) == second;
      InsertedRecords(db, b, n, i);
    }
  }

  lemma KeptRecorded(db: Db, b: Batch, n: nat, schedule: ScheduleId, second: int)
    requires n <= |b.due| && Room(db, b) && Recorded(db, schedule, second)
    ensures Recorded(Inserted(db, b, n), schedule, second)
  {
    InsertedRows(db, b, n);
    hide Inserted, Recorded;
    RecordedStays(db, Inserted(db, b, n), schedule, second);
  }

  /** A planned row meets what the ledger asks of a first attempt, whether it is new or a replay. */
  lemma PlannedIsFirstAttempt(db: Db, b: Batch, i: nat, clock: Time)
    requires i < |b.due| && b.clock(i) <= clock
    requires KeyPresent(db.runs, OccurrenceKey(b.schedule, b.due[i])) ==>
               HasAttempt(db.runs, OccurrenceKey(b.schedule, b.due[i]), 1)
    ensures FirstAttempt(RowOf(b, i), db, clock)
  {
  }
}
