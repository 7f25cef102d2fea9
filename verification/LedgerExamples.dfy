/** Runs of the ledger that reach its limits: two dispatchers acting on old reads, and a replay after retention. */
module LedgerExamples {
  import opened Domain
  import opened Ledger
  import opened Outcome
  import opened LedgerInvariants
  import opened LedgerRuns
  import opened LedgerProofs
  import opened LedgerTheorems
  import opened RunStates
  import opened LedgerLimits
  import opened Planner
  import PlannerLedger

  predicate Holds(w: World, db: Db, clock: Time, issued: set<Token>, known: set<Read>) {
    && w.db == db && w.clock == clock && w.issued == issued && w.known == known
    && w.ids == db.runs.Keys && w.deadIds == {} && db.dead == map[]
  }

  /** A run of the system and where it has come to. */
  ghost predicate At(states: seq<World>, ops: seq<Op>, db: Db, clock: Time, issued: set<Token>, known: set<Read>) {
    |states| == |ops| + 1 && Behaviour(states, ops) && Holds(states[|ops|], db, clock, issued, known)
  }

  predicate Longer(states: seq<World>, more: seq<World>) { |more| == |states| + 1 && more[..|states|] == states }

  lemma Extended(states: seq<World>, ops: seq<Op>, op: Op) returns (more: seq<World>, longer: seq<Op>)
    requires |states| == |ops| + 1 && Enabled(states[|ops|], op) && Behaviour(states, ops)
    ensures Behaviour(more, longer) && Longer(states, more)
    ensures longer == ops + [op] && more[|longer|] == Step(states[|ops|], op)
  {
    hide Enabled, Step, Behaviour;
    ExtendBehaviour(states, ops, op);
    more, longer := states + [Step(states[|ops|], op)], ops + [op];
  }

  /** One more step, to tables `after`. */
  lemma Go(states: seq<World>, ops: seq<Op>, op: Op, db: Db, after: Db, clock: Time, issued: set<Token>,
           known: set<Read>)
    returns (more: seq<World>, longer: seq<Op>)
    requires Apply(db, op, clock) == after && after.dead == map[] && db.runs.Keys <= after.runs.Keys
    requires At(states, ops, db, clock, issued, known) && Enabled(states[|ops|], op)
    ensures At(more, longer, after, if op.Advance? then op.to else clock, issued + LiveTokens(after.leases),
               if op.ReadRun? && op.id in db.runs then known + {Read(db.runs[op.id], clock)} else known)
    ensures longer == ops + [op] && Longer(states, more)
  {
    hide Apply, Enabled, Behaviour, LiveTokens, CauseOf;
    more, longer := Extended(states, ops, op);
    assert db.runs.Keys + after.runs.Keys == after.runs.Keys;
  }

  const ONE_TRY := RetryPolicy(1, RetryNone, 0, 0)

  const QUEUE_ONE := Policy(OverlapQueueLatest, 1, ONE_TRY)

  /** A manual run of schedule "s", due at `id`. */
  function Asked(id: RunId): Run { FreshRun(id, "s", Manual(id), id, id) }

  function Held(row: Run, worker: WorkerId, at: Time): Run {
    row.(status := Claimed, owner := Some(worker), claimExpires := Some(at + 10), updatedAt := at)
  }

  function Started(row: Run, at: Time): Run {
    row.(status := Running, startedAt := if row.startedAt.Some? then row.startedAt else Some(at), updatedAt := at)
  }

  function Alone(runs: map<RunId, Run>, leases: map<RunId, Lease>): Db {
    Db(map["s" := true], runs, leases, map[], map[], map[])
  }

  function LeaseAt(token: Token, worker: WorkerId, at: Time): Lease { Lease(token, worker, at, at + 10, at) }

  function Fresh(clock: Time): World { World(Alone(map[], map[]), clock, {}, map[], {}, {}, {}) }

  lemma InsertGoes(runs: map<RunId, Run>, row: Run, clock: Time)
    requires row.id !in runs && row.schedule == "s" && forall id | id in runs :: runs[id].key != row.key
    ensures Apply(Alone(runs, map[]), Insert(row), clock) == Alone(runs[row.id := row], map[])
    ensures !KeyPresent(runs, row.key)
  {
  }

  lemma ClaimGoes(runs: map<RunId, Run>, id: RunId, worker: WorkerId, at: Time, token: Token, clock: Time)
    requires id in runs && Waiting(runs[id].status)
    requires forall other | other in runs :: runs[other].schedule == "s" && !Active(runs[other].status)
    ensures Apply(Alone(runs, map[]), Claim("s", QUEUE_ONE, id, worker, at, 10, token), clock)
            == Alone(runs[id := Held(runs[id], worker, at)], map[id := LeaseAt(token, worker, at)])
  {
    assert ActiveOccurrences(Alone(runs, map[]), "s") == {};
  }

  lemma StartGoes(runs: map<RunId, Run>, id: RunId, worker: WorkerId, at: Time, token: Token, clock: Time)
    requires id in runs && runs[id].status == Claimed && runs[id].owner == Some(worker)
    ensures Apply(Alone(runs, map[id := LeaseAt(token, worker, at)]), Start(id, worker, token, at), clock)
            == Alone(runs[id := Started(runs[id], at)], map[id := LeaseAt(token, worker, at)])
  {
  }

  lemma ReleaseGoes(runs: map<RunId, Run>, id: RunId, worker: WorkerId, at: Time, token: Token, clock: Time)
    requires id in runs && Active(runs[id].status) && runs[id].owner == Some(worker)
    ensures Apply(Alone(runs, map[id := LeaseAt(token, worker, at)]), Release(id, worker, token, at), clock)
            == Alone(runs[id := Released(runs[id], at)], map[])
  {
  }

  lemma Tokens(id: RunId, token: Token, worker: WorkerId, at: Time)
    ensures LiveTokens(map[]) == {} && LiveTokens(map[id := LeaseAt(token, worker, at)]) == {token}
  {
    assert map[id := LeaseAt(token, worker, at)][id].token == token;
  }

  lemma Starts(clock: Time)
    ensures At([Fresh(clock)], [], Alone(map[], map[]), clock, {}, {})
  {
  }

  lemma GoInsert(states: seq<World>, ops: seq<Op>, runs: map<RunId, Run>, row: Run, clock: Time)
    returns (more: seq<World>, longer: seq<Op>)
    requires row.id !in runs && row.schedule == "s" && !row.key.Event? && forall id | id in runs ::
               runs[id].key != row.key
    requires row.attempt == 1 && row.status == Pending && row.owner.None? && row.claimExpires.None?
             && row.createdAt <= clock
    requires At(states, ops, Alone(runs, map[]), clock, {}, {})
    ensures At(more, longer, Alone(runs[row.id := row], map[]), clock, {}, {})
  {
    hide Apply, Step, LiveTokens, Behaviour, HasAttempt, KeyPresent;
    InsertGoes(runs, row, clock);
    Tokens(0, 0, "", 0);
    more, longer := Go(states, ops, Insert(row), Alone(runs, map[]), Alone(runs[row.id := row], map[]), clock, {}, {});
  }

  lemma GoRead(states: seq<World>, ops: seq<Op>, db: Db, id: RunId, clock: Time, issued: set<Token>)
    returns (more: seq<World>, longer: seq<Op>)
    requires id in db.runs && LiveTokens(db.leases) <= issued && db.dead == map[]
    requires At(states, ops, db, clock, issued, {})
    ensures At(more, longer, db, clock, issued, {Read(db.runs[id], clock)}) && Longer(states, more)
  {
    hide Step, LiveTokens, Behaviour, Longer;
    more, longer := Go(states, ops, ReadRun(id), db, db, clock, issued, {});
    assert issued + LiveTokens(db.leases) == issued;
  }

  lemma GoAdvance(states: seq<World>, ops: seq<Op>, db: Db, to: Time, clock: Time, issued: set<Token>, known: set<Read>)
    returns (more: seq<World>, longer: seq<Op>)
    requires clock <= to && LiveTokens(db.leases) <= issued && db.dead == map[]
    requires At(states, ops, db, clock, issued, known)
    ensures At(more, longer, db, to, issued, known)
  {
    hide Step, LiveTokens, Behaviour;
    more, longer := Go(states, ops, Advance(to), db, db, clock, issued, known);
    assert issued + LiveTokens(db.leases) == issued;
  }

  lemma GoClaim(states: seq<World>, ops: seq<Op>, runs: map<RunId, Run>, id: RunId, worker: WorkerId, at: Time,
                token: Token, issued: set<Token>, known: set<Read>)
    returns (more: seq<World>, longer: seq<Op>)
    requires token !in issued && id in runs && Waiting(runs[id].status)
    requires forall other | other in runs :: runs[other].schedule == "s" && !Active(runs[other].status)
    requires At(states, ops, Alone(runs, map[]), at, issued, known)
    ensures At(more, longer, Alone(runs[id := Held(runs[id], worker, at)], map[id := LeaseAt(token, worker, at)]), at,
               issued + {token}, known)
    ensures Longer(states, more)
  {
    hide Apply, Step, LiveTokens, Behaviour, Longer;
    ClaimGoes(runs, id, worker, at, token, at);
    Tokens(id, token, worker, at);
    more, longer := Go(states, ops, Claim("s", QUEUE_ONE, id, worker, at, 10, token), Alone(runs, map[]),
                       Alone(runs[id := Held(runs[id], worker, at)], map[id := LeaseAt(token, worker, at)]), at, issued,
                       known);
  }

  lemma GoStart(states: seq<World>, ops: seq<Op>, runs: map<RunId, Run>, id: RunId, worker: WorkerId, at: Time,
                token: Token, issued: set<Token>, known: set<Read>)
    returns (more: seq<World>, longer: seq<Op>)
    requires token in issued && id in runs && runs[id].status == Claimed && runs[id].owner == Some(worker)
    requires At(states, ops, Alone(runs, map[id := LeaseAt(token, worker, at)]), at, issued, known)
    ensures At(more, longer, Alone(runs[id := Started(runs[id], at)], map[id := LeaseAt(token, worker, at)]), at,
            issued, known)
    ensures Longer(states, more)
  {
    hide Apply, Step, LiveTokens, Behaviour, Longer;
    StartGoes(runs, id, worker, at, token, at);
    Tokens(id, token, worker, at);
    var lease := map[id := LeaseAt(token, worker, at)];
    more, longer := Go(states, ops, Start(id, worker, token, at), Alone(runs, lease),
                       Alone(runs[id := Started(runs[id], at)], lease), at, issued, known);
    assert issued + {token} == issued;
  }

  lemma GoRelease(states: seq<World>, ops: seq<Op>, runs: map<RunId, Run>, id: RunId, worker: WorkerId, at: Time,
                  token: Token, issued: set<Token>, known: set<Read>)
    returns (more: seq<World>, longer: seq<Op>)
    requires id in runs && Active(runs[id].status) && runs[id].owner == Some(worker)
    requires At(states, ops, Alone(runs, map[id := LeaseAt(token, worker, at)]), at, issued, known)
    ensures At(more, longer, Alone(runs[id := Released(runs[id], at)], map[]), at, issued, known)
    ensures Longer(states, more)
  {
    hide Apply, Step, LiveTokens, Behaviour, Longer;
    ReleaseGoes(runs, id, worker, at, token, at);
    Tokens(id, token, worker, at);
    more, longer := Go(states, ops, Release(id, worker, token, at), Alone(runs, map[id := LeaseAt(token, worker, at)]),
                       Alone(runs[id := Released(runs[id], at)], map[]), at, issued, known);
  }

  // ---------------------------------------------------------------- a skip that ends a running attempt

  // Runs 0 and 1 wait while run 2 is active. A dispatcher lists them, to skip 0 in favour of 1.

  const THREE := map[0 := Asked(0), 1 := Asked(1), 2 := Asked(2)]

  const LISTED := THREE[2 := Held(Asked(2), "c", 2)]

  const BACK := THREE[2 := Released(Held(Asked(2), "c", 2), 2)]

  const TAKEN := BACK[0 := Started(Held(Asked(0), "b", 2), 2)]

  lemma ListingRefuses()
    ensures
      var db := Alone(LISTED, map[2 := LeaseAt(1, "c", 2)]);
      0 in Unsubmitted(db, "s") && LatestUnsubmitted(db, "s", 1) && !PolicyAdmits(db, "s", Manual(1), QUEUE_ONE)
  {
    var db := Alone(LISTED, map[2 := LeaseAt(1, "c", 2)]);
    assert LISTED[2].status == Claimed && LISTED[2].key == Manual(2);
    assert ActiveOccurrences(db, "s") - {Manual(1)} == {Manual(2)};
    assert Unsubmitted(db, "s") == {0, 1};
  }

  lemma ListedBehindActive() returns (states: seq<World>, ops: seq<Op>)
    ensures At(states, ops, Alone(LISTED, map[2 := LeaseAt(1, "c", 2)]), 2, {1}, {})
  {
    hide At;
    Starts(2);
    states, ops := GoInsert([Fresh(2)], [], map[], Asked(0), 2);
    states, ops := GoInsert(states, ops, map[0 := Asked(0)], Asked(1), 2);
    states, ops := GoInsert(states, ops, map[0 := Asked(0), 1 := Asked(1)], Asked(2), 2);
    assert map[0 := Asked(0), 1 := Asked(1)][2 := Asked(2)] == THREE;
    states, ops := GoClaim(states, ops, THREE, 2, "c", 2, 1, {}, {});
    assert THREE[2 := Held(THREE[2], "c", 2)] == LISTED && {} + {1} == {1};
  }

  lemma TakenMeanwhile(states: seq<World>, ops: seq<Op>) returns (more: seq<World>, longer: seq<Op>)
    requires At(states, ops, Alone(LISTED, map[2 := LeaseAt(1, "c", 2)]), 2, {1}, {})
    ensures At(more, longer, Alone(TAKEN, map[0 := LeaseAt(2, "b", 2)]), 2, {1, 2}, {Read(Asked(0), 2)})
    ensures |more| > |states| > 0 && more[|states| - 1] == states[|states| - 1]
  {
    assert |states| > 0;
    hide At, LiveTokens, Longer;
    Tokens(2, 1, "c", 2);
    var read := {Read(Asked(0), 2)};
    var known, listedOps := GoRead(states, ops, Alone(LISTED, map[2 := LeaseAt(1, "c", 2)]), 0, 2, {1});
    var free, freeOps := GoRelease(known, listedOps, LISTED, 2, "c", 2, 1, {1}, read);
    assert LISTED[2 := Released(LISTED[2], 2)] == BACK;
    var claimed, claimedOps := GoClaim(free, freeOps, BACK, 0, "b", 2, 2, {1}, read);
    var held := BACK[0 := Held(BACK[0], "b", 2)];
    assert {1} + {2} == {1, 2};
    more, longer := GoStart(claimed, claimedOps, held, 0, "b", 2, 2, {1, 2}, read);
    Kept(states, known, free, claimed, more);
    assert held[0 := Started(held[0], 2)] == TAKEN;
  }

  lemma Kept(a: seq<World>, b: seq<World>, c: seq<World>, d: seq<World>, e: seq<World>)
    requires |a| > 0 && Longer(a, b) && Longer(b, c) && Longer(c, d) && Longer(d, e)
    ensures |e| > |a| && e[|a| - 1] == a[|a| - 1]
  {
    var last := |a| - 1;
    assert b[last] == b[..|a|][last] && c[last] == c[..|b|][last] && d[last] == d[..|c|][last]
      && e[last] == e[..|d|][last];
  }

  lemma SkipOfTaken()
    ensures
      var db := Alone(TAKEN, map[0 := LeaseAt(2, "b", 2)]);
      var after := FinishRun(db, SkippedRow(Asked(0), OverlapQueueLatest, 2));
      && TAKEN[0].status == Running && 0 !in Unsubmitted(db, "s")
      && after != db && 0 in after.runs && after.runs[0].status == Skipped && after.leases == map[]
  {
  }

  /** A dispatcher lists runs 0 and 1 while 2 keeps 1 from starting. Before it skips run 0, 2 is given back and
      another worker claims and starts 0: the skip ends a live lease and a running attempt. */
  lemma StaleSkipEndsRunningAttempt() returns (states: seq<World>, ops: seq<Op>, listing: nat)
    ensures |states| == |ops| + 1 && Behaviour(states, ops) && listing < |ops|
    ensures
      var listed := Read(Asked(0), 2);
      && listed in states[|ops|].known && listed.run.id in Unsubmitted(states[listing].db, "s")
      && LatestUnsubmitted(states[listing].db, "s", 1) && !PolicyAdmits(states[listing].db, "s", Manual(1), QUEUE_ONE)
    ensures
      var db := states[|ops|].db;
      var after := FinishRun(db, SkippedRow(Asked(0), OverlapQueueLatest, 2));
      && 0 in db.runs && db.runs[0].status == Running && LiveTokens(db.leases) == {2}
      && 0 in after.runs && after.runs[0].status == Skipped && LiveTokens(after.leases) == {}
      && !KeepsPromises(db, after)
  {
    hide LiveTokens, Behaviour, KeepsPromises, Unsubmitted, LatestUnsubmitted, PolicyAdmits, FinishRun, SkippedRow;
    Tokens(0, 2, "b", 2);
    ListingRefuses();
    states, ops := ListedBehindActive();
    listing := |ops|;
    states, ops := TakenMeanwhile(states, ops);
    StaleSkipIsLegalIff(states, ops, |ops|, Read(Asked(0), 2), OverlapQueueLatest, 2);
    SkipOfTaken();
  }

  const FREED := TAKEN[0 := Released(TAKEN[0], 2)]

  lemma SkipOfFreed()
    ensures
      var db := Alone(FREED, map[]);
      var after := FinishRun(db, SkippedRow(Asked(0), OverlapQueueLatest, 2));
      && 0 in Unsubmitted(db, "s") && FREED[0].startedAt == Some(2) && !MaySkip(db, Asked(0))
      && after != db && 0 in after.runs && after.runs[0].status == Skipped && after.runs[0].startedAt.None?
  {
  }

  /** The same, but the worker that started run 0 gives it back before the skip: the run waits again and has no
      remote job, and yet the skip is not legal, for it erases the first start. */
  lemma StaleSkipErasesStart() returns (states: seq<World>, ops: seq<Op>, listing: nat)
    ensures |states| == |ops| + 1 && Behaviour(states, ops) && listing < |ops|
    ensures
      var listed := Read(Asked(0), 2);
      && listed in states[|ops|].known && listed.run.id in Unsubmitted(states[listing].db, "s")
      && LatestUnsubmitted(states[listing].db, "s", 1) && !PolicyAdmits(states[listing].db, "s", Manual(1), QUEUE_ONE)
    ensures
      var db := states[|ops|].db;
      var after := FinishRun(db, SkippedRow(Asked(0), OverlapQueueLatest, 2));
      && 0 in Unsubmitted(db, "s") && db.runs[0].startedAt == Some(2)
      && 0 in after.runs && after.runs[0].status == Skipped && after.runs[0].startedAt.None?
      && !KeepsPromises(db, after)
  {
    hide LiveTokens, Behaviour, KeepsPromises, Unsubmitted, LatestUnsubmitted, PolicyAdmits, FinishRun, SkippedRow,
         MaySkip;
    ListingRefuses();
    SkipOfFreed();
    states, ops := ListedBehindActive();
    listing := |ops|;
    var held, heldOps := TakenMeanwhile(states, ops);
    var before := |states| - 1;
    assert held[before] == states[before];
    states, ops := GoRelease(held, heldOps, TAKEN, 0, "b", 2, 2, {1, 2}, {Read(Asked(0), 2)});
    assert states[before] == states[..|held|][before];
    StaleSkipIsLegalIff(states, ops, |ops|, Read(Asked(0), 2), OverlapQueueLatest, 2);
  }

  // ---------------------------------------------------------------- a report that moves the first start

  // Run 0 waits, never started, when "a" lists it. "b" starts it at 0 and gives it back; "a" claims it from its
  // list and starts it at 5.

  const GIVEN_BACK := Released(Started(Held(Asked(0), "b", 0), 0), 0)

  const RESTARTED := map[0 := Started(Held(GIVEN_BACK, "a", 5), 5)]

  const SUCCESS := Result(None, None, "", None, false, false, false)

  /** What "a" reports from the row it listed. */
  const REPORT := Op.Complete(Read(Asked(0), 0), "a", 2, ONE_TRY, SUCCESS, 5, 5, 1, 0, 5)

  lemma StartedAndGivenBack() returns (states: seq<World>, ops: seq<Op>)
    ensures At(states, ops, Alone(map[0 := GIVEN_BACK], map[]), 0, {1}, {Read(Asked(0), 0)})
  {
    hide At, LiveTokens, FreshRun;
    var asked := map[0 := Asked(0)];
    var read := {Read(Asked(0), 0)};
    assert Asked(0).id == 0 && Waiting(Asked(0).status) by { hide *; AskedRow(0); }
    Tokens(0, 1, "b", 0);
    Starts(0);
    AskedRow(0);
    states, ops := GoInsert([Fresh(0)], [], map[], Asked(0), 0);
    assert map[][0 := Asked(0)] == asked;
    states, ops := GoRead(states, ops, Alone(asked, map[]), 0, 0, {});
    states, ops := GoClaim(states, ops, asked, 0, "b", 0, 1, {}, read);
    var held := map[0 := Held(Asked(0), "b", 0)];
    assert asked[0 := Held(asked[0], "b", 0)] == held && {} + {1} == {1};
    states, ops := GoStart(states, ops, held, 0, "b", 0, 1, {1}, read);
    var running := map[0 := Started(Held(Asked(0), "b", 0), 0)];
    assert held[0 := Started(held[0], 0)] == running;
    states, ops := GoRelease(states, ops, running, 0, "b", 0, 1, {1}, read);
    assert running[0 := Released(running[0], 0)] == map[0 := GIVEN_BACK];
  }

  lemma AskedRow(id: RunId)
    ensures
      var row := Asked(id);
      && row.id == id && row.schedule == "s" && row.key == Manual(id) && row.status == Pending && row.attempt == 1
      && row.owner.None? && row.claimExpires.None? && row.startedAt.None? && row.createdAt == id
  {
  }

  lemma ReportGoes()
    ensures
      var db := Alone(RESTARTED, map[0 := LeaseAt(2, "a", 5)]);
      var after := Apply(db, REPORT, 5);
      && RESTARTED[0].startedAt == Some(0) && OverwritesStart(db, REPORT, 0)
      && after.dead == map[] && 0 in after.runs && after.runs[0].status == Succeeded
      && after.runs[0].startedAt == Some(5)
  {
  }

  /** A run of the system whose last step, the report of a successful execution, replaces the recorded first start. */
  lemma StaleReportMovesStart() returns (states: seq<World>, ops: seq<Op>)
    ensures |states| == |ops| + 1 && |ops| > 0 && Behaviour(states, ops)
    ensures
      var last := |ops| - 1;
      && 0 in states[last].db.runs && states[last].db.runs[0].startedAt == Some(0)
      && OverwritesStart(states[last].db, ops[last], 0)
      && 0 in states[|ops|].db.runs && states[|ops|].db.runs[0].startedAt == Some(5)
      && states[|ops|].db.runs[0].status == Succeeded
  {
    hide Apply, LiveTokens, Behaviour, OverwritesStart;
    var read := {Read(Asked(0), 0)};
    var lease := map[0 := LeaseAt(2, "a", 5)];
    states, ops := StartedAndGivenBack();
    Tokens(0, 2, "a", 5);
    states, ops := GoAdvance(states, ops, Alone(map[0 := GIVEN_BACK], map[]), 5, 0, {1}, read);
    states, ops := GoClaim(states, ops, map[0 := GIVEN_BACK], 0, "a", 5, 2, {1}, read);
    var held := map[0 := Held(GIVEN_BACK, "a", 5)];
    assert map[0 := GIVEN_BACK][0 := Held(GIVEN_BACK, "a", 5)] == held && {1} + {2} == {1, 2};
    states, ops := GoStart(states, ops, held, 0, "a", 5, 2, {1, 2}, read);
    assert held[0 := Started(held[0], 5)] == RESTARTED;
    ReportGoes();
    states, ops := Extended(states, ops, REPORT);
  }

  // ---------------------------------------------------------------- a replay after retention

  const TRY_TWICE := RetryPolicy(2, RetryExponential, 1, 1)

  const FAILURE := Result(None, None, "", Some("failed"), false, false, false)

  const FIRST_SLOT := Slot("s", 0)

  /** The first attempt of the slot at 0, as a tick plans it. */
  const PLANNED := PlannedRun("s", 0, true, CatchUp, 0, 0)

  const FAILS := Op.Complete(Read(PLANNED, 0), "a", 1, TRY_TWICE, FAILURE, 0, 0, 1, 0, 0)

  const SECOND_ATTEMPT := Run(1, "s", FIRST_SLOT, 0, SECOND, RetryScheduled, 2, None, None, None, None, NO_DETAIL,
    Some(SECOND), 0, 0)

  lemma PlannedSlot()
    ensures
      && PLANNED.id == 0 && PLANNED.schedule == "s" && PLANNED.key == FIRST_SLOT && PLANNED.status == Pending
      && PLANNED.attempt == 1 && PLANNED.owner.None? && PLANNED.claimExpires.None? && PLANNED.createdAt == 0
  {
  }

  lemma PlannedAndStarted() returns (states: seq<World>, ops: seq<Op>)
    ensures At(states, ops, Alone(map[0 := Started(Held(PLANNED, "a", 0), 0)], map[0 := LeaseAt(1, "a", 0)]), 0, {1},
            {Read(PLANNED, 0)})
  {
    PlannedSlot();
    hide At, LiveTokens, PlannedRun;
    var planned := map[0 := PLANNED];
    var read := {Read(PLANNED, 0)};
    Tokens(0, 1, "a", 0);
    Starts(0);
    states, ops := GoInsert([Fresh(0)], [], map[], PLANNED, 0);
    assert map[][0 := PLANNED] == planned;
    states, ops := GoRead(states, ops, Alone(planned, map[]), 0, 0, {});
    states, ops := GoClaim(states, ops, planned, 0, "a", 0, 1, {}, read);
    var held := map[0 := Held(PLANNED, "a", 0)];
    assert planned[0 := Held(planned[0], "a", 0)] == held && {} + {1} == {1};
    states, ops := GoStart(states, ops, held, 0, "a", 0, 1, {1}, read);
    assert held[0 := Started(held[0], 0)] == map[0 := Started(Held(PLANNED, "a", 0), 0)];
  }

  lemma FailureGoes()
    ensures
      var db := Alone(map[0 := Started(Held(PLANNED, "a", 0), 0)], map[0 := LeaseAt(1, "a", 0)]);
      var after := Apply(db, FAILS, 0);
      && after == Alone(after.runs, map[]) && after.runs.Keys == {0, 1} && after.runs[1] == SECOND_ATTEMPT
      && after.runs[0].status == Failed && after.runs[0].key == FIRST_SLOT && after.runs[0].attempt == 1
      && after.runs[0].finishedAt == Some(0)
  {
    PlannedSlot();
    assert BackoffSeconds(TRY_TWICE, 1) == 1;
  }

  lemma RetentionGoes(db: Db)
    requires db == Alone(db.runs, map[]) && db.runs.Keys == {0, 1} && db.runs[1] == SECOND_ATTEMPT
    requires db.runs[0].status == Failed && db.runs[0].key == FIRST_SLOT && db.runs[0].attempt == 1
             && db.runs[0].finishedAt == Some(0)
    ensures Prune(db, 1) == Alone(map[1 := SECOND_ATTEMPT], map[])
  {
  }

  lemma ReplayGoes(row: Run)
    requires row.id > 1 && row.schedule == "s" && row.key == FIRST_SLOT && row.attempt == 1 && row.status != Failed
    ensures
      var db := Alone(map[1 := SECOND_ATTEMPT], map[]);
      var tx := InsertRun(db, row);
      && !HasAttempt(db.runs, FIRST_SLOT, 1)
      && tx.err.None? && tx.db.runs == map[1 := SECOND_ATTEMPT, row.id := row]
      && (Chain(db.runs) && Rows(db.runs) ==> !Chain(tx.db.runs))
  {
    var db := Alone(map[1 := SECOND_ATTEMPT], map[]);
    assert db.runs[1].key == FIRST_SLOT;
    assert KeyPresent(db.runs, FIRST_SLOT);
    hide Chain, Rows;
    if Chain(db.runs) && Rows(db.runs) { InsertKeepsChainIff(db, row); }
  }

  lemma FailedAndPruned() returns (states: seq<World>, ops: seq<Op>)
    ensures |states| == |ops| + 1 && |ops| > 0 && Behaviour(states, ops)
    ensures states[|ops|].db == Alone(map[1 := SECOND_ATTEMPT], map[])
    ensures ops[|ops| - 1] == PruneBefore(1) && states[|ops|] == Step(states[|ops| - 1], ops[|ops| - 1])
    ensures HasAttempt(states[|ops| - 1].db.runs, FIRST_SLOT, 1)
  {
    hide LiveTokens, Behaviour, Apply, Prune, Started, Held, CauseOf, HasAttempt;
    states, ops := PlannedAndStarted();
    FailureGoes();
    states, ops := Extended(states, ops, FAILS);
    HasAttemptWitness(states[|ops|].db.runs, 0);
    RetentionGoes(states[|ops|].db);
    PruneIs(states[|ops|].db, 1, states[|ops|].clock);
    states, ops := Extended(states, ops, PruneBefore(1));
  }

  lemma PruneIs(db: Db, cutoff: Time, clock: Time)
    ensures Apply(db, PruneBefore(cutoff), clock) == Prune(db, cutoff)
  {
  }

  lemma InsertRefused(w: World, row: Run)
    requires 1 in w.db.runs && w.db.runs[1].key == row.key && !HasAttempt(w.db.runs, row.key, 1)
    ensures !Enabled(w, Insert(row))
  {
    assert KeyPresent(w.db.runs, row.key);
  }

  /** The first attempt of a slot fails, retention removes it while its retry still waits, and a tick that had not
      recorded its NextRunAt yet plans the slot again: the insert succeeds, and one occurrence has two open attempts. */
  lemma ReplayAfterRetention(b: Batch, k: nat) returns (states: seq<World>, ops: seq<Op>)
    requires k < |b.due| && b.schedule == "s" && b.due[k] == 0 && b.firstId > 1
    ensures |states| == |ops| + 1 && |ops| > 0 && Behaviour(states, ops)
    ensures PlannerLedger.Loses(states[|ops| - 1], ops[|ops| - 1], FIRST_SLOT)
    ensures
      var db := states[|ops|].db;
      var row := RowOf(b, k);
      var tx := InsertRun(db, row);
      && db.runs == map[1 := SECOND_ATTEMPT] && !Enabled(states[|ops|], Insert(row))
      && tx.err.None? && tx.db.runs == map[1 := SECOND_ATTEMPT, row.id := row] && row.key == FIRST_SLOT
      && Chain(db.runs) && !Chain(tx.db.runs)
  {
    hide Behaviour, Apply, Step, Enabled, Chain, Rows, RowOf, InsertRun, HasAttempt, TablesOk, HistoryOk;
    states, ops := FailedAndPruned();
    RowFacts(b, k);
    ReplayGoes(RowOf(b, k));
    InsertRefused(states[|ops|], RowOf(b, k));
    ReachableInv(states, ops, |ops|);
    SoundChains(states[|ops|]);
  }

  lemma SoundChains(w: World)
    requires Inv(w)
    ensures Chain(w.db.runs) && Rows(w.db.runs)
  {
    hide Chain, Rows, HistoryOk;
  }
}
