/** internal/dispatcher over the store. Every change the dispatcher makes is a step of the ledger's state
    machine: the ghost history it keeps is a Behaviour, so every theorem about behaviours applies to it. */
module Dispatcher {
  import opened Domain
  import opened Ledger
  import opened LedgerInvariants
  import opened LedgerRuns
  import opened LedgerProofs
  import opened LedgerTheorems
  import opened LedgerRules
  import opened Outcome
  import opened Queue
  import Store

  datatype Schedule = Schedule(policy: Policy, target: Target)

  function Policies(schedules: ScheduleId -> Schedule): ScheduleId -> Policy { s => schedules(s).policy }

  /** One candidate handed to an execution goroutine, with the token its lease was issued under. */
  datatype Launch = Launch(run: RunId, token: Token, at: Time)

  /** What is added to a history between two moments leaves every assignment of policies it agrees with in force, as
      long as this schedule has this policy. */
  ghost predicate Follows(before: seq<Op>, after: seq<Op>, schedule: ScheduleId, policy: Policy) {
    forall policies: ScheduleId -> Policy | FixedPolicy(before, policies) && policies(schedule) == policy ::
      FixedPolicy(after, policies)
  }

  ghost predicate FollowsAny(before: seq<Op>, after: seq<Op>) {
    forall policies: ScheduleId -> Policy | FixedPolicy(before, policies) :: FixedPolicy(after, policies)
  }

  /** What is added agrees with the schedules' own policies. */
  ghost predicate Keeps(before: seq<Op>, after: seq<Op>, schedules: ScheduleId -> Schedule) {
    FixedPolicy(before, Policies(schedules)) ==> FixedPolicy(after, Policies(schedules))
  }

  lemma FollowsKeeps(before: seq<Op>, mid: seq<Op>, after: seq<Op>, schedules: ScheduleId -> Schedule)
    ensures FollowsAny(before, after) ==> Keeps(before, after, schedules)
    ensures forall s :: Follows(before, after, s, schedules(s).policy) ==> Keeps(before, after, schedules)
    ensures Keeps(before, mid, schedules) && Keeps(mid, after, schedules) ==> Keeps(before, after, schedules)
  {
    hide FixedPolicy;
    assert forall s :: Policies(schedules)(s) == schedules(s).policy;
  }

  lemma StepFollowsAny(ops: seq<Op>, op: Op)
    requires !op.Claim? && !op.Complete? && !op.RecoverOrdinary?
    ensures FollowsAny(ops, ops + [op])
  {
  }

  lemma StepFollows(ops: seq<Op>, op: Op, schedule: ScheduleId, policy: Policy)
    requires
      || (op.Claim? && op.schedule == schedule && op.policy == policy)
      || (op.RecoverOrdinary? && op.read.run.schedule == schedule && op.retry == policy.retry)
    ensures Follows(ops, ops + [op], schedule, policy)
  {
  }

  lemma FollowOn(before: seq<Op>, mid: seq<Op>, after: seq<Op>)
    ensures FollowsAny(before, before)
    ensures FollowsAny(before, mid) && FollowsAny(mid, after) ==> FollowsAny(before, after)
    ensures forall schedule, policy ::
              && (FollowsAny(before, mid) && Follows(mid, after, schedule, policy) ==>
                    Follows(before, after, schedule, policy))
              && (Follows(before, mid, schedule, policy) && FollowsAny(mid, after) ==>
                    Follows(before, after, schedule, policy))
              && (Follows(before, mid, schedule, policy) && Follows(mid, after, schedule, policy) ==>
                    Follows(before, after, schedule, policy))
              && (FollowsAny(before, after) ==> Follows(before, after, schedule, policy))
  {
    hide FixedPolicy;
  }

  // ---------------------------------------------------------------- history

  ghost predicate IdsBelow(w: World, next: nat) {
    && (forall id | id in w.ids :: id < next)
    && (forall id | id in w.deadIds :: id < next)
    && (forall t | t in w.issued :: t < next)
  }

  ghost predicate History(states: seq<World>, ops: seq<Op>, db: Db, clock: Time, next: nat) {
    && Behaviour(states, ops)
    && |states| == |ops| + 1
    && states[|ops|].db == db && states[|ops|].clock == clock
    && IdsBelow(states[|ops|], next)
  }

  lemma HistoryFacts(states: seq<World>, ops: seq<Op>, db: Db, clock: Time, next: nat)
    requires History(states, ops, db, clock, next)
    ensures |states| == |ops| + 1 && Inv(states[|ops|])
    ensures TablesOk(db) && Rows(db.runs) && Agreement(db.runs, db.leases)
    ensures forall id | id in db.runs :: id in states[|ops|].ids && id < next && db.runs[id].createdAt <= clock
    ensures next !in states[|ops|].ids && next !in states[|ops|].deadIds && next !in states[|ops|].issued
    ensures next !in db.runs && next !in db.dead
  {
    ReachableInv(states, ops, |ops|);
    hide Behaviour;
  }

  /** Appending one enabled step to a history. */
  lemma HistoryGrows(states: seq<World>, ops: seq<Op>, db: Db, clock: Time, next: nat, op: Op, next': nat)
    requires History(states, ops, db, clock, next) && Enabled(states[|ops|], op)
    requires next <= next' && IdsBelow(Step(states[|ops|], op), next')
    ensures History(states + [Step(states[|ops|], op)], ops + [op], Apply(db, op, clock), if op.Advance? then op.to
            else clock, next')
  {
    hide Enabled, Apply, CauseOf, IdsBelow, Initial;
    var states' := states + [Step(states[|ops|], op)];
    var ops' := ops + [op];
    forall i {:trigger ops'[i]} | 0 <= i < |ops'| ensures Enabled(states'[i], ops'[i])
      && states'[i + 1] == Step(states'[i], ops'[i]) {
      if i < |ops| {
        assert ops'[i] == ops[i];
      }
    }
    assert states'[0] == states[0];
  }

  /** Transactions that insert at most one run, dead letter or token, with an id drawn for it. */
  lemma IdsStayBelow(w: World, op: Op, had: nat, next: nat)
    requires IdsBelow(w, had) && had <= next && w.db.runs.Keys <= w.ids && LiveTokens(w.db.leases) <= w.issued
    requires forall id | id in Apply(w.db, op, w.clock).runs :: id < next
    requires forall d | d in Apply(w.db, op, w.clock).dead :: d < next
    requires forall id | id in Apply(w.db, op, w.clock).leases :: Apply(w.db, op, w.clock).leases[id].token < next
    ensures IdsBelow(Step(w, op), next)
  {
    hide Apply, CauseOf;
  }

  lemma TokensBelow(w: World, next: nat)
    requires IdsBelow(w, next) && Inv(w)
    ensures forall id | id in w.db.leases :: w.db.leases[id].token < next
    ensures forall d | d in w.db.dead :: d < next
  {
    assert forall id | id in w.db.leases :: w.db.leases[id].token in LiveTokens(w.db.leases);
    hide TablesOk;
  }

  /** What recovery leaves of an expired run: waiting again if nothing started or a remote
      job is tracked, else failed. */
  predicate RecoveredAs(was: Run, row: Run, tracked: bool, retry: RetryPolicy) {
    && SameIdentity(was, row)
    && row.status == (if was.status == Claimed || tracked then Pending
         else if retry.strategy != RetryNone && was.attempt < retry.maxAttempts then Failed
         else DeadLettered)
    && (row.status == Pending ==>
          row == was.(status := Pending, owner := None, claimExpires := None, updatedAt := row.updatedAt))
    && (row.status != Pending ==>
          && row.detail.error == Some("worker lease expired during execution") && row.finishedAt == Some(row.updatedAt))
  }

  predicate Tracked(db: Db, schedules: ScheduleId -> Schedule, run: Run) {
    run.key in db.jobs || schedules(run.schedule).target.httpJob.Some?
  }

  /** The next attempt of a failed run, due when its backoff is over. */
  predicate RetryOf(failed: Run, again: Run, retry: RetryPolicy) {
    && failed.status == Failed && again.status == RetryScheduled && again.attempt == failed.attempt + 1
    && again.key == failed.key && again.schedule == failed.schedule && failed.finishedAt.Some?
    && again.retryAt == Some(failed.finishedAt.value + BackoffSeconds(retry, failed.attempt) * SECOND)
  }

  predicate DeadLetterOf(lost: Run, letter: DeadLetter) {
    && lost.status == DeadLettered && letter.run == lost.id && letter.key == lost.key
    && letter.reason == "worker lease expired during execution"
  }

  /** A failed run has its retry or its dead letter. */
  predicate FollowedUp(db: Db, after: Db, id: RunId, retry: RetryPolicy) {
    && id in after.runs
    && (after.runs[id].status == Failed ==>
          exists again :: again in after.runs && again !in db.runs && RetryOf(after.runs[id], after.runs[again], retry))
    && (after.runs[id].status == DeadLettered ==>
          exists d :: d in after.dead && d !in db.dead && DeadLetterOf(after.runs[id], after.dead[d]))
  }

  /** One lease gone, its run handled, every other row as it was. */
  predicate Handled(db: Db, after: Db, id: RunId, tracked: bool, retry: RetryPolicy) {
    && id in db.runs && id in after.runs && RecoveredAs(db.runs[id], after.runs[id], tracked, retry)
    && after.leases == db.leases - {id} && after.jobs == db.jobs
    && (forall other | other in db.runs && other != id :: other in after.runs && after.runs[other] == db.runs[other])
  }

  /** Nothing is added but the retry or the dead letter of a failure. */
  predicate AddsFollowUp(db: Db, after: Db, id: RunId, retry: RetryPolicy) {
    && FollowedUp(db, after, id, retry)
    && (forall d | d in db.dead :: d in after.dead && after.dead[d] == db.dead[d])
    && (forall again | again in after.runs && again !in db.runs :: RetryOf(after.runs[id], after.runs[again], retry))
  }

  predicate Recovered(db: Db, after: Db, id: RunId, tracked: bool, retry: RetryPolicy) {
    Handled(db, after, id, tracked, retry) && AddsFollowUp(db, after, id, retry)
  }

  /** The expiry just recorded. */
  lemma LastExpiry(states: seq<World>, ops: seq<Op>, db: Db, clock: Time, next: nat, was: Db, item: Run,
                   retry: RetryPolicy)
    requires |states| == |ops| + 1 && ops != [] && states[|ops| - 1].db == was
    requires item.id in was.runs && was.runs[item.id] == item && item.status == Running
    requires
      var op := ops[|ops| - 1];
      op.RecoverOrdinary? && op.retry == retry && op.read.run == item && item.id in ExpiredRuns(was, op.finishedAt)
    requires Handled(was, db, item.id, false, retry)
    requires History(states, ops, db, clock, next)
    ensures Recovered(was, db, item.id, false, retry)
  {
    hide Behaviour, Reported, AddsFollowUp, BackoffSeconds, IdsBelow;
    var i := |ops| - 1;
    ExpiryOutcome(states, ops, i);
    ReportFollowsUp(was, db, ops[i], EXPIRED_RESULT);
  }

  lemma ReportFollowsUp(db: Db, after: Db, op: Op, result: Result)
    requires Finishes(op) && Reported(db, after, op, result) && op.read.run.id in db.runs
    requires db.runs[op.read.run.id].id == op.read.run.id
    requires SameIdentity(db.runs[op.read.run.id], after.runs[op.read.run.id])
    requires SameIdentity(db.runs[op.read.run.id], op.read.run)
    requires result == Result(None, None, "", Some("worker lease expired during execution"), false, false, false)
    ensures AddsFollowUp(db, after, op.read.run.id, op.retry)
  {
    hide BackoffSeconds;
  }

  predicate Below(db: Db, next: nat) {
    && (forall id | id in db.runs :: id < next)
    && (forall d | d in db.dead :: d < next)
    && (forall id | id in db.leases :: db.leases[id].token < next)
  }

  lemma HistoryBelow(states: seq<World>, ops: seq<Op>, db: Db, clock: Time, next: nat)
    requires History(states, ops, db, clock, next)
    ensures TablesOk(db) && Below(db, next)
  {
    HistoryFacts(states, ops, db, clock, next);
    TokensBelow(states[|ops|], next);
    hide Behaviour, TablesOk;
  }

  /** Handing back a claimed run, or a running one whose occurrence is tracked. */
  lemma ReleaseRecovers(db: Db, after: Db, id: RunId, now: Time, tracked: bool, retry: RetryPolicy, next: nat)
    requires id in db.leases && id in db.runs && (db.runs[id].status == Claimed || tracked)
    requires Below(db, next) && TablesOk(db)
    requires after == db.(runs := db.runs[id := Released(db.runs[id], now)], leases := DropToken(db.leases,
             db.leases[id].token))
    ensures Recovered(db, after, id, tracked, retry) && Below(after, next)
  {
    hide TablesOk, DropToken, LiveTokens, BackoffSeconds;
    LeaseOwner(db, id);
  }

  /** Failing an attempt whose lease ran out, in one transaction with its retry or dead letter. */
  function ExpiryTx(db: Db, item: Run, retry: RetryPolicy, at: Time, id: nat): Tx {
    var done := Outcome.Complete(item, retry, EXPIRED_RESULT, at, at, id);
    FinishExternalRun(db, done.run, "", 0, done.retry, id, done.dead, at, true)
  }

  lemma FailedRow(item: Run, retry: RetryPolicy, at: Time, id: RunId, holder: WorkerId)
    requires item.status == Running
    ensures
      var done := Outcome.Complete(item, retry, EXPIRED_RESULT, at, at, id);
      && RecoveredAs(item, FinishedRow(item, done.run, holder, at), false, retry)
      && done.run.id == item.id && (done.retry.Some? ==> done.retry.value.id == id)
  {
    hide BackoffSeconds;
  }

  /** Finishing an expired run changes its row, drops its lease, and adds at most the retry and the dead letter. */
  lemma ExpiryShape(db: Db, run: Run, retry: Option<Run>, id: nat, dead: Option<DeadLetter>, at: Time)
    requires run.id in db.runs && db.runs[run.id].status == Running && (retry.Some? ==> retry.value.id == id)
    requires run.id in db.leases && db.leases[run.id].expiresAt <= at
             && db.runs[run.id].owner == Some(db.leases[run.id].worker)
    requires DropToken(db.leases, db.leases[run.id].token) == db.leases - {run.id} && Below(db, id)
    ensures
      var tx := FinishExternalRun(db, run, "", 0, retry, id, dead, at, true);
      && tx.err.None? && tx.db.leases == db.leases - {run.id} && tx.db.jobs == db.jobs
      && run.id in tx.db.runs && tx.db.runs[run.id] == FinishedRow(db.runs[run.id], run, db.leases[run.id].worker, at)
      && (forall other | other in db.runs && other != run.id :: other in tx.db.runs
           && tx.db.runs[other] == db.runs[other])
      && Below(tx.db, id + 1)
  {
    hide HasAttempt, RetryRow, FinishedRow, DropToken;
  }

  lemma LeaseOwner(db: Db, id: RunId)
    requires id in db.leases && TablesOk(db)
    ensures id in db.runs && db.runs[id].owner == Some(db.leases[id].worker)
    ensures DropToken(db.leases, db.leases[id].token) == db.leases - {id}
  {
    DropTokenIsRemoval(db.leases, id);
    hide DropToken, Rows, Chain, JobsAgree, EventsAgree, DeadAgree;
  }

  lemma FailureRecovers(db: Db, item: Run, retry: RetryPolicy, at: Time, id: nat)
    requires item.id in db.runs && db.runs[item.id] == item && item.status == Running
    requires item.id in ExpiredRuns(db, at) && Below(db, id) && TablesOk(db)
    ensures ExpiryTx(db, item, retry, at, id).err.None?
    ensures Handled(db, ExpiryTx(db, item, retry, at, id).db, item.id, false, retry)
            && Below(ExpiryTx(db, item, retry, at, id).db, id + 1)
  {
    hide TablesOk, FinishExternalRun, Outcome.Complete, RecoveredAs, FinishedRow, Below;
    LeaseOwner(db, item.id);
    var done := Outcome.Complete(item, retry, EXPIRED_RESULT, at, at, id);
    FailedRow(item, retry, at, id, db.leases[item.id].worker);
    ExpiryShape(db, done.run, done.retry, id, done.dead, at);
  }

  lemma ResetRecovers(w: World, id: RunId, now: Time, tracked: bool, retry: RetryPolicy, next: nat)
    requires id in w.db.runs && w.db.runs[id].status == Claimed && now <= w.clock
    requires TablesOk(w.db) && Below(w.db, next) && id in ExpiredRuns(w.db, now)
    ensures ResetClaimedRun(w.db, id, now).err.None?
    ensures Recovered(w.db, ResetClaimedRun(w.db, id, now).db, id, tracked, retry)
            && Below(ResetClaimedRun(w.db, id, now).db, next)
    ensures Enabled(w, RecoverClaimed(id, now)) && Apply(w.db, RecoverClaimed(id, now), w.clock)
            == ResetClaimedRun(w.db, id, now).db
  {
    hide TablesOk, Recovered, Below;
    ReleaseRecovers(w.db, ResetClaimedRun(w.db, id, now).db, id, now, tracked, retry, next);
  }

  lemma RequeueRecovers(w: World, id: RunId, now: Time, retry: RetryPolicy, next: nat)
    requires id in w.db.runs && w.db.runs[id].status == Running && now <= w.clock
    requires TablesOk(w.db) && Below(w.db, next) && id in ExpiredRuns(w.db, now)
    ensures RequeueExternalRun(w.db, id, "", 0, now, true).err.None?
    ensures Recovered(w.db, RequeueExternalRun(w.db, id, "", 0, now, true).db, id, true, retry)
    ensures Below(RequeueExternalRun(w.db, id, "", 0, now, true).db, next)
    ensures Enabled(w, RecoverTracked(id, now))
    ensures Apply(w.db, RecoverTracked(id, now), w.clock) == RequeueExternalRun(w.db, id, "", 0, now, true).db
  {
    hide TablesOk, Recovered, Below;
    ReleaseRecovers(w.db, RequeueExternalRun(w.db, id, "", 0, now, true).db, id, now, true, retry, next);
  }

  lemma CreatedBeforeNow(states: seq<World>, ops: seq<Op>, db: Db, clock: Time, next: nat, id: RunId)
    requires History(states, ops, db, clock, next) && id in db.runs
    ensures db.runs[id].createdAt <= clock && db.runs[id].id == id
  {
    HistoryFacts(states, ops, db, clock, next);
    hide Behaviour;
  }

  lemma ExpiredLater(db: Db, now: Time, id: RunId)
    requires id in ExpiredRuns(db, now)
    ensures forall later :: now <= later ==> id in ExpiredRuns(db, later)
  {
  }

  lemma ActiveLease(db: Db, id: RunId)
    requires TablesOk(db) && id in db.leases
    ensures id in db.runs && Active(db.runs[id].status)
  {
    LeaseFacts(db, id);
  }

  lemma RecoveredMeans(db: Db, schedules: ScheduleId -> Schedule, item: Run)
    requires item.id in db.runs && db.runs[item.id] == item
    ensures
      var retry := schedules(item.schedule).policy.retry;
      forall after {:trigger Recovered(db, after, item.id, Tracked(db, schedules, item), retry)} |
        Recovered(db, after, item.id, Tracked(db, schedules, item), retry) ::
        && item.id in after.runs
        && after.runs[item.id].status ==
           if item.status == Claimed || item.key in db.jobs || schedules(item.schedule).target.httpJob.Some? then
             Pending
           else if retry.strategy != RetryNone && item.attempt < retry.maxAttempts then Failed
           else DeadLettered
  {
    hide AddsFollowUp;
  }

  lemma ActiveMeans(s: RunStatus)
    ensures Active(s) ==> s == Claimed || s == Running
  {
  }

  lemma ObserveKnown(w: World, id: RunId)
    requires id in w.db.runs
    ensures Enabled(w, ReadRun(id)) && Apply(w.db, ReadRun(id), w.clock) == w.db
    ensures Read(w.db.runs[id], w.clock) in Step(w, ReadRun(id)).known
  {
  }

  lemma OrdinaryRecovery(w: World, read: Read, retry: RetryPolicy, at: Time, id: nat)
    requires read in w.known && read.at <= at <= w.clock && id !in w.ids && id !in w.deadIds
    ensures Enabled(w, RecoverOrdinary(read, retry, at, id, id))
    ensures Apply(w.db, RecoverOrdinary(read, retry, at, id, id), w.clock) == ExpiryTx(w.db, read.run, retry, at, id).db
  {
    hide FinishExternalRun, Outcome.Complete;
  }

  /** The leases of these runs are gone and their rows handled, every other row is as it was. */
  predicate AllHandled(db: Db, after: Db, done: set<RunId>, schedules: ScheduleId -> Schedule) {
    && after.leases == db.leases - done && after.jobs == db.jobs
    && (forall id | id in db.runs && id !in done :: id in after.runs && after.runs[id] == db.runs[id])
    && (forall id | id in done ::
          && id in db.runs && id in after.runs
          && RecoveredAs(db.runs[id], after.runs[id], Tracked(db, schedules, db.runs[id]),
               schedules(db.runs[id].schedule).policy.retry))
  }

  /** Each failure has its retry or its dead letter, and nothing else is new. */
  predicate AllFollowedUp(db: Db, after: Db, done: set<RunId>, schedules: ScheduleId -> Schedule) {
    && (forall id | id in done :: id in db.runs && FollowedUp(db, after, id, RetryFor(db, id, schedules)))
    && (forall d | d in db.dead :: d in after.dead && after.dead[d] == db.dead[d])
    && (forall again | again in after.runs && again !in db.runs ::
          exists id :: id in done && id in db.runs && id in after.runs
            && RetryOf(after.runs[id], after.runs[again], RetryFor(db, id, schedules)))
  }

  function RetryFor(db: Db, id: RunId, schedules: ScheduleId -> Schedule): RetryPolicy
    requires id in db.runs
  {
    schedules(db.runs[id].schedule).policy.retry
  }

  predicate AllRecovered(db: Db, after: Db, done: set<RunId>, schedules: ScheduleId -> Schedule) {
    AllHandled(db, after, done, schedules) && AllFollowedUp(db, after, done, schedules)
  }

  lemma OneMoreRecovered(db: Db, mid: Db, after: Db, done: set<RunId>, id: RunId, schedules: ScheduleId -> Schedule)
    requires AllRecovered(db, mid, done, schedules) && id !in done && id in db.runs && id in mid.runs
    requires Recovered(mid, after, id, Tracked(mid, schedules, mid.runs[id]),
             schedules(mid.runs[id].schedule).policy.retry)
    ensures AllRecovered(db, after, done + {id}, schedules)
  {
    hide AllHandled, AllFollowedUp, Handled, AddsFollowUp, Tracked;
    OneMoreHandled(db, mid, after, done, id, schedules);
    OneMoreFollowedUp(db, mid, after, done, id, schedules);
  }

  lemma OneMoreHandled(db: Db, mid: Db, after: Db, done: set<RunId>, id: RunId, schedules: ScheduleId -> Schedule)
    requires AllHandled(db, mid, done, schedules) && id !in done && id in db.runs && id in mid.runs
    requires Handled(mid, after, id, Tracked(mid, schedules, mid.runs[id]),
             schedules(mid.runs[id].schedule).policy.retry)
    ensures AllHandled(db, after, done + {id}, schedules) && mid.runs[id] == db.runs[id]
    ensures db.runs.Keys <= mid.runs.Keys
    ensures forall other | other in mid.runs && other != id ::
              other in after.runs && after.runs[other] == mid.runs[other]
    ensures id in after.runs
  {
    hide RecoveredAs, Tracked;
    assert db.leases - (done + {id}) == (db.leases - done) - {id};
    SameTracked(db, mid, schedules, id);
  }

  lemma OneMoreFollowedUp(db: Db, mid: Db, after: Db, done: set<RunId>, id: RunId, schedules: ScheduleId -> Schedule)
    requires AllFollowedUp(db, mid, done, schedules) && id !in done && id in db.runs && id in mid.runs
    requires mid.runs[id] == db.runs[id] && db.runs.Keys <= mid.runs.Keys && id in after.runs
    requires forall other | other in mid.runs && other != id ::
               other in after.runs && after.runs[other] == mid.runs[other]
    requires AddsFollowUp(mid, after, id, RetryFor(mid, id, schedules))
    ensures AllFollowedUp(db, after, done + {id}, schedules)
  {
    hide RetryOf, DeadLetterOf, FollowedUp, RetryFor;
    assert RetryFor(mid, id, schedules) == RetryFor(db, id, schedules) by { SameRetryFor(db, mid, id, schedules); }
    forall other | other in done + {id} ensures FollowedUp(db, after, other, RetryFor(db, other, schedules)) {
      if other == id {
        FollowedUpBefore(db, mid, after, id, RetryFor(db, id, schedules));
      } else {
        FollowUpStays(db, mid, after, other, id, RetryFor(db, other, schedules));
      }
    }
  }

  lemma SameRetryFor(db: Db, mid: Db, id: RunId, schedules: ScheduleId -> Schedule)
    requires id in db.runs && id in mid.runs && mid.runs[id] == db.runs[id]
    ensures RetryFor(mid, id, schedules) == RetryFor(db, id, schedules)
  {
  }

  lemma FollowedUpBefore(db: Db, mid: Db, after: Db, id: RunId, retry: RetryPolicy)
    requires db.runs.Keys <= mid.runs.Keys && db.dead.Keys <= mid.dead.Keys && FollowedUp(mid, after, id, retry)
    ensures FollowedUp(db, after, id, retry)
  {
    hide RetryOf, DeadLetterOf;
  }

  lemma FollowUpStays(db: Db, mid: Db, after: Db, id: RunId, moved: RunId, retry: RetryPolicy)
    requires FollowedUp(db, mid, id, retry) && id != moved && moved in db.runs
    requires forall other | other in mid.runs && other != moved ::
               other in after.runs && after.runs[other] == mid.runs[other]
    requires forall d | d in mid.dead :: d in after.dead && after.dead[d] == mid.dead[d]
    ensures FollowedUp(db, after, id, retry)
  {
    hide RetryOf, DeadLetterOf;
  }

  lemma SameTracked(db: Db, mid: Db, schedules: ScheduleId -> Schedule, id: RunId)
    requires mid.jobs == db.jobs && id in db.runs && id in mid.runs && mid.runs[id] == db.runs[id]
    ensures Tracked(mid, schedules, mid.runs[id]) == Tracked(db, schedules, db.runs[id])
  {
  }

  lemma StillExpired(db: Db, mid: Db, done: set<RunId>, id: RunId, schedules: ScheduleId -> Schedule, now: Time)
    requires AllRecovered(db, mid, done, schedules) && id in ExpiredRuns(db, now) && id !in done
    ensures id in ExpiredRuns(mid, now) && mid.runs[id] == db.runs[id]
  {
  }

  lemma NothingRecovered(db: Db, schedules: ScheduleId -> Schedule)
    ensures AllRecovered(db, db, {}, schedules)
  {
    assert db.leases - {} == db.leases;
  }

  lemma ExpiredPresent(db: Db, id: RunId, now: Time)
    requires id in ExpiredRuns(db, now)
    ensures id in db.runs && id in db.leases
  {
  }

  lemma ListedOnce(items: seq<Run>, i: nat, ids: set<RunId>, runs: map<RunId, Run>)
    requires Lists(items, ids, runs) && i < |items|
    ensures items[i].id in ids && items[i].id in runs && runs[items[i].id] == items[i]
    ensures items[i].id !in Ids(items[..i]) && Ids(items[..i + 1]) == Ids(items[..i]) + {items[i].id}
  {
    assert items[i] in items;
    assert items[..i + 1] == items[..i] + [items[i]];
    forall r | r in items[..i] ensures r.id != items[i].id {
      var j :| 0 <= j < i && items[j] == r;
    }
  }

  lemma NoIds(items: seq<Run>)
    ensures Ids(items[..0]) == {}
  {
  }

  lemma ListedIds(items: seq<Run>, ids: set<RunId>, runs: map<RunId, Run>)
    requires Lists(items, ids, runs)
    ensures Ids(items) == ids
  {
  }

  lemma LeasesAgree(db: Db)
    requires TablesOk(db)
    ensures Agreement(db.runs, db.leases)
  {
    hide Agreement;
  }

  lemma NoneLeft(db: Db, after: Db, schedules: ScheduleId -> Schedule, now: Time)
    requires AllRecovered(db, after, ExpiredRuns(db, now), schedules) && Agreement(db.runs, db.leases)
    ensures ExpiredRuns(after, now) == {}
  {
  }

  lemma UnsubmittedListed(db: Db, pending: seq<Run>, schedule: ScheduleId)
    requires Rows(db.runs) && Lists(pending, WaitingRuns(db, schedule), db.runs) && InDueOrder(pending)
    ensures Lists(WithoutJob(pending, db.jobs), Unsubmitted(db, schedule), db.runs)
            && InDueOrder(WithoutJob(pending, db.jobs))
  {
    WithoutJobLists(pending, WaitingRuns(db, schedule), db);
    assert Jobless(WaitingRuns(db, schedule), db) == Unsubmitted(db, schedule);
  }

  lemma AtMostOne(db: Db, items: seq<Run>, schedule: ScheduleId, keep: RunId)
    requires Lists(items, Unsubmitted(db, schedule), db.runs) && |items| <= 1
    requires items != [] ==> keep == items[0].id
    ensures Unsubmitted(db, schedule) <= {keep}
    ensures Unsubmitted(db, schedule) != {} ==> LatestUnsubmitted(db, schedule, keep)
  {
  }

  lemma QueueStep(w: World, schedule: ScheduleId, overlap: OverlapPolicy, keep: RunId, next: nat)
    requires LatestUnsubmitted(w.db, schedule, keep) && Below(w.db, next)
    ensures Enabled(w, EnforceQueue(schedule, overlap, keep))
    ensures Apply(w.db, EnforceQueue(schedule, overlap, keep), w.clock) == Coalesce(w.db, schedule, overlap, keep,
            w.clock)
    ensures Below(Coalesce(w.db, schedule, overlap, keep, w.clock), next)
  {
    hide LatestUnsubmitted, Unsubmitted, SkippedRow;
  }

  lemma LastIsLatest(db: Db, items: seq<Run>, schedule: ScheduleId)
    requires Lists(items, Unsubmitted(db, schedule), db.runs) && InDueOrder(items) && items != []
    ensures LatestUnsubmitted(db, schedule, items[|items| - 1].id)
    ensures Ids(items[..|items| - 1]) == Unsubmitted(db, schedule) - {items[|items| - 1].id}
    ensures Lists(items[..|items| - 1], Ids(items[..|items| - 1]), db.runs)
  {
    var n := |items| - 1;
    assert items[n] in items;
    FrontLists(items, Unsubmitted(db, schedule), db.runs);
    forall id | id in Unsubmitted(db, schedule) ensures NotAfter(db.runs[id], db.runs[items[n].id]) {
      var r :| r in items && r.id == id;
      var i :| 0 <= i < |items| && items[i] == r;
      assert i < n ==> NotAfter(items[i], items[n]);
    }
  }

  function UnresolvedJobs(db: Db, schedule: ScheduleId): set<Key> {
    set k | k in db.jobs && db.jobs[k].schedule == schedule && Unresolved(db.jobs[k].status)
  }

  /** The schedule's executions that run here. */
  function Executing(runs: map<RunId, Run>, schedule: ScheduleId, active: map<RunId, Token>): set<Token> {
    set id | id in runs && runs[id].schedule == schedule && runs[id].status in {Claimed, Running} && id in active ::
        active[id]
  }

  lemma OpenIffCounted(db: Db, schedule: ScheduleId)
    ensures RemoteOpen(db, schedule) == (|UnresolvedJobs(db, schedule)| != 0)
  {
    if k :| k in db.jobs && db.jobs[k].schedule == schedule && Unresolved(db.jobs[k].status) {
      assert k in UnresolvedJobs(db, schedule);
    }
  }

  /** Remote work of the schedule is open. */
  predicate RemoteOpen(db: Db, schedule: ScheduleId) {
    exists k :: k in db.jobs && db.jobs[k].schedule == schedule && db.jobs[k].status in {Submitting, Queued, JobRunning}
  }

  /** The queue is coalesced when the schedule is full, or busy under a policy that keeps only the latest. */
  predicate CoalescedUnlessIdle(db: Db, after: Db, schedule: ScheduleId, policy: Policy, key: Key, keep: RunId,
                                now: Time) {
    var count := ActiveOtherCount(db, schedule, key);
    if count >= policy.maxConcurrency || (count > 0 && (policy.overlap == OverlapQueueLatest
      || policy.overlap == OverlapReplace)) then
      && (Unsubmitted(db, schedule) != {} ==> LatestUnsubmitted(db, schedule, keep))
      && after == Coalesce(db, schedule, policy.overlap, keep, now)
    else after == db
  }

  /** Nothing is touched while the schedule is idle, or has room under allow, or is busy under forbid; else only the
      latest queued run stays. */
  ghost predicate Prepared(db: Db, after: Db, schedule: ScheduleId, policy: Policy, key: Key, keep: RunId, now: Time) {
    var others := |ActiveOccurrences(db, schedule) - {key}|;
    if others < policy.maxConcurrency && (others == 0 || policy.overlap in {OverlapAllow, OverlapForbid})
    then after == db
    else KeepsLatest(db, after, schedule, policy.overlap, keep, now)
  }

  /** The executions a replacement cancels: those of the schedule that run here, when there is room beside the other
      active occurrences and no remote work is open. */
  function Replaced(db: Db, schedule: ScheduleId, policy: Policy, key: Key, active: map<RunId, Token>): set<Token> {
    var others := |ActiveOccurrences(db, schedule) - {key}|;
    if policy.overlap == OverlapReplace && 0 < others < policy.maxConcurrency && !RemoteOpen(db, schedule)
    then Executing(db.runs, schedule, active) else {}
  }

  /** What the count decides. */
  lemma Counted(db: Db, schedule: ScheduleId, policy: Policy, key: Key, active: map<RunId, Token>)
    ensures
      var count := ActiveOtherCount(db, schedule, key);
      && RoomFor(policy, |ActiveOccurrences(db, schedule) - {key}|)
         == (count < policy.maxConcurrency && (count == 0 || policy.overlap == OverlapAllow))
      && Replaced(db, schedule, policy, key, active)
         == if policy.overlap == OverlapReplace && 0 < count < policy.maxConcurrency
               && |UnresolvedJobs(db, schedule)| == 0
            then Executing(db.runs, schedule, active) else {}
  {
    OpenIffCounted(db, schedule);
    hide ActiveOccurrences, UnresolvedJobs, RemoteOpen, Executing;
  }

  lemma LeftAlone(db: Db, schedule: ScheduleId, policy: Policy, key: Key, keep: RunId, now: Time)
    requires ActiveOtherCount(db, schedule, key) < policy.maxConcurrency
    requires ActiveOtherCount(db, schedule, key) == 0 || policy.overlap in {OverlapAllow, OverlapForbid}
    ensures CoalescedUnlessIdle(db, db, schedule, policy, key, keep, now)
    ensures Prepared(db, db, schedule, policy, key, keep, now)
  {
    hide ActiveOccurrences, Coalesce, LatestUnsubmitted, Unsubmitted, KeepsLatest;
  }

  lemma Coalesced(db: Db, after: Db, schedule: ScheduleId, policy: Policy, key: Key, keep: RunId, now: Time)
    requires ActiveOtherCount(db, schedule, key) >= policy.maxConcurrency
             || (ActiveOtherCount(db, schedule, key) > 0 && policy.overlap in {OverlapQueueLatest, OverlapReplace})
    requires Unsubmitted(db, schedule) != {} ==> LatestUnsubmitted(db, schedule, keep)
    requires after == Coalesce(db, schedule, policy.overlap, keep, now)
    requires KeepsLatest(db, after, schedule, policy.overlap, keep, now)
    ensures CoalescedUnlessIdle(db, after, schedule, policy, key, keep, now)
    ensures Prepared(db, after, schedule, policy, key, keep, now)
  {
    hide ActiveOccurrences, Coalesce, LatestUnsubmitted, Unsubmitted, KeepsLatest;
  }

  /** What a claim leaves behind: with success a lease under the launch's token, else nothing. */
  predicate ClaimedUnder(db: Db, after: Db, schedule: ScheduleId, policy: Policy, worker: WorkerId, ttl: int, l: Launch,
                         claimed: bool) {
    && after == ClaimRun(db, schedule, policy, l.run, worker, l.at, ttl, l.token).db
    && claimed == ClaimRun(db, schedule, policy, l.run, worker, l.at, ttl, l.token).claimed
  }

  lemma ClaimStep(w: World, op: Op)
    requires op.Claim? && op.token !in w.issued && op.now <= w.clock
    ensures Enabled(w, op)
    ensures Apply(w.db, op, w.clock) == ClaimRun(w.db, op.schedule, op.policy, op.id, op.worker, op.now, op.ttl,
            op.token).db
    ensures Below(w.db, op.token) ==> Below(Apply(w.db, op, w.clock), op.token + 1)
  {
    hide SameOccurrenceActive, PolicyAdmits;
  }

  /** Each launched execution holds the lease of its claimed run. */
  predicate Held(db: Db, launched: seq<Launch>, worker: WorkerId, ttl: int) {
    forall l | l in launched ::
      && l.run in db.leases && db.leases[l.run] == Lease(l.token, worker, l.at, l.at + ttl, l.at)
      && l.run in db.runs && db.runs[l.run].status == Claimed && db.runs[l.run].owner == Some(worker)
  }

  lemma RowsOf(db: Db)
    requires TablesOk(db)
    ensures Rows(db.runs)
  {
  }

  lemma NoneHeld(db: Db, worker: WorkerId, ttl: int)
    ensures Held(db, [], worker, ttl)
  {
  }

  lemma PreparingKeepsHeld(db: Db, after: Db, schedule: ScheduleId, policy: Policy, key: Key, keep: RunId, now: Time,
                           launched: seq<Launch>, worker: WorkerId, ttl: int)
    requires Held(db, launched, worker, ttl) && CoalescedUnlessIdle(db, after, schedule, policy, key, keep, now)
    ensures Held(after, launched, worker, ttl)
  {
    hide ActiveOccurrences, LatestUnsubmitted, SkippedRow;
  }

  lemma ClaimingKeepsHeld(db: Db, after: Db, schedule: ScheduleId, policy: Policy, launched: seq<Launch>, l: Launch,
                          worker: WorkerId, ttl: int, claimed: bool)
    requires Held(db, launched, worker, ttl) && ClaimedUnder(db, after, schedule, policy, worker, ttl, l, claimed)
    ensures if claimed then Held(after, launched + [l], worker, ttl)
            && (forall other | other in launched :: other.run != l.run)
            else Held(after, launched, worker, ttl)
  {
    hide SameOccurrenceActive, PolicyAdmits;
  }

  // ---------------------------------------------------------------- progress of a pass

  /** A claim of this run would succeed now: it waits, nobody works on its occurrence, and there is room beside the
      other active occurrences of its schedule. */
  predicate Startable(db: Db, schedules: ScheduleId -> Schedule, id: RunId) {
    && id in db.runs && db.runs[id].status in {Pending, RetryScheduled} && Alone(db, id)
    && RoomFor(schedules(db.runs[id].schedule).policy,
               |ActiveOccurrences(db, db.runs[id].schedule) - {db.runs[id].key}|)
  }

  /** Without recovery in between, active work stays active and what has left the queue stays out of it. */
  predicate Presses(db: Db, after: Db) {
    && after.jobs == db.jobs
    && (forall id | id in db.runs ::
          && id in after.runs && after.runs[id].schedule == db.runs[id].schedule
          && after.runs[id].key == db.runs[id].key
          && (Active(db.runs[id].status) ==> Active(after.runs[id].status))
          && (!Waiting(db.runs[id].status) ==> !Waiting(after.runs[id].status)))
  }

  lemma PressesNothing(db: Db)
    ensures Presses(db, db)
  {
  }

  lemma PressesOn(db: Db, mid: Db, after: Db)
    requires Presses(db, mid) && Presses(mid, after)
    ensures Presses(db, after)
  {
  }

  lemma ActiveStays(db: Db, after: Db, schedule: ScheduleId)
    requires Presses(db, after)
    ensures ActiveOccurrences(db, schedule) <= ActiveOccurrences(after, schedule)
  {
  }

  lemma StaysBlocked(db: Db, after: Db, schedules: ScheduleId -> Schedule, id: RunId)
    requires Presses(db, after) && id in db.runs && !Startable(db, schedules, id)
    ensures !Startable(after, schedules, id)
  {
    var run := db.runs[id];
    ActiveStays(db, after, run.schedule);
    hide ActiveOccurrences;
    SubsetCardinality(ActiveOccurrences(db, run.schedule) - {run.key},
      ActiveOccurrences(after, run.schedule) - {run.key});
  }

  lemma NotAdmitted(db: Db, schedules: ScheduleId -> Schedule, id: RunId)
    requires id in db.runs
    requires !RoomFor(schedules(db.runs[id].schedule).policy,
                      |ActiveOccurrences(db, db.runs[id].schedule) - {db.runs[id].key}|)
    ensures !Startable(db, schedules, id)
  {
  }

  lemma PreparingPresses(db: Db, after: Db, schedule: ScheduleId, policy: Policy, key: Key, keep: RunId, now: Time)
    requires CoalescedUnlessIdle(db, after, schedule, policy, key, keep, now)
    ensures Presses(db, after)
    ensures RoomFor(policy, |ActiveOccurrences(db, schedule) - {key}|) ==> after == db
  {
    hide ActiveOccurrences, LatestUnsubmitted;
  }

  lemma ClaimingPresses(db: Db, after: Db, schedules: ScheduleId -> Schedule, schedule: ScheduleId, l: Launch,
                        worker: WorkerId, ttl: int, claimed: bool)
    requires ClaimedUnder(db, after, schedule, schedules(schedule).policy, worker, ttl, l, claimed)
    requires l.run in db.runs && db.runs[l.run].schedule == schedule
    ensures Presses(db, after) && !Startable(after, schedules, l.run)
  {
    hide ActiveOccurrences;
    ClaimGrantedIff(db, schedule, schedules(schedule).policy, l.run, worker, l.at, ttl, l.token);
  }

  /** The earliest runnable runs, at most `limit`, none passed over: pending ones that are due, retries whose time has
      come. */
  ghost predicate Earliest(items: seq<Run>, db: Db, now: Time, limit: nat) {
    && Lists(items, Ids(items), db.runs) && |items| <= limit
    && (forall r | r in items :: Runnable(r, now))
    && (forall id | id in db.runs && Runnable(db.runs[id], now) && db.runs[id] !in items ::
          && |items| == limit
          && forall r | r in items ::
               r.due < db.runs[id].due || (r.due == db.runs[id].due && r.createdAt <= db.runs[id].createdAt))
  }

  lemma ListedEarliest(items: seq<Run>, db: Db, now: Time)
    requires Lists(items, Ids(items), db.runs) && |items| <= 64
    requires forall r | r in items ::
               || (r.status == Pending && r.due <= now)
               || (r.status == RetryScheduled && r.retryAt.Some? && r.retryAt.value <= now)
    requires forall id | id in db.runs && db.runs[id] !in items
                         && (|| (db.runs[id].status == Pending && db.runs[id].due <= now)
                             || (db.runs[id].status == RetryScheduled && db.runs[id].retryAt.Some?
                                 && db.runs[id].retryAt.value <= now)) ::
               && |items| == 64
               && forall r | r in items ::
                    r.due < db.runs[id].due || (r.due == db.runs[id].due && r.createdAt <= db.runs[id].createdAt)
    ensures Earliest(items, db, now, 64)
  {
  }

  lemma ListedStays(items: seq<Run>, i: nat, db: Db, after: Db)
    requires i < |items| && Lists(items, Ids(items), db.runs) && Presses(db, after)
    ensures items[i].id in after.runs && after.runs[items[i].id].schedule == items[i].schedule
            && after.runs[items[i].id].key == items[i].key
    ensures items[i].id in db.runs && db.runs[items[i].id] == items[i]
  {
    assert items[i] in items;
  }

  /** The backoff behind the attempt before this one is over. */
  predicate WaitedOut(db: Db, schedules: ScheduleId -> Schedule, id: RunId, now: Time) {
    id in db.runs
    && forall a | a in db.runs && db.runs[a].key == db.runs[id].key && db.runs[a].attempt + 1 == db.runs[id].attempt ::
         && db.runs[a].finishedAt.Some?
         && now >= db.runs[a].finishedAt.value
                   + BackoffSeconds(schedules(db.runs[a].schedule).policy.retry, db.runs[a].attempt) * SECOND
  }

  lemma RunnableWaitedOut(states: seq<World>, ops: seq<Op>, db: Db, clock: Time, next: nat,
                          schedules: ScheduleId -> Schedule, id: RunId, now: Time)
    requires id in db.runs && Runnable(db.runs[id], now) && FixedPolicy(ops, Policies(schedules))
    requires History(states, ops, db, clock, next)
    ensures WaitedOut(db, schedules, id, now)
  {
    hide Behaviour, FixedPolicy, IdsBelow, BackoffSeconds, Runnable;
    forall a | a in db.runs && db.runs[a].key == db.runs[id].key && db.runs[a].attempt + 1 == db.runs[id].attempt
      ensures db.runs[a].finishedAt.Some?
              && now >= db.runs[a].finishedAt.value
                        + BackoffSeconds(schedules(db.runs[a].schedule).policy.retry, db.runs[a].attempt) * SECOND
    {
      RetryWaitsForBackoff(states, ops, Policies(schedules), |ops|, a, id, now);
    }
  }

  lemma ConsideredWaitedOut(states: seq<World>, ops: seq<Op>, db: Db, clock: Time, next: nat,
                            schedules: ScheduleId -> Schedule, considered: seq<Run>, now: Time)
    requires Earliest(considered, db, now, 64)
    requires History(states, ops, db, clock, next)
    ensures forall r | r in considered :: r.id in db.runs && db.runs[r.id] == r && Runnable(r, now)
    ensures FixedPolicy(ops, Policies(schedules)) ==>
              forall r | r in considered :: WaitedOut(db, schedules, r.id, now)
  {
    hide History, FixedPolicy, WaitedOut, Runnable;
    if FixedPolicy(ops, Policies(schedules)) {
      forall r | r in considered ensures WaitedOut(db, schedules, r.id, now) {
        RunnableWaitedOut(states, ops, db, clock, next, schedules, r.id, now);
      }
    }
  }

  /** A launch is of a run that was considered, was runnable at the start of the pass, and has waited out its backoff if
      the policies have not changed. */
  predicate LaunchedInTime(l: Launch, considered: seq<Run>, recovered: Db, schedules: ScheduleId -> Schedule, now: Time,
                           stable: bool) {
    && l.run in recovered.runs && recovered.runs[l.run] in considered && Runnable(recovered.runs[l.run], now)
    && (stable ==> WaitedOut(recovered, schedules, l.run, now))
  }

  predicate AllInTime(launched: seq<Launch>, considered: seq<Run>, recovered: Db, schedules: ScheduleId -> Schedule,
                      now: Time, stable: bool) {
    forall l | l in launched :: LaunchedInTime(l, considered, recovered, schedules, now, stable)
  }

  /** Launches of different runs under new tokens, drawn one after the other. */
  predicate Issued(launched: seq<Launch>, low: nat, high: nat) {
    && (forall l | l in launched :: low <= l.token < high)
    && (forall i, j | 0 <= i < j < |launched| ::
          launched[i].token < launched[j].token && launched[i].run != launched[j].run)
  }

  /** Each of these runs has been started, has left the queue, or cannot be started now. */
  predicate NoneStartable(db: Db, schedules: ScheduleId -> Schedule, items: seq<Run>) {
    forall r | r in items :: !Startable(db, schedules, r.id)
  }

  lemma NoneLaunched(candidates: seq<Run>, db: Db, schedules: ScheduleId -> Schedule, now: Time, stable: bool, low: nat)
    ensures AllInTime([], candidates, db, schedules, now, stable) && Issued([], low, low)
    ensures NoneStartable(db, schedules, candidates[..0])
  {
  }

  lemma MoreIssued(launched: seq<Launch>, low: nat, high: nat, higher: nat)
    requires Issued(launched, low, high) && high <= higher
    ensures Issued(launched, low, higher)
  {
  }

  lemma IssuedEarlier(launched: seq<Launch>, lower: nat, low: nat, high: nat)
    requires Issued(launched, low, high) && lower <= low
    ensures Issued(launched, lower, high)
  {
  }

  lemma OneMoreIssued(launched: seq<Launch>, l: Launch, low: nat, from: nat, high: nat)
    requires Issued(launched, low, from) && low <= from <= l.token < high
    requires forall other | other in launched :: other.run != l.run
    ensures Issued(launched + [l], low, high)
  {
    assert forall i | 0 <= i < |launched| :: launched[i] in launched;
  }

  lemma OneMoreInTime(launched: seq<Launch>, l: Launch, run: Run, considered: seq<Run>, recovered: Db,
                      schedules: ScheduleId -> Schedule, now: Time, stable: bool)
    requires AllInTime(launched, considered, recovered, schedules, now, stable)
    requires run in considered && l.run == run.id && run.id in recovered.runs && recovered.runs[run.id] == run
    requires Runnable(run, now) && (stable ==> WaitedOut(recovered, schedules, run.id, now))
    ensures AllInTime(launched + [l], considered, recovered, schedules, now, stable)
  {
    hide Runnable, WaitedOut;
  }

  lemma OneMoreBlocked(items: seq<Run>, i: nat, db: Db, before: Db, after: Db, schedules: ScheduleId -> Schedule)
    requires i < |items| && Lists(items, Ids(items), db.runs) && Presses(db, before) && Presses(before, after)
    requires NoneStartable(before, schedules, items[..i]) && !Startable(after, schedules, items[i].id)
    ensures NoneStartable(after, schedules, items[..i + 1])
  {
    hide Startable, Presses, Lists;
    assert items[..i + 1] == items[..i] + [items[i]];
    forall r | r in items[..i] ensures !Startable(after, schedules, r.id) {
      var j :| 0 <= j < i && items[j] == r;
      ListedStays(items, j, db, before);
      StaysBlocked(before, after, schedules, r.id);
    }
  }

  lemma KeepsMeans(before: seq<Op>, after: seq<Op>, schedules: ScheduleId -> Schedule)
    requires Keeps(before, after, schedules)
    ensures FixedPolicy(before, Policies(schedules)) ==> FixedPolicy(after, Policies(schedules))
  {
    hide FixedPolicy;
  }

  lemma BoundedNow(states: seq<World>, ops: seq<Op>, db: Db, clock: Time, next: nat, schedules: ScheduleId -> Schedule)
    requires History(states, ops, db, clock, next) && FixedPolicy(ops, Policies(schedules))
    ensures forall s | schedules(s).policy.maxConcurrency >= 1 :: WithinPolicy(db, s, schedules(s).policy)
  {
    hide Behaviour, FixedPolicy, IdsBelow, ActiveOccurrences;
    forall s | schedules(s).policy.maxConcurrency >= 1 ensures WithinPolicy(db, s, schedules(s).policy) {
      ConcurrencyBounded(states, ops, Policies(schedules), s, |ops|);
    }
  }

  class Dispatcher {
    const store: Store.Store
    const worker: WorkerId
    const leaseTTL: int
    var clock: Time
    var next: nat                    // ids and tokens are drawn in increasing order, as ULIDs are
    var active: map<RunId, Token>    // running executions, entered by each under its own execution token
    var cancelled: set<Token>
    ghost var states: seq<World>
    ghost var ops: seq<Op>

    ghost predicate Valid()
      reads this`clock, this`next, this`states, this`ops, store
    {
      History(states, ops, store.Db(), clock, next)
    }

    constructor (store: Store.Store, worker: WorkerId, leaseTTL: int, clock: Time)
      requires store.Db() == EmptyDb(store.enabled)
      ensures Valid() && this.store == store && this.worker == worker && this.leaseTTL == leaseTTL
              && this.clock == clock
    {
      this.store, this.worker, this.leaseTTL, this.clock := store, worker, leaseTTL, clock;
      next, active, cancelled := 0, map[], {};
      states, ops := [World.World(store.Db(), clock, {}, map[], {}, {}, {})], [];
    }

    lemma Facts()
      requires Valid()
      ensures |states| == |ops| + 1 && History(states, ops, store.Db(), clock, next)
      ensures states[|ops|].db == store.Db() && states[|ops|].clock == clock
      ensures TablesOk(store.Db()) && Below(store.Db(), next)
      ensures next !in states[|ops|].ids && next !in states[|ops|].deadIds && next !in states[|ops|].issued
      ensures store.Db().runs == store.runs && store.Db().leases == store.leases && store.Db().jobs == store.jobs
    {
      HistoryFacts(states, ops, store.Db(), clock, next);
      HistoryBelow(states, ops, store.Db(), clock, next);
      hide Behaviour, IdsBelow, TablesOk, HistoryOk, Below;
    }

    lemma StoreIs()
      ensures store.Db().runs == store.runs && store.Db().jobs == store.jobs
    {
    }

    /** Adds the step just taken to the history. */
    ghost method Record(op: Op, was: Db, at: Time, had: nat)
      requires |states| == |ops| + 1 && had <= next && Enabled(states[|ops|], op) && History(states, ops, was, at, had)
      requires store.Db() == Apply(was, op, at) && clock == (if op.Advance? then op.to else at)
      requires Below(store.Db(), next)
      modifies this`states, this`ops
      ensures Valid() && ops == old(ops) + [op] && states == old(states) + [Step(old(states[|ops|]), op)]
    {
      hide Apply, Behaviour, Enabled, IdsBelow, TablesOk;
      HistoryFacts(states, ops, was, at, had);
      IdsStayBelow(states[|ops|], op, had, next);
      HistoryGrows(states, ops, was, at, had, op, next);
      states, ops := states + [Step(states[|ops|], op)], ops + [op];
    }

    method Now() returns (now: Time)
      requires Valid()
      modifies this`clock, this`states, this`ops
      ensures Valid() && old(ops) <= ops && old(clock) <= now == clock
      ensures FollowsAny(old(ops), ops)
      ensures old(states[|ops|].known) <= states[|ops|].known
    {
      HistoryBelow(states, ops, store.Db(), clock, next);
      assert clock <= clock;
      now :| clock <= now;
      clock := now;
      hide Behaviour, FollowsAny, IdsBelow, TablesOk, HistoryOk;
      StepFollowsAny(ops, Advance(now));
      Record(Advance(now), store.Db(), old(clock), next);
    }

    /** An execution that ends after its run was started again leaves the newer registration in place. */
    method UnregisterCancel(id: RunId, execution: Token)
      modifies this`active
      ensures forall other | other in old(active) :: other in active <==> other != id || old(active)[id] != execution
      ensures forall other | other in active :: other in old(active) && active[other] == old(active)[other]
    {
      if id in active && active[id] == execution {
        active := active - {id};
      }
    }

    method CancelRun(id: RunId)
      modifies this`cancelled
      ensures cancelled == old(cancelled) + (if id in active then {active[id]} else {})
    {
      if id in active {
        cancelled := cancelled + {active[id]};
      }
    }

    // -------------------------------------------------------------- recovery

    /** One expired lease: an unstarted claim and a tracked remote job wait again, other work has failed. */
    method RecoverLease(schedules: ScheduleId -> Schedule, item: Run, now: Time) returns (err: Option<Error>)
      requires item.id in store.runs && store.runs[item.id] == item && now <= clock
      requires Valid() && item.id in ExpiredRuns(store.Db(), now)
      modifies this, store
      ensures Valid() && old(ops) <= ops && old(clock) <= clock && old(next) <= next && err.None?
      ensures Keeps(old(ops), ops, schedules)
      ensures Recovered(old(store.Db()), store.Db(), item.id, Tracked(old(store.Db()), schedules, item),
              schedules(item.schedule).policy.retry)
      ensures
        var retry := schedules(item.schedule).policy.retry;
        && item.id in store.runs
        && store.runs[item.id].status ==
           if item.status == Claimed || item.key in old(store.jobs) || schedules(item.schedule).target.httpJob.Some?
           then Pending
           else if retry.strategy != RetryNone && item.attempt < retry.maxAttempts then Failed
           else DeadLettered
      ensures active == old(active)
      ensures cancelled
              == old(cancelled) + if item.status == Running && item.id in active then {active[item.id]} else {}
    {
      hide *;
      Facts();
      ghost var db := store.Db();
      ExpiredPresent(db, item.id, now);
      ActiveLease(db, item.id);
      ActiveMeans(item.status);
      ExpiredLater(db, now, item.id);
      err := None;
      ghost var had := ops;
      RecoveredMeans(db, schedules, item);
      if item.status == Claimed {
        err := ResetClaim(item.id, now, schedules(item.schedule).policy.retry, Tracked(db, schedules, item));
      } else if Tracked(store.Db(), schedules, item) {
        err := RequeueTracked(item.id, now, schedules(item.schedule).policy.retry);
        CancelRun(item.id);
      } else {
        err := FailExpired(schedules(item.schedule).policy.retry, item);
        CancelRun(item.id);
      }
      FollowsKeeps(had, had, ops, schedules);
      StoreIs();
    }

    method ResetClaim(id: RunId, now: Time, ghost retry: RetryPolicy, ghost tracked: bool) returns (err: Option<Error>)
      requires id in store.runs && store.runs[id].status == Claimed && now <= clock
      requires Valid() && id in ExpiredRuns(store.Db(), now)
      modifies this`states, this`ops, store
      ensures Valid() && old(ops) <= ops && err.None?
      ensures FollowsAny(old(ops), ops)
      ensures Recovered(old(store.Db()), store.Db(), id, tracked, retry)
    {
      hide *;
      Facts();
      ghost var db := store.Db();
      ResetRecovers(states[|ops|], id, now, tracked, retry, next);
      err := store.ResetClaimedRun(id, now);
      StepFollowsAny(ops, RecoverClaimed(id, now));
      Record(RecoverClaimed(id, now), db, clock, next);
    }

    method RequeueTracked(id: RunId, now: Time, ghost retry: RetryPolicy) returns (err: Option<Error>)
      requires id in store.runs && store.runs[id].status == Running && now <= clock
      requires Valid() && id in ExpiredRuns(store.Db(), now)
      modifies this`states, this`ops, store
      ensures Valid() && old(ops) <= ops && err.None?
      ensures FollowsAny(old(ops), ops)
      ensures Recovered(old(store.Db()), store.Db(), id, true, retry)
    {
      hide *;
      Facts();
      ghost var db := store.Db();
      RequeueRecovers(states[|ops|], id, now, retry, next);
      err := store.RequeueExternalRun(id, "", 0, now, true);
      StepFollowsAny(ops, RecoverTracked(id, now));
      Record(RecoverTracked(id, now), db, clock, next);
    }

    method FailExpired(retry: RetryPolicy, item: Run) returns (err: Option<Error>)
      requires item.id in store.runs && store.runs[item.id] == item && item.status == Running
      requires Valid() && item.id in ExpiredRuns(store.Db(), clock)
      modifies this, store
      ensures Valid() && old(ops) <= ops && old(clock) <= clock && old(next) <= next && err.None?
              && active == old(active) && cancelled == old(cancelled)
      ensures forall policy: Policy | policy.retry == retry :: Follows(old(ops), ops, item.schedule, policy)
      ensures Recovered(old(store.Db()), store.Db(), item.id, false, retry)
    {
      hide *;
      Facts();
      ghost var db := store.Db();
      CreatedBeforeNow(states, ops, db, clock, next, item.id);
      ExpiredLater(db, clock, item.id);
      ghost var had := ops;
      ghost var read := Observe(item.id);
      ghost var mid := ops;
      var finishedAt := Now();
      FollowOn(had, mid, ops);
      mid := ops;
      Facts();
      err := FinishExpired(retry, item, finishedAt, read);
      FollowOn(had, mid, ops);
    }

    /** A row read now, to be acted on later. */
    ghost method Observe(id: RunId) returns (read: Read)
      requires Valid() && id in store.runs
      modifies this`states, this`ops
      ensures Valid() && old(ops) <= ops && |states| == |ops| + 1
      ensures FollowsAny(old(ops), ops)
      ensures read == Read(store.runs[id], clock) && read in states[|ops|].known
    {
      HistoryBelow(states, ops, store.Db(), clock, next);
      ObserveKnown(states[|ops|], id);
      read := Read(store.runs[id], clock);
      hide FollowsAny, TablesOk, Below, Behaviour, IdsBelow, Enabled, Apply, Step;
      StepFollowsAny(ops, ReadRun(id));
      Record(ReadRun(id), store.Db(), clock, next);
    }

    method FinishExpired(retry: RetryPolicy, item: Run, finishedAt: Time, ghost read: Read) returns (err: Option<Error>)
      requires |states| == |ops| + 1 && item.id in store.runs && store.runs[item.id] == item && item.status == Running
      requires item.createdAt <= read.at <= finishedAt == clock && read.run == item && read in states[|ops|].known
      requires Valid() && item.id in ExpiredRuns(store.Db(), finishedAt)
      modifies this`states, this`ops, this`next, store
      ensures Valid() && old(ops) <= ops && old(next) <= next && err.None?
      ensures forall policy: Policy | policy.retry == retry :: Follows(old(ops), ops, item.schedule, policy)
      ensures Recovered(old(store.Db()), store.Db(), item.id, false, retry)
    {
      hide *;
      Facts();
      ghost var db := store.Db();
      ghost var op := RecoverOrdinary(read, retry, finishedAt, next, next);
      assert Enabled(states[|ops|], op) && Tx(Apply(db, op, clock), None) == ExpiryTx(db, item, retry, finishedAt,
        next) by {
        OrdinaryRecovery(states[|ops|], read, retry, finishedAt, next);
        FailureRecovers(db, item, retry, finishedAt, next);
      }
      assert Handled(db, Apply(db, op, clock), item.id, false, retry) && Below(Apply(db, op, clock), next + 1) by {
        FailureRecovers(db, item, retry, finishedAt, next);
      }
      err := FinishFailure(item, retry, finishedAt, next);
      next := next + 1;
      forall policy: Policy | policy.retry == retry ensures Follows(ops, ops + [op], item.schedule, policy) {
        StepFollows(ops, op, item.schedule, policy);
      }
      Record(op, db, clock, next - 1);
      Facts();
      LastExpiry(states, ops, store.Db(), clock, next, db, item, retry);
    }

    method FinishFailure(item: Run, retry: RetryPolicy, at: Time, id: nat) returns (err: Option<Error>)
      modifies store
      ensures Tx(store.Db(), err) == ExpiryTx(old(store.Db()), item, retry, at, id)
    {
      var done := Outcome.Complete(item, retry, EXPIRED_RESULT, at, at, id);
      hide FinishExternalRun, Outcome.Complete;
      err := store.FinishExternalRun(done.run, "", 0, done.retry, id, done.dead, at, true);
    }

    /** With no other actor in between, no lease that had run out by `now` remains, and nothing else has changed. */
    method RecoverExpiredLeases(schedules: ScheduleId -> Schedule, now: Time) returns (err: Option<Error>)
      requires Valid() && now <= clock
      modifies this, store
      ensures Valid() && old(ops) <= ops && old(clock) <= clock && old(next) <= next && err.None?
      ensures Keeps(old(ops), ops, schedules)
      ensures ExpiredRuns(store.Db(), now) == {}
      ensures AllRecovered(old(store.Db()), store.Db(), ExpiredRuns(old(store.Db()), now), schedules)
    {
      hide *;
      Facts();
      ghost var db := store.Db();
      ghost var all := ExpiredRuns(db, now);
      RowsOf(db);
      var expired := store.ListExpiredLeases(now);
      NoIds(expired);
      assert AllRecovered(db, db, {}, schedules) by { NothingRecovered(db, schedules); }
      err := None;
      ghost var had := ops;
      FollowOn(had, had, had);
      FollowsKeeps(had, had, had, schedules);
      for i := 0 to |expired|
        invariant Valid() && old(ops) <= ops && now <= clock && old(clock) <= clock && old(next) <= next && err.None?
        invariant Keeps(had, ops, schedules)
        invariant AllRecovered(db, store.Db(), Ids(expired[..i]), schedules)
      {
        var item := expired[i];
        ListedOnce(expired, i, all, db.runs);
        StillExpired(db, store.Db(), Ids(expired[..i]), item.id, schedules, now);
        ghost var mid := store.Db();
        ghost var so := ops;
        StoreIs();
        ExpiredPresent(mid, item.id, now);
        err := RecoverLease(schedules, item, now);
        FollowsKeeps(had, so, ops, schedules);
        OneMoreRecovered(db, mid, store.Db(), Ids(expired[..i]), item.id, schedules);
      }
      assert expired[..|expired|] == expired;
      ListedIds(expired, all, db.runs);
      LeasesAgree(db);
      NoneLeft(db, store.Db(), schedules, now);
    }

    // -------------------------------------------------------------- queue coalescing

    method SkipRuns(items: seq<Run>, overlap: OverlapPolicy, now: Time)
      requires Lists(items, Ids(items), store.runs) && Rows(store.runs)
      modifies store
      ensures store.Db() == SkipAll(old(store.Db()), Ids(items), overlap, now)
    {
      ghost var db := store.Db();
      SkipNone(db, overlap, now);
      hide SkipAll, SkippedRow, FinishRun;
      for i := 0 to |items|
        invariant store.Db() == SkipAll(db, Ids(items[..i]), overlap, now)
      {
        ListedOnce(items, i, Ids(items), db.runs);
        SkipOne(db, Ids(items[..i]), items[i].id, overlap, now);
        store.FinishRun(SkippedRow(items[i], overlap, now));
      }
      assert items[..|items|] == items;
    }

    method SkipQueued(unsubmitted: seq<Run>, schedule: ScheduleId, overlap: OverlapPolicy, now: Time)
      requires |unsubmitted| > 0 && now == clock
      requires Lists(unsubmitted, Unsubmitted(store.Db(), schedule), store.runs) && InDueOrder(unsubmitted)
      requires Valid()
      modifies this`states, this`ops, store
      ensures Valid() && old(ops) <= ops
      ensures FollowsAny(old(ops), ops)
      ensures LatestUnsubmitted(old(store.Db()), schedule, unsubmitted[|unsubmitted| - 1].id)
      ensures store.Db() == Coalesce(old(store.Db()), schedule, overlap, unsubmitted[|unsubmitted| - 1].id, now)
    {
      hide FollowsAny, Behaviour, IdsBelow, Below, LatestUnsubmitted;
      Facts();
      ghost var db := store.Db();
      var last := |unsubmitted| - 1;
      LastIsLatest(db, unsubmitted, schedule);
      ghost var keep := unsubmitted[last].id;
      hide TablesOk, History, SkipAll, SkippedRow, Unsubmitted, Apply, Enabled;
      SkipRuns(unsubmitted[..last], overlap, now);
      QueueStep(states[|ops|], schedule, overlap, keep, next);
      StepFollowsAny(ops, EnforceQueue(schedule, overlap, keep));
      Record(EnforceQueue(schedule, overlap, keep), db, now, next);
    }

    /** Skips every unsubmitted waiting run of the schedule but the latest by due time, as one step. */
    method EnforceQueuePolicy(schedule: ScheduleId, overlap: OverlapPolicy) returns (ghost keep: RunId)
      requires Valid()
      modifies this`clock, this`states, this`ops, store
      ensures Valid() && old(ops) <= ops && old(clock) <= clock
      ensures FollowsAny(old(ops), ops)
      ensures Unsubmitted(old(store.Db()), schedule) != {} ==> LatestUnsubmitted(old(store.Db()), schedule, keep)
      ensures store.Db() == Coalesce(old(store.Db()), schedule, overlap, keep, clock)
      ensures KeepsLatest(old(store.Db()), store.Db(), schedule, overlap, keep, clock)
    {
      hide *;
      Facts();
      RowsOf(store.Db());
      ghost var db := store.Db();
      ghost var had := ops;
      FollowOn(had, ops, ops);
      var pending := store.ListPendingRunsBySchedule(schedule);
      NoneWithoutJob(db.jobs);
      var unsubmitted: seq<Run> := [];
      for i := 0 to |pending|
        invariant unsubmitted == WithoutJob(pending[..i], db.jobs)
        invariant Valid() && store.Db() == db && ops == had && clock == old(clock)
      {
        StoreIs();
        OneMoreWithoutJob(pending, i, db.jobs);
        if pending[i].key !in store.jobs {
          unsubmitted := unsubmitted + [pending[i]];
        }
      }
      assert pending[..|pending|] == pending;
      StoreIs();
      UnsubmittedListed(db, pending, schedule);
      if |unsubmitted| <= 1 {
        keep := if unsubmitted == [] then 0 else unsubmitted[0].id;
        AtMostOne(db, unsubmitted, schedule, keep);
        NothingToCoalesce(db, schedule, overlap, keep, clock);
        CoalesceKeepsLatest(db, schedule, overlap, keep, clock);
        return;
      }
      var now := Now();
      keep := unsubmitted[|unsubmitted| - 1].id;
      StoreIs();
      ghost var mid := ops;
      SkipQueued(unsubmitted, schedule, overlap, now);
      FollowOn(had, mid, ops);
      CoalesceKeepsLatest(db, schedule, overlap, keep, clock);
    }

    // -------------------------------------------------------------- claiming

    /** Answers yes exactly when the claim transaction's own policy test would pass on the same tables.
        Cancels local executions only under replace, and never while remote work is unresolved. */
    method PrepareScheduleForClaim(schedule: ScheduleId, policy: Policy, key: Key)
      returns (claimable: bool, ghost keep: RunId)
      requires Valid()
      modifies this`clock, this`states, this`ops, this`cancelled, store
      ensures Valid() && old(ops) <= ops && old(clock) <= clock
      ensures FollowsAny(old(ops), ops)
      ensures claimable == RoomFor(policy, |ActiveOccurrences(old(store.Db()), schedule) - {key}|)
      ensures CoalescedUnlessIdle(old(store.Db()), store.Db(), schedule, policy, key, keep, clock)
      ensures Prepared(old(store.Db()), store.Db(), schedule, policy, key, keep, clock)
      ensures cancelled == old(cancelled) + Replaced(old(store.Db()), schedule, policy, key, active)
    {
      hide *;
      ghost var db := store.Db();
      Counted(db, schedule, policy, key, active);
      StoreIs();
      FollowOn(ops, ops, ops);
      keep := 0;
      var count := ActiveOtherCount(store.Db(), schedule, key);
      if count >= policy.maxConcurrency {
        keep := EnforceQueuePolicy(schedule, policy.overlap);
        Coalesced(db, store.Db(), schedule, policy, key, keep, clock);
        return false, keep;
      }
      if count == 0 {
        LeftAlone(db, schedule, policy, key, keep, clock);
        return true, keep;
      }
      match policy.overlap {
        case OverlapAllow =>
          LeftAlone(db, schedule, policy, key, keep, clock);
          return count < policy.maxConcurrency, keep;
        case OverlapForbid =>
          LeftAlone(db, schedule, policy, key, keep, clock);
          return false, keep;
        case OverlapQueueLatest =>
          keep := EnforceQueuePolicy(schedule, policy.overlap);
          Coalesced(db, store.Db(), schedule, policy, key, keep, clock);
          return false, keep;
        case OverlapReplace =>
          if |UnresolvedJobs(store.Db(), schedule)| == 0 {
            CancelActive(schedule);
          }
          keep := EnforceQueuePolicy(schedule, policy.overlap);
          Coalesced(db, store.Db(), schedule, policy, key, keep, clock);
          return false, keep;
      }
    }

    method CancelActive(schedule: ScheduleId)
      modifies this`cancelled
      ensures cancelled == old(cancelled) + Executing(store.runs, schedule, active)
    {
      var todo := set id | id in store.runs && store.runs[id].schedule == schedule && Active(store.runs[id].status);
      while todo != {}
        invariant todo <= store.runs.Keys
        invariant forall id | id in todo :: store.runs[id].schedule == schedule && Active(store.runs[id].status)
        invariant old(cancelled) <= cancelled <= old(cancelled) + Executing(store.runs, schedule, active)
        invariant forall id | id in store.runs && store.runs[id].schedule == schedule && Active(store.runs[id].status)
                  && id in active ::
                    id in todo || active[id] in cancelled
      {
        var id :| id in todo;
        CancelRun(id);
        todo := todo - {id};
      }
    }

    /** A lease starts at the claim, under a token nobody has seen. */
    method ClaimCandidate(schedule: ScheduleId, policy: Policy, id: RunId) returns (claimed: bool, launch: Launch)
      requires Valid()
      modifies this`clock, this`next, this`states, this`ops, store
      ensures Valid() && old(ops) <= ops && old(clock) <= clock && old(next) <= next
      ensures Follows(old(ops), ops, schedule, policy)
      ensures launch == Launch(id, launch.token, clock) && old(next) <= launch.token < next
      ensures ClaimedUnder(old(store.Db()), store.Db(), schedule, policy, worker, leaseTTL, launch, claimed)
    {
      hide Follows, FollowsAny, Behaviour, IdsBelow, Below, TablesOk, History, ClaimRun;
      ghost var had := ops;
      var claimedAt := Now();
      var token := next;
      Facts();
      ghost var db := store.Db();
      next := next + 1;
      launch := Launch(id, token, claimedAt);
      var err;
      claimed, err := store.ClaimRunWithToken(schedule, policy, id, worker, claimedAt, leaseTTL, token);
      ghost var op := Claim(schedule, policy, id, worker, claimedAt, leaseTTL, token);
      ClaimStep(states[|ops|], op);
      hide Enabled, Apply;
      ghost var mid := ops;
      StepFollows(ops, op, schedule, policy);
      Record(op, db, claimedAt, next - 1);
      FollowOn(had, mid, ops);
    }

    method TryCandidate(run: Run, schedules: ScheduleId -> Schedule, ghost launched: seq<Launch>)
      returns (claimed: bool, launch: Launch)
      requires run.id in store.runs && store.runs[run.id].schedule == run.schedule && store.runs[run.id].key == run.key
      requires Held(store.Db(), launched, worker, leaseTTL) && Valid()
      modifies this`clock, this`next, this`states, this`ops, this`cancelled, store
      ensures Valid() && old(ops) <= ops && old(next) <= next
      ensures claimed ==> launch.run == run.id
      ensures claimed ==> old(next) <= launch.token < next && forall l | l in launched :: l.run != launch.run
      ensures Held(store.Db(), if claimed then launched + [launch] else launched, worker, leaseTTL)
      ensures Keeps(old(ops), ops, schedules)
      ensures Presses(old(store.Db()), store.Db()) && !Startable(store.Db(), schedules, run.id)
    {
      hide *;
      ghost var db := store.Db();
      Facts();
      ghost var had := ops;
      var policy := schedules(run.schedule).policy;
      claimed, launch := false, Launch(run.id, 0, clock);
      var claimable, keep := PrepareScheduleForClaim(run.schedule, policy, run.key);
      PreparingKeepsHeld(db, store.Db(), run.schedule, policy, run.key, keep, clock, launched, worker, leaseTTL);
      PreparingPresses(db, store.Db(), run.schedule, policy, run.key, keep, clock);
      if claimable {
        ghost var mid := ops;
        ghost var before := store.Db();
        claimed, launch := ClaimCandidate(run.schedule, policy, run.id);
        FollowOn(had, mid, ops);
        ClaimingKeepsHeld(before, store.Db(), run.schedule, policy, launched, launch, worker, leaseTTL, claimed);
        ClaimingPresses(before, store.Db(), schedules, run.schedule, launch, worker, leaseTTL, claimed);
        PressesOn(db, before, store.Db());
      } else {
        NotAdmitted(db, schedules, run.id);
        StaysBlocked(db, store.Db(), schedules, run.id);
      }
      FollowsKeeps(had, had, ops, schedules);
    }

    /** The loop over the candidates. */
    method ClaimAll(candidates: seq<Run>, schedules: ScheduleId -> Schedule, ghost now: Time, ghost stable: bool)
      returns (launched: seq<Launch>)
      requires Lists(candidates, Ids(candidates), store.runs) && Valid()
      requires forall r | r in candidates ::
                 Runnable(r, now) && (stable ==> WaitedOut(store.Db(), schedules, r.id, now))
      modifies this`clock, this`next, this`states, this`ops, this`cancelled, store
      ensures Valid() && old(ops) <= ops && old(next) <= next && |launched| <= |candidates|
      ensures Keeps(old(ops), ops, schedules) && Presses(old(store.Db()), store.Db())
      ensures Held(store.Db(), launched, worker, leaseTTL) && Issued(launched, old(next), next)
      ensures AllInTime(launched, candidates, old(store.Db()), schedules, now, stable)
      ensures NoneStartable(store.Db(), schedules, candidates)
    {
      hide *;
      ghost var had, low, db := ops, next, store.Db();
      Facts();
      launched := [];
      NoneHeld(db, worker, leaseTTL);
      NoneLaunched(candidates, db, schedules, now, stable, low);
      PressesNothing(db);
      FollowOn(had, had, had);
      FollowsKeeps(had, had, had, schedules);
      for i := 0 to |candidates|
        invariant Valid() && old(ops) <= ops && |launched| <= i && low <= next
        invariant Held(store.Db(), launched, worker, leaseTTL) && Issued(launched, low, next)
        invariant Keeps(had, ops, schedules) && Presses(db, store.Db())
        invariant AllInTime(launched, candidates, db, schedules, now, stable)
        invariant NoneStartable(store.Db(), schedules, candidates[..i])
      {
        var run := candidates[i];
        ghost var before, mid, from := store.Db(), ops, next;
        Facts();
        ListedStays(candidates, i, db, before);
        var claimed, launch := TryCandidate(run, schedules, launched);
        FollowsKeeps(had, mid, ops, schedules);
        PressesOn(db, before, store.Db());
        OneMoreBlocked(candidates, i, db, before, store.Db(), schedules);
        MoreIssued(launched, low, from, next);
        if claimed {
          OneMoreIssued(launched, launch, low, from, next);
          OneMoreInTime(launched, launch, run, candidates, db, schedules, now, stable);
          launched := launched + [launch];
        }
      }
      assert candidates[..|candidates|] == candidates;
    }

    /** One pass: recover what has expired, then claim what is due and allowed. Every execution it starts holds
        the one live lease of its run, under its own new token; and of the candidates it considered, the
        earliest 64, none is left that could still be started. */
    method Tick(schedules: ScheduleId -> Schedule)
      returns (launched: seq<Launch>, ghost now: Time, ghost recovered: Db, ghost considered: seq<Run>)
      requires Valid()
      modifies this, store
      ensures Valid() && old(ops) <= ops && |launched| <= 64 && old(clock) <= now
      ensures Keeps(old(ops), ops, schedules)
      ensures AllRecovered(old(store.Db()), recovered, ExpiredRuns(old(store.Db()), now), schedules)
      ensures Earliest(considered, recovered, now, 64) && Presses(recovered, store.Db())
      ensures NoneStartable(store.Db(), schedules, considered)
      ensures AllInTime(launched, considered, recovered, schedules, now, FixedPolicy(old(ops), Policies(schedules)))
      ensures FixedPolicy(old(ops), Policies(schedules)) ==>
                forall s | schedules(s).policy.maxConcurrency >= 1 ::
                  WithinPolicy(store.Db(), s, schedules(s).policy)
      ensures Held(store.Db(), launched, worker, leaseTTL) && Issued(launched, old(next), next)
    {
      hide *;
      ghost var had, low := ops, next;
      ghost var stable := FixedPolicy(had, Policies(schedules));
      var at := Now();
      FollowsKeeps(had, had, ops, schedules);
      ghost var mid := ops;
      var err := RecoverExpiredLeases(schedules, at);
      FollowsKeeps(had, mid, ops, schedules);
      now, recovered := at, store.Db();
      Facts();
      RowsOf(store.Db());
      var candidates := store.ListCandidateRuns(at, 64);
      considered := candidates;
      ListedEarliest(considered, recovered, now);
      KeepsMeans(had, ops, schedules);
      ConsideredWaitedOut(states, ops, recovered, clock, next, schedules, considered, now);
      ghost var from := next;
      mid := ops;
      launched := ClaimAll(candidates, schedules, now, stable);
      IssuedEarlier(launched, low, from, next);
      FollowsKeeps(had, mid, ops, schedules);
      KeepsMeans(had, ops, schedules);
      Facts();
      if stable { BoundedNow(states, ops, store.Db(), clock, next, schedules); }
    }
  }
}
