/** internal/store as a mutable object: its fields are the tables and each method is one transaction.
    Every method is proved against the transaction function of module Ledger. */
module Store {
  import opened Domain
  import L = Ledger
  import opened Ledger
  import opened LedgerInvariants

  class Store {
    var enabled: map<ScheduleId, bool>
    var runs: map<RunId, Run>
    var leases: map<RunId, Lease>
    var jobs: map<Key, JobRow>
    var events: map<Key, EventRow>
    var dead: map<DeadId, DeadLetter>

    function Db(): Db
      reads this
    {
      L.Db(enabled, runs, leases, jobs, events, dead)
    }

    constructor (schedules: map<ScheduleId, bool>)
      ensures Db() == L.Db(schedules, map[], map[], map[], map[], map[])
    {
      enabled, runs, leases, jobs, events, dead := schedules, map[], map[], map[], map[], map[];
    }

    // -------------------------------------------------------------- claims and leases

    method UpsertLease(token: Token, worker: WorkerId, id: RunId, acquiredAt: Time, expiresAt: Time)
      modifies this`leases
      ensures leases == old(leases)[id := Lease(token, worker, acquiredAt, expiresAt, acquiredAt)]
    {
      leases := leases[id := Lease(token, worker, acquiredAt, expiresAt, acquiredAt)];
    }

    method DeleteLease(token: Token)
      modifies this`leases
      ensures leases == DropToken(old(leases), token)
    {
      leases := map id | id in leases && leases[id].token != token :: leases[id];
    }

    method ClaimRunWithToken(schedule: ScheduleId, policy: Policy, id: RunId, worker: WorkerId, now: Time, ttl: int,
                             token: Token)
      returns (claimed: bool, err: Option<Error>)
      modifies this
      ensures ClaimTx(Db(), claimed, err) == ClaimRun(old(Db()), schedule, policy, id, worker, now, ttl, token)
    {
      hide ActiveOtherCount;
      if id !in runs {
        return false, Some(NotFound);
      }
      var row := runs[id];
      if row.schedule != schedule {
        return false, Some(Conflict);
      }
      if row.status != Pending && row.status != RetryScheduled {
        return false, None;
      }
      if SameOccurrenceActive(runs, id, row.key) {
        return false, None;
      }
      var active := ActiveOtherCount(Db(), schedule, row.key);
      if active >= policy.maxConcurrency {
        return false, None;
      }
      if active > 0 && policy.overlap != OverlapAllow {
        return false, None;
      }
      var expires := now + ttl;
      assert PolicyAdmits(Db(), schedule, row.key, policy);
      hide SameOccurrenceActive, PolicyAdmits;
      runs := runs[id := row.(status := Claimed, owner := Some(worker), claimExpires := Some(expires),
        updatedAt := now)];
      UpsertLease(token, worker, id, now, expires);
      return true, None;
    }

    method MarkRunRunningWithLease(id: RunId, worker: WorkerId, token: Token, now: Time) returns (err: Option<Error>)
      modifies this
      ensures Tx(Db(), err) == MarkRunning(old(Db()), id, worker, token, now)
    {
      err := LockRunLease(Db(), id, worker, token, now, true);
      if err.Some? { return; }
      var row := runs[id];
      if row.startedAt.None? {
        row := row.(startedAt := Some(now));
      }
      runs := runs[id := row.(status := Running, updatedAt := now)];
    }

    method RenewLeaseWithToken(id: RunId, worker: WorkerId, token: Token, now: Time, ttl: int)
      returns (err: Option<Error>)
      modifies this
      ensures Tx(Db(), err) == RenewLease(old(Db()), id, worker, token, now, ttl)
    {
      err := LockRunLease(Db(), id, worker, token, now, true);
      if err.Some? { return; }
      var expires := now + ttl;
      leases := leases[id := leases[id].(expiresAt := expires, heartbeatAt := now)];
      runs := runs[id := runs[id].(claimExpires := Some(expires), updatedAt := now)];
    }

    method ResetClaimedRun(id: RunId, now: Time) returns (err: Option<Error>)
      modifies this
      ensures Tx(Db(), err) == L.ResetClaimedRun(old(Db()), id, now)
    {
      if id !in runs { return Some(NoRows); }
      err := None;
      if runs[id].status != Claimed { return; }
      if id !in leases { return; }
      var lease := leases[id];
      if lease.expiresAt > now { return; }
      runs := runs[id := runs[id].(status := Pending, owner := None, claimExpires := None, updatedAt := now)];
      DeleteLease(lease.token);
    }

    method RequeueExternalRun(id: RunId, worker: WorkerId, token: Token, now: Time, expired: bool)
      returns (err: Option<Error>)
      modifies this
      ensures Tx(Db(), err) == L.RequeueExternalRun(old(Db()), id, worker, token, now, expired)
    {
      var held := token;
      if !expired {
        err := LockRunLease(Db(), id, worker, token, now, true);
        if err.Some? { return; }
      } else {
        if id !in runs { return Some(NoRows); }
        if id !in leases { return Some(LeaseLost); }
        held := leases[id].token;
        if runs[id].status != Running || leases[id].expiresAt > now { return Some(LeaseLost); }
      }
      err := None;
      runs := runs[id := runs[id].(status := Pending, owner := None, claimExpires := None, updatedAt := now)];
      DeleteLease(held);
    }

    // -------------------------------------------------------------- finishing

    /** The outcome of an attempt, its retry or dead letter and the end of its lease commit together. */
    method FinishExternalRun(run: Run, worker: WorkerId, token: Token, retry: Option<Run>, deadId: DeadId,
                             letter: Option<DeadLetter>,
                             now: Time, expired: bool) returns (err: Option<Error>)
      modifies this
      ensures Tx(Db(), err) == L.FinishExternalRun(old(Db()), run, worker, token, retry, deadId, letter, now, expired)
    {
      var holder, held := worker, token;
      if expired {
        err := LockExpiredRunningRun(Db(), run.id, now);
        if err.Some? { return; }
        holder, held := leases[run.id].worker, leases[run.id].token;
      } else {
        err := LockRunLease(Db(), run.id, worker, token, now, false);
        if err.Some? { return; }
      }
      runs := runs[run.id := runs[run.id].(status := run.status, owner := Some(holder), claimExpires := None,
                                           startedAt := run.startedAt, finishedAt := run.finishedAt,
                                           detail := run.detail,
                                           retryAt := run.retryAt, updatedAt := now)];
      DeleteLease(held);
      if retry.Some? {
        if !HasAttempt(runs, retry.value.key, retry.value.attempt) {
          runs := runs[retry.value.id := RetryRow(retry.value)];
        }
      }
      if letter.Some? {
        dead := dead[deadId := letter.value];
      }
    }

    method FinishRun(run: Run)
      modifies this
      ensures Db() == L.FinishRun(old(Db()), run)
    {
      if run.id in runs {
        runs := runs[run.id := runs[run.id].(status := run.status, owner := run.owner, claimExpires := run.claimExpires,
                                             startedAt := run.startedAt, finishedAt := run.finishedAt,
                                             detail := run.detail,
                                             retryAt := run.retryAt, updatedAt := run.updatedAt)];
        if run.finishedAt.Some? {
          leases := leases - {run.id};
        }
      }
    }

    // -------------------------------------------------------------- insertion

    method InsertRun(run: Run) returns (err: Option<Error>)
      modifies this
      ensures Tx(Db(), err) == L.InsertRun(old(Db()), run)
    {
      if run.id in runs || HasAttempt(runs, run.key, run.attempt) { return Some(AlreadyExists); }
      if run.schedule !in enabled { return Some(ForeignKey); }
      runs := runs[run.id := run];
      err := None;
    }

    /** The deduplication row goes in first and is rolled back when the schedule turns out to be paused. */
    method TriggerEvent(schedule: ScheduleId, event: EventData, newId: RunId, now: Time)
      returns (id: RunId, created: bool, err: Option<Error>)
      modifies this
      ensures EventTx(Db(), id, created, err) == L.TriggerEvent(old(Db()), schedule, event, newId, now)
    {
      id, created, err := newId, false, None;
      var key := Event(schedule, event.source, event.id);
      if schedule !in enabled { return id, false, Some(NotFound); }
      if key in events {
        id := events[key].run;
        if events[key].event != event { return id, false, Some(EventConflict); }
        if id !in runs { return id, false, Some(HistoryPruned); }
        return;
      }
      var before := events;
      events := events[key := EventRow(schedule, event, id, now)];
      if !enabled[schedule] {
        events := before;
        return id, false, Some(SchedulePaused);
      }
      if id in runs || HasAttempt(runs, key, 1) {
        events := before;
        return id, false, Some(AlreadyExists);
      }
      runs := runs[id := Run(id, schedule, key, now, now, Pending, 1, None, None, None, None, NO_DETAIL, None, now,
        now)];
      created := true;
    }

    // -------------------------------------------------------------- remote-job checkpoints

    method SaveExternalJob(run: Run, worker: WorkerId, token: Token, given: ExternalJob, now: Time)
      returns (err: Option<Error>)
      modifies this
      ensures Tx(Db(), err) == L.SaveExternalJob(old(Db()), run, worker, token, given, now)
    {
      var job := given.(canReconcile := given.ReconciliationAvailable());
      err := LockRunLease(Db(), run.id, worker, token, now, true);
      if err.Some? { return; }
      if run.key in jobs {
        var prior := Decode(jobs[run.key]);
        if prior.deadlineAt != job.deadlineAt || prior.submittedAt != job.submittedAt
          || jobs[run.key].snapshot != Frozen(job.target) {
          return Some(SnapshotImmutable);
        }
        if prior.jobId != "" && (prior.jobId != job.jobId || prior.statusUrl != job.statusUrl) {
          return Some(IdentityImmutable);
        }
        prior := prior.(updatedAt := job.updatedAt);
        if prior.Terminal() && prior.Json() != job.Json() {
          return Some(TerminalImmutable);
        }
      }
      job := job.(updatedAt := now);
      if run.key in jobs {
        jobs := jobs[run.key := jobs[run.key].(checkpoint := job.Json(), status := job.status, updatedAt := now)];
      } else {
        jobs := jobs[run.key := JobRow(run.schedule, job.Json(), job.status, false, Frozen(job.target), job.submittedAt,
          now)];
      }
      err := None;
    }

    method ReconcileExternalJob(run: Run, expected: ExternalJob, observed: ExternalJob, now: Time)
      returns (err: Option<Error>)
      modifies this
      ensures Tx(Db(), err) == L.ReconcileExternalJob(old(Db()), run, expected, observed, now)
    {
      if OccurrenceOpen(runs, run.key) { return Some(Conflict); }
      if run.key !in jobs { return Some(NoRows); }
      var row := jobs[run.key];
      var current := Decode(row);
      if current.compacted || current.Terminal() || current.Json() != expected.Json()
        || row.snapshot != Frozen(expected.target) {
        return Some(Conflict);
      }
      if current.jobId == "" {
        if current.status != Submitting || !current.HasLookup() || observed.jobId == "" || observed.statusUrl == "" {
          return Some(Conflict);
        }
      } else if current.jobId != observed.jobId || current.statusUrl != observed.statusUrl {
        return Some(Conflict);
      }
      if current.deadlineAt != observed.deadlineAt || current.submittedAt != observed.submittedAt
        || row.snapshot != Frozen(observed.target) {
        return Some(Conflict);
      }
      if run.id !in runs { return Some(ForeignKey); }
      var job := observed.(updatedAt := now);
      job := job.(canReconcile := job.ReconciliationAvailable());
      jobs := jobs[run.key := row.(checkpoint := job.Json(), status := job.status, updatedAt := now)];
      err := None;
    }

    // -------------------------------------------------------------- retention

    /** Collects the confirmed terminal jobs without attempts, then replaces each with its tombstone. */
    method CompactPrunedExternalJobs()
      modifies this`jobs
      ensures Db() == Compact(old(Db()))
    {
      var todo := jobs.Keys;
      var items: seq<Key> := [];
      while todo != {}
        invariant todo <= jobs.Keys
        invariant forall k :: k in items <==> k in jobs && k !in todo && Compactable(jobs[k], runs, k)
      {
        var k :| k in todo;
        if Compactable(jobs[k], runs, k) {
          items := items + [k];
        }
        todo := todo - {k};
      }
      for i := 0 to |items|
        invariant jobs.Keys == old(jobs).Keys
        invariant forall k | k in jobs :: jobs[k] == if k in items[..i] then Tombstone(old(jobs)[k]) else old(jobs)[k]
      {
        var k := items[i];
        if !jobs[k].compacted {
          jobs := jobs[k := Tombstone(jobs[k])];
        }
        assert items[..i + 1] == items[..i] + [k];
      }
      assert items[..|items|] == items;
    }

    method PruneTerminalRunsBefore(cutoff: Time) returns (deleted: nat)
      modifies this
      ensures Db() == Prune(old(Db()), cutoff)
      ensures deleted == |old(runs)| - |runs|
    {
      var kept := map id | id in runs && !Prunable(Db(), runs[id], cutoff) :: runs[id];
      var gone := set id | id in runs && id !in kept;
      deleted := |gone|;
      assert kept.Keys == runs.Keys - gone;
      runs := kept;
      leases := map id | id in leases && id in kept :: leases[id];
      dead := map d | d in dead && dead[d].run in kept :: dead[d];
      CompactPrunedExternalJobs();
    }

    // -------------------------------------------------------------- listings

    /** Rows whose lease ran out, each with the run as it is now. */
    method ListExpiredLeases(now: Time) returns (items: seq<Run>)
      requires Rows(runs)
      ensures Lists(items, ExpiredRuns(Db(), now), runs)
      ensures forall id :: id in runs && runs[id] in items <==>
                id in runs && id in leases && leases[id].expiresAt <= now
    {
      items := SortedByDue(ExpiredRuns(Db(), now));
      ListedRows(items, ExpiredRuns(Db(), now), runs);
    }

    method ListPendingRunsBySchedule(schedule: ScheduleId) returns (items: seq<Run>)
      requires Rows(runs)
      ensures Lists(items, WaitingRuns(Db(), schedule), runs)
      ensures forall id | id in runs ::
                runs[id] in items <==> runs[id].schedule == schedule && runs[id].status in {Pending, RetryScheduled}
      ensures InDueOrder(items)
      ensures forall i, j | 0 <= i < j < |items| ::
                items[i].due < items[j].due || (items[i].due == items[j].due
                  && items[i].createdAt <= items[j].createdAt)
    {
      items := SortedByDue(WaitingRuns(Db(), schedule));
      ListedRows(items, WaitingRuns(Db(), schedule), runs);
    }

    /** The earliest `limit` of the runs that are pending and due or whose retry is. */
    method ListCandidateRuns(now: Time, limit: nat) returns (items: seq<Run>)
      requires Rows(runs)
      ensures forall r | r in items ::
                || (r.status == Pending && r.due <= now)
                || (r.status == RetryScheduled && r.retryAt.Some? && r.retryAt.value <= now)
      ensures forall id | id in runs && runs[id] !in items
                          && (|| (runs[id].status == Pending && runs[id].due <= now)
                              || (runs[id].status == RetryScheduled && runs[id].retryAt.Some?
                                  && runs[id].retryAt.value <= now)) ::
                && |items| == limit
                && forall r | r in items ::
                     r.due < runs[id].due || (r.due == runs[id].due && r.createdAt <= runs[id].createdAt)
      ensures Lists(items, Ids(items), runs) && Ids(items) <= Candidates(Db(), now)
      ensures |items| <= limit && (|items| < limit ==> Ids(items) == Candidates(Db(), now))
      ensures forall r, id | r in items && id in Candidates(Db(), now) - Ids(items) :: NotAfter(r, runs[id])
    {
      hide Lists, InDueOrder, Rows, Ids;
      ghost var ids := Candidates(Db(), now);
      var all := SortedByDue(Candidates(Db(), now));
      items := if |all| <= limit then all else all[..limit];
      CutListing(all, |items|, ids, runs);
      assert all[..|items|] == items;
    }

    method SortedByDue(ids: set<RunId>) returns (items: seq<Run>)
      requires Rows(runs) && ids <= runs.Keys
      ensures Lists(items, ids, runs)
      ensures InDueOrder(items)
    {
      hide NotAfter, Rows;
      var todo := ids;
      items := [];
      while todo != {}
        invariant todo <= ids
        invariant Lists(items, ids - todo, runs)
        invariant InDueOrder(items)
        invariant forall r, id | r in items && id in todo :: NotAfter(r, runs[id])
      {
        EarliestExists(runs, todo);
        var id :| id in todo && forall other | other in todo :: NotAfter(runs[id], runs[other]);
        ListsOneMore(items, ids - todo, runs, id);
        OrderedOneMore(items, runs[id]);
        items := items + [runs[id]];
        assert ids - (todo - {id}) == (ids - todo) + {id};
        todo := todo - {id};
      }
      assert ids - todo == ids;
    }
  }

  /** A listing holds exactly the stored rows of its ids. */
  lemma ListedRows(items: seq<Run>, ids: set<RunId>, runs: map<RunId, Run>)
    requires Lists(items, ids, runs) && Rows(runs)
    ensures forall r | r in items :: r.id in ids && r.id in runs && runs[r.id] == r
    ensures forall id | id in runs :: runs[id] in items <==> id in ids
  {
    assert forall r | r in items :: r.id in Ids(items);
    assert forall id | id in ids :: exists r :: r in items && r.id == id;
  }

  /** The first n rows of a listing: what is left out comes no earlier. */
  lemma CutListing(all: seq<Run>, n: nat, ids: set<RunId>, runs: map<RunId, Run>)
    requires Lists(all, ids, runs) && InDueOrder(all) && Rows(runs) && n <= |all|
    ensures
      var items := all[..n];
      && Lists(items, Ids(items), runs) && Ids(items) <= ids && (n == |all| ==> Ids(items) == ids)
      && (forall r | r in items :: r.id in ids && r.id in runs && runs[r.id] == r)
      && (forall id | id in ids :: id in runs && (runs[id] in items <==> id in Ids(items)))
      && (forall r, id | r in items && id in ids - Ids(items) :: NotAfter(r, runs[id]))
  {
    hide NotAfter;
    var items := all[..n];
    ListedRows(all, ids, runs);
    assert n == |all| ==> items == all;
    forall r | r in items ensures r in all { }
    forall k | 0 <= k < n ensures all[k] in items && all[k].id in Ids(items) {
      assert items[k] == all[k];
    }
    forall id | id in ids ensures id in runs && (runs[id] in items <==> id in Ids(items)) {
      var r :| r in all && r.id == id;
    }
    forall r, id | r in items && id in ids - Ids(items) ensures NotAfter(r, runs[id]) {
      var i :| 0 <= i < n && all[i] == r;
      var j :| 0 <= j < |all| && all[j] == runs[id];
    }
  }

  lemma {:induction false} EarliestExists(runs: map<RunId, Run>, ids: set<RunId>)
    requires ids != {} && ids <= runs.Keys
    ensures exists id :: id in ids && forall other | other in ids :: NotAfter(runs[id], runs[other])
    decreases ids
  {
    var id :| id in ids;
    if ids != {id} {
      EarliestExists(runs, ids - {id});
      var least :| least in ids - {id} && forall other | other in ids - {id} :: NotAfter(runs[least], runs[other]);
      if NotAfter(runs[id], runs[least]) {
        assert id in ids && forall other | other in ids :: NotAfter(runs[id], runs[other]);
      } else {
        assert least in ids && forall other | other in ids :: NotAfter(runs[least], runs[other]);
      }
    }
  }
}
