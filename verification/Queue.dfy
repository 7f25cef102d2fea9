/** Queue coalescing: of the waiting occurrences nobody has submitted, only the latest stays. */
module Queue {
  import opened Domain
  import opened Ledger
  import opened LedgerInvariants
  import opened LedgerRuns

  /** One skip of the loop in enforceQueuePolicy. */
  lemma SkipOne(db: Db, done: set<RunId>, id: RunId, overlap: OverlapPolicy, now: Time)
    requires Rows(db.runs) && id in db.runs && id !in done
    ensures FinishRun(SkipAll(db, done, overlap, now), SkippedRow(db.runs[id], overlap, now))
            == SkipAll(db, done + {id}, overlap, now)
  {
    assert db.leases - (done + {id}) == (db.leases - done) - {id};
  }

  lemma SkipNone(db: Db, overlap: OverlapPolicy, now: Time)
    ensures SkipAll(db, {}, overlap, now) == db
  {
    assert db.leases - {} == db.leases;
  }

  /** With at most one unsubmitted run there is nothing to skip. */
  lemma NothingToCoalesce(db: Db, schedule: ScheduleId, overlap: OverlapPolicy, keep: RunId, now: Time)
    requires Unsubmitted(db, schedule) <= {keep}
    ensures Coalesce(db, schedule, overlap, keep, now) == db
  {
    assert Unsubmitted(db, schedule) - {keep} == {};
    SkipNone(db, overlap, now);
  }

  /** A waiting run of the schedule whose occurrence has no remote job. */
  predicate Queued(db: Db, schedule: ScheduleId, id: RunId) {
    && id in db.runs && db.runs[id].schedule == schedule && db.runs[id].status in {Pending, RetryScheduled}
    && db.runs[id].key !in db.jobs
  }

  /** Every queued run but the kept one is skipped, says why, and comes no later than the kept one; nothing else is
      touched. */
  ghost predicate KeepsLatest(db: Db, after: Db, schedule: ScheduleId, overlap: OverlapPolicy, keep: RunId, now: Time) {
    var why := if overlap == OverlapReplace then
      "replace overlap downgraded to queued latest until current execution exits"
               else "superseded by newer queued occurrence";
    && after == db.(runs := after.runs, leases := after.leases) && after.runs.Keys == db.runs.Keys
    && (forall id | id in db.runs && !(Queued(db, schedule, id) && id != keep) :: after.runs[id] == db.runs[id])
    && (forall id | Queued(db, schedule, id) && id != keep ::
          && after.runs[id] == db.runs[id].(status := Skipped, finishedAt := Some(now), updatedAt := now,
                                            detail := db.runs[id].detail.(error := Some(why)))
          && Queued(db, schedule, keep)
          && (|| db.runs[id].due < db.runs[keep].due
              || (db.runs[id].due == db.runs[keep].due && db.runs[id].createdAt <= db.runs[keep].createdAt)))
    && (forall id :: id in after.leases <==> id in db.leases && !(Queued(db, schedule, id) && id != keep))
    && (forall id | id in after.leases :: after.leases[id] == db.leases[id])
  }

  /** Exactly the earlier unsubmitted waiting runs of the schedule are skipped. No run whose occurrence has
      a remote job is, and at most the latest unsubmitted run is left waiting. */
  lemma CoalesceKeepsLatest(db: Db, schedule: ScheduleId, overlap: OverlapPolicy, keep: RunId, now: Time)
    requires Unsubmitted(db, schedule) != {} ==> LatestUnsubmitted(db, schedule, keep)
    ensures
      var after := Coalesce(db, schedule, overlap, keep, now);
      && KeepsLatest(db, after, schedule, overlap, keep, now)
      && (forall id | Queued(after, schedule, id) :: id == keep)
  {
    SkipsQueued(db, schedule, overlap, keep, now);
    hide Unsubmitted, SkippedRow, Coalesce;
    QueuedIsUnsubmitted(db, schedule);
  }

  lemma QueuedIsUnsubmitted(db: Db, schedule: ScheduleId)
    ensures forall id :: Queued(db, schedule, id) <==> id in Unsubmitted(db, schedule)
  {
  }

  lemma SkipsQueued(db: Db, schedule: ScheduleId, overlap: OverlapPolicy, keep: RunId, now: Time)
    ensures
      var after := Coalesce(db, schedule, overlap, keep, now);
      var why := if overlap == OverlapReplace then
        "replace overlap downgraded to queued latest until current execution exits"
                 else "superseded by newer queued occurrence";
      && after == db.(runs := after.runs, leases := after.leases) && after.runs.Keys == db.runs.Keys
      && (forall id | id in db.runs && !(Queued(db, schedule, id) && id != keep) :: after.runs[id] == db.runs[id])
      && (forall id | Queued(db, schedule, id) && id != keep ::
            after.runs[id] == db.runs[id].(status := Skipped, finishedAt := Some(now), updatedAt := now,
                                           detail := db.runs[id].detail.(error := Some(why))))
      && (forall id :: id in after.leases <==> id in db.leases && !(Queued(db, schedule, id) && id != keep))
      && (forall id | id in after.leases :: after.leases[id] == db.leases[id])
  {
    QueuedIsUnsubmitted(db, schedule);
    hide Unsubmitted;
  }

  /** The part of a listing whose occurrences have no remote job, in listing order. */
  function WithoutJob(items: seq<Run>, jobs: map<Key, JobRow>): seq<Run> {
    if items == [] then []
    else
      var rest := WithoutJob(items[..|items| - 1], jobs);
      if items[|items| - 1].key in jobs then rest else rest + [items[|items| - 1]]
  }

  lemma NoneWithoutJob(jobs: map<Key, JobRow>)
    ensures WithoutJob([], jobs) == []
  {
  }

  lemma OneMoreWithoutJob(items: seq<Run>, i: nat, jobs: map<Key, JobRow>)
    requires i < |items|
    ensures WithoutJob(items[..i + 1], jobs)
            == WithoutJob(items[..i], jobs) + (if items[i].key in jobs then [] else [items[i]])
  {
    assert items[..i + 1][..i] == items[..i];
  }

  function Jobless(ids: set<RunId>, db: Db): set<RunId> {
    set id | id in ids && id in db.runs && db.runs[id].key !in db.jobs
  }

  lemma {:induction false} WithoutJobLists(items: seq<Run>, ids: set<RunId>, db: Db)
    requires Rows(db.runs) && Lists(items, ids, db.runs) && InDueOrder(items)
    ensures
      var kept := WithoutJob(items, db.jobs);
      && Lists(kept, Jobless(ids, db), db.runs)
      && InDueOrder(kept) && (forall r | r in kept :: r in items)
    decreases |items|
  {
    hide NotAfter, Lists, Rows, InDueOrder;
    if items == [] {
      EmptyLists(ids, db);
    } else {
      var n := |items| - 1;
      var last, front := items[n], items[..n];
      assert items == front + [last];
      FrontLists(items, ids, db.runs);
      FrontOrdered(items, front, last);
      WithoutJobLists(front, ids - {last.id}, db);
      var rest := WithoutJob(front, db.jobs);
      LastListed(items, ids, db.runs);
      if last.key !in db.jobs {
        assert WithoutJob(items, db.jobs) == rest + [last];
        assert Jobless(ids, db) == Jobless(ids - {last.id}, db) + {last.id};
        ListsOneMore(rest, Jobless(ids - {last.id}, db), db.runs, last.id);
        OrderedOneMore(rest, last);
      } else {
        assert Jobless(ids, db) == Jobless(ids - {last.id}, db);
      }
    }
  }

  lemma EmptyLists(ids: set<RunId>, db: Db)
    requires Lists([], ids, db.runs)
    ensures Lists([], Jobless(ids, db), db.runs) && InDueOrder([])
  {
    assert Ids([]) == {};
  }

  lemma FrontOrdered(items: seq<Run>, front: seq<Run>, last: Run)
    requires InDueOrder(items) && items == front + [last]
    ensures InDueOrder(front)
    ensures forall r | r in front :: NotAfter(r, last)
  {
    hide NotAfter;
    forall i, j | 0 <= i < j < |front| ensures NotAfter(front[i], front[j]) {
      assert items[i] == front[i] && items[j] == front[j];
    }
    forall r | r in front ensures NotAfter(r, last) {
      var i :| 0 <= i < |front| && front[i] == r;
      assert items[i] == r && items[|front|] == last;
    }
  }

  lemma LastListed(items: seq<Run>, ids: set<RunId>, runs: map<RunId, Run>)
    requires Lists(items, ids, runs) && items != []
    ensures var last := items[|items| - 1]; last.id in ids && last.id in runs && runs[last.id] == last
  {
    assert items[|items| - 1] in items;
  }

  lemma FrontLists(items: seq<Run>, ids: set<RunId>, runs: map<RunId, Run>)
    requires Lists(items, ids, runs) && items != []
    ensures Lists(items[..|items| - 1], ids - {items[|items| - 1].id}, runs)
    ensures items[|items| - 1].id in ids
  {
    var n := |items| - 1;
    var last := items[n];
    var front := items[..n];
    assert items == front + [last] && last in items;
    forall r | r in front ensures r.id in ids - {last.id} {
      var i :| 0 <= i < n && front[i] == r;
      assert items[i] == r && r in items && items[i].id != items[n].id;
    }
    forall id | id in ids - {last.id} ensures id in Ids(front) {
      var r :| r in items && r.id == id;
      assert r in front;
    }
    assert Ids(front) == ids - {last.id};
  }
}
