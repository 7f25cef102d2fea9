/** What every reachable ledger satisfies, table by table, and how single writes keep it. */
module LedgerInvariants {
  import opened Domain
  import opened Ledger

  // ---------------------------------------------------------------- leases mirror run rows

  /** A run is claimed or running exactly when it holds a lease, with the same owner and expiry. */
  ghost predicate Agreement(runs: map<RunId, Run>, leases: map<RunId, Lease>) {
    && (forall id :: id in leases <==> id in runs && Active(runs[id].status))
    && (forall id | id in leases :: runs[id].owner == Some(leases[id].worker)
         && runs[id].claimExpires == Some(leases[id].expiresAt))
    && (forall id | id in runs && !Active(runs[id].status) :: runs[id].claimExpires.None?)
    && (forall a, b | a in leases && b in leases && leases[a].token == leases[b].token :: a == b)
  }

  lemma AgreementRewrite(runs: map<RunId, Run>, leases: map<RunId, Lease>, id: RunId, row: Run, lease: Lease)
    requires Agreement(runs, leases) && id in runs && Active(row.status)
    requires row.owner == Some(lease.worker) && row.claimExpires == Some(lease.expiresAt)
    requires if id in leases then lease.token == leases[id].token else lease.token !in LiveTokens(leases)
    ensures Agreement(runs[id := row], leases[id := lease])
  {
    assert forall other | other in leases :: leases[other].token in LiveTokens(leases);
  }

  lemma AgreementRelease(runs: map<RunId, Run>, leases: map<RunId, Lease>, id: RunId, row: Run)
    requires Agreement(runs, leases) && id in leases && !Active(row.status) && row.claimExpires.None?
    ensures DropToken(leases, leases[id].token) == leases - {id}
    ensures Agreement(runs[id := row], DropToken(leases, leases[id].token))
    ensures LiveTokens(DropToken(leases, leases[id].token)) == LiveTokens(leases) - {leases[id].token}
  {
    DropTokenIsRemoval(leases, id);
  }

  function LiveTokens(leases: map<RunId, Lease>): set<Token> {
    set id | id in leases :: leases[id].token
  }

  lemma DropTokenIsRemoval(leases: map<RunId, Lease>, id: RunId)
    requires id in leases
    requires forall a, b | a in leases && b in leases && leases[a].token == leases[b].token :: a == b
    ensures DropToken(leases, leases[id].token) == leases - {id}
    ensures LiveTokens(leases - {id}) == LiveTokens(leases) - {leases[id].token}
  {
    forall t | t in LiveTokens(leases) && t != leases[id].token ensures t in LiveTokens(leases - {id}) {
      var r :| r in leases && leases[r].token == t;
      assert r in leases - {id};
    }
  }

  lemma LiveAfterWrite(leases: map<RunId, Lease>, id: RunId, lease: Lease)
    requires id in leases && lease.token == leases[id].token
    ensures LiveTokens(leases[id := lease]) == LiveTokens(leases)
  {
    var after := leases[id := lease];
    forall t | t in LiveTokens(leases) ensures t in LiveTokens(after) {
      var r :| r in leases && leases[r].token == t;
      assert r in after && after[r].token == t;
    }
  }

  lemma LiveAfterClaim(leases: map<RunId, Lease>, id: RunId, lease: Lease)
    requires id !in leases
    ensures LiveTokens(leases[id := lease]) == LiveTokens(leases) + {lease.token}
  {
    var after := leases[id := lease];
    forall t | t in LiveTokens(leases) ensures t in LiveTokens(after) {
      var r :| r in leases && leases[r].token == t;
      assert r in after && after[r].token == t;
    }
    assert after[id].token == lease.token;
  }

  /** Replacing a run's lease under a new token ends the token it had, if any, and no other;
      tokens still name one run. */
  lemma UpsertReplacesToken(leases: map<RunId, Lease>, id: RunId, lease: Lease)
    requires forall a, b | a in leases && b in leases && leases[a].token == leases[b].token :: a == b
    requires lease.token !in LiveTokens(leases)
    ensures
      var after := leases[id := lease];
      && LiveTokens(after) == LiveTokens(leases) - (if id in leases then {leases[id].token} else {}) + {lease.token}
      && (forall a, b | a in after && b in after && after[a].token == after[b].token :: a == b)
  {
    var after := leases[id := lease];
    assert forall a | a in leases :: leases[a].token in LiveTokens(leases);
    forall t | t in LiveTokens(leases) && (id in leases ==> t != leases[id].token) ensures t in LiveTokens(after) {
      var r :| r in leases && leases[r].token == t;
      assert after[r].token == t;
    }
    assert after[id].token == lease.token;
  }

  // ---------------------------------------------------------------- remote-job rows

  predicate JobRowAgrees(row: JobRow) {
    && row.status == row.checkpoint.status
    && row.compacted == row.checkpoint.compacted
    && row.snapshot.Erased? == row.compacted
    && (row.compacted ==> row.checkpoint.Terminal())
    && (row.checkpoint.jobId == "" <==> row.status == Submitting)
    && row.checkpoint.target == NO_TARGET
    && row.checkpoint.canReconcile == Decode(row).canReconcile
  }

  ghost predicate JobsAgree(jobs: map<Key, JobRow>) {
    forall k | k in jobs :: JobRowAgrees(jobs[k])
  }

  // ---------------------------------------------------------------- attempt chains

  ghost predicate Rows(runs: map<RunId, Run>) {
    && (forall id | id in runs :: runs[id].id == id && runs[id].attempt >= 1)
    && (forall id | id in runs && Finished(runs[id].status) ::
          runs[id].finishedAt.Some? && runs[id].createdAt <= runs[id].finishedAt.value)
  }

  predicate Ordered(a: Run, b: Run) {
    && a.schedule == b.schedule
    && (a.attempt < b.attempt ==> a.status == Failed && a.finishedAt.Some? && a.finishedAt.value <= b.createdAt)
  }

  predicate HasSuccessor(runs: map<RunId, Run>, id: RunId)
    requires id in runs
  {
    HasAttempt(runs, runs[id].key, runs[id].attempt + 1)
  }

  /** Attempts of one occurrence: unique numbers, all but the last failed, a failed one has a successor. */
  ghost predicate Chain(runs: map<RunId, Run>) {
    && (forall a, b | a in runs && b in runs && runs[a].key == runs[b].key ::
          Ordered(runs[a], runs[b]) && (runs[a].attempt == runs[b].attempt ==> a == b))
    && (forall id {:trigger HasSuccessor(runs, id)} | id in runs && runs[id].status == Failed :: HasSuccessor(runs, id))
  }

  lemma HasAttemptWitness(runs: map<RunId, Run>, id: RunId)
    requires id in runs
    ensures HasAttempt(runs, runs[id].key, runs[id].attempt)
  {
  }

  lemma HasAttemptKept(before: map<RunId, Run>, after: map<RunId, Run>, key: Key, attempt: nat)
    requires HasAttempt(before, key, attempt)
    requires forall id | id in before ::
               id in after && after[id].key == before[id].key && after[id].attempt == before[id].attempt
    ensures HasAttempt(after, key, attempt)
  {
    var id :| id in before && before[id].key == key && before[id].attempt == attempt;
    HasAttemptWitness(after, id);
  }

  lemma SuccessorsKept(before: map<RunId, Run>, after: map<RunId, Run>)
    requires Chain(before)
    requires forall id | id in before ::
               id in after && after[id].key == before[id].key && after[id].attempt == before[id].attempt
    ensures forall id {:trigger HasSuccessor(after, id)} | id in before && before[id].status == Failed ::
              HasSuccessor(after, id)
  {
    forall id | id in before && before[id].status == Failed ensures HasSuccessor(after, id) {
      assert HasSuccessor(before, id);
      HasAttemptKept(before, after, before[id].key, before[id].attempt + 1);
    }
  }

  /** Rewriting columns of unfinished attempts, none of which becomes failed. */
  lemma ChainRewrite(runs: map<RunId, Run>, after: map<RunId, Run>)
    requires Rows(runs) && Chain(runs) && after.Keys == runs.Keys
    requires forall id | id in runs :: SameIdentity(runs[id], after[id])
    requires forall id | id in runs && after[id] != runs[id] ::
               && !Finished(runs[id].status) && after[id].status != Failed
               && (Finished(after[id].status) ==>
                     after[id].finishedAt.Some? && after[id].createdAt <= after[id].finishedAt.value)
    ensures Rows(after) && Chain(after)
  {
    SuccessorsKept(runs, after);
  }

  /** An unfinished attempt is the last one of its occurrence, so no later number is taken. */
  lemma UnfinishedIsLast(runs: map<RunId, Run>, id: RunId, other: RunId)
    requires Chain(runs) && id in runs && other in runs && runs[other].key == runs[id].key
    requires runs[id].status != Failed
    ensures runs[other].attempt <= runs[id].attempt
    ensures other != id ==> runs[other].status == Failed
  {
  }

  lemma RetryNumberIsFree(runs: map<RunId, Run>, id: RunId, row: Run)
    requires Chain(runs) && id in runs && runs[id].status != Failed && SameIdentity(runs[id], row)
    ensures !HasAttempt(runs[id := row], row.key, row.attempt + 1)
  {
  }

  predicate FailsInto(runs: map<RunId, Run>, id: RunId, row: Run, retry: Run) {
    && id in runs && SameIdentity(runs[id], row)
    && !Finished(runs[id].status) && row.status == Failed && row.finishedAt.Some?
    && row.createdAt <= row.finishedAt.value
    && retry.id !in runs && retry.key == row.key && retry.schedule == row.schedule && retry.attempt == row.attempt + 1
    && retry.createdAt == row.finishedAt.value && !Finished(retry.status)
  }

  lemma FailedPair(runs: map<RunId, Run>, id: RunId, row: Run, retry: Run, a: RunId, b: RunId)
    requires FailsInto(runs, id, row, retry) && Rows(runs) && Chain(runs)
    requires
      var after := runs[id := row][retry.id := RetryRow(retry)];
      a in after && b in after && after[a].key == after[b].key
    ensures
      var after := runs[id := row][retry.id := RetryRow(retry)];
      Ordered(after[a], after[b]) && (after[a].attempt == after[b].attempt ==> a == b)
  {
    hide HasSuccessor;
    if a in runs && b in runs {
      assert runs[a].key == runs[b].key;
    } else if a in runs {
      UnfinishedIsLast(runs, id, a);
    } else if b in runs {
      UnfinishedIsLast(runs, id, b);
    }
  }

  lemma FailedSuccessors(runs: map<RunId, Run>, id: RunId, row: Run, retry: Run)
    requires FailsInto(runs, id, row, retry) && Chain(runs)
    ensures
      var after := runs[id := row][retry.id := RetryRow(retry)];
      forall x {:trigger HasSuccessor(after, x)} | x in after && after[x].status == Failed :: HasSuccessor(after, x)
  {
    var after := runs[id := row][retry.id := RetryRow(retry)];
    HasAttemptWitness(after, retry.id);
    SuccessorsKept(runs, after);
    hide Chain, HasAttempt;
  }

  lemma FailedRows(runs: map<RunId, Run>, id: RunId, row: Run, retry: Run)
    requires FailsInto(runs, id, row, retry) && Rows(runs)
    ensures Rows(runs[id := row][retry.id := RetryRow(retry)])
  {
  }

  /** Failing the last attempt together with inserting its retry. */
  lemma ChainFailAndRetry(runs: map<RunId, Run>, id: RunId, row: Run, retry: Run)
    requires FailsInto(runs, id, row, retry) && Rows(runs) && Chain(runs)
    ensures WithRetry(runs[id := row], Some(retry)) == runs[id := row][retry.id := RetryRow(retry)]
    ensures Rows(WithRetry(runs[id := row], Some(retry))) && Chain(WithRetry(runs[id := row], Some(retry)))
  {
    hide HasAttempt, Ordered, Rows;
    RetryNumberIsFree(runs, id, row);
    FailedRows(runs, id, row, retry);
    FailedSuccessors(runs, id, row, retry);
    var after := runs[id := row][retry.id := RetryRow(retry)];
    forall a, b | a in after && b in after && after[a].key == after[b].key
      ensures Ordered(after[a], after[b]) && (after[a].attempt == after[b].attempt ==> a == b)
    {
      FailedPair(runs, id, row, retry, a, b);
    }
    hide HasSuccessor, RetryRow;
  }

  /** A first attempt of an occurrence that has no attempt in the table. */
  lemma ChainInsert(runs: map<RunId, Run>, row: Run)
    requires Rows(runs) && Chain(runs) && row.id !in runs && !KeyPresent(runs, row.key) && row.attempt >= 1
             && row.status != Failed
    requires Finished(row.status) ==> row.finishedAt.Some? && row.createdAt <= row.finishedAt.value
    ensures Rows(runs[row.id := row]) && Chain(runs[row.id := row])
  {
    SuccessorsKept(runs, runs[row.id := row]);
  }

  /** Retention removes a prefix of each chain: a kept attempt keeps its successors. */
  lemma ChainPrune(db: Db, cutoff: Time)
    requires Rows(db.runs) && Chain(db.runs)
    ensures Rows(DeletePrunable(db, cutoff).runs) && Chain(DeletePrunable(db, cutoff).runs)
  {
    var runs := db.runs;
    var kept := DeletePrunable(db, cutoff).runs;
    forall id | id in kept && kept[id].status == Failed ensures HasSuccessor(kept, id) {
      assert HasSuccessor(runs, id);
      var next :| next in runs && runs[next].key == runs[id].key && runs[next].attempt == runs[id].attempt + 1;
      assert Ordered(runs[id], runs[next]);
      assert next in kept;
      HasAttemptWitness(kept, next);
    }
  }

  /** Between two present attempts every number is present. */
  lemma {:induction false} AttemptsContiguous(runs: map<RunId, Run>, first: RunId, last: RunId, n: nat)
    requires Chain(runs) && first in runs && last in runs && runs[first].key == runs[last].key
    requires runs[first].attempt <= n <= runs[last].attempt
    ensures HasAttempt(runs, runs[first].key, n)
    decreases n - runs[first].attempt
  {
    if n == runs[first].attempt {
      HasAttemptWitness(runs, first);
    } else {
      assert Ordered(runs[first], runs[last]);
      assert HasSuccessor(runs, first);
      var next :| next in runs && runs[next].key == runs[first].key && runs[next].attempt == runs[first].attempt + 1;
      AttemptsContiguous(runs, next, last, n);
    }
  }

  // ---------------------------------------------------------------- events and dead letters

  /** Every run of an event occurrence has its deduplication record, and the first attempt is the recorded run. */
  ghost predicate EventsAgree(runs: map<RunId, Run>, events: map<Key, EventRow>) {
    && (forall k | k in events :: k == Event(events[k].schedule, events[k].event.source, events[k].event.id))
    && (forall id | id in runs && runs[id].key.Event? ::
          && runs[id].key in events
          && (runs[id].attempt == 1 ==> events[runs[id].key].run == id))
  }

  predicate HasDeadLetter(dead: map<DeadId, DeadLetter>, run: RunId) {
    exists d | d in dead :: dead[d].run == run
  }

  /** A run is dead-lettered exactly when one dead letter records it. */
  ghost predicate DeadAgree(runs: map<RunId, Run>, dead: map<DeadId, DeadLetter>) {
    && (forall d | d in dead ::
          && dead[d].run in runs && runs[dead[d].run].status == DeadLettered
          && dead[d].schedule == runs[dead[d].run].schedule && dead[d].key == runs[dead[d].run].key)
    && (forall d, e | d in dead && e in dead && dead[d].run == dead[e].run :: d == e)
    && (forall id {:trigger HasDeadLetter(dead, id)} | id in runs && runs[id].status == DeadLettered ::
           HasDeadLetter(dead, id))
  }

  // ---------------------------------------------------------------- active occurrences

  lemma ActiveGrowsOnlyBy(before: Db, after: Db, schedule: ScheduleId, extra: set<Key>)
    requires forall id | id in after.runs && after.runs[id].schedule == schedule && Active(after.runs[id].status) ::
               after.runs[id].key in ActiveOccurrences(before, schedule) + extra
    requires forall k | k in after.jobs && after.jobs[k].schedule == schedule && Unresolved(after.jobs[k].status) ::
               k in ActiveOccurrences(before, schedule) + extra
    ensures ActiveOccurrences(after, schedule) <= ActiveOccurrences(before, schedule) + extra
  {
  }

  lemma RunIsActiveOccurrence(db: Db, id: RunId)
    requires id in db.runs && Active(db.runs[id].status)
    ensures db.runs[id].key in ActiveOccurrences(db, db.runs[id].schedule)
  {
  }

  /** An admitted claim leaves at most maxConcurrency active occurrences, and one unless overlap is allowed. */
  lemma AdmittedClaimFits(db: Db, after: Db, schedule: ScheduleId, key: Key, policy: Policy)
    requires PolicyAdmits(db, schedule, key, policy)
    requires ActiveOccurrences(after, schedule) <= ActiveOccurrences(db, schedule) + {key}
    ensures |ActiveOccurrences(after, schedule)| <= policy.maxConcurrency
    ensures policy.overlap != OverlapAllow ==> |ActiveOccurrences(after, schedule)| <= 1
  {
    var others := ActiveOccurrences(db, schedule) - {key};
    SubsetCardinality(ActiveOccurrences(after, schedule), others + {key});
  }

  // ---------------------------------------------------------------- listings

  lemma ListsOneMore(items: seq<Run>, ids: set<RunId>, runs: map<RunId, Run>, id: RunId)
    requires Rows(runs) && Lists(items, ids, runs) && id in runs && id !in ids
    ensures Lists(items + [runs[id]], ids + {id}, runs)
  {
    var after := items + [runs[id]];
    assert after[|items|] == runs[id];
    forall r | r in items ensures r in after && r.id in Ids(items) { }
    assert Ids(after) == ids + {id};
    forall i | 0 <= i < |items| ensures after[i].id != id {
      assert after[i] in items;
    }
  }

  lemma OrderedOneMore(items: seq<Run>, last: Run)
    requires InDueOrder(items) && forall r | r in items :: NotAfter(r, last)
    ensures InDueOrder(items + [last])
  {
    hide NotAfter;
    var after := items + [last];
    forall i, j | 0 <= i < j < |after| ensures NotAfter(after[i], after[j]) {
      if j == |items| { assert items[i] in items; }
    }
  }
}
