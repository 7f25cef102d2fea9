/** executeJob as one uninterrupted call: the loop the protocol's steps are cut from. */
module RemoteExecutor {
  import opened Domain
  import opened Ledger
  import opened LedgerInvariants
  import opened LedgerProofs
  import opened RemoteJob
  import Store

  /** The state of the execution context when a call returns. */
  datatype Context = Live | Canceled | DeadlineExceeded

  /** One observation: the HTTP code, the decoded response unless the call failed, and the context
      afterwards and after the following pause. */
  datatype Answer = Answer(code: Option<int>, response: Option<Response>, context: Context, paused: Context, now: Time)

  datatype Failure =
    | NotStored | Pruned | BadTarget | BadInterval | ReservedField | NoAnswer | Refused(reason: Rejection) | Interrupted
    | RemoteFailed(text: string) | RemoteCancelled

  /** executors.Result; the result JSON is the remote job itself. */
  datatype Outcome = Outcome(code: Option<int>, job: Option<ExternalJob>, error: Option<Failure>,
                             cancelled: bool, deferred: bool, terminalFailure: bool)

  function JobFailure(context: Context, failure: Failure, code: Option<int>): Outcome {
    Outcome(code, None, Some(failure), false, context == Canceled, context == DeadlineExceeded)
  }

  function Broken(failure: Failure, code: Option<int>): Outcome {
    Outcome(code, None, Some(failure), false, false, true)
  }

  function JobResult(job: ExternalJob, code: Option<int>): Outcome {
    var ok := Outcome(code, Some(job), None, false, false, false);
    match job.status
    case JobFailed => ok.(error := Some(RemoteFailed(if job.seen.error == "" then "external job failed"
      else job.seen.error)), terminalFailure := true)
    case JobCancelled => ok.(error := Some(RemoteCancelled), cancelled := true)
    case _ => ok
  }

  /** What the call guarantees about the checkpoint of its occurrence. */
  ghost predicate Advanced(before: map<Key, JobRow>, after: map<Key, JobRow>, key: Key) {
    && JobsAgree(after) && JobsEvolve(before, after)
    && (forall k | k in after && k != key :: k in before && after[k] == before[k])
  }

  /** The durable checkpoint is the job the execution holds, up to its refresh time. */
  predicate Durable(jobs: map<Key, JobRow>, key: Key, job: ExternalJob) {
    && key in jobs && jobs[key].status == job.status && jobs[key].checkpoint.jobId == job.jobId
    && jobs[key].snapshot == Frozen(job.target)
  }

  lemma NotAdvanced(jobs: map<Key, JobRow>, key: Key)
    requires JobsAgree(jobs)
    ensures Advanced(jobs, jobs, key)
  {
    JobsReflexive(jobs);
    hide JobsAgree, JobsEvolve;
  }

  lemma AdvancedAgain(first: map<Key, JobRow>, mid: map<Key, JobRow>, last: map<Key, JobRow>, key: Key)
    requires JobsAgree(first) && Advanced(first, mid, key) && Advanced(mid, last, key)
    ensures Advanced(first, last, key)
  {
    forall k | k in first ensures k in last && JobEvolves(first[k], last[k]) {
      JobEvolvesTransitive(first[k], mid[k], last[k]);
    }
    hide JobEvolves, JobRowAgrees;
  }

  lemma CheckpointAdvances(db: Db, run: Run, worker: WorkerId, token: Token, job: ExternalJob, now: Time)
    requires JobsAgree(db.jobs) && Checkpointable(job)
    ensures
      var tx := SaveExternalJob(db, run, worker, token, job, now);
      && Advanced(db.jobs, tx.db.jobs, run.key) && tx.db == db.(jobs := tx.db.jobs)
      && (tx.err.None? ==> Durable(tx.db.jobs, run.key, job))
  {
    hide LockRunLease, CheckpointConflict, JobsEvolve, JobsAgree;
    var tx := SaveExternalJob(db, run, worker, token, job, now);
    if tx.err.None? {
      if run.key in db.jobs {
        assert JobRowAgrees(db.jobs[run.key]) by { hide *; RowOfJobs(db.jobs, run.key); }
        AcceptedCheckpoint(db.jobs[run.key], job, now);
        SameSnapshot(db.jobs[run.key], job);
        hide JobRowAgrees, JobEvolves;
      }
      JobWrite(db.jobs, run.key, tx.db.jobs[run.key]);
    } else {
      NotAdvanced(db.jobs, run.key);
    }
  }

  lemma RowOfJobs(jobs: map<Key, JobRow>, key: Key)
    requires JobsAgree(jobs) && key in jobs
    ensures JobRowAgrees(jobs[key])
  {
    hide JobRowAgrees;
  }

  lemma SameSnapshot(row: JobRow, job: ExternalJob)
    requires CheckpointConflict(row, job.(canReconcile := job.ReconciliationAvailable())).None?
    ensures row.snapshot == Frozen(job.target)
  {
  }

  method Checkpoint(store: Store.Store, run: Run, worker: WorkerId, token: Token, job: ExternalJob, now: Time,
                    ghost first: map<Key, JobRow>)
    returns (err: Option<Error>)
    requires Checkpointable(job) && JobsAgree(first) && Advanced(first, store.jobs, run.key)
    modifies store
    ensures Advanced(first, store.jobs, run.key) && store.Db() == old(store.Db()).(jobs := store.jobs)
    ensures err.None? ==> Durable(store.jobs, run.key, job)
    ensures err.Some? ==> store.jobs == old(store.jobs)
    ensures Tx(store.Db(), err) == SaveExternalJob(old(store.Db()), run, worker, token, job, now)
  {
    ghost var mid := store.jobs;
    CheckpointAdvances(store.Db(), run, worker, token, job, now);
    RefusedCheckpoint(store.Db(), run, worker, token, job, now);
    hide SaveExternalJob, JobsAgree, JobsEvolve, Durable, JobEvolves;
    err := store.SaveExternalJob(run, worker, token, job, now);
    AdvancedAgain(first, mid, store.jobs, run.key);
  }

  lemma RefusedCheckpoint(db: Db, run: Run, worker: WorkerId, token: Token, job: ExternalJob, now: Time)
    ensures SaveExternalJob(db, run, worker, token, job, now).err.Some? ==>
              SaveExternalJob(db, run, worker, token, job, now).db == db
  {
    hide LockRunLease, CheckpointConflict;
  }

  /** Success and cancellation are reported only from a durable terminal status, never from an HTTP success
      alone; giving the run back is never also a final failure. */
  predicate Honest(outcome: Outcome, jobs: map<Key, JobRow>, key: Key) {
    && (outcome.error.None? <==> outcome.job.Some? && outcome.job.value.status == JobSucceeded)
    && (outcome.cancelled <==> outcome.job.Some? && outcome.job.value.status == JobCancelled)
    && (outcome.job.Some? ==>
          outcome.job.value.Terminal() && key in jobs && jobs[key].status == outcome.job.value.status)
    && (outcome.deferred ==> !outcome.terminalFailure && outcome.error.Some?)
  }

  // ---------------------------------------------------------------- how a call ends

  /** It gave up on a failed call, a refused checkpoint, or a context that ended before or between calls. */
  predicate Lost(outcome: Outcome) {
    outcome.error in {Some(NoAnswer), Some(NotStored), Some(Interrupted)}
  }

  /** It met something that no repetition mends. */
  predicate Wrong(outcome: Outcome) {
    outcome.error.Some?
    && (outcome.error.value.Refused? || outcome.error.value in {Pruned, BadTarget, BadInterval, ReservedField})
  }

  /** A worker that is being shut down hands the run back. A passed deadline, something wrong and a failed remote
      job are final. With a live context a lost answer or checkpoint is neither, so that it may be tried again. */
  predicate Classified(outcome: Outcome, context: Context) {
    && (outcome.deferred <==> Lost(outcome) && context == Canceled)
    && (outcome.terminalFailure <==>
          || (Lost(outcome) && context == DeadlineExceeded)
          || Wrong(outcome)
          || (outcome.error.Some? && outcome.error.value.RemoteFailed?))
  }

  /** What is reported of a terminal job. */
  predicate Reports(outcome: Outcome, status: JobStatus, seen: Observation) {
    && outcome.job.Some? && outcome.job.value.status == status && outcome.job.value.seen == seen
    && (status == JobSucceeded ==> outcome.error.None?)
    && (status == JobFailed ==>
          outcome.error == Some(RemoteFailed(if seen.error == "" then "external job failed" else seen.error)))
    && (status == JobCancelled ==> outcome.error == Some(RemoteCancelled) && outcome.cancelled)
  }

  predicate Ongoing(response: Response) { response.status == Some(Queued) || response.status == Some(JobRunning) }

  /** The checkpoint an answer leads to is refused by the ledger. */
  ghost predicate Unstorable(db: Db, run: Run, worker: WorkerId, token: Token, job: ExternalJob, a: Answer,
                             submitting: bool) {
    a.response.Some? && exists next: ExternalJob ::
      && next.jobId == (if submitting then a.response.value.jobId else job.jobId)
      && Some(next.status) == a.response.value.status && next.seen == a.response.value.seen
      && next.target == job.target && SaveExternalJob(db, run, worker, token, next, a.now).err.Some?
  }

  /** Where the polls of a job ended, and why. `used` answers came; every one but the last was well formed, said that
      the job goes on, and was followed by an undisturbed wait. */
  ghost predicate PollsEnd(db: Db, run: Run, worker: WorkerId, token: Token, job: ExternalJob, answers: seq<Answer>,
                           used: nat,
                     outcome: Outcome) {
    && used <= |answers| && (used == 0 <==> answers == [])
    && (forall i | 0 <= i < used - 1 ::
          && answers[i].response.Some? && WellFormed(job, answers[i].response.value, false)
          && Ongoing(answers[i].response.value) && answers[i].paused == Live)
    && (used == 0 ==> outcome.error == Some(Interrupted) && Classified(outcome, Canceled))
    && (used > 0 ==> LastAnswer(db, run, worker, token, job, answers[used - 1], used == |answers|, false, outcome))
  }

  /** What the last answer makes of the call: lost, refused, not stored, final, or the end of the wait after it. */
  ghost predicate LastAnswer(db: Db, run: Run, worker: WorkerId, token: Token, job: ExternalJob, a: Answer, none: bool,
                       submitting: bool, outcome: Outcome) {
    && (outcome.error == Some(NoAnswer) <==> a.response.None?)
    && (outcome.error.Some? && outcome.error.value.Refused? <==>
          a.response.Some? && !WellFormed(job, a.response.value, submitting))
    && (outcome.error == Some(NotStored) ==> Unstorable(db, run, worker, token, job, a, submitting))
    && (outcome.error == Some(Interrupted) ==>
          a.response.Some? && Ongoing(a.response.value) && (a.paused != Live || none))
    && (outcome.error in {Some(NoAnswer), Some(NotStored), Some(Interrupted)} || (outcome.error.Some?
          && outcome.error.value.Refused?)
        || (a.response.Some? && a.response.value.status.Some? && !Ongoing(a.response.value)
            && Reports(outcome, a.response.value.status.value, a.response.value.seen)))
    && (outcome.job.Some? ==>
          && a.response.Some? && outcome.job.value.target == job.target
          && outcome.job.value.jobId == (if submitting then a.response.value.jobId else job.jobId))
    && !(outcome.error in {Some(Pruned), Some(BadTarget), Some(BadInterval), Some(ReservedField)})
    && outcome.code == (if outcome.error == Some(Interrupted) then None else a.code)
    && Classified(outcome, if outcome.error != Some(Interrupted) then a.context
                           else if a.paused != Live then a.paused else Canceled)
  }

  /** How the one request and the polls after it ended. */
  ghost predicate RequestEnds(db: Db, run: Run, worker: WorkerId, token: Token, intent: ExternalJob,
                              answers: seq<Answer>,
                              used: nat, outcome: Outcome) {
    if answers == [] then used == 0 && outcome.error == Some(NoAnswer) && Classified(outcome, Canceled)
    else
      var a := answers[0];
      if a.response.None? || !WellFormed(intent, a.response.value, true) || !Ongoing(a.response.value)
         || (used == 1 && outcome.error == Some(NotStored))
      then used == 1 && outcome.error != Some(Interrupted)
           && LastAnswer(db, run, worker, token, intent, a, false, true, outcome)
      else used > 0
           && PollsEnd(db, run, worker, token,
                       intent.(jobId := a.response.value.jobId, statusUrl := a.response.value.statusUrl),
                       answers[1..], used - 1, outcome)
  }

  predicate SpellsPost(verb: string) {
    |verb| == 4 && forall i | 0 <= i < 4 :: verb[i] in {"POST"[i], "post"[i]}
  }

  /** How a call ended that worked from this checkpoint. Nothing is sent for a job that is over, pruned or cut off
      before its request, for a target that is no POST to a job runner or is polled outside 1 to 300 seconds (5 by
      default), for a known job, or over the event's reserved field; else the frozen body goes out once. */
  ghost predicate CallEnds(db: Db, run: Run, worker: WorkerId, token: Token, job: ExternalJob, event: Option<EventData>,
                           context: Context, answers: seq<Answer>, used: nat, outcome: Outcome, posts: seq<Request>) {
    var target := job.target;
    if job.status in {JobSucceeded, JobFailed, JobCancelled} then
      used == 0 && posts == [] && !Lost(outcome) && !Wrong(outcome) && Reports(outcome, job.status, job.seen)
      && outcome.job == Some(job)
      && Classified(outcome, context)
    else if job.compacted then Stops(outcome, posts, used, Pruned, Live)
    else if context != Live then Stops(outcome, posts, used, Interrupted, context)
    else if target.kind != HttpKind || target.httpJob.None? || !SpellsPost(target.verb) then
      Stops(outcome, posts, used, BadTarget, Live)
    else if target.httpJob.value.pollIntervalSeconds != 0
      && !(1 <= target.httpJob.value.pollIntervalSeconds <= 300) then
      Stops(outcome, posts, used, BadInterval, Live)
    else if job.jobId != "" then posts == [] && PollsEnd(db, run, worker, token, job, answers, used, outcome)
    else if event.Some? && EVENT_FIELD in target.body then Stops(outcome, posts, used, ReservedField, Live)
    else posts == [Request(target.body, event)] && RequestEnds(db, run, worker, token, job, answers, used, outcome)
  }

  /** The submission intent: nothing is known of the remote job yet but what was asked for, and until when. */
  predicate Intended(job: ExternalJob, started: Time, timeoutSeconds: int, target: Target) {
    && job.jobId == "" && job.statusUrl == "" && job.status == Submitting && !job.compacted && job.target == target
    && job.submittedAt == started && job.deadlineAt == started + timeoutSeconds * 1_000_000_000
  }

  predicate Stops(outcome: Outcome, posts: seq<Request>, used: nat, failure: Failure, context: Context) {
    used == 0 && posts == [] && outcome.error == Some(failure) && outcome.job.None? && Classified(outcome, context)
  }

  // ---------------------------------------------------------------- what the call computes

  datatype Executed = Executed(db: Db, outcome: Outcome, posts: seq<Request>)

  /** The polling loop over the answers still to come. */
  function Polled(db: Db, run: Run, worker: WorkerId, token: Token, job: ExternalJob, answers: seq<Answer>): Executed
    decreases |answers|
  {
    if answers == [] then Executed(db, JobFailure(Canceled, Interrupted, None), [])
    else
      var a := answers[0];
      if a.response.None? then Executed(db, JobFailure(a.context, NoAnswer, a.code), [])
      else
        match ApplyJobResponse(job, a.response.value, false, a.now)
        case Rejected(reason) => Executed(db, Broken(Refused(reason), a.code), [])
        case Applied(next) =>
          var tx := SaveExternalJob(db, run, worker, token, next, a.now);
          if tx.err.Some? then Executed(tx.db, JobFailure(a.context, NotStored, a.code), [])
          else if next.Terminal() then Executed(tx.db, JobResult(next, a.code), [])
          else if a.paused != Live then Executed(tx.db, JobFailure(a.paused, Interrupted, None), [])
          else Polled(tx.db, run, worker, token, next, answers[1..])
  }

  /** The answer to the one submission. */
  function Answered(db: Db, run: Run, worker: WorkerId, token: Token, intent: ExternalJob,
                    answers: seq<Answer>): Executed {
    if answers == [] then Executed(db, JobFailure(Canceled, NoAnswer, None), [])
    else
      var a := answers[0];
      if a.response.None? then Executed(db, JobFailure(a.context, NoAnswer, a.code), [])
      else
        match ApplyJobResponse(intent, a.response.value, true, a.now)
        case Rejected(reason) => Executed(db, Broken(Refused(reason), a.code), [])
        case Applied(next) =>
          var tx := SaveExternalJob(db, run, worker, token, next, a.now);
          if tx.err.Some? then Executed(tx.db, JobFailure(a.context, NotStored, a.code), [])
          else if next.Terminal() then Executed(tx.db, JobResult(next, a.code), [])
          else Polled(tx.db, run, worker, token, next, answers[1..])
  }

  /** The checkpoint the call works from: the loaded one, or the new intent if it could be stored. */
  function Begun(db: Db, run: Run, worker: WorkerId, token: Token, target: Target, timeoutSeconds: int,
                 loaded: Option<ExternalJob>, now: Time): (Tx, ExternalJob) {
    if loaded.Some? then (Tx(db, None), loaded.value)
    else
      var intent := Intent(if run.startedAt.Some? then run.startedAt.value else now, timeoutSeconds, target);
      (SaveExternalJob(db, run, worker, token, intent, now), intent)
  }

  /** Exactly when the call submits. */
  predicate Submits(begun: (Tx, ExternalJob), event: Option<EventData>, context: Context) {
    && begun.0.err.None? && !begun.1.Terminal() && !begun.1.compacted && begun.1.jobId == "" && context == Live
    && Submittable(begun.1.target) && Payload(begun.1.target.body, event).Some?
  }

  function Execution(begun: (Tx, ExternalJob), run: Run, worker: WorkerId, token: Token,
                     event: Option<EventData>, context: Context, answers: seq<Answer>): Executed {
    var db, job := begun.0.db, begun.1;
    if begun.0.err.Some? then Executed(db, JobFailure(context, NotStored, None), [])
    else if job.Terminal() then Executed(db, JobResult(job, None), [])
    else if job.compacted then Executed(db, Broken(Pruned, None), [])
    else if context != Live then Executed(db, JobFailure(context, Interrupted, None), [])
    else if job.target.kind != HttpKind || job.target.httpJob.None? || !IsPost(job.target.verb) then Executed(db,
      Broken(BadTarget, None), [])
    else if !PollsInTime(job.target.httpJob.value) then Executed(db, Broken(BadInterval, None), [])
    else if job.jobId != "" then Polled(db, run, worker, token, job, answers)
    else
      match Payload(job.target.body, event)
      case None => Executed(db, Broken(ReservedField, None), [])
      case Some(request) => Answered(db, run, worker, token, job, answers).(posts := [request])
  }

  /** Observe and checkpoint until the runner reports a terminal status or something gives way. */
  method PollJob(store: Store.Store, run: Run, worker: WorkerId, token: Token, known: ExternalJob, answers: seq<Answer>,
                 ghost first: map<Key, JobRow>)
    returns (outcome: Outcome, ghost used: nat)
    requires JobsAgree(first) && Advanced(first, store.jobs, run.key)
    requires known.jobId != "" && Checkpointable(known) && run.key in store.jobs
    modifies store
    ensures store.Db() == old(store.Db()).(jobs := store.jobs) && Advanced(first, store.jobs, run.key)
    ensures Honest(outcome, store.jobs, run.key) && run.key in store.jobs
    ensures Executed(store.Db(), outcome, []) == Polled(old(store.Db()), run, worker, token, known, answers)
    ensures PollsEnd(store.Db(), run, worker, token, known, answers, used, outcome)
  {
    hide JobsAgree, JobsEvolve, ApplyJobResponse, Advanced, SaveExternalJob, PollsEnd;
    used := PolledEnds(store.Db(), run, worker, token, known, answers);
    var job := known;
    assert answers[0..] == answers;
    for k := 0 to |answers|
      invariant Polled(store.Db(), run, worker, token, job, answers[k..]) == Polled(old(store.Db()), run, worker, token,
                known, answers)
      invariant store.Db() == old(store.Db()).(jobs := store.jobs) && Advanced(first, store.jobs, run.key)
      invariant job.jobId != "" && Checkpointable(job) && run.key in store.jobs
    {
      var a := answers[k];
      assert answers[k..][0] == a && answers[k..][1..] == answers[k + 1..];
      if a.response.None? {
        outcome := JobFailure(a.context, NoAnswer, a.code);
        return;
      }
      var applied := ApplyJobResponse(job, a.response.value, false, a.now);
      if applied.Rejected? {
        outcome := Broken(Refused(applied.reason), a.code);
        return;
      }
      AppliedResponse(job, a.response.value, false, a.now);
      job := applied.job;
      var err := Checkpoint(store, run, worker, token, job, a.now, first);
      if err.Some? {
        outcome := JobFailure(a.context, NotStored, a.code);
        return;
      }
      if job.Terminal() {
        outcome := JobResult(job, a.code);
        return;
      }
      if a.paused != Live {
        outcome := JobFailure(a.paused, Interrupted, None);
        return;
      }
    }
    outcome := JobFailure(Canceled, Interrupted, None);
  }

  lemma SamePolls(db: Db, run: Run, worker: WorkerId, token: Token, job: ExternalJob, next: ExternalJob)
    requires next.jobId == job.jobId && next.statusUrl == job.statusUrl && next.target == job.target
    ensures forall r :: WellFormed(next, r, false) <==> WellFormed(job, r, false)
    ensures forall a :: Unstorable(db, run, worker, token, next, a, false) <==>
              Unstorable(db, run, worker, token, job, a, false)
  {
    hide SaveExternalJob;
  }

  /** An accepted answer that the ledger refuses to store. */
  lemma NotStoredMeans(db: Db, run: Run, worker: WorkerId, token: Token, job: ExternalJob, a: Answer, submitting: bool)
    requires Checkpointable(job) && (submitting <==> job.jobId == "") && a.response.Some?
    requires ApplyJobResponse(job, a.response.value, submitting, a.now).Applied?
    requires
      var next := ApplyJobResponse(job, a.response.value, submitting, a.now).job;
      SaveExternalJob(db, run, worker, token, next, a.now).err.Some?
    ensures Unstorable(db, run, worker, token, job, a, submitting)
    ensures SaveExternalJob(db, run, worker, token, ApplyJobResponse(job, a.response.value, submitting, a.now).job,
              a.now).db == db
  {
    var next := ApplyJobResponse(job, a.response.value, submitting, a.now).job;
    AppliedResponse(job, a.response.value, submitting, a.now);
    AcceptedIff(job, a.response.value, submitting, a.now);
    RefusedCheckpoint(db, run, worker, token, next, a.now);
    hide SaveExternalJob, ApplyJobResponse, WellFormed;
  }

  /** The cases in which one answer ends the polls. */
  lemma PollEndsHere(db: Db, run: Run, worker: WorkerId, token: Token, job: ExternalJob, answers: seq<Answer>)
    requires job.jobId != "" && Checkpointable(job) && answers != []
    requires
      var a := answers[0];
      a.response.None? || ApplyJobResponse(job, a.response.value, false, a.now).Rejected?
      || var next := ApplyJobResponse(job, a.response.value, false, a.now).job;
         SaveExternalJob(db, run, worker, token, next, a.now).err.Some? || next.Terminal() || a.paused != Live
         || |answers| == 1
    ensures
      var end := Polled(db, run, worker, token, job, answers);
      LastAnswer(end.db, run, worker, token, job, answers[0], |answers| == 1, false, end.outcome)
  {
    hide SaveExternalJob, ApplyJobResponse, WellFormed, Unstorable;
    var a := answers[0];
    if a.response.Some? {
      AcceptedIff(job, a.response.value, false, a.now);
      var applied := ApplyJobResponse(job, a.response.value, false, a.now);
      if applied.Applied? {
        AppliedResponse(job, a.response.value, false, a.now);
        if SaveExternalJob(db, run, worker, token, applied.job, a.now).err.Some? {
          NotStoredMeans(db, run, worker, token, job, a, false);
        }
        assert Polled(SaveExternalJob(db, run, worker, token, applied.job, a.now).db, run, worker, token, applied.job,
          [])
               == Executed(SaveExternalJob(db, run, worker, token, applied.job, a.now).db,
                           JobFailure(Canceled, Interrupted, None), []);
      }
    }
  }

  lemma {:induction false} PolledEnds(db: Db, run: Run, worker: WorkerId, token: Token, job: ExternalJob,
                                      answers: seq<Answer>) returns (used: nat)
    requires job.jobId != "" && Checkpointable(job)
    ensures
      var end := Polled(db, run, worker, token, job, answers);
      PollsEnd(end.db, run, worker, token, job, answers, used, end.outcome)
    decreases |answers|
  {
    hide SaveExternalJob, ApplyJobResponse, WellFormed, LastAnswer, Unstorable;
    if answers == [] {
      used := 0;
    } else {
      var a := answers[0];
      used := 1;
      if a.response.Some? && ApplyJobResponse(job, a.response.value, false, a.now).Applied? {
        AcceptedIff(job, a.response.value, false, a.now);
        AppliedResponse(job, a.response.value, false, a.now);
        var next := ApplyJobResponse(job, a.response.value, false, a.now).job;
        var tx := SaveExternalJob(db, run, worker, token, next, a.now);
        if tx.err.None? && !next.Terminal() && a.paused == Live && |answers| > 1 {
          var more := PolledEnds(tx.db, run, worker, token, next, answers[1..]);
          used := more + 1;
          SamePolls(Polled(tx.db, run, worker, token, next, answers[1..]).db, run, worker, token, job, next);
          SameLast(Polled(tx.db, run, worker, token, next, answers[1..]), run, worker, token, job, next,
            answers[more], |answers[1..]| == more);
          return;
        }
      }
      PollEndsHere(db, run, worker, token, job, answers);
    }
  }

  lemma SameLast(end: Executed, run: Run, worker: WorkerId, token: Token, job: ExternalJob, next: ExternalJob,
                 a: Answer,
                 none: bool)
    requires next.jobId == job.jobId && next.statusUrl == job.statusUrl && next.target == job.target
    ensures LastAnswer(end.db, run, worker, token, next, a, none, false, end.outcome) <==>
              LastAnswer(end.db, run, worker, token, job, a, none, false, end.outcome)
  {
    SamePolls(end.db, run, worker, token, job, next);
    hide WellFormed, Unstorable;
  }

  lemma AnsweredEnds(db: Db, run: Run, worker: WorkerId, token: Token, intent: ExternalJob, answers: seq<Answer>)
    returns (used: nat)
    requires intent.jobId == "" && Checkpointable(intent)
    ensures
      var end := Answered(db, run, worker, token, intent, answers);
      RequestEnds(end.db, run, worker, token, intent, answers, used, end.outcome)
  {
    hide SaveExternalJob, ApplyJobResponse, WellFormed, Unstorable, Polled, PollsEnd;
    used := if answers == [] then 0 else 1;
    if answers != [] && answers[0].response.Some? {
      var a := answers[0];
      AcceptedIff(intent, a.response.value, true, a.now);
      var applied := ApplyJobResponse(intent, a.response.value, true, a.now);
      if applied.Applied? {
        AppliedResponse(intent, a.response.value, true, a.now);
        var tx := SaveExternalJob(db, run, worker, token, applied.job, a.now);
        if tx.err.Some? {
          NotStoredMeans(db, run, worker, token, intent, a, true);
        } else if !applied.job.Terminal() {
          var more := PolledEnds(tx.db, run, worker, token, applied.job, answers[1..]);
          used := more + 1;
          var end := Polled(tx.db, run, worker, token, applied.job, answers[1..]);
          SamePollsEnd(end, run, worker, token, applied.job,
            intent.(jobId := a.response.value.jobId, statusUrl := a.response.value.statusUrl), answers[1..], more);
          NotRefusedAtOnce(end, run, worker, token, applied.job, answers[1..], more);
        }
      }
    }
  }

  lemma SamePollsEnd(end: Executed, run: Run, worker: WorkerId, token: Token, job: ExternalJob, next: ExternalJob,
                     answers: seq<Answer>, used: nat)
    requires next.jobId == job.jobId && next.statusUrl == job.statusUrl && next.target == job.target
    requires PollsEnd(end.db, run, worker, token, job, answers, used, end.outcome)
    ensures PollsEnd(end.db, run, worker, token, next, answers, used, end.outcome)
  {
    hide LastAnswer, WellFormed, Unstorable;
    SamePolls(end.db, run, worker, token, job, next);
    if used > 0 { SameLast(end, run, worker, token, job, next, answers[used - 1], used == |answers|); }
  }

  lemma NotRefusedAtOnce(end: Executed, run: Run, worker: WorkerId, token: Token, job: ExternalJob,
                         answers: seq<Answer>,
                         used: nat)
    requires PollsEnd(end.db, run, worker, token, job, answers, used, end.outcome)
    ensures used == 0 ==> end.outcome.error == Some(Interrupted)
  {
    hide LastAnswer, WellFormed;
  }

  lemma PostSpelling(verb: string)
    ensures IsPost(verb) <==> SpellsPost(verb)
  {
  }

  lemma ExecutionEnds(begun: (Tx, ExternalJob), run: Run, worker: WorkerId, token: Token, event: Option<EventData>,
                      context: Context, answers: seq<Answer>) returns (used: nat)
    requires begun.0.err.None? && (begun.1.compacted || Checkpointable(begun.1))
    ensures
      var end := Execution(begun, run, worker, token, event, context, answers);
      CallEnds(end.db, run, worker, token, begun.1, event, context, answers, used, end.outcome, end.posts)
  {
    hide Polled, Answered, PollsEnd, RequestEnds, SpellsPost, IsPost;
    PostSpelling(begun.1.target.verb);
    used := 0;
    var db, job := begun.0.db, begun.1;
    if Submits(begun, event, context) {
      used := AnsweredEnds(db, run, worker, token, job, answers);
    } else if !job.Terminal() && !job.compacted && context == Live && Submittable(job.target) && job.jobId != "" {
      used := PolledEnds(db, run, worker, token, job, answers);
      NoPostWhilePolling(db, run, worker, token, job, answers);
    }
  }

  /** The call submits exactly when its intent or checkpoint is durable, unresolved and without a job id, and
      then once, with the frozen body and event. A known job id is never submitted again. */
  lemma SubmitsIff(begun: (Tx, ExternalJob), run: Run, worker: WorkerId, token: Token,
                   event: Option<EventData>, context: Context, answers: seq<Answer>)
    ensures
      var posts := Execution(begun, run, worker, token, event, context, answers).posts;
      && (posts != [] <==> Submits(begun, event, context))
      && |posts| <= 1 && (posts != [] ==> begun.1.jobId == "" && Some(posts[0]) == Payload(begun.1.target.body, event))
  {
    NoPostWhilePolling(begun.0.db, run, worker, token, begun.1, answers);
    hide Polled, Answered;
  }

  lemma {:induction false} NoPostWhilePolling(db: Db, run: Run, worker: WorkerId, token: Token, job: ExternalJob,
                                              answers: seq<Answer>)
    ensures Polled(db, run, worker, token, job, answers).posts == []
    decreases |answers|
  {
    hide SaveExternalJob, ApplyJobResponse;
    if answers != [] && answers[0].response.Some? {
      var applied := ApplyJobResponse(job, answers[0].response.value, false, answers[0].now);
      if applied.Applied? {
        NoPostWhilePolling(SaveExternalJob(db, run, worker, token, applied.job, answers[0].now).db, run, worker, token,
          applied.job, answers[1..]);
      }
    }
  }

  /** executeJob with nothing in between: the intent first, then at most one request, then polls, each observation
      checkpointed before the next step. */
  method ExecuteJob(store: Store.Store, run: Run, worker: WorkerId, token: Token, target: Target, timeoutSeconds: int,
                    loaded: Option<ExternalJob>, event: Option<EventData>, context: Context, now: Time,
                    answers: seq<Answer>)
    returns (outcome: Outcome, posts: seq<Request>, ghost used: nat, ghost from: ExternalJob)
    requires JobsAgree(store.jobs) && loaded == GetExternalJob(store.Db(), run.key)
    modifies store
    ensures store.Db() == old(store.Db()).(jobs := store.jobs) && Advanced(old(store.jobs), store.jobs, run.key)
    ensures Executed(store.Db(), outcome, posts)
            == Execution(Begun(old(store.Db()), run, worker, token, target, timeoutSeconds, loaded, now), run, worker,
              token, event, context, answers)
    ensures Honest(outcome, store.jobs, run.key)
    ensures outcome.error != Some(NotStored) ==> run.key in store.jobs
    ensures if loaded.Some? then from == loaded.value
            else Intended(from, if run.startedAt.Some? then run.startedAt.value else now, timeoutSeconds, target)
    ensures loaded.None? && run.key in store.jobs ==>
              && store.jobs[run.key].checkpoint.submittedAt == from.submittedAt
              && store.jobs[run.key].checkpoint.deadlineAt == from.deadlineAt
    ensures if loaded.None? && run.key !in store.jobs then Stops(outcome, posts, used, NotStored, context)
            else CallEnds(store.Db(), run, worker, token, from, event, context, answers, used, outcome, posts)
  {
    hide JobsAgree, JobsEvolve, ApplyJobResponse, JobRowAgrees, SaveExternalJob, Polled, Answered, Execution, CallEnds;
    posts := [];
    ghost var first := store.jobs;
    NotAdvanced(first, run.key);
    LoadedFacts(store.Db(), run.key);
    hide Advanced, GetExternalJob;
    var job: ExternalJob;
    ghost var mid := first;
    if loaded.None? {
      var started := if run.startedAt.Some? then run.startedAt.value else now;
      job := Intent(started, timeoutSeconds, target);
      from := job;
      var err := Checkpoint(store, run, worker, token, job, now, first);
      if err.Some? {
        outcome, used := JobFailure(context, NotStored, None), 0;
        RefusedIntent(Begun(old(store.Db()), run, worker, token, target, timeoutSeconds, loaded, now), run, worker,
          token,
          event, context, answers);
        return;
      }
      mid := store.jobs;
      StoredIntent(old(store.Db()), run, worker, token, job, now);
      AdvancedAgain(first, first, mid, run.key);
    } else {
      job := loaded.value;
      from := job;
    }
    AdvancedAgrees(first, mid, run.key);
    outcome, posts, used := Proceed(store, run, worker, token, job, event, context, answers, mid);
    AdvancedAgain(first, mid, store.jobs, run.key);
    OrderKept(mid, store.jobs, run.key);
  }

  lemma RefusedIntent(begun: (Tx, ExternalJob), run: Run, worker: WorkerId, token: Token, event: Option<EventData>,
                      context: Context, answers: seq<Answer>)
    requires begun.0.err.Some?
    ensures Execution(begun, run, worker, token, event, context, answers)
            == Executed(begun.0.db, JobFailure(context, NotStored, None), [])
  {
  }

  lemma StoredIntent(db: Db, run: Run, worker: WorkerId, token: Token, job: ExternalJob, now: Time)
    requires SaveExternalJob(db, run, worker, token, job, now).err.None?
    ensures
      var jobs := SaveExternalJob(db, run, worker, token, job, now).db.jobs;
      && run.key in jobs && jobs[run.key].checkpoint.submittedAt == job.submittedAt
      && jobs[run.key].checkpoint.deadlineAt == job.deadlineAt
  {
    hide LockRunLease;
  }

  lemma AdvancedAgrees(before: map<Key, JobRow>, after: map<Key, JobRow>, key: Key)
    requires Advanced(before, after, key)
    ensures JobsAgree(after) && Advanced(after, after, key)
  {
    NotAdvanced(after, key);
    hide JobsAgree, JobsEvolve;
  }

  lemma OrderKept(before: map<Key, JobRow>, after: map<Key, JobRow>, key: Key)
    requires Advanced(before, after, key) && key in before
    ensures key in after && after[key].checkpoint.submittedAt == before[key].checkpoint.submittedAt
            && after[key].checkpoint.deadlineAt == before[key].checkpoint.deadlineAt
  {
    hide JobsAgree, SameResult;
  }

  /** From the durable checkpoint on. */
  method Proceed(store: Store.Store, run: Run, worker: WorkerId, token: Token, job: ExternalJob,
                 event: Option<EventData>, context: Context, answers: seq<Answer>, ghost first: map<Key, JobRow>)
    returns (outcome: Outcome, posts: seq<Request>, ghost used: nat)
    requires JobsAgree(first) && Advanced(first, store.jobs, run.key) && run.key in store.jobs
    requires (job.compacted ==> job.Terminal()) && (job.jobId == "" <==> job.status == Submitting)
    requires store.jobs[run.key].status == job.status
    modifies store
    ensures store.Db() == old(store.Db()).(jobs := store.jobs) && Advanced(first, store.jobs, run.key)
    ensures Executed(store.Db(), outcome, posts)
            == Execution((Tx(old(store.Db()), None), job), run, worker, token, event, context, answers)
    ensures Honest(outcome, store.jobs, run.key) && run.key in store.jobs
    ensures CallEnds(store.Db(), run, worker, token, job, event, context, answers, used, outcome, posts)
  {
    hide JobsAgree, JobsEvolve, ApplyJobResponse, JobRowAgrees, SaveExternalJob, Polled, Answered, CallEnds, Advanced,
         PollsEnd, RequestEnds;
    used := ExecutionEnds((Tx(store.Db(), None), job), run, worker, token, event, context, answers);
    posts := [];
    if job.Terminal() {
      outcome := JobResult(job, None);
      return;
    }
    if job.compacted {
      outcome := Broken(Pruned, None);
      return;
    }
    if context != Live {
      outcome := JobFailure(context, Interrupted, None);
      return;
    }
    if job.target.kind != HttpKind || job.target.httpJob.None? || !IsPost(job.target.verb) {
      outcome := Broken(BadTarget, None);
      return;
    }
    if !PollsInTime(job.target.httpJob.value) {
      outcome := Broken(BadInterval, None);
      return;
    }
    ghost var more;
    if job.jobId == "" {
      var payload := Payload(job.target.body, event);
      if payload.None? {
        outcome := Broken(ReservedField, None);
        return;
      }
      posts := [payload.value];
      outcome, more := Submission(store, run, worker, token, job, answers, first);
    } else {
      outcome, more := PollJob(store, run, worker, token, job, answers, first);
    }
  }

  /** The answer to the one request, and the polling that follows it. */
  method Submission(store: Store.Store, run: Run, worker: WorkerId, token: Token, intent: ExternalJob,
                    answers: seq<Answer>,
                    ghost first: map<Key, JobRow>)
    returns (outcome: Outcome, ghost used: nat)
    requires JobsAgree(first) && Advanced(first, store.jobs, run.key)
    requires intent.jobId == "" && Checkpointable(intent) && run.key in store.jobs
    modifies store
    ensures store.Db() == old(store.Db()).(jobs := store.jobs) && Advanced(first, store.jobs, run.key)
    ensures Honest(outcome, store.jobs, run.key) && run.key in store.jobs
    ensures Executed(store.Db(), outcome, []) == Answered(old(store.Db()), run, worker, token, intent, answers)
    ensures RequestEnds(store.Db(), run, worker, token, intent, answers, used, outcome)
  {
    hide JobsAgree, JobsEvolve, ApplyJobResponse, Advanced, SaveExternalJob, Polled, RequestEnds;
    used := AnsweredEnds(store.Db(), run, worker, token, intent, answers);
    if answers == [] {
      outcome := JobFailure(Canceled, NoAnswer, None);
      return;
    }
    var a := answers[0];
    if a.response.None? {
      outcome := JobFailure(a.context, NoAnswer, a.code);
      return;
    }
    var applied := ApplyJobResponse(intent, a.response.value, true, a.now);
    if applied.Rejected? {
      outcome := Broken(Refused(applied.reason), a.code);
      return;
    }
    AppliedResponse(intent, a.response.value, true, a.now);
    var job := applied.job;
    var err := Checkpoint(store, run, worker, token, job, a.now, first);
    if err.Some? {
      outcome := JobFailure(a.context, NotStored, a.code);
      return;
    }
    if job.Terminal() {
      outcome := JobResult(job, a.code);
      return;
    }
    ghost var more;
    outcome, more := PollJob(store, run, worker, token, job, answers[1..], first);
  }

  lemma LoadedFacts(db: Db, key: Key)
    requires JobsAgree(db.jobs)
    ensures
      var loaded := GetExternalJob(db, key);
      && (loaded.None? <==> key !in db.jobs)
      && (loaded.Some? ==>
            && loaded.value.status == db.jobs[key].status
            && (loaded.value.jobId == "" <==> loaded.value.status == Submitting)
            && (loaded.value.compacted ==> loaded.value.Terminal()))
  {
    if key in db.jobs { assert JobRowAgrees(db.jobs[key]); }
  }
}
