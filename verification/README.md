# Wakeplane: a verified model of the run ledger, remote jobs, planner and job runner

Wakeplane stores every scheduled occurrence as a row in a ledger, lets any number of workers claim rows under
leases, tracks long jobs that run on another machine, and recovers from crashes by letting leases expire. This
project models that system in Dafny 4.11 and proves what its code, comments and documentation promise. Run
`dafny verify dfyconfig.toml`. Nothing here was executed against the program; the proofs are about the model.

How it is organised:

- **Ledger** (`Domain`, `Ledger`, `Store`): the tables, and each database transaction as a function from tables to
  tables. Class `Store` is the mutable form; every method is proved equal to its transaction function, loops
  included. `LedgerRuns` lets clocks, readers, planners, workers with stale rows and stale tokens, heartbeats,
  recovery, operators and retention take single transactions in any order. `LedgerInvariants` and `LedgerProofs`
  show what every step keeps; `LedgerTheorems` and `RunStates` state the promises over whole runs. `LedgerRules` says
  what each transaction grants, refuses and writes in terms of the tables it finds. `LedgerLimits` and
  `LedgerExamples` show where the promises end: an exact condition, and runs of the machine that reach each limit.
- **Dispatcher** (`Outcome`, `Queue`, `Dispatcher`): recovery, queue coalescing and claiming as loops over a
  `Store`. The dispatcher keeps a ghost history that is proved to be a run of the ledger machine, so every ledger
  theorem holds of it.
- **Remote jobs** (`RemoteJob`, `RemoteExecutor`, `RemoteProtocol`, `RemoteProofs`, `RemoteTheorems`, `RemoteCalls`):
  what a runner's answer may change, `executeJob` as one call, the protocol of executors, ledger, a wire that delays,
  repeats and loses messages, and a runner whose writes can fail half way; and every call as a path of that protocol.
- **Job runner** (`Runner`, `RunnerProofs`, `RunnerTheorems`, `RunnerProcess`, `RunnerOutcomes`, `RunnerRefinement`,
  `RunnerComposition`): the job map, state file, queue, workers and the notification loop across crashes and restarts; its methods; and its
  composition with the protocol: every move of the runner is a step the protocol allows its runner, so the protocol's
  promises hold of this one. `RunnerPaths` says what one worker may rely on while everyone else moves.
- **Planner and time** (`Timecalc`, `Planner`, `PlannerTheorems`, `PlannerChoices`, `PlannerProcess`, `PlannerLedger`,
  `PlannerRuns`): the next slot of a schedule, ticks that may die after any insert, which slots they choose to run, and
  the planner inside the ledger machine, its inserts interleaved with everyone else's transactions.
- **Text and pages** (`Timestamps`, `Cursors`, `Pagination`): stored RFC 3339 text, its comparison form, page cursors
  as text, and keyset pages.

Findings, each stated and proved as an exact condition or a concrete run:

- `run_once_if_late` is documented to run exactly one occurrence, the most recent overdue one
  (`docs/public/policies.md:79-83`). Among the slots a tick finds due, that holds exactly when none before the last was
  chosen earlier and the last was not skipped earlier (`PlannerChoices.RunsOnceIff`). A restart after a crash between
  an insert and the NextRunAt write need not meet the condition (`PlannerChoices.CrashReplay`). The crash adds no run,
  though: interrupted ticks choose no occurrence that the same ticks, run to their end, would not
  (`PlannerChoices.InterruptionChoosesNoExtra`); a crash before the insert can only lose one.
- The queue skip ends in the unfenced `FinishRun`. With one dispatcher the listing and the skip are one step. A second
  dispatcher may come between: the skip is then legal exactly when the stored row still waits, has no remote job and
  has the first start that was listed (`LedgerLimits.StaleSkipIsLegalIff`). `LedgerExamples.StaleSkipEndsRunningAttempt`
  is a run in which it ends a live lease and a running attempt, `LedgerExamples.StaleSkipErasesStart` one in which it
  erases a first start.
- Finishing writes `started_at` from the finisher's own row (`internal/store/external_jobs.go:210`). The first start
  survives a step exactly when that is not an accepted finish from a row older than it that fills in another
  (`RunStates.RunTransitions`); `LedgerExamples.StaleReportMovesStart` is a run in which one does.
- A planner replay after retention removed attempt 1 but not attempt 2 adds a second first attempt:
  `LedgerExamples.ReplayAfterRetention` is such a run, `LedgerTheorems.InsertKeepsChainIff` the exact guard, and
  `PlannerLedger.PlannedRowsAreAllowed` shows that only retention can break it.
- A write of the runner's state file can fail after its rename took effect, so the file may be ahead of memory. The
  promises hold all the same; the model has that outcome.
- `docs/run-states.md` says that only the planner skips runs. Queue coalescing skips waiting runs too
  (`internal/dispatcher/dispatcher.go:212-224`); the model follows the code.

## Model

| member | source | states |
|---|---|---|
| Store.Store.ClaimRunWithToken | internal/store/store.go:652-726 | a claim is the transaction that LedgerRules.ClaimGrantedIff describes: granted to exactly the waiting runs that are alone on their occurrence and fit the policy, with a new lease |
| LedgerRules.ClaimGrantedIff | internal/store/store.go:652-726 | a run is claimed exactly when it waits, belongs to the schedule, no other attempt of its occurrence is active, and the other active occurrences are none with maxConcurrency at least one, or fewer than maxConcurrency where overlap is allowed; it then has one lease of ttl from now, and nothing else changes |
| LedgerRules.NeverOverbooked | internal/store/store.go:688-704 | in every reachable state any set of occurrences with a claimed or running attempt or an open remote job has at most maxConcurrency members, and at most one unless overlap is allowed |
| LedgerRules.LeaseHolds | internal/store/external_jobs.go:282-299 | in any run, until the clock reaches the end of a lease, only somebody presenting its token changes the lease or the row |
| LedgerInvariants.UpsertReplacesToken | internal/store/store.go:728-748 | replacing a run's lease under a new token ends the token it had and no other, and tokens still name one run each |
| Store.Store.MarkRunRunningWithLease | internal/store/external_jobs.go:140-153 | the holder of the unexpired lease starts the run; the first start time is kept |
| LedgerRules.StartRecords | internal/store/external_jobs.go:140-153 | exactly the holder of an unexpired lease starts the run, the first start stays, only that row changes |
| Store.Store.RenewLeaseWithToken | internal/store/external_jobs.go:282-299 | lease expiry and the run row's copy of it move together |
| LedgerRules.RenewalExtends | internal/store/external_jobs.go:282-299 | exactly the holder of an unexpired lease moves its end, and the copy in the run, to ttl from now |
| Store.Store.ResetClaimedRun | internal/store/store.go:901-940 | only a claimed run with an expired lease goes back to pending, and its lease goes with it |
| Store.Store.RequeueExternalRun | internal/store/external_jobs.go:237-280 | owner and expiry modes of giving a run back, with the token that is retired |
| LedgerRules.RunsGivenBackIff | internal/store/external_jobs.go:237-280 | who may give a run back and when recovery takes one back; it then waits as before its claim and nobody holds it |
| Store.Store.FinishExternalRun | internal/store/external_jobs.go:198-233 | outcome, lease removal, retry row and dead letter commit together or not at all |
| LedgerRules.ReportAcceptedIff | internal/store/external_jobs.go:198-213 | exactly the report of the current holder is accepted, even after its lease ran out |
| LedgerRules.ReportOutcome | internal/dispatcher/dispatcher.go:340-430 | in any run an accepted report makes the row succeeded exactly without an error, cancelled exactly for a cancelled one, failed with one new attempt exactly when the failure is not final and the policy has an attempt left, else dead-lettered with the error and payload; no other row changes |
| LedgerRules.ExpiryOutcome | internal/dispatcher/dispatcher.go:125-134 | in any run recovery ends an expired execution as a failure with the expiry message, with a new attempt exactly when the policy has one left |
| LedgerRules.RetryWaitsForBackoff | internal/store/store.go:621-645 | in any run under fixed policies attempt n+1 is not runnable before the end of attempt n plus its backoff |
| Store.Store.FinishRun | internal/store/store.go:956-983 | the unfenced update by id and its lease delete |
| Store.Store.InsertRun | internal/store/store.go:339-370 | uniqueness of id and of (occurrence, attempt), and the schedule foreign key |
| LedgerRules.InsertAcceptedIff | internal/store/store.go:339-370 | an insert is accepted exactly for a new id, a new attempt of the occurrence and a known schedule |
| Store.Store.TriggerEvent | internal/store/events.go:24-82 | deduplication, conflict, pruned and paused answers; a refused delivery is rolled back |
| LedgerRules.DeliveryCreates | internal/store/events.go:24-82 | a first delivery records the event as it came and one pending first attempt of it, due at once |
| LedgerRules.UnknownScheduleIff | internal/store/events.go:24-82 | a delivery is not found exactly when nobody created its schedule; one that creates nothing changes nothing |
| Store.Store.SaveExternalJob | internal/store/external_jobs.go:83-138 | who may checkpoint, which changes are refused, and what the row becomes |
| LedgerRules.SaveAcceptedIff | internal/store/external_jobs.go:83-138 | a checkpoint is stored exactly when the holder of an unexpired lease brings it, what was asked for is unchanged and kept, a known identity is unchanged, and a final report is repeated as it was |
| Store.Store.ReconcileExternalJob | internal/store/external_jobs.go:368-419 | the operator's compare-and-swap on an occurrence with no open attempt |
| LedgerRules.ReconcileAcceptedIff | internal/store/external_jobs.go:368-419 | accepted exactly for an occurrence with no open attempt whose stored job is the one observed, open and kept, under the same order and its known identity, or a first one where a lookup address was given |
| LedgerRules.ReconcilableIff | internal/store/external_jobs.go:27-49 | which stored jobs are shown as open to reconciliation |
| Store.Store.CompactPrunedExternalJobs | internal/store/external_jobs.go:322-364 | the two loops replace exactly the terminal jobs without attempts by tombstones |
| Store.Store.PruneTerminalRunsBefore | internal/store/store.go:553-583 | old finished runs without unresolved remote work go, with their leases and dead letters; the count is right |
| LedgerRules.RetentionTakesExactly | internal/store/store.go:553-583 | retention takes exactly the finished runs that ended before the cutoff and whose occurrence has no open remote job, with their leases and dead letters, and makes tombstones of exactly the jobs that are over and have no attempt left |
| Store.Store.ListExpiredLeases | internal/store/store.go:803-899 | exactly the runs whose lease has run out by now, each once, as stored |
| Store.Store.ListPendingRunsBySchedule | internal/store/store.go:1027-1049 | exactly the pending and retry-scheduled runs of the schedule, by due time and then creation |
| Store.Store.ListCandidateRuns | internal/store/store.go:621-645 | every listed run is pending and due, or a retry whose time has come; one that is not listed means that the limit is full of runs no later than it |
| LedgerTheorems.LockAcceptsHolderIff | internal/store/external_jobs.go:57-81 | the lock accepts exactly the holder of the run's live lease, unexpired where that is asked |
| LedgerTheorems.DeadTokenIsPowerless | internal/store/external_jobs.go:57-81 | without a live lease every presented token is refused and no table changes |
| LedgerTheorems.TokensAreLinear | internal/store/external_jobs.go:51-81 | an issued token is live or retired, never both; retirement is final, has one cause, and afterwards no step presenting it changes a table |
| LedgerTheorems.RetirementIsEarned | internal/store/external_jobs.go:172-299 | a live token is retired only by its holder or by a recovery that finds its lease expired |
| LedgerTheorems.RecoveryIsSafe | internal/dispatcher/dispatcher.go:99-142 | however stale its snapshot, recovery touches a run only if its current lease has expired |
| RunStates.RunTransitions | docs/run-states.md:64-110 | every step of every run moves every row only along the documented transitions; nominal, due and retry time never change; the first start survives a step exactly when it is not an accepted finish from a row older than that start which fills in another |
| LedgerExamples.StaleReportMovesStart | internal/store/external_jobs.go:198-213 | a run of the system in which a report from a row listed before the first start replaces that start |
| LedgerTheorems.AttemptChains | internal/store/external_jobs.go:198-233 | present attempts are contiguous, all but the last failed and the last not; a finished attempt never changes and a pruned one never returns |
| LedgerTheorems.NoOccurrenceStranded | internal/dispatcher/dispatcher.go:392-395 | behind every failed attempt there is a last one that is not failed |
| LedgerTheorems.RetryIsInserted | internal/store/external_jobs.go:198-228 | whether a holder or an expiry recovery fails the attempt, the retry insert never meets ON CONFLICT DO NOTHING, and carries the backoff; LedgerRules.ReportOutcome says when there is one |
| LedgerTheorems.InsertKeepsChainIff | internal/store/store.go:339-370 | a first attempt, to run or skipped, keeps the chain exactly when none is left or attempt 1 is still there |
| LedgerExamples.ReplayAfterRetention | internal/planner/planner.go:108-149 | a run in which retention removes attempt 1 while its retry waits, and the slot planned again then breaks the chain |
| LedgerLimits.StaleSkipIsLegalIff | internal/store/store.go:956-983 | at any moment of any run, skipping a row listed earlier as waiting keeps tables, leases, outcomes, transitions, times and submitted work exactly when the row still waits, has no remote job and has the listed first start; it then equals a skip from a fresh listing |
| LedgerExamples.StaleSkipEndsRunningAttempt | internal/dispatcher/dispatcher.go:188-228 | a run of two dispatchers in which the skip of a listed run ends a live lease and a running attempt |
| LedgerExamples.StaleSkipErasesStart | internal/dispatcher/dispatcher.go:188-228 | a run of two dispatchers in which the listed run waits again without a remote job, and its skip erases the first start |
| LedgerTheorems.ExpiredClaimsAreExpiredLeases | internal/store/store.go:1104-1111 | active runs and leases correspond with equal owner and expiry, so the expired-claim count is the number of expired leases |
| LedgerTheorems.DeadLettersAgree | internal/dispatcher/dispatcher.go:396-398 | a run is dead-lettered exactly when one dead letter records it |
| LedgerTheorems.RemoteJobLifecycle | internal/store/external_jobs.go:98-113 | submission time and deadline never change, the job id is set once, empty means submitting, terminal is final |
| LedgerTheorems.CheckpointRoundTrip | internal/store/external_jobs.go:27-49 | what a holder saves is what the next execution loads, frozen target included |
| LedgerTheorems.ReconcileComparesAndSwaps | internal/store/external_jobs.go:366-419 | takes effect only on the checkpoint observed, with no open attempt, and leaves run outcomes alone |
| LedgerTheorems.CompactedIsInert | internal/store/external_jobs.go:320-364 | a tombstone keeps identity and outcome, forgets its addresses, and refuses every later write |
| LedgerTheorems.CompactionIsSafe | internal/store/external_jobs.go:320-364 | only retention compacts, only terminal jobs, only when no attempt is left |
| LedgerTheorems.OnlyClaimsActivate | internal/store/external_jobs.go:308-312 | prune, compaction, reconcile and every step but a claim add no active occurrence |
| LedgerTheorems.ClaimStaysWithinPolicy | internal/store/store.go:695-704 | a successful claim leaves its schedule within the policy it was checked against |
| LedgerTheorems.ConcurrencyBounded | internal/store/store.go:688-704 | in every reachable state at most maxConcurrency active occurrences, and one unless overlap is allowed |
| LedgerTheorems.OneActiveAttempt | internal/store/store.go:688-694 | never two active attempts of one occurrence |
| LedgerTheorems.AttemptsBounded | internal/dispatcher/dispatcher.go:431-436 | at most max(1, maxAttempts) attempts per occurrence |
| LedgerTheorems.EventRunsOnce | internal/store/events.go:24-82 | over deliveries, pauses and prunes one event identity has one first attempt, ever |
| LedgerTheorems.EventReplay | internal/store/events.go:39-55 | a replay returns the first run or that it was pruned, other data conflicts, and no table changes |
| LedgerTheorems.DeliveryRecordsIff | internal/store/events.go:24-82 | a delivery in a run changes a table exactly when its schedule is known and on and no earlier step recorded the identity; it is refused as paused exactly when off and new; the insert never collides |
| LedgerProofs.StepKeepsInv | internal/store/external_jobs.go:51-419 | every transaction keeps the ledger invariant and lets rows evolve only as promised |
| LedgerProofs.ReachableInv | internal/store/store.go:48-53 | the invariant holds after any interleaving of transactions |
| LedgerProofs.HistoryEvolves | internal/store/store.go:553-583 | between any two moments of a run: finished rows fixed, ids never reused, jobs and events only advance |
| Outcome.BackoffFor | internal/dispatcher/dispatcher.go:438-452 | the doubling loop stays within the maximum at every step, so no duration overflows |
| Outcome.BackoffIsCappedExponential | internal/dispatcher/dispatcher.go:438-452 | the delay is min(initial * 2^(attempt-1), max) for every validated policy |
| Queue.CoalesceKeepsLatest | internal/dispatcher/dispatcher.go:188-228 | exactly the earlier unsubmitted waiting runs are skipped, with their text and time; none with a remote job is; at most the latest stays; nothing else is touched |
| Queue.WithoutJobLists | internal/dispatcher/dispatcher.go:195-206 | filtering a listing by absent checkpoints keeps its order and exactly the unsubmitted runs |
| Dispatcher.Dispatcher.Tick | internal/dispatcher/dispatcher.go:56-97 | a pass is a run of the ledger machine; it considers the earliest 64 runs that are pending and due or whose retry is, launches only those, no retry before its backoff is over, each under a new token that holds the one live lease of its run; each considered run that still waits has an active attempt of its own or too many other active occurrences; no schedule is over its policy |
| Dispatcher.Dispatcher.ClaimAll | internal/dispatcher/dispatcher.go:65-95 | the loop over the candidates: each is tried, and none that could still be started is left |
| Dispatcher.StaysBlocked | internal/store/store.go:685-704 | within a pass a run that cannot be claimed stays that way, because active work only grows |
| Dispatcher.RunnableWaitedOut | internal/dispatcher/dispatcher.go:61-64 | what a pass may launch has waited out the backoff of the attempt before it |
| Dispatcher.Dispatcher.RecoverExpiredLeases | internal/dispatcher/dispatcher.go:99-142 | without interleaving no lease expired by then remains; each claimed or tracked run waits again as before its claim, each other one is failed with its next attempt after the backoff, or dead-lettered; nothing else changes; the default branch is dead |
| Dispatcher.Dispatcher.RecoverLease | internal/dispatcher/dispatcher.go:104-139 | claimed runs, and running ones with a job row or a remote-job target, wait again; other running work has failed with the expiry message, to be tried again exactly while attempts are left; a running one is cancelled here |
| Dispatcher.Dispatcher.PrepareScheduleForClaim | internal/dispatcher/dispatcher.go:144-186 | yes exactly when there is room beside the other active occurrences; nothing is touched when idle, allowed or forbidden, else only the latest queued run stays; cancels the local executions exactly under replace with room and no open remote job |
| Dispatcher.Dispatcher.EnforceQueuePolicy | internal/dispatcher/dispatcher.go:188-228 | the loops leave the tables exactly as coalescing around the latest unsubmitted run does |
| Dispatcher.Dispatcher.ClaimCandidate | internal/dispatcher/dispatcher.go:79-87 | the lease starts at the claim, under a token nobody has seen |
| Dispatcher.Dispatcher.UnregisterCancel | internal/dispatcher/dispatcher.go:460-466 | an older execution's end leaves a newer registration in place |
| Dispatcher.Dispatcher.CancelActive | internal/dispatcher/dispatcher.go:175-181 | a replacement cancels exactly the schedule's executions that run here |
| RemoteJob.AppliedResponse | internal/executors/http/job.go:212-251 | an accepted answer leaves a storable checkpoint; deadline, submission time and target stay; identity appears once |
| RemoteJob.AcceptedIff | internal/executors/http/job.go:212-251 | an answer is accepted exactly with a status of the contract, a usable or the known identity, a percentage from 0 to 100 and artifacts that can be shown; its status and report are then stored |
| RemoteTheorems.PollWritesOnlyItsCheckpoint | internal/executors/http/job.go:112-136 | whatever a runner answers, a poll in any run writes only the checkpoint of its own occurrence, under the live lease, keeps what was ordered and a recorded identity, and leaves a final status; an answer about another job changes no table and ends the execution |
| RemoteExecutor.ExecuteJob | internal/executors/http/job.go:36-136 | the call ends as its answers and contexts say: handed back exactly when a call, checkpoint or wait was given up in a shutdown; final exactly when it was given up past the deadline, met something wrong, or the durable job failed; neither for a lost answer or checkpoint in a live context; at most the one frozen request leaves; the checkpoint only advances |
| RemoteExecutor.Proceed | internal/executors/http/job.go:57-111 | from the stored checkpoint: which jobs and targets stop the call before anything is sent, what is sent, and how the rest ended |
| RemoteExecutor.SubmitsIff | internal/executors/http/job.go:57-92 | it submits exactly when the intent is stored, the job unresolved and without an id, and the target and payload valid; once, with the frozen body and event |
| RemoteExecutor.PollJob | internal/executors/http/job.go:112-136 | at which answer the polls ended, and why: a failed call, a refused answer, an unstorable checkpoint, a final status or the end of the wait; handed back only in a shutdown, final for a passed deadline, a refusal or a failed job |
| RemoteExecutor.Submission | internal/executors/http/job.go:92-108 | how the one request and the polls after it ended, with the same classification; its answer is checkpointed before anything is reported |
| RemoteCalls.CallIsPath | internal/executors/http/job.go:36-136 | a whole call is a path of possible protocol steps with the same tables and the same request on the wire, whatever the rest of the system does before the answer to that request comes |
| RemoteProofs.NextSound | internal/executors/http/job.go:36-136 | every step of executors, ledger, wire, operator and runner keeps the protocol invariant |
| RemoteTheorems.PostsFollowTheirIntent | internal/executors/http/job.go:40-92 | every request follows a durable intent and carries its frozen target and event, whatever was edited since |
| RemoteTheorems.IntentPrecedesPost | internal/executors/http/job.go:50-56 | the intent is in the ledger before the request leaves |
| RemoteTheorems.OneRequestPerOccurrence | internal/executors/http/job.go:165-187 | all requests of an occurrence, ever, are one request to one address |
| RemoteTheorems.IdentifiedNeverResubmits | internal/executors/http/job.go:74-111 | an execution started from a checkpoint with a job id never submits |
| RemoteTheorems.OneRemoteJob | examples/automation-runner/runner.go:374-419 | over all runners an occurrence has at most one job, and no request meets an instruction conflict |
| RemoteTheorems.RecordedIdIsReal | internal/executors/http/job.go:242-250 | a job id in the ledger names a job its runner has durably recorded, from then on |
| Runner.LoadAfterPersist | examples/automation-runner/runner.go:218-262 | reading the written file gives back the job map, requests and fingerprints included |
| RunnerProofs.MoveOk | examples/automation-runner/runner.go:308-427 | every request, write, send, shutdown and restart keeps the runner's invariant |
| RunnerTheorems.AcknowledgedIsDurable | examples/automation-runner/runner.go:405-421 | an acknowledged job is on disk and in memory from then on, at every crash point |
| RunnerTheorems.EnqueueNeverBlocks | examples/automation-runner/runner.go:422-427 | the queue holds distinct recorded ids, so a handler's send always finds room |
| RunnerOutcomes.LeaveInOrder | examples/automation-runner/runner.go:535-548 | until the next restart jobs leave the queue in the order in which they were queued, and none comes back |
| RunnerTheorems.OneWorkerPerJob | examples/automation-runner/runner.go:535-553 | no two workers run one job |
| RunnerTheorems.SendsBounded | examples/automation-runner/runner.go:630-699 | at most maxDeliveries sends per job across restarts; on native channels at most one that met anything but a rate limit |
| RunnerTheorems.MarkedBeforeSend | examples/automation-runner/runner.go:648-659 | attempt count and sending mark are readable from disk before each send |
| RunnerTheorems.InterruptedSendIsUnknown | examples/automation-runner/runner.go:634-639 | a native send that a restart finds under way is never repeated in any continuation; its delivery stays sending until it is marked unknown, and then unknown, in memory and on disk |
| RunnerProcess.Process.LoadFile | examples/automation-runner/runner.go:218-247 | the loading loop accepts exactly the files the specification accepts, and the same job map |
| RunnerProcess.Process.Requeue | examples/automation-runner/runner.go:192-196 | every unfinished job is queued once and the channel holds them all |
| RunnerProcess.Process.Start | examples/automation-runner/runner.go:185-202 | a start is the restart step |
| RunnerProcess.Process.PersistLocked | examples/automation-runner/runner.go:251-291 | the file becomes the image of the map unless the write failed before the rename |
| RunnerProcess.Process.Update | examples/automation-runner/runner.go:308-327 | a change is recorded or rolled back in memory, refused when closed |
| RunnerProcess.Process.SubmitJob | examples/automation-runner/runner.go:378-421 | every reply and the state behind it are those of the submission step |
| RunnerProcess.SubmitCases | examples/automation-runner/runner.go:378-421 | in a shutdown, for other instructions, at capacity or after a write that failed a request is refused and the map stays; a known job is answered again; a new one is acknowledged only once it is written, queued and on its way to the channel |
| RunnerProcess.Process.Deliver | examples/automation-runner/runner.go:630-699 | among any moves of handlers, other workers and the shutdown, the loop is a path of the runner's moves; within the attempts left it sends until an outcome settles the delivery; sent, failed or unknown follows from the channel and the sends, and it fails for want of attempts only when they are used up; it stops early only for a write that failed, a shutdown or the end of its context; nothing is sent after an unsettled native send |
| RunnerOutcomes.JobCompletes | examples/automation-runner/runner.go:550-699 | a queued or interrupted job that a worker takes up while the runner is open and its writes succeed comes to its end, on disk: failed if its source cannot be read, else succeeded with its report, its notification sent, failed or unknown as the sends say |
| RunnerOutcomes.StartsIff | examples/automation-runner/runner.go:185-247 | a start succeeds exactly on a file within the capacity whose entries name themselves and carry a fingerprint, and queues each unfinished job once |
| RunnerPaths.OthersKeep | examples/automation-runner/runner.go:293-327 | whatever handlers, other workers and the shutdown do, a worker's job, place and sends stay its own |
| RunnerRefinement.SubmitRefines | examples/automation-runner/runner.go:352-427 | handling a request is the protocol's runner step, with the same acknowledgements and conflicts |
| RunnerComposition.MoveRefines | examples/automation-runner/runner.go:308-427 | every move of the runner, progress and restarts included, is what the protocol sees of it |
| RunnerComposition.ComposedRefines | examples/automation-runner/runner.go:352-427 | in any interleaving with the rest of the system, the protocol sees one of its runs, the runner lives one of its lives, and what the protocol takes as recorded is what the runner holds |
| RunnerComposition.OneJobPerOccurrence | examples/automation-runner/runner.go:374-419 | a job this runner has on disk is the only one of its occurrence at any runner, with the instructions of its one order |
| RunnerComposition.NeverConflicts | examples/automation-runner/runner.go:374-419 | this runner never answers a request with an instruction conflict |
| RunnerComposition.LedgerIdIsHeld | internal/executors/http/job.go:242-250 | a job id the ledger records for this runner is the id of a job it holds in memory and on disk |
| RunnerRefinement.RestartRefines | examples/automation-runner/runner.go:185-202 | a restart forgets only unconfirmed jobs and settles the rest |
| Timecalc.NextAfterInterval | internal/timecalc/timecalc.go:37-67 | the least anchor+k*every strictly after the moment and inside the window, or none exactly when there is none |
| Timecalc.NextIntervalIsLeast | internal/timecalc/timecalc.go:54-63 | the second-and-nanosecond arithmetic gives a slot after the base whose predecessor is not |
| Timecalc.IntervalFits | internal/timecalc/timecalc.go:57-63 | no intermediate value leaves int64 for representable times and a validated interval |
| Timecalc.StartNeverExcludes | internal/timecalc/timecalc.go:82-86 | the StartAt test of bound never fires for intervals |
| Timecalc.NextAfterOnce | internal/timecalc/timecalc.go:68-76 | the single instant, if it lies ahead and in the window |
| Timecalc.NextAfterCron | internal/timecalc/timecalc.go:19-36 | the least cron instant in the window, given a least and final cron search |
| Timecalc.NextIsLeast | internal/timecalc/timecalc.go:13-80 | repeated calls walk all slots in order and miss none |
| Timecalc.SlotsAre | internal/timecalc/timecalc.go:37-86 | what the slots are: anchor plus whole intervals, the anchor being its own, else the start bound, else the creation; a cron instant; the one instant; inside the window, bounds included, and in a year that can be written |
| Timecalc.KeysAreInjective | internal/domain/helpers.go:17-19 | two slots of one cadence never share an occurrence key |
| Timecalc.PreviewSchedule | internal/app/preview.go:13-48 | up to five slots from now, increasing, none missing in between, fewer only if no more exist |
| Timecalc.PreviewedSlots | internal/app/preview.go:13-48 | a preview counts an interval without an anchor from now |
| Planner.DueIsCadence | internal/planner/planner.go:79-88 | the due slots are exactly the slots from NextRunAt to now, in order |
| Planner.FollowingIsNext | internal/planner/planner.go:79-88 | the loop stops at the least slot after now |
| Planner.InsertedRows | internal/planner/planner.go:90-128 | inserts rewrite nothing and add only this tick's rows |
| Planner.InsertedExactly | internal/planner/planner.go:90-149 | after n inserts exactly the earlier slots and the n reached ones are recorded |
| PlannerLedger.PlannedRowsAreAllowed | internal/planner/planner.go:131-149 | in any run of the ledger in which retention has not removed the slot's first attempt, a planned row, new or replayed, is an insert the ledger allows |
| PlannerTheorems.LedgerFollowsCadence | internal/planner/planner.go:63-129 | over any ticks, any of them interrupted, the recorded slots are exactly the cadence from the start through one point that covers everything before NextRunAt |
| PlannerTheorems.CompletedTick | internal/planner/planner.go:125-128 | a completed tick has recorded exactly the slots up to now and leaves NextRunAt at the least slot after now |
| PlannerTheorems.TickRewritesNothing | internal/planner/planner.go:100-122 | replayed slots keep their rows |
| PlannerTheorems.OneRowPerSlot | internal/domain/helpers.go:17-19 | first attempts and slots correspond one to one |
| PlannerChoices.SkipRunsWithinGrace | internal/planner/planner.go:91-107 | skip runs a slot found within the grace, bound included, and records a later one as skipped |
| PlannerChoices.CatchUpRunsAll | internal/planner/planner.go:118-123 | catch_up runs every new slot, however late it is found |
| PlannerChoices.CatchUpSkipsNothing | internal/planner/planner.go:118-123 | no tick of a catch_up schedule, interrupted or not, records a skipped run |
| PlannerChoices.CatchUpChoosesEverySlot | docs/public/policies.md:97-99 | over any ticks of a catch_up schedule, any of them interrupted, every slot of the cadence up to the last completed tick has been chosen to run, and nothing else has |
| PlannerChoices.RunsOnceIff | internal/planner/planner.go:108-119 | run_once_if_late leaves exactly the latest due slot chosen exactly when no earlier one was chosen before and the latest, if recorded, was |
| PlannerChoices.CadenceIsDistinct | internal/domain/helpers.go:17-19 | no two slots of a validated schedule fall in one second, as the misfire theorems ask |
| PlannerChoices.InterruptionChoosesNoExtra | docs/public/policies.md:79-83 | uninterrupted ticks choose exactly the slots that were the latest at one of them, and the same ticks interrupted choose no other |
| PlannerChoices.CrashReplay | internal/planner/planner.go:108-128 | ticks at 0s and 10s of a ten-second schedule: cut after the insert, the second finds both slots due and both stay chosen, as without a crash; cut before it, the first slot is lost |
| PlannerProcess.SchedulePlanner.MaterializeSchedule | internal/planner/planner.go:63-129 | the loops move tables and NextRunAt exactly as one planner step, dying after any insert; what that step chooses under each misfire policy is stated in PlannerChoices |
| PlannerProcess.SchedulePlanner.CollectDue | internal/planner/planner.go:79-88 | the collecting loop computes the due slots and terminates |
| PlannerProcess.SchedulePlanner.InsertOccurrence | internal/planner/planner.go:131-149 | the row inserted for one due slot: pending under catch_up, within the grace under skip, and as the latest under run_once_if_late; else skipped at once with the text of the policy |
| PlannerLedger.OthersKeepSlots | internal/store/store.go:339-370 | no step but retention and an insert for that very slot records or removes it, manual triggers and other inserts included |
| PlannerRuns.CadenceInLedger | internal/planner/planner.go:63-129 | in any run of the ledger with this planner, every insert a transaction of its own among everyone else's, the slots ever recorded are exactly a stretch of the cadence that covers everything before NextRunAt; those no longer recorded were removed by retention |
| PlannerRuns.JoinedIsBehaviour | internal/planner/planner.go:131-149 | the planner and everyone else together make a run of the ledger machine, so every planned insert is allowed and every ledger theorem holds |
| PlannerRuns.GuardUntilLost | internal/planner/planner.go:131-149 | until retention removes a slot's first attempt, the ledger's guard on inserting it, anew or again, holds |
| PlannerRuns.OnlyRetentionLoses | internal/store/store.go:553-583 | a recorded slot goes only by a retention step that removes its first attempt |
| PlannerRuns.TickIsPass | internal/planner/planner.go:63-129 | a tick taken as one step, complete or cut after any insert, is a pass of single inserts with nothing in between |
| Timestamps.NormalisedIsFixedWidth | internal/store/timestamps.go:8-20 | timestampSQL of the trimmed text is comparisonTimeString, for every instant of years 0 to 9999 |
| Timestamps.StoredTextSortsChronologically | internal/store/timestamps.go:8-20 | the normalised text sorts as the instants do, and coincides exactly for equal instants |
| Timestamps.RawTextDoesNotSort | internal/store/timestamps.go:9-10 | the stored text itself does not sort |
| Timestamps.EarlierIff | internal/store/store.go:1344-1346 | comparing calendar fields is comparing nanoseconds since the epoch |
| Timestamps.EpochIsRight | internal/timecalc/timecalc.go:60-65 | the calendar agrees with the Unix epoch and with the seconds of years 0 and 9999 |
| Timestamps.DateOf | internal/store/store.go:1344-1346 | every instant of years 0 to 9999 has a date that writes it, and by EarlierIff only one |
| Timestamps.ParseInvertsTimeString | internal/store/store.go:1376-1383 | stored instants read back to the nanosecond |
| Timestamps.KeyNamesSecond | internal/domain/helpers.go:17-19 | the key text is shared exactly by instants of one second |
| Cursors.Base64RoundTrip | internal/domain/helpers.go:26-33 | any bytes come back from their unpadded URL base64 text |
| Cursors.CursorRoundTrip | internal/domain/helpers.go:21-43 | a cursor reads back as the position it was made from, to the nanosecond and for any id, through JSON escapes, UTF-8 and base64 |
| Cursors.CursorsNamePositions | internal/domain/helpers.go:21-27 | cursors are equal exactly for equal positions and never empty |
| Cursors.CursorIsUrlSafe | internal/domain/helpers.go:21-27 | a cursor needs no escaping in a URL |
| Pagination.ListPage | internal/store/store.go:412-471 | a page is the top rows below the cursor in order, with a cursor exactly when more remain |
| Pagination.PageMeans | internal/store/store.go:412-471 | a page holds the newest rows that meet every given condition and lie beyond the cursor, newest first, equal times by falling id, at most the limit or fifty; it names where it ends exactly when more remain |
| Pagination.ListRows | internal/store/store.go:412-471 | a request with a cursor text gets the page below the position it names and the cursor text of where that ends; text that cannot be read is refused |
| Pagination.ExportWalk | internal/cli/root.go:303-342 | under concurrent changes the walk by cursor texts ends, no cursor is refused or repeated, it descends strictly and returns every row that stayed |
| Pagination.ReturnedExactlyOnce | internal/store/store.go:247-313 | a row present throughout a walk is returned at exactly one place |
| Pagination.PagesAreTheListing | internal/store/store.go:247-313 | on an unchanged table the pages of any limit concatenate to the one sorted filtered listing |

## Left out

- Receipts, request audit, metrics, HTTP routes, MCP tools, other CLI commands and the console: they only read or append beside the ledger.
- DeleteSchedule and its cascades, and UpdateSchedule edits racing the planner: the planner properties are for a fixed schedule definition.
- Tokenless paths (RenewLease, MarkRunRunning, ClearLease, RecoverExpiredClaims): a tick always supplies a token.
- Leases are keyed by run id, because lease_key is unique and always the run id.
- SQL, migrations, dialects and the JSON form of rows: rows are datatypes and each transaction is one atomic step.
- The queue policy step: listing, checkpoint reads and the skips of one dispatcher are one step; LedgerLimits.StaleSkipIsLegalIff says when the skip of a second dispatcher is legal.
- The cron parser and time zones: cron is a search function. Its least instants and that it stays empty once empty are assumptions of Timecalc.CronOk; the library itself gives up after five years and may find a later instant from a later start.
- URL parsing, origins and authentication: verdicts that come with a response, or omitted guards, which only lets the model do more.
- SHA-256, ULIDs and lease tokens: injective and fresh.
- Deadlines of a remote job: an execution may stop at any step, so none is needed for what is proved.
- Network, shell and workflow execution, feeds, mail and chat rendering: nondeterministic outcomes.
- The runner's file lock, byte limits and the wait between deliveries: a write that does not fit is one of the failing writes.
- Dispatcher.Dispatcher.Tick: the pass runs alone and its schedules do not change; what its transactions keep under interleaving is proved of the ledger machine, of which a pass is a run.
- The registration of an execution under its run (`internal/dispatcher/dispatcher.go:454-458`): the executions themselves are not part of the dispatcher model.
- RemoteExecutor.PollJob: the length of the wait between polls, five seconds by default, is not modelled, only that it may be cut off.
- RemoteCalls.CallIsPath: from the first answer on, the polls of the call follow one another directly; other orders are runs of the protocol.
- RunnerProcess.Process.Deliver: takes outcomes, write results and the moves of the others from outside; a crash in its midst is a restart of module Runner.
- Runner.Answered: keeps fixed texts in place of the provider's error text.
- RemoteProtocol: the runner's own job status is arbitrary, so polls may report anything well formed.
- LedgerTheorems.ConcurrencyBounded: assumes schedule policies that do not change; LedgerTheorems.ClaimStaysWithinPolicy covers edits claim by claim.
- LedgerTheorems.AttemptChains: first attempts are inserted under the guard of LedgerTheorems.InsertKeepsChainIff and with a non-decreasing clock.
- Cursors.ReadTime: RFC 3339 text in other forms than the program writes, with offsets for instance, is read by a function of the time library that is not part of this model.
- PlannerRuns.CadenceInLedger: a pass inserts under the guard of LedgerTheorems.InsertKeepsChainIff, which PlannerRuns.GuardUntilLost shows to hold until retention removes the slot's first attempt; LedgerExamples.ReplayAfterRetention shows what happens otherwise.
- Pagination.ExportWalk: the rows that ever exist during the walk are finitely many; the per-schedule detail requests are not modelled.
