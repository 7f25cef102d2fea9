/** How the dispatcher turns an executor result into a finished attempt, a retry or a dead letter. */
module Outcome {
  import opened Domain

  datatype Result = Result(
    httpStatus: Option<int>,
    exitCode: Option<int>,
    json: string,
    error: Option<string>,      // None for the empty ErrorText
    cancelled: bool,
    deferred: bool,
    terminalFailure: bool)

  predicate ShouldRetry(retry: RetryPolicy, attempt: nat) {
    retry.strategy != RetryNone && attempt < retry.maxAttempts
  }

  /** The delay the doubling loop reaches when `left` doublings remain. */
  function Doubled(delay: int, left: nat, max: int): int
    decreases left
  {
    if left == 0 then delay
    else if delay > max / 2 then max
    else if delay * 2 >= max then max
    else Doubled(delay * 2, left - 1, max)
  }

  function BackoffSeconds(retry: RetryPolicy, attempt: nat): int {
    Doubled(retry.initialDelay, if attempt < 1 then 0 else attempt - 1, retry.maxDelay)
  }

  /** time.Duration counts nanoseconds in an int64. */
  const MAX_DURATION_SECONDS: int := 0x7FFF_FFFF_FFFF_FFFF / SECOND

  predicate ValidRetry(retry: RetryPolicy) {
    && 0 <= retry.maxAttempts
    && retry.initialDelay <= MAX_DURATION_SECONDS && retry.maxDelay <= MAX_DURATION_SECONDS
    && (retry.strategy == RetryExponential ==> 0 < retry.initialDelay <= retry.maxDelay)
  }

  function Pow2(n: nat): nat { if n == 0 then 1 else 2 * Pow2(n - 1) }

  lemma {:induction false} Pow2Positive(n: nat)
    ensures Pow2(n) >= 1
  {
    if n > 0 { Pow2Positive(n - 1); }
  }

  lemma ScaledAtLeast(a: int, p: int)
    requires a > 0 && p >= 1
    ensures a * p >= a
  {
    assert a * (p - 1) >= 0;
  }

  lemma {:induction false} DoubledIsCappedPower(delay: int, left: nat, max: int)
    requires 0 < delay <= max
    ensures Doubled(delay, left, max) == Min(delay * Pow2(left), max)
    decreases left
  {
    if left == 0 {
    } else {
      var p := Pow2(left - 1);
      assert delay * Pow2(left) == (delay * 2) * p;
      if delay * 2 < max {
        DoubledIsCappedPower(delay * 2, left - 1, max);
      } else {
        Pow2Positive(left - 1);
        ScaledAtLeast(delay * 2, p);
      }
    }
  }

  /** The documented backoff: the initial delay doubled once per earlier attempt, capped. */
  lemma BackoffIsCappedExponential(retry: RetryPolicy, attempt: nat)
    requires ValidRetry(retry) && retry.strategy == RetryExponential && attempt >= 1
    ensures BackoffSeconds(retry, attempt) == Min(retry.initialDelay * Pow2(attempt - 1), retry.maxDelay)
    ensures 0 < BackoffSeconds(retry, attempt) <= retry.maxDelay
  {
    DoubledIsCappedPower(retry.initialDelay, attempt - 1, retry.maxDelay);
    Pow2Positive(attempt - 1);
    ScaledAtLeast(retry.initialDelay, Pow2(attempt - 1));
  }

  /** The loop itself. Every intermediate delay fits a duration, so no multiplication overflows. */
  method BackoffFor(retry: RetryPolicy, attempt: nat, now: Time) returns (at: Time)
    requires ValidRetry(retry) && retry.strategy == RetryExponential
    ensures at == now + BackoffSeconds(retry, attempt) * SECOND
    ensures now + SECOND <= at <= now + retry.maxDelay * SECOND
  {
    var delay := retry.initialDelay;
    var i := 1;
    while i < attempt
      invariant 1 <= i && (i <= attempt || i == 1)
      invariant 0 < delay <= retry.maxDelay
      invariant BackoffSeconds(retry, attempt) == Doubled(delay, if attempt < i then 0 else attempt - i, retry.maxDelay)
    {
      if delay > retry.maxDelay / 2 {
        delay := retry.maxDelay;
        break;
      }
      assert delay * 2 <= MAX_DURATION_SECONDS;
      delay := delay * 2;
      if delay >= retry.maxDelay {
        delay := retry.maxDelay;
        break;
      }
      i := i + 1;
    }
    at := now + delay * SECOND;
  }

  datatype Completion = Completion(run: Run, retry: Option<Run>, dead: Option<DeadLetter>)

  function FinalStatus(retry: RetryPolicy, attempt: nat, result: Result): RunStatus {
    if result.error.None? then Succeeded
    else if result.cancelled then Cancelled
    else if ShouldRetry(retry, attempt) && !result.terminalFailure then Failed
    else DeadLettered
  }

  /** executeRun's success path and completeFailureWithResult, on the caller's snapshot `run`. */
  function Complete(run: Run, retry: RetryPolicy, result: Result, startedAt: Time, finishedAt: Time,
                    retryId: RunId): Completion {
    var status := FinalStatus(retry, run.attempt, result);
    var done := run.(
      status := status,
      startedAt := if run.startedAt.Some? then run.startedAt else Some(startedAt),
      finishedAt := Some(finishedAt),
      claimExpires := None,
      detail := Detail(result.httpStatus, result.exitCode, result.json,
                       if result.error.Some? then result.error else run.detail.error),
      updatedAt := finishedAt);
    var at := finishedAt + BackoffSeconds(retry, run.attempt) * SECOND;
    Completion(
      done,
      if status == Failed then
        Some(Run(retryId, run.schedule, run.key, run.nominal, at, RetryScheduled, run.attempt + 1,
                 None, None, None, None, NO_DETAIL, Some(at), finishedAt, finishedAt))
      else None,
      if status == DeadLettered then
        Some(DeadLetter(run.id, run.schedule, run.key, result.error.value, result.json, finishedAt))
      else None)
  }
}
