/**
 The contract of the `tenacity.retry` decorators on the two speech services:
 how many attempts run, which errors cause another attempt, and what is raised
 when they are exhausted. The waits between attempts are not modelled. The
 outcome of attempt `i` (counting from 0) is `attempt(i)`.
 */
module Retry {
  import opened Errors

  datatype Filter =
    /** `retry_if_exception_type((WebSocketException, ConnectionError, TimeoutError))`. */
    | TransientOnly
    /** tenacity's default: every exception is retried. */
    | AnyError

  datatype Policy = Policy(maxAttempts: int, filter: Filter, reraise: bool)

  predicate Retryable(f: Filter, e: Exc)
  {
    match f
    case TransientOnly => e.WebSocketError? || e.ConnectionFailure? || e.TimedOut?
    case AnyError => true
  }

  /** `stop_after_attempt(n)` is checked only after an attempt, so at least one
      attempt always runs. */
  function Limit(p: Policy): (n: nat)
    ensures n >= 1 && n >= p.maxAttempts
    ensures p.maxAttempts >= 1 ==> n == p.maxAttempts
  {
    if p.maxAttempts < 1 then 1 else p.maxAttempts
  }

  /** What escapes after the last attempt failed with `e`: `e` itself when it
      is not retryable or `reraise` is set, otherwise a `RetryError` wrapping it. */
  function Final(p: Policy, e: Exc): Exc
  {
    if Retryable(p.filter, e) && !p.reraise then RetryExhausted(e) else e
  }

  datatype Retried<+T> = Retried(result: Attempt<T>, attempts: nat)

  function RunFrom<T>(p: Policy, attempt: nat -> Attempt<T>, i: nat): (r: Retried<T>)
    requires i < Limit(p)
    ensures i < r.attempts <= Limit(p)
    ensures forall j :: i <= j < r.attempts - 1 ==> attempt(j).Err? && Retryable(p.filter, attempt(j).error)
    ensures r.result.Ok? ==> r.result == attempt(r.attempts - 1)
    ensures r.result.Err? ==>
      && attempt(r.attempts - 1).Err?
      && r.result.error == Final(p, attempt(r.attempts - 1).error)
      && (Retryable(p.filter, attempt(r.attempts - 1).error) ==> r.attempts == Limit(p))
    decreases Limit(p) - i
  {
    match attempt(i)
    case Ok(v) => Retried(Ok(v), i + 1)
    case Err(e) =>
      if Retryable(p.filter, e) && i + 1 < Limit(p) then RunFrom(p, attempt, i + 1)
      else Retried(Err(Final(p, e)), i + 1)
  }

  /** The decorated call: attempts run in order until one succeeds, one fails
      with an error the filter does not retry, or the limit is reached. Every
      attempt before the last failed with a retryable error; a success is
      returned as it is; a failure is the last attempt's error, wrapped in a
      `RetryError` only when retries ran out without `reraise`. */
  function Run<T>(p: Policy, attempt: nat -> Attempt<T>): (r: Retried<T>)
    ensures 1 <= r.attempts <= Limit(p)
    ensures forall j :: 0 <= j < r.attempts - 1 ==> attempt(j).Err? && Retryable(p.filter, attempt(j).error)
    ensures r.result.Ok? ==> r.result == attempt(r.attempts - 1)
    ensures r.result.Err? ==>
      && attempt(r.attempts - 1).Err?
      && r.result.error == Final(p, attempt(r.attempts - 1).error)
      && (Retryable(p.filter, attempt(r.attempts - 1).error) ==> r.attempts == Limit(p))
  {
    RunFrom(p, attempt, 0)
  }

  /** Attempt `i` is the first one that succeeded. */
  predicate FirstOk<T>(attempt: nat -> Attempt<T>, i: nat)
  {
    attempt(i).Ok? && forall j :: 0 <= j < i ==> attempt(j).Err?
  }

  /** Under a policy that retries every error and wraps the last one, the call
      succeeds exactly when one of the first `Limit(p)` attempts succeeds, with
      the value of the first attempt that succeeded, and otherwise raises a
      `RetryError` around the error of the final attempt. */
  lemma WrappingPolicyOutcome<T>(p: Policy, attempt: nat -> Attempt<T>)
    requires p.filter == AnyError && !p.reraise
    ensures var r := Run(p, attempt).result;
      && (r.Ok? <==> exists i :: 0 <= i < Limit(p) && attempt(i).Ok?)
      && (r.Ok? ==>
            exists i :: 0 <= i < Limit(p) && FirstOk(attempt, i) && attempt(i) == r)
      && (r.Err? ==> attempt(Limit(p) - 1).Err? && r.error == RetryExhausted(attempt(Limit(p) - 1).error))
  {
    var run := Run(p, attempt);
    var k := run.attempts - 1;
    if run.result.Ok? {
      assert FirstOk(attempt, k) && attempt(k) == run.result;
    } else {
      assert Retryable(p.filter, attempt(k).error);
      forall i | 0 <= i < Limit(p)
        ensures attempt(i).Err?
      {
        if i < k {
          assert attempt(i).Err? && Retryable(p.filter, attempt(i).error);
        }
      }
    }
  }
}
