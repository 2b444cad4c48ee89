/**
 The circuit breaker guarding the speech-synthesis call path
 (app/utils/circuit_breaker.py). A breaker is an immutable record; each call is
 a pure step that takes the current time `now` (whole seconds) and the outcome
 the wrapped operation would produce if it were run, and returns the call's
 verdict together with the breaker's next state.
 */
module CircuitBreaker {
  import opened Common
  import opened Errors

  datatype CircuitState = Closed | Open | HalfOpen

  /** `CircuitState.value`, as reported by the status and stats endpoints. */
  function StateValue(s: CircuitState): string
  {
    match s
    case Closed => "closed"
    case Open => "open"
    case HalfOpen => "half_open"
  }

  datatype Config = Config(
    failureThreshold: int,
    timeoutDuration: int,
    successThreshold: int,
    name: string)

  /** The constructor's defaults. */
  const DefaultConfig := Config(5, 60, 2, "Service")

  datatype Breaker = Breaker(
    config: Config,
    state: CircuitState,
    failureCount: nat,
    successCount: nat,
    lastFailure: Option<int>)

  /** A freshly constructed breaker. */
  function Create(config: Config): (b: Breaker)
    ensures b.config == config && b.state == Closed
    ensures b.failureCount == 0 && b.successCount == 0 && b.lastFailure == None
  {
    Breaker(config, Closed, 0, 0, None)
  }

  /** What `call` does with one invocation. */
  datatype Verdict<+T> =
    /** The operation ran and returned this value. */
    | Returned(value: T)
    /** The operation ran and raised this error, which `call` re-raises. */
    | Raised(error: Exc)
    /** The breaker is open: `CircuitBreakerOpenException` was raised and the
        operation never ran; `retryAfter` is the wait the message reports. */
    | Rejected(retryAfter: int)

  datatype Step<+T> = Step(verdict: Verdict<T>, breaker: Breaker)

  /** `_should_attempt_reset`: true when no failure was ever recorded, or when
      at least `timeout_duration` seconds have passed since the last one. */
  predicate ShouldAttemptReset(b: Breaker, now: int)
  {
    b.lastFailure.None? || now - b.lastFailure.value >= b.config.timeoutDuration
  }

  /** `_time_until_retry`: the seconds left before the open timeout runs out,
      never negative, and 0 when no failure was recorded. A positive wait is
      exactly the least delay after which a reset may be attempted. */
  function TimeUntilRetry(b: Breaker, now: int): (r: int)
    ensures r >= 0
    ensures b.lastFailure.Some? && now >= b.lastFailure.value ==> r <= if b.config.timeoutDuration > 0 then b.config.timeoutDuration else 0
    ensures r == 0 <==> ShouldAttemptReset(b, now)
    ensures r > 0 ==> ShouldAttemptReset(b, now + r) && !ShouldAttemptReset(b, now + r - 1)
  {
    if b.lastFailure.None? then 0
    else
      var remaining := b.config.timeoutDuration - (now - b.lastFailure.value);
      if remaining > 0 then remaining else 0
  }

  /** `_on_success`: in HALF_OPEN one more success, closing the circuit and
      clearing both counters once `success_threshold` is reached; in CLOSED the
      failure count is cleared. */
  function OnSuccess(b: Breaker): (r: Breaker)
    ensures r.config == b.config && r.lastFailure == b.lastFailure
    ensures b.state == HalfOpen && b.successCount + 1 >= b.config.successThreshold ==>
      r.state == Closed && r.failureCount == 0 && r.successCount == 0
    ensures b.state == HalfOpen && b.successCount + 1 < b.config.successThreshold ==>
      r.state == HalfOpen && r.successCount == b.successCount + 1 && r.failureCount == b.failureCount
    ensures b.state == Closed ==> r == b.(failureCount := 0)
    ensures b.state == Open ==> r == b
  {
    match b.state
    case HalfOpen =>
      var count := b.successCount + 1;
      if count >= b.config.successThreshold then
        b.(state := Closed, failureCount := 0, successCount := 0)
      else
        b.(successCount := count)
    case Closed => b.(failureCount := 0)
    case Open => b
  }

  /** `_on_failure`: always counts the failure and stamps its time; HALF_OPEN
      re-opens at once (keeping, not clearing, the failure count) and CLOSED
      opens when the count reaches `failure_threshold`. */
  function OnFailure(b: Breaker, now: int): (r: Breaker)
    ensures r.config == b.config
    ensures r.failureCount == b.failureCount + 1 && r.lastFailure == Some(now)
    ensures b.state == HalfOpen ==> r.state == Open && r.successCount == 0
    ensures b.state == Closed ==>
      r.successCount == b.successCount
      && (r.state == Open <==> b.failureCount + 1 >= b.config.failureThreshold)
      && (r.state == Closed <==> b.failureCount + 1 < b.config.failureThreshold)
    ensures b.state == Open ==> r.state == Open && r.successCount == b.successCount
  {
    var counted := b.(failureCount := b.failureCount + 1, lastFailure := Some(now));
    match b.state
    case HalfOpen => counted.(state := Open, successCount := 0)
    case Closed =>
      if counted.failureCount >= b.config.failureThreshold then counted.(state := Open) else counted
    case Open => counted
  }

  /** The admission check at the top of `call`: `None` when the call is refused,
      otherwise the breaker the operation runs under (an OPEN breaker whose
      timeout has passed first moves to HALF_OPEN with its success count reset). */
  function Admit(b: Breaker, now: int): (r: Option<Breaker>)
    ensures r.None? <==> b.state == Open && !ShouldAttemptReset(b, now)
    ensures r.Some? && b.state == Open ==>
      r.value == b.(state := HalfOpen, successCount := 0)
    ensures r.Some? && b.state != Open ==> r.value == b
  {
    if b.state == Open then
      if ShouldAttemptReset(b, now) then Some(b.(state := HalfOpen, successCount := 0))
      else None
    else Some(b)
  }

  /** `call`, started at `now` and, when admitted, with the awaited operation
      finishing at `done`: a refused call raises the open exception without
      running the operation and leaves every field alone; an admitted call
      returns exactly the operation's value after recording the success, or
      re-raises exactly its error after recording the failure, stamped with
      the time the operation finished. */
  function Call<T>(b: Breaker, now: int, done: int, outcome: Attempt<T>): (s: Step<T>)
    ensures s.breaker.config == b.config
    ensures s.verdict.Rejected? <==> b.state == Open && !ShouldAttemptReset(b, now)
    ensures s.verdict.Rejected? ==>
      s.breaker == b && s.verdict.retryAfter == TimeUntilRetry(b, now) && s.verdict.retryAfter > 0
    ensures !s.verdict.Rejected? ==> Admit(b, now).Some?
    ensures !s.verdict.Rejected? && outcome.Ok? ==>
      s.verdict == Returned(outcome.value) && s.breaker == OnSuccess(Admit(b, now).value)
    ensures !s.verdict.Rejected? && outcome.Err? ==>
      s.verdict == Raised(outcome.error)
      && s.breaker == OnFailure(Admit(b, now).value, done)
      && s.breaker.failureCount == b.failureCount + 1
      && s.breaker.lastFailure == Some(done)
      && (b.state != Closed || b.failureCount + 1 >= b.config.failureThreshold ==> s.breaker.state == Open)
  {
    match Admit(b, now)
    case None => Step(Rejected(TimeUntilRetry(b, now)), b)
    case Some(admitted) =>
      match outcome
      case Ok(v) => Step(Returned(v), OnSuccess(admitted))
      case Err(e) => Step(Raised(e), OnFailure(admitted, done))
  }

  /** `reset`: back to the values of a freshly constructed breaker. */
  function Reset(b: Breaker): (r: Breaker)
    ensures r == Create(b.config)
  {
    b.(state := Closed, failureCount := 0, successCount := 0, lastFailure := None)
  }

  datatype Status = Status(
    name: string,
    state: string,
    failureCount: nat,
    successCount: nat,
    lastFailure: Option<int>,
    timeUntilRetry: int)

  /** `get_status`: the counters as they are, and the time until retry only
      while OPEN (0 in the other states). */
  function GetStatus(b: Breaker, now: int): (st: Status)
    ensures st.name == b.config.name && st.state == StateValue(b.state)
    ensures st.failureCount == b.failureCount && st.successCount == b.successCount
    ensures st.lastFailure == b.lastFailure
    ensures st.timeUntilRetry >= 0
    ensures b.state != Open ==> st.timeUntilRetry == 0
    ensures b.state == Open ==> st.timeUntilRetry == TimeUntilRetry(b, now)
  {
    Status(
      b.config.name,
      StateValue(b.state),
      b.failureCount,
      b.successCount,
      b.lastFailure,
      if b.state == Open then TimeUntilRetry(b, now) else 0)
  }

  /** The message of the exception a refused call raises. */
  function OpenMessage(name: string, retryAfter: int): string
  {
    "Circuit breaker is OPEN for " + name + ". Retry after " + IntToString(retryAfter) + "s"
  }
}
