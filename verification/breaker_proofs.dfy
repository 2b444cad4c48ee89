/**
 Properties of the circuit breaker over whole call sequences: the invariants of
 every state reachable from a fresh breaker, the threshold behaviour of
 consecutive failures, and recovery through HALF_OPEN.
 */
module BreakerProofs {
  import opened Common
  import opened Errors
  import opened CircuitBreaker

  /** Thresholds of at least one, as every configuration in the service uses. */
  predicate ValidConfig(c: Config)
  {
    c.failureThreshold >= 1 && c.successThreshold >= 1
  }

  /** What holds of every breaker reachable from `Create`. */
  predicate Inv(b: Breaker)
  {
    && (b.state != HalfOpen ==> b.successCount == 0)
    && (b.state == HalfOpen ==> b.successCount < b.config.successThreshold)
    && (b.state == Closed ==> b.failureCount < b.config.failureThreshold)
    && (b.state != Closed ==> b.failureCount >= b.config.failureThreshold && b.lastFailure.Some?)
    && (b.failureCount > 0 ==> b.lastFailure.Some?)
  }

  /** Something that can happen to the breaker: a guarded call started at
      time `now` whose operation would finish at `done` with `outcome`, or a
      manual reset. */
  datatype Event<+T> = Invoke(now: int, done: int, outcome: Attempt<T>) | ManualReset

  function Apply<T>(b: Breaker, e: Event<T>): Breaker
  {
    match e
    case Invoke(now, done, outcome) => Call(b, now, done, outcome).breaker
    case ManualReset => Reset(b)
  }

  /** The breaker after the events, in order. */
  function Run<T>(b: Breaker, events: seq<Event<T>>): Breaker
  {
    if |events| == 0 then b else Apply(Run(b, events[..|events| - 1]), events[|events| - 1])
  }

  lemma RunKeepsConfig<T>(b: Breaker, events: seq<Event<T>>)
    ensures Run(b, events).config == b.config
  {
  }

  /** One call or reset preserves the invariant. */
  lemma ApplyPreservesInv<T>(b: Breaker, e: Event<T>)
    requires ValidConfig(b.config) && Inv(b)
    ensures Inv(Apply(b, e))
  {
  }

  /** With thresholds of at least one, every reachable breaker satisfies `Inv`:
      only HALF_OPEN has successes counted (fewer than the success threshold),
      CLOSED stays below the failure threshold, OPEN and HALF_OPEN have reached
      it and always have a failure time. */
  lemma {:induction false} ReachableInvariant<T>(config: Config, events: seq<Event<T>>)
    requires ValidConfig(config)
    ensures Inv(Run(Create(config), events))
  {
    if |events| > 0 {
      var prefix := events[..|events| - 1];
      ReachableInvariant(config, prefix);
      RunKeepsConfig(Create(config), prefix);
      ApplyPreservesInv(Run(Create(config), prefix), events[|events| - 1]);
    }
  }

  predicate AllFailures<T>(events: seq<Event<T>>)
  {
    forall i :: 0 <= i < |events| ==> events[i].Invoke? && events[i].outcome.Err?
  }

  predicate AllSuccesses<T>(events: seq<Event<T>>)
  {
    forall i :: 0 <= i < |events| ==> events[i].Invoke? && events[i].outcome.Ok?
  }

  /** From a CLOSED breaker with no failures counted, `k` consecutive failures
      leave `failure_count == k`; the circuit stays CLOSED below the threshold
      and is OPEN exactly when `k` reaches it, stamped with the time the last
      failed operation finished. Every one of those calls ran the operation. */
  lemma {:induction false} ConsecutiveFailures<T>(b: Breaker, events: seq<Event<T>>)
    requires ValidConfig(b.config)
    requires b.state == Closed && b.failureCount == 0
    requires AllFailures(events) && |events| <= b.config.failureThreshold
    ensures var r := Run(b, events);
      && r.failureCount == |events|
      && r.config == b.config
      && r.successCount == b.successCount
      && (r.state == Open <==> |events| == b.config.failureThreshold)
      && (r.state == Closed <==> |events| < b.config.failureThreshold)
      && (|events| > 0 ==> r.lastFailure == Some(events[|events| - 1].done))
  {
    if |events| > 0 {
      var prefix := events[..|events| - 1];
      assert AllFailures(prefix) by {
        forall i | 0 <= i < |prefix|
          ensures prefix[i].Invoke? && prefix[i].outcome.Err?
        {
          assert prefix[i] == events[i];
        }
      }
      ConsecutiveFailures(b, prefix);
      var last := events[|events| - 1];
      assert last.Invoke? && last.outcome.Err?;
    }
  }

  /** In HALF_OPEN, consecutive successes count up and the one that reaches
      `success_threshold` closes the circuit with both counters at zero. */
  lemma {:induction false} HalfOpenRecovery<T>(b: Breaker, events: seq<Event<T>>)
    requires b.state == HalfOpen
    requires AllSuccesses(events) && b.successCount + |events| <= b.config.successThreshold
    ensures var r := Run(b, events);
      && r.config == b.config
      && r.lastFailure == b.lastFailure
      && (|events| > 0 && b.successCount + |events| == b.config.successThreshold ==>
            r.state == Closed && r.failureCount == 0 && r.successCount == 0)
      && (b.successCount + |events| < b.config.successThreshold ==>
            r.state == HalfOpen && r.successCount == b.successCount + |events|
            && r.failureCount == b.failureCount)
  {
    if |events| > 0 {
      var prefix := events[..|events| - 1];
      assert AllSuccesses(prefix) by {
        forall i | 0 <= i < |prefix|
          ensures prefix[i].Invoke? && prefix[i].outcome.Ok?
        {
          assert prefix[i] == events[i];
        }
      }
      HalfOpenRecovery(b, prefix);
      var last := events[|events| - 1];
      assert last.Invoke? && last.outcome.Ok?;
    }
  }

  /** The recovery scenario end to end: an OPEN breaker whose timeout has
      passed admits the next call in HALF_OPEN, and `success_threshold`
      successes in a row close it again with both counters cleared. */
  lemma OpenTimeoutThenRecovery<T>(b: Breaker, events: seq<Event<T>>)
    requires b.state == Open && |events| == b.config.successThreshold && |events| >= 1
    requires AllSuccesses(events) && ShouldAttemptReset(b, events[0].now)
    ensures Run(b, events).state == Closed
    ensures Run(b, events).failureCount == 0 && Run(b, events).successCount == 0
  {
    var first := Apply(b, events[0]);
    assert first == OnSuccess(b.(state := HalfOpen, successCount := 0));
    var rest := events[1..];
    assert AllSuccesses(rest) by {
      forall i | 0 <= i < |rest|
        ensures rest[i].Invoke? && rest[i].outcome.Ok?
      {
        assert rest[i] == events[i + 1];
      }
    }
    if |rest| == 0 {
      assert events == [events[0]];
      assert events[..0] == [];
    } else {
      HalfOpenRecovery(first, rest);
      RunSplit(b, events[..1], rest);
      assert events[..1] + rest == events;
      assert Run(b, events[..1]) == first by {
        assert events[..1][..0] == [];
      }
    }
  }

  /** Running two event sequences one after the other. */
  lemma {:induction false} RunSplit<T>(b: Breaker, xs: seq<Event<T>>, ys: seq<Event<T>>)
    ensures Run(b, xs + ys) == Run(Run(b, xs), ys)
    decreases |ys|
  {
    if |ys| == 0 {
      assert xs + ys == xs;
    } else {
      var ys' := ys[..|ys| - 1];
      assert (xs + ys)[..|xs + ys| - 1] == xs + ys';
      RunSplit(b, xs, ys');
    }
  }

  /** The wait a refusal reports is the least number of seconds after which
      the breaker lets a call through again: any delay at least that long
      allows a reset attempt, and any shorter delay does not. */
  lemma WaitIsLeastDelay(b: Breaker, now: int, delay: nat)
    ensures ShouldAttemptReset(b, now + delay) <==> delay >= TimeUntilRetry(b, now)
    ensures b.state == Open ==> (Admit(b, now + delay).Some? <==> delay >= TimeUntilRetry(b, now))
  {
  }

  /** `get_status` reports a wait within `[0, timeout_duration]` whenever the
      clock has not gone back past the last failure. */
  lemma StatusWaitBounded(b: Breaker, now: int)
    requires b.config.timeoutDuration >= 0
    requires b.lastFailure.Some? ==> now >= b.lastFailure.value
    ensures 0 <= GetStatus(b, now).timeUntilRetry <= b.config.timeoutDuration
  {
  }
}
