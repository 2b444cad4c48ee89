/**
 `MultiServiceCircuitBreaker`: a registry from service name to breaker. The
 registry is a value; looking a breaker up returns the (possibly extended)
 registry together with the breaker.
 */
module BreakerRegistry {
  import opened Common
  import opened Errors
  import opened CircuitBreaker

  type Registry = map<string, Breaker>

  datatype Lookup = Lookup(registry: Registry, breaker: Breaker)

  /** `get_or_create`: an existing breaker is returned as it is, whatever
      thresholds are passed; an unknown name gets a fresh breaker with the
      given thresholds, the default success threshold of 2, and the service
      name as its name. */
  function GetOrCreate(reg: Registry, name: string, failureThreshold: int := 5, timeoutDuration: int := 60): (r: Lookup)
    ensures name in r.registry && r.breaker == r.registry[name]
    ensures name in reg ==> r == Lookup(reg, reg[name])
    ensures name !in reg ==>
      r.registry == reg[name := Create(Config(failureThreshold, timeoutDuration, 2, name))]
  {
    if name in reg then Lookup(reg, reg[name])
    else
      var b := Create(Config(failureThreshold, timeoutDuration, 2, name));
      Lookup(reg[name := b], b)
  }

  /** `reset_all`: every registered breaker is back in its initial state and
      keeps its configuration; no name is added or removed. */
  function ResetAll(reg: Registry): (r: Registry)
    ensures r.Keys == reg.Keys
    ensures forall n :: n in r ==> r[n] == Create(reg[n].config)
  {
    map n | n in reg :: Reset(reg[n])
  }

  /** `get_all_status`: one status per registered name, each the status that
      breaker reports itself. */
  function AllStatus(reg: Registry, now: int): (r: map<string, Status>)
    ensures r.Keys == reg.Keys
    ensures forall n :: n in r ==> r[n] == GetStatus(reg[n], now)
    ensures forall n :: n in r ==> r[n].name == reg[n].config.name && r[n].state == StateValue(reg[n].state)
  {
    map n | n in reg :: GetStatus(reg[n], now)
  }

  /** Asking twice for the same name yields the breaker created (or found) the
      first time, whatever parameters the second request passes. */
  lemma GetOrCreateIdempotent(reg: Registry, name: string, f1: int, t1: int, f2: int, t2: int)
    ensures var first := GetOrCreate(reg, name, f1, t1);
      GetOrCreate(first.registry, name, f2, t2) == first
  {
  }

  datatype Dispatch<+T> = Dispatch(registry: Registry, verdict: Verdict<T>)

  /** `get_or_create(name, ...).call(...)`: the registry hands out the breaker
      object itself, so the step the call takes is taken by the registered
      breaker; every other name keeps its breaker. An unknown name is
      registered first, and its fresh breaker always runs the operation. */
  function CallThrough<T>(reg: Registry, name: string, failureThreshold: int, timeoutDuration: int,
                          now: int, done: int, outcome: Attempt<T>): (d: Dispatch<T>)
    ensures d.registry.Keys == reg.Keys + {name}
    ensures forall n :: n in reg && n != name ==> d.registry[n] == reg[n]
    ensures name in reg ==>
      var step := Call(reg[name], now, done, outcome);
      d.verdict == step.verdict && d.registry[name] == step.breaker
    ensures name !in reg ==>
      && (outcome.Ok? ==> d.verdict == Returned(outcome.value))
      && (outcome.Err? ==> d.verdict == Raised(outcome.error))
      && d.registry[name] == Call(Create(Config(failureThreshold, timeoutDuration, 2, name)), now, done, outcome).breaker
  {
    var found := GetOrCreate(reg, name, failureThreshold, timeoutDuration);
    var step := Call(found.breaker, now, done, outcome);
    Dispatch(found.registry[name := step.breaker], step.verdict)
  }

  /** A call made through the registry is what the registry reports
      afterwards: the status of the called name is its stepped breaker's, and
      every other registered name reports what it reported before. */
  lemma StatusSeesCall<T>(reg: Registry, name: string, failureThreshold: int, timeoutDuration: int,
                          now: int, done: int, outcome: Attempt<T>, later: int)
    ensures var d := CallThrough(reg, name, failureThreshold, timeoutDuration, now, done, outcome);
      var found := GetOrCreate(reg, name, failureThreshold, timeoutDuration);
      && AllStatus(d.registry, later)[name] == GetStatus(Call(found.breaker, now, done, outcome).breaker, later)
      && forall n :: n in reg && n != name ==> AllStatus(d.registry, later)[n] == AllStatus(reg, later)[n]
  {
  }

  /** After `reset_all` every registered name reports a CLOSED breaker with
      no counts, no failure time and no wait. */
  lemma ResetAllStatus(reg: Registry, now: int)
    ensures var st := AllStatus(ResetAll(reg), now);
      && st.Keys == reg.Keys
      && forall n :: n in st ==>
           st[n].state == "closed" && st[n].failureCount == 0 && st[n].successCount == 0
           && st[n].lastFailure == None && st[n].timeUntilRetry == 0
  {
  }
}
