/** The circuit breaker of v10/internal/resilience/breaker.go. Each method body runs under the mutex, so
    a call of `Allow` or `Complete` is one atomic step; BreakerRuns interleaves them. */
module CircuitBreaker {
  import opened Wrappers

  datatype State = Closed | Open | HalfOpen
  datatype Permit = Permit(state: State, generation: nat)
  datatype Config = Config(failureThreshold: int, openTimeout: real)

  const DEFAULT_CONFIG := Config(3, 5.0)

  datatype Core = Core(
    state: State, failures: nat, openUntil: real, probeInFlight: bool,
    openings: nat, rejected: nat, recoveries: nat, generation: nat)

  const INITIAL := Core(Closed, 0, 0.0, false, 0, 0, 0, 0)

  function Tripped(config: Config, c: Core, now: real): Core {
    c.(state := Open, probeInFlight := false, openUntil := now + config.openTimeout,
       openings := c.openings + 1, generation := c.generation + 1)
  }

  function AllowStep(c: Core, now: real): (Core, Option<Permit>) {
    match c.state
    case Closed => (c, Some(Permit(Closed, c.generation)))
    case Open =>
      if now < c.openUntil then (c.(rejected := c.rejected + 1), None)
      else (c.(state := HalfOpen, probeInFlight := true), Some(Permit(HalfOpen, c.generation)))
    case HalfOpen =>
      if c.probeInFlight then (c.(rejected := c.rejected + 1), None)
      else (c.(probeInFlight := true), Some(Permit(HalfOpen, c.generation)))
  }

  predicate Current(c: Core, permit: Permit) {
    permit == Permit(c.state, c.generation)
  }

  function CompleteStep(config: Config, c: Core, permit: Permit, success: bool, now: real): Core {
    if !Current(c, permit) then c
    else if permit.state == HalfOpen then
      if success then c.(state := Closed, failures := 0, probeInFlight := false, recoveries := c.recoveries + 1)
      else Tripped(config, c, now)
    else if success then c.(failures := 0)
    else
      var more := c.(failures := c.failures + 1);
      if more.failures >= config.failureThreshold then Tripped(config, more, now) else more
  }

  // What a caller does to the breaker, in one step.
  datatype Event = Ask(now: real) | Finish(permit: Permit, success: bool, now: real)

  function EventStep(config: Config, c: Core, ev: Event): Core {
    match ev
    case Ask(now) => AllowStep(c, now).0
    case Finish(permit, success, now) => CompleteStep(config, c, permit, success, now)
  }

  function EventSteps(config: Config, c: Core, events: seq<Event>): Core {
    if events == [] then c
    else EventStep(config, EventSteps(config, c, events[..|events| - 1]), events[|events| - 1])
  }

  datatype Operation = Succeeded | Failed | Panicked
  datatype Result = Returned(success: bool) | CircuitOpen | PanickedThrough

  class Breaker {
    const config: Config
    var state: State
    var consecutiveFailures: nat
    var openUntil: real
    var probeInFlight: bool
    var openings: nat
    var rejected: nat
    var recoveries: nat
    var generation: nat

    ghost function View(): Core
      reads this
    {
      Core(state, consecutiveFailures, openUntil, probeInFlight, openings, rejected, recoveries, generation)
    }

    constructor (config: Config)
      ensures View() == INITIAL
      ensures this.config.failureThreshold > 0 && this.config.openTimeout > 0.0
      ensures this.config.failureThreshold == if config.failureThreshold > 0 then config.failureThreshold else 3
      ensures this.config.openTimeout == if config.openTimeout > 0.0 then config.openTimeout else 5.0
    {
      this.config := Config(
        if config.failureThreshold <= 0 then DEFAULT_CONFIG.failureThreshold else config.failureThreshold,
        if config.openTimeout <= 0.0 then DEFAULT_CONFIG.openTimeout else config.openTimeout);
      state, consecutiveFailures, openUntil, probeInFlight := Closed, 0, 0.0, false;
      openings, rejected, recoveries, generation := 0, 0, 0, 0;
    }

    method Allow(now: real) returns (permit: Option<Permit>)
      modifies this
      ensures (View(), permit) == AllowStep(old(View()), now)
    {
      match state
      case Closed =>
        return Some(Permit(Closed, generation));
      case Open =>
        if now < openUntil {
          rejected := rejected + 1;
          return None;
        }
        state := HalfOpen;
        probeInFlight := true;
        return Some(Permit(HalfOpen, generation));
      case HalfOpen =>
        if probeInFlight {
          rejected := rejected + 1;
          return None;
        }
        probeInFlight := true;
        return Some(Permit(HalfOpen, generation));
    }

    method Complete(permit: Permit, success: bool, now: real)
      modifies this
      ensures View() == CompleteStep(config, old(View()), permit, success, now)
    {
      if permit.generation != generation || permit.state != state {
        return;
      }
      if permit.state == HalfOpen {
        probeInFlight := false;
        if success {
          state := Closed;
          consecutiveFailures := 0;
          recoveries := recoveries + 1;
          return;
        }
        Trip(now);
        return;
      }
      if success {
        consecutiveFailures := 0;
        return;
      }
      consecutiveFailures := consecutiveFailures + 1;
      if consecutiveFailures >= config.failureThreshold {
        Trip(now);
      }
    }

    method Trip(now: real)
      modifies this
      ensures View() == Tripped(config, old(View()), now)
    {
      state := Open;
      probeInFlight := false;
      openUntil := now + config.openTimeout;
      openings := openings + 1;
      generation := generation + 1;
    }

    // What other callers do while an operation runs.
    method Interlude(events: seq<Event>)
      modifies this
      ensures View() == EventSteps(config, old(View()), events)
    {
      for i := 0 to |events|
        invariant View() == EventSteps(config, old(View()), events[..i])
      {
        assert events[..i + 1][..i] == events[..i];
        match events[i]
        case Ask(now) => var permit := Allow(now);
        case Finish(permit, success, now) => Complete(permit, success, now);
      }
      assert events[..|events|] == events;
    }

    /** Execute, with whatever other callers do while the operation runs: without a permit the operation is
        not run; a permit is completed exactly once, as a failure also when the operation panics. */
    method Execute(operation: Operation, started: real, others: seq<Event>, finished: real) returns (result: Result)
      modifies this
      ensures var (c, permit) := AllowStep(old(View()), started);
              if permit.None? then result == CircuitOpen && View() == c
              else
                && View() == CompleteStep(config, EventSteps(config, c, others), permit.value,
                                          operation == Succeeded, finished)
                && result == (if operation == Panicked then PanickedThrough else Returned(operation == Succeeded))
    {
      var permit := Allow(started);
      if permit.None? {
        return CircuitOpen;
      }
      Interlude(others);
      if operation == Panicked {
        Complete(permit.value, false, finished);
        return PanickedThrough;
      }
      Complete(permit.value, operation == Succeeded, finished);
      return Returned(operation == Succeeded);
    }
  }
}
