/** Every interleaving of callers of one circuit breaker: permits are outstanding between `Allow` and
    `Complete`, and completions arrive in any order and as late as they like. */
module BreakerRuns {
  import opened Wrappers
  import opened CircuitBreaker

  /** The breaker, the outstanding permits and the clock. The other fields record the history: the
      results of the completions of the current phase, the probes that failed and succeeded, the
      refused requests, the moment the breaker last left Closed, how many operations it has admitted
      since that moment, and when it last became Open. */
  datatype World = World(
    core: Core, outstanding: multiset<Permit>, clock: real,
    results: seq<bool>, failedProbes: nat, goodProbes: nat, refused: nat, trippedAt: real, admitted: nat,
    openedAt: real)

  const START := World(INITIAL, multiset{}, 0.0, [], 0, 0, 0, 0.0, 0, 0.0)

  predicate SamePhase(c: Core, c': Core) {
    c.state == c'.state && c.generation == c'.generation
  }

  function Step(config: Config, w: World, ev: Event): Option<World> {
    if ev.now < w.clock then None
    else match ev
      case Ask(now) =>
        var (c, permit) := AllowStep(w.core, now);
        Some(w.(core := c, clock := now,
                outstanding := if permit.Some? then w.outstanding + multiset{permit.value} else w.outstanding,
                results := if SamePhase(w.core, c) then w.results else [],
                refused := if permit.None? then w.refused + 1 else w.refused,
                admitted := if permit.Some? && w.core.state != Closed then w.admitted + 1 else w.admitted))
      case Finish(permit, success, now) =>
        if permit !in w.outstanding then None
        else
          var c := CompleteStep(config, w.core, permit, success, now);
          var leaves := w.core.state == Closed && c.state != Closed;
          Some(w.(core := c, clock := now,
                  outstanding := w.outstanding - multiset{permit},
                  results := if !SamePhase(w.core, c) then []
                             else if Current(w.core, permit) then w.results + [success] else w.results,
                  failedProbes := if permit.state == HalfOpen && !success then w.failedProbes + 1 else w.failedProbes,
                  goodProbes := if permit.state == HalfOpen && success then w.goodProbes + 1 else w.goodProbes,
                  trippedAt := if leaves then now else w.trippedAt,
                  openedAt := if w.core.state != Open && c.state == Open then now else w.openedAt,
                  admitted := if leaves then 0 else w.admitted))
  }

  function Run(config: Config, events: seq<Event>): Option<World> {
    if events == [] then Some(START)
    else
      match Run(config, events[..|events| - 1])
      case None => None
      case Some(w) => Step(config, w, events[|events| - 1])
  }

  ghost predicate Configured(config: Config) {
    config.failureThreshold > 0 && config.openTimeout > 0.0
  }

  // ------------------------------------------------------------------ phases

  function Rank(state: State): nat {
    match state case Open => 0 case HalfOpen => 1 case Closed => 2
  }

  // Lexicographic on (generation, Open < HalfOpen < Closed).
  ghost predicate Before(a: Permit, b: Permit) {
    a.generation < b.generation || (a.generation == b.generation && Rank(a.state) < Rank(b.state))
  }

  function Phase(c: Core): Permit {
    Permit(c.state, c.generation)
  }

  // How many of the last results are failures.
  function Trailing(results: seq<bool>): nat {
    if results == [] || results[|results| - 1] then 0 else Trailing(results[..|results| - 1]) + 1
  }

  ghost predicate LastFailed(results: seq<bool>, n: nat) {
    n <= |results| && forall i :: |results| - n <= i < |results| ==> !results[i]
  }

  lemma {:induction false} TrailingIsLastFailed(results: seq<bool>, n: nat)
    ensures Trailing(results) >= n <==> LastFailed(results, n)
    decreases |results|
  {
    if results != [] && n > 0 {
      var init := results[..|results| - 1];
      TrailingIsLastFailed(init, n - 1);
      if !results[|results| - 1] && LastFailed(results, n) {
        assert LastFailed(init, n - 1);
      }
      if Trailing(results) >= n {
        assert forall i :: |results| - n <= i < |init| ==> !init[i];
      }
    }
  }

  // n time-outs one after the other.
  function Span(config: Config, n: nat): real {
    if n == 0 then 0.0 else Span(config, n - 1) + config.openTimeout
  }

  lemma {:induction false} SpanIsProduct(config: Config, n: nat)
    ensures Span(config, n) == n as real * config.openTimeout
  {
    if n > 0 {
      SpanIsProduct(config, n - 1);
      assert n as real * config.openTimeout == (n - 1) as real * config.openTimeout + config.openTimeout;
    }
  }

  // ------------------------------------------------------------------ what every run keeps

  ghost predicate PermitsInv(w: World) {
    && (w.core.probeInFlight <==> w.core.state == HalfOpen)
    && w.outstanding[Permit(HalfOpen, w.core.generation)] == (if w.core.state == HalfOpen then 1 else 0)
    && forall p :: p in w.outstanding ==>
        p.state != Open && (p == Phase(w.core) || (p.state == Closed && Before(p, Phase(w.core))))
  }

  ghost predicate CountersInv(w: World) {
    && w.core.openings == w.core.generation
    && w.core.recoveries == w.goodProbes
    && w.core.openings == w.core.recoveries + w.failedProbes + (if w.core.state == Closed then 0 else 1)
    && w.core.rejected == w.refused
  }

  ghost predicate ClosedInv(config: Config, w: World) {
    w.core.state == Closed ==> w.core.failures == Trailing(w.results) < config.failureThreshold
  }

  ghost predicate LoadInv(config: Config, w: World) {
    match w.core.state
    case Closed => true
    case Open => w.core.openUntil >= w.trippedAt + Span(config, w.admitted + 1)
        && w.clock >= w.trippedAt + Span(config, w.admitted)
    case HalfOpen => w.admitted > 0 && w.clock >= w.trippedAt + Span(config, w.admitted)
  }

  ghost predicate OpenInv(config: Config, w: World) {
    w.core.state == Open ==> w.core.openUntil == w.openedAt + config.openTimeout
  }

  ghost predicate Inv(config: Config, w: World) {
    PermitsInv(w) && CountersInv(w) && ClosedInv(config, w) && LoadInv(config, w) && OpenInv(config, w)
  }

  ghost predicate Keeps(w: World, w': World) {
    PermitsInv(w') && (SamePhase(w.core, w'.core) || Before(Phase(w.core), Phase(w'.core)))
  }

  lemma AskKeepsPermits(config: Config, w: World, now: real)
    requires PermitsInv(w) && Step(config, w, Ask(now)).Some?
    ensures Keeps(w, Step(config, w, Ask(now)).value)
  {
  }

  lemma FinishKeepsPermits(config: Config, w: World, permit: Permit, success: bool, now: real)
    requires PermitsInv(w) && Step(config, w, Finish(permit, success, now)).Some?
    ensures Keeps(w, Step(config, w, Finish(permit, success, now)).value)
  {
    var w' := Step(config, w, Finish(permit, success, now)).value;
    assert forall p :: p in w'.outstanding ==> p in w.outstanding;
    if Current(w.core, permit) && permit.state == HalfOpen {
      assert permit !in w'.outstanding;
    }
  }

  lemma StepKeepsPermits(config: Config, w: World, ev: Event)
    requires Configured(config) && PermitsInv(w) && Step(config, w, ev).Some?
    ensures Keeps(w, Step(config, w, ev).value)
  {
    match ev
    case Ask(now) => AskKeepsPermits(config, w, now);
    case Finish(permit, success, now) => FinishKeepsPermits(config, w, permit, success, now);
  }

  lemma StepKeepsInv(config: Config, w: World, ev: Event)
    requires Configured(config) && Inv(config, w) && Step(config, w, ev).Some?
    ensures Inv(config, Step(config, w, ev).value)
  {
    StepKeepsPermits(config, w, ev);
    StepKeepsCounters(config, w, ev);
    StepKeepsClosed(config, w, ev);
    StepKeepsLoad(config, w, ev);
    StepKeepsOpen(config, w, ev);
  }

  lemma StepKeepsOpen(config: Config, w: World, ev: Event)
    requires PermitsInv(w) && OpenInv(config, w) && Step(config, w, ev).Some?
    ensures OpenInv(config, Step(config, w, ev).value)
  {
  }

  lemma StepKeepsCounters(config: Config, w: World, ev: Event)
    requires PermitsInv(w) && CountersInv(w) && Step(config, w, ev).Some?
    ensures CountersInv(Step(config, w, ev).value)
  {
  }

  lemma StepKeepsClosed(config: Config, w: World, ev: Event)
    requires Configured(config) && PermitsInv(w) && ClosedInv(config, w) && Step(config, w, ev).Some?
    ensures ClosedInv(config, Step(config, w, ev).value)
  {
    if ev.Finish? {
      var results := w.results + [ev.success];
      assert results[..|results| - 1] == w.results;
    }
  }

  lemma StepKeepsLoad(config: Config, w: World, ev: Event)
    requires Configured(config) && PermitsInv(w) && LoadInv(config, w) && Step(config, w, ev).Some?
    ensures LoadInv(config, Step(config, w, ev).value)
  {
  }

  lemma {:induction false} RunKeepsInv(config: Config, events: seq<Event>)
    requires Configured(config) && Run(config, events).Some?
    ensures Inv(config, Run(config, events).value)
    decreases |events|
  {
    if events != [] {
      RunKeepsInv(config, events[..|events| - 1]);
      StepKeepsInv(config, Run(config, events[..|events| - 1]).value, events[|events| - 1]);
    }
  }

  // ------------------------------------------------------------------ the theorems

  lemma {:induction false} RunPrefix(config: Config, events: seq<Event>, n: nat)
    requires n <= |events| && Run(config, events).Some?
    ensures Run(config, events[..n]).Some?
    decreases |events|
  {
    if n < |events| {
      RunPrefix(config, events[..|events| - 1], n);
      assert events[..|events| - 1][..n] == events[..n];
    } else {
      assert events[..n] == events;
    }
  }

  /** Phases never repeat: over any run (generation, Open < HalfOpen < Closed) never decreases, and it
      increases strictly whenever the phase changes. */
  lemma {:induction false} PhasesNeverRepeat(config: Config, events: seq<Event>, n: nat)
    requires Configured(config) && n <= |events| && Run(config, events).Some?
    ensures Run(config, events[..n]).Some?
    ensures var early, late := Run(config, events[..n]).value.core, Run(config, events).value.core;
            SamePhase(early, late) || Before(Phase(early), Phase(late))
    decreases |events|
  {
    if n < |events| {
      var init := events[..|events| - 1];
      PhasesNeverRepeat(config, init, n);
      assert init[..n] == events[..n];
      RunKeepsInv(config, init);
      StepKeepsPermits(config, Run(config, init).value, events[|events| - 1]);
    } else {
      assert events[..n] == events;
    }
  }

  /** A permit whose phase has passed is inert for ever: whenever and however its operation ends, the
      breaker does not change. */
  lemma {:induction false} StalePermitIsInert(config: Config, events: seq<Event>, n: nat, permit: Permit,
      success: bool, now: real)
    requires Configured(config) && n <= |events| && Run(config, events).Some? && Run(config, events[..n]).Some?
    requires permit in Run(config, events[..n]).value.outstanding
    requires !Current(Run(config, events[..n]).value.core, permit)
    ensures var c := Run(config, events).value.core; CompleteStep(config, c, permit, success, now) == c
  {
    RunKeepsInv(config, events[..n]);
    PhasesNeverRepeat(config, events, n);
  }

  /** In every state of every run: HalfOpen holds exactly when a probe is in flight, and exactly one
      half-open permit is then outstanding, that of the current generation; no half-open permit
      outlives its phase; so the branch of `Allow` for a half-open breaker without a probe is dead. */
  lemma {:induction false} OneProbeAtATime(config: Config, events: seq<Event>)
    requires Configured(config) && Run(config, events).Some?
    ensures var w := Run(config, events).value;
            && (w.core.state == HalfOpen <==> w.core.probeInFlight)
            && w.outstanding[Permit(HalfOpen, w.core.generation)] == (if w.core.state == HalfOpen then 1 else 0)
            && (forall p :: p in w.outstanding && p.state == HalfOpen ==> Current(w.core, p))
  {
    RunKeepsInv(config, events);
  }

  /** A closed breaker opens exactly when the last FailureThreshold completions of the current phase,
      the new one included, all failed. */
  lemma {:induction false} OpensExactlyOnFailures(config: Config, events: seq<Event>, permit: Permit, success: bool,
      now: real)
    requires Configured(config) && Run(config, events).Some? && Run(config, events).value.core.state == Closed
    ensures var w := Run(config, events).value;
            CompleteStep(config, w.core, permit, success, now).state == Open <==>
              Current(w.core, permit) && LastFailed(w.results + [success], config.failureThreshold)
  {
    RunKeepsInv(config, events);
    var results := Run(config, events).value.results + [success];
    assert results[..|results| - 1] == Run(config, events).value.results;
    TrailingIsLastFailed(results, config.failureThreshold);
  }

  /** How the state moves on, in every run: a closed breaker opens on the last of that many failures in a row; an
      open one is half-open at the first request after its time-out; the end of the probe closes a half-open one
      or opens it again; and nothing else moves it. */
  lemma {:induction false} StateMoves(config: Config, events: seq<Event>, ev: Event)
    requires Configured(config) && Run(config, events).Some? && Run(config, events + [ev]).Some?
    ensures var w, next := Run(config, events).value, Run(config, events + [ev]).value;
            match w.core.state
            case Closed =>
              next.core.state ==
              if ev.Finish? && ev.permit == Phase(w.core)
                 && LastFailed(w.results + [ev.success], config.failureThreshold)
              then Open else Closed
            case Open =>
              next.core.state == if ev.Ask? && ev.now >= w.openedAt + config.openTimeout then HalfOpen else Open
            case HalfOpen =>
              next.core.state ==
              if ev.Finish? && ev.permit == Phase(w.core) then (if ev.success then Closed else Open) else HalfOpen
  {
    RunSnoc(config, events, ev);
    RunKeepsInv(config, events);
    var w := Run(config, events).value;
    if w.core.state == Closed && ev.Finish? {
      OpensExactlyOnFailures(config, events, ev.permit, ev.success, ev.now);
    }
  }

  /** The counters are the history: every opening starts a generation, and was followed by a recovery,
      by a failed probe, or is still going on. */
  lemma {:induction false} CountersAreHistory(config: Config, events: seq<Event>)
    requires Configured(config) && Run(config, events).Some?
    ensures var w := Run(config, events).value;
            && w.core.openings == w.core.generation
            && w.core.recoveries == w.goodProbes
            && w.core.openings == w.core.recoveries + w.failedProbes + (if w.core.state == Closed then 0 else 1)
            && w.core.rejected == w.refused
  {
    RunKeepsInv(config, events);
  }

  /** Load while tripped: from the moment the breaker leaves Closed until it returns, the operations
      admitted since that moment fit one whole time-out each into the time that has passed. */
  lemma {:induction false} LoadWhileTripped(config: Config, events: seq<Event>)
    requires Configured(config) && Run(config, events).Some? && Run(config, events).value.core.state != Closed
    ensures Span(config, Run(config, events).value.admitted)
            <= Run(config, events).value.clock - Run(config, events).value.trippedAt
  {
    RunKeepsInv(config, events);
  }

  /** Who is admitted: in every state of every run a request gets a permit exactly if the breaker is closed, or is
      open and one time-out has passed since it opened. The permit is for the phase the request leads to, which
      after an opening is HalfOpen; a refused request changes nothing but the count of refusals. */
  lemma {:induction false} AdmitsIff(config: Config, events: seq<Event>, now: real)
    requires Configured(config) && Run(config, events).Some? && Run(config, events).value.clock <= now
    ensures var w := Run(config, events).value;
            var (c, permit) := AllowStep(w.core, now);
            && (permit.Some? <==>
                  w.core.state == Closed || (w.core.state == Open && now >= w.openedAt + config.openTimeout))
            && (permit.Some? ==>
                  && permit.value == Permit(c.state, c.generation) && c.generation == w.core.generation
                  && c.state == (if w.core.state == Closed then Closed else HalfOpen))
            && (permit.None? ==> c == w.core.(rejected := w.core.rejected + 1))
  {
    RunKeepsInv(config, events);
  }

  /** And it recovers: from every reachable state the requests and successful completions below lead back to
      Closed. An open breaker needs one request after its time-out, whose operation succeeds; a half-open one the
      success of the probe that is out. */
  lemma {:induction false} CanRecover(config: Config, events: seq<Event>) returns (more: seq<Event>)
    requires Configured(config) && Run(config, events).Some?
    ensures |more| <= 2 && (forall i :: 0 <= i < |more| ==> more[i].Finish? ==> more[i].success)
    ensures Run(config, events + more).Some? && Run(config, events + more).value.core.state == Closed
  {
    hide Run, Step;
    RunKeepsInv(config, events);
    var w := Run(config, events).value;
    match w.core.state
    case Closed =>
      more := [];
      assert events + more == events;
    case HalfOpen =>
      more := [Finish(Phase(w.core), true, w.clock)];
      ProbeCloses(config, events);
    case Open =>
      var ask := Ask(if w.core.openUntil > w.clock then w.core.openUntil else w.clock);
      TimeoutProbes(config, events, ask.now);
      ProbeCloses(config, events + [ask]);
      var finish := Finish(Permit(HalfOpen, w.core.generation), true, ask.now);
      more := [ask, finish];
      assert events + more == events + [ask] + [finish];
  }

  lemma TimeoutProbes(config: Config, events: seq<Event>, now: real)
    requires Configured(config) && Run(config, events).Some? && Run(config, events).value.core.state == Open
    requires Run(config, events).value.clock <= now && Run(config, events).value.core.openUntil <= now
    ensures var w, after := Run(config, events).value, Run(config, events + [Ask(now)]);
            && after.Some? && after.value.clock == now
            && Phase(after.value.core) == Permit(HalfOpen, w.core.generation)
  {
    RunSnoc(config, events, Ask(now));
  }

  lemma ProbeCloses(config: Config, events: seq<Event>)
    requires Configured(config) && Run(config, events).Some? && Run(config, events).value.core.state == HalfOpen
    ensures var w := Run(config, events).value;
            var after := Run(config, events + [Finish(Phase(w.core), true, w.clock)]);
            after.Some? && after.value.core.state == Closed
  {
    RunKeepsInv(config, events);
    var w := Run(config, events).value;
    RunSnoc(config, events, Finish(Phase(w.core), true, w.clock));
  }

  lemma RunSnoc(config: Config, events: seq<Event>, ev: Event)
    requires Run(config, events).Some?
    ensures Run(config, events + [ev]) == Step(config, Run(config, events).value, ev)
  {
    assert (events + [ev])[..|events|] == events;
  }
}
