// For which configurations the documented bound on half-open requests holds
// (pkg/vpsie/client/circuitbreaker.go:44-45, 143-265).
module ProbeBounds {
  import opened CircuitBreakers
  import opened BreakerRuns
  import H = BreakerHistory

  // No completion can open the breaker: the rate it is compared with is at most one.
  predicate CannotTrip(config: Config) {
    config.failureRateThreshold > 1.0 && config.slidingWindowSize > 0
  }

  // ----- A configuration that cannot trip never leaves Closed -----

  lemma {:induction false} FailuresBounded(outcomes: seq<bool>)
    ensures CountFailures(outcomes) <= |outcomes|
  {
    if outcomes != [] {
      FailuresBounded(outcomes[..|outcomes| - 1]);
    }
  }

  lemma QuotientBounded(count: nat, length: nat)
    requires count <= length && length > 0
    ensures count as real / length as real <= 1.0
    ensures count == length ==> count as real / length as real == 1.0
  {
    var q := count as real / length as real;
    assert q * length as real == count as real;
  }

  lemma NeverTrips(config: Config, outcomes: seq<bool>, completions: seq<bool>)
    requires CannotTrip(config)
    ensures !H.Trips(config, outcomes, completions)
  {
    var width := WindowLength(config);
    FailuresBounded(H.Recent(width, completions));
    QuotientBounded(CountFailures(H.Recent(width, completions)), width);
  }

  lemma {:induction false} StaysClosed(config: Config, start: int, steps: seq<Step>)
    requires CannotTrip(config) && IsRun(config, start, steps)
    ensures After(config, start, steps).breaker.state == Closed
  {
    hide Admission, Completion, H.Trips, H.Begin, H.End;
    if steps != [] {
      var before, step := steps[..|steps| - 1], steps[|steps| - 1];
      StaysClosed(config, start, before);
      var s := After(config, start, before);
      match step
      case BeginCall(_, now, later) => AdmissionEffect(config, s.breaker, now, later);
      case EndCall(id, ok, now, later) =>
        CompletionChangesState(config, start, before, id, ok, now, later);
        if s.history.mode.SinceClosed? {
          NeverTrips(config, s.history.mode.outcomes + [ok], s.history.completions + [ok]);
        }
      case ResetBreaker(_) =>
    }
  }

  // ----- Every other configuration opens after enough failures in a row -----

  function Fails(m: nat): seq<bool> {
    seq(m, _ => false)
  }

  lemma {:induction false} AllFail(m: nat)
    ensures CountFailures(Fails(m)) == m && H.TrailingFailures(Fails(m)) == m
  {
    if m > 0 {
      AllFail(m - 1);
      assert Fails(m)[..m - 1] == Fails(m - 1);
    }
  }

  lemma EnoughFailuresTrip(config: Config, m: nat)
    requires !CannotTrip(config) && m >= config.failureThreshold && m >= WindowLength(config)
    ensures H.Trips(config, Fails(m), Fails(m))
  {
    var width := WindowLength(config);
    AllFail(m);
    AllFail(width);
    assert H.Recent(width, Fails(m)) == Fails(width);
    if width > 0 {
      QuotientBounded(width, width);
    }
  }

  // m calls have begun and failed, one after the other, and the breaker is still closed.
  ghost predicate Failing(config: Config, start: int, steps: seq<Step>, m: nat) {
    && IsRun(config, start, steps)
    && var s := After(config, start, steps);
       && s.breaker.state == Closed && s.inFlight == map[] && s.clock == start
       && s.history.mode == H.SinceClosed(Fails(m)) && s.history.completions == Fails(m)
  }

  ghost predicate Opened(config: Config, start: int, steps: seq<Step>) {
    IsRun(config, start, steps) && After(config, start, steps).breaker.state == Open
    && After(config, start, steps).inFlight == map[]
  }

  lemma Begins(config: Config, start: int, steps: seq<Step>, m: nat)
    requires Failing(config, start, steps, m)
    ensures var next := steps + [BeginCall(0, start, start)];
            && IsRun(config, start, next)
            && var s := After(config, start, next);
               && s.breaker.state == Closed && s.inFlight.Keys == {0} && s.clock == start
               && s.history.mode == H.SinceClosed(Fails(m)) && s.history.completions == Fails(m)
  {
    hide Admission;
    RunKeeps(config, start, steps);
    RunExtends(config, start, steps, BeginCall(0, start, start));
    AdmissionEffect(config, After(config, start, steps).breaker, start, start);
  }

  // One more failing call: the breaker opens, or one more failure in a row is recorded; it
  // opens if enough have failed.
  lemma FailsOnce(config: Config, start: int, steps: seq<Step>, m: nat) returns (next: seq<Step>)
    requires Failing(config, start, steps, m) && !CannotTrip(config)
    ensures Opened(config, start, next) || Failing(config, start, next, m + 1)
    ensures m + 1 >= config.failureThreshold && m + 1 >= WindowLength(config) ==> Opened(config, start, next)
  {
    hide IsRun, After, Admission, Completion, H.Trips;
    Begins(config, start, steps, m);
    var begun := steps + [BeginCall(0, start, start)];
    var end := EndCall(0, false, start, start);
    RunKeeps(config, start, begun);
    CompletionChangesState(config, start, begun, 0, false, start, start);
    next := begun + [end];
    RunExtends(config, start, begun, end);
    RunKeeps(config, start, next);
    assert Fails(m) + [false] == Fails(m + 1);
    assert After(config, start, next).inFlight == map[];
    if m + 1 >= config.failureThreshold && m + 1 >= WindowLength(config) {
      EnoughFailuresTrip(config, m + 1);
    }
  }

  // Failures still wanting when m have been seen.
  function Missing(config: Config, m: nat): nat {
    var width := WindowLength(config);
    var wanted := if config.failureThreshold > width then config.failureThreshold else width;
    if wanted > m then wanted - m else 0
  }

  lemma {:induction false} Opens(config: Config, start: int, steps: seq<Step>, m: nat) returns (run: seq<Step>)
    requires Failing(config, start, steps, m) && !CannotTrip(config)
    ensures Opened(config, start, run)
    decreases Missing(config, m)
  {
    hide Failing, Opened;
    run := FailsOnce(config, start, steps, m);
    if m + 1 < config.failureThreshold || m + 1 < WindowLength(config) {
      if Failing(config, start, run, m + 1) {
        run := Opens(config, start, run, m + 1);
      }
    }
  }

  // ----- Half-open, the limit is exceeded by the call that was not counted -----

  // Half-open, with the calls 0, ..., k in flight and the last k of them counted.
  ghost predicate Probing(config: Config, start: int, steps: seq<Step>, k: nat) {
    && IsRun(config, start, steps)
    && var s := After(config, start, steps);
       && s.breaker.state == HalfOpen && s.breaker.halfOpenRequests == k
       && forall id | id in s.inFlight :: id <= k
  }

  lemma HalfOpens(config: Config, start: int, steps: seq<Step>) returns (run: seq<Step>)
    requires Opened(config, start, steps)
    ensures Probing(config, start, run, 0)
  {
    var s := After(config, start, steps);
    RunKeeps(config, start, steps);
    var due := s.breaker.lastStateChange + config.timeout;
    var at := if due > s.clock then due else s.clock;
    run := steps + [BeginCall(0, at, at)];
    RunExtends(config, start, steps, BeginCall(0, at, at));
  }

  lemma {:induction false} FillsUp(config: Config, start: int, steps: seq<Step>, k: nat) returns (run: seq<Step>)
    requires Probing(config, start, steps, k)
    ensures IsRun(config, start, run) && After(config, start, run).breaker.state == HalfOpen
    ensures After(config, start, run).breaker.halfOpenRequests >= config.maxHalfOpenRequests
    decreases config.maxHalfOpenRequests - k
  {
    run := steps;
    if k < config.maxHalfOpenRequests {
      var s := After(config, start, steps);
      var call := BeginCall(k + 1, s.clock, s.clock);
      RunKeeps(config, start, steps);
      RunExtends(config, start, steps, call);
      run := FillsUp(config, start, steps + [call], k + 1);
    }
  }

  // The documented bound: half-open, never more probes in flight than configured.
  ghost predicate BoundHolds(config: Config, start: int) {
    forall steps | IsRun(config, start, steps) && After(config, start, steps).breaker.state == HalfOpen ::
      Probes(After(config, start, steps)) <= config.maxHalfOpenRequests
  }

  // It holds exactly for the configurations under which the breaker can never open: for
  // every other one, whatever its limit, some run exceeds the limit.
  lemma ProbeBoundHoldsIff(config: Config, start: int)
    ensures BoundHolds(config, start) <==> config.failureRateThreshold > 1.0 && config.slidingWindowSize > 0
  {
    if CannotTrip(config) {
      forall steps | IsRun(config, start, steps) ensures After(config, start, steps).breaker.state == Closed {
        StaysClosed(config, start, steps);
      }
    } else {
      assert Failing(config, start, [], 0);
      var run := Opens(config, start, [], 0);
      run := HalfOpens(config, start, run);
      run := FillsUp(config, start, run, 0);
      HalfOpenLedger(config, start, run);
    }
  }
}
