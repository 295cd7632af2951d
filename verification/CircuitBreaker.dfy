// The circuit breaker that guards every VPSie API call
// (pkg/vpsie/client/circuitbreaker.go).
//
// `Admission`, `Completion` and `ResetSpec` say what one locked step does to the
// breaker's fields; class `CircuitBreaker` performs those steps in place, ring
// buffer included. What the steps mean over whole runs is proved in
// BreakerHistory.dfy and BreakerRuns.dfy.
module CircuitBreakers {

  datatype State = Closed | Open | HalfOpen

  // Times and durations are integers in one unit. Every threshold may be any number.
  datatype Config = Config(
    failureThreshold: int,
    successThreshold: int,
    timeout: int,
    maxHalfOpenRequests: int,
    failureRateThreshold: real,
    slidingWindowSize: int)

  datatype Breaker = Breaker(
    state: State,
    failureCount: int,
    successCount: int,
    lastStateChange: int,
    halfOpenRequests: int,
    totalRequests: int,
    totalFailures: int,
    totalSuccesses: int,
    consecutiveFailures: int,
    openDurationTotal: int,
    halfOpenDurationTotal: int,
    lastOpenTime: int,
    lastHalfOpenTime: int,
    halfOpenAttempts: int,
    halfOpenSuccesses: int,
    halfOpenFailures: int,
    window: seq<bool>,
    windowIndex: int)
  {
    ghost predicate WellFormed(config: Config) {
      && |window| == WindowLength(config)
      && 0 <= windowIndex
      && (if |window| == 0 then windowIndex == 0 else windowIndex < |window|)
    }
  }

  function WindowLength(config: Config): nat {
    if config.slidingWindowSize > 0 then config.slidingWindowSize else 0
  }

  function Initial(config: Config, now: int): Breaker {
    Breaker(Closed, 0, 0, now, 0, 0, 0, 0, 0, 0, 0, 0, 0, 0, 0, 0,
            seq(WindowLength(config), _ => true), 0)
  }

  function CountFailures(outcomes: seq<bool>): nat {
    if outcomes == [] then 0
    else CountFailures(outcomes[..|outcomes| - 1]) + if outcomes[|outcomes| - 1] then 0 else 1
  }

  function FailureRate(window: seq<bool>): real {
    if window == [] then 0.0 else CountFailures(window) as real / |window| as real
  }

  function TransitionTo(b: Breaker, newState: State, later: int): Breaker {
    if newState == b.state then b
    else b.(state := newState, lastStateChange := later,
            failureCount := 0, successCount := 0, halfOpenRequests := 0)
  }

  // `now` is the clock reading on entry, `later` the second reading taken by the transition.
  function Admission(config: Config, b: Breaker, now: int, later: int): (Breaker, bool) {
    var b := b.(totalRequests := b.totalRequests + 1);
    match b.state
    case Closed => (b, true)
    case Open =>
      if now - b.lastStateChange >= config.timeout then
        var b := b.(openDurationTotal := b.openDurationTotal + (now - b.lastOpenTime));
        (TransitionTo(b, HalfOpen, later).(lastHalfOpenTime := now), true)
      else
        (b, false)
    case HalfOpen =>
      if b.halfOpenRequests >= config.maxHalfOpenRequests then (b, false)
      else (b.(halfOpenRequests := b.halfOpenRequests + 1,
               halfOpenAttempts := b.halfOpenAttempts + 1), true)
  }

  function Record(b: Breaker, ok: bool): (r: Breaker)
    requires 0 <= b.windowIndex && (b.window != [] ==> b.windowIndex < |b.window|)
  {
    if b.window == [] then b
    else b.(window := b.window[b.windowIndex := ok],
            windowIndex := if b.windowIndex + 1 == |b.window| then 0 else b.windowIndex + 1)
  }

  function ShouldOpen(config: Config, b: Breaker): bool {
    && b.failureCount >= config.failureThreshold
    && (config.failureRateThreshold > 0.0 && |b.window| > 0 ==>
          FailureRate(b.window) >= config.failureRateThreshold)
  }

  function CountFailure(b: Breaker): Breaker {
    b.(failureCount := b.failureCount + 1, consecutiveFailures := b.consecutiveFailures + 1,
       successCount := 0, totalFailures := b.totalFailures + 1)
  }

  function CountSuccess(b: Breaker): Breaker {
    b.(failureCount := 0, consecutiveFailures := 0,
       successCount := b.successCount + 1, totalSuccesses := b.totalSuccesses + 1)
  }

  // A call that ends while the breaker is closed.
  function ClosedCompletion(config: Config, b: Breaker, ok: bool, now: int, later: int): Breaker {
    if ok then CountSuccess(b)
    else
      var b := CountFailure(b);
      if ShouldOpen(config, b) then TransitionTo(b, Open, later).(lastOpenTime := now) else b
  }

  // A call that ends while the breaker is half-open.
  function HalfOpenSuccess(config: Config, b: Breaker, now: int, later: int): Breaker {
    var b := CountSuccess(b).(halfOpenSuccesses := b.halfOpenSuccesses + 1);
    if b.successCount >= config.successThreshold then
      TransitionTo(b.(halfOpenDurationTotal := b.halfOpenDurationTotal + (now - b.lastHalfOpenTime)), Closed, later)
    else b
  }

  function HalfOpenFailure(b: Breaker, now: int, later: int): Breaker {
    var b := CountFailure(b).(halfOpenFailures := b.halfOpenFailures + 1,
                              halfOpenDurationTotal := b.halfOpenDurationTotal + (now - b.lastHalfOpenTime));
    TransitionTo(b, Open, later).(lastOpenTime := now)
  }

  function HalfOpenCompletion(config: Config, b: Breaker, ok: bool, now: int, later: int): Breaker {
    var b := b.(halfOpenRequests := b.halfOpenRequests - 1);
    if ok then HalfOpenSuccess(config, b, now, later) else HalfOpenFailure(b, now, later)
  }

  function Completion(config: Config, b: Breaker, ok: bool, now: int, later: int): Breaker
    requires b.WellFormed(config)
  {
    var b := Record(b, ok);
    match b.state
    case Closed => ClosedCompletion(config, b, ok, now, later)
    case HalfOpen => HalfOpenCompletion(config, b, ok, now, later)
    case Open => b
  }

  function ResetSpec(b: Breaker, now: int): Breaker {
    b.(state := Closed, failureCount := 0, successCount := 0, halfOpenRequests := 0, lastStateChange := now)
  }

  lemma CountFailuresAppend(s: seq<bool>, ok: bool)
    ensures CountFailures(s + [ok]) == CountFailures(s) + if ok then 0 else 1
  {
    assert (s + [ok])[..|s|] == s;
  }

  lemma {:induction false} FailuresCounted(s: seq<bool>)
    ensures CountFailures(s) == |set i | 0 <= i < |s| && !s[i]|
  {
    if s != [] {
      var before, last := s[..|s| - 1], |s| - 1;
      FailuresCounted(before);
      var earlier := set i | 0 <= i < last && !before[i];
      var all := set i | 0 <= i < |s| && !s[i];
      if s[last] {
        assert all == earlier;
      } else {
        assert all == earlier + {last};
      }
    }
  }

  // The breaker as the source keeps it: fields updated in place and one ring buffer.
  class CircuitBreaker {
    const config: Config
    var state: State
    var failureCount: int
    var successCount: int
    var lastStateChange: int
    var halfOpenRequests: int
    var totalRequests: int
    var totalFailures: int
    var totalSuccesses: int
    var consecutiveFailures: int
    var openDurationTotal: int
    var halfOpenDurationTotal: int
    var lastOpenTime: int
    var lastHalfOpenTime: int
    var halfOpenAttempts: int
    var halfOpenSuccesses: int
    var halfOpenFailures: int
    const slidingWindow: array<bool>
    var windowIndex: int

    function View(): Breaker
      reads this, slidingWindow
    {
      Breaker(state, failureCount, successCount, lastStateChange, halfOpenRequests,
              totalRequests, totalFailures, totalSuccesses, consecutiveFailures,
              openDurationTotal, halfOpenDurationTotal, lastOpenTime, lastHalfOpenTime,
              halfOpenAttempts, halfOpenSuccesses, halfOpenFailures,
              slidingWindow[..], windowIndex)
    }

    ghost predicate Valid()
      reads this, slidingWindow
    {
      View().WellFormed(config)
    }

    constructor (config: Config, now: int)
      ensures Valid() && this.config == config && fresh(slidingWindow)
      ensures View() == Initial(config, now)
      ensures state == Closed && lastStateChange == now && windowIndex == 0
      ensures slidingWindow.Length == if config.slidingWindowSize > 0 then config.slidingWindowSize else 0
      ensures forall i :: 0 <= i < slidingWindow.Length ==> slidingWindow[i]
    {
      this.config := config;
      state, failureCount, successCount, lastStateChange, halfOpenRequests := Closed, 0, 0, now, 0;
      totalRequests, totalFailures, totalSuccesses, consecutiveFailures := 0, 0, 0, 0;
      openDurationTotal, halfOpenDurationTotal, lastOpenTime, lastHalfOpenTime := 0, 0, 0, 0;
      halfOpenAttempts, halfOpenSuccesses, halfOpenFailures, windowIndex := 0, 0, 0, 0;
      var window := new bool[WindowLength(config)];
      for i := 0 to window.Length
        invariant forall j | 0 <= j < i :: window[j]
      {
        window[i] := true;
      }
      slidingWindow := window;
      new;
      assert slidingWindow[..] == seq(WindowLength(config), _ => true);
    }

    method BeforeCall(now: int, later: int) returns (admitted: bool)
      requires Valid()
      modifies this
      ensures Valid()
      ensures (View(), admitted) == Admission(config, old(View()), now, later)
    {
      totalRequests := totalRequests + 1;
      match state {
        case Closed =>
          admitted := true;
        case Open =>
          if now - lastStateChange >= config.timeout {
            openDurationTotal := openDurationTotal + (now - lastOpenTime);
            SwitchTo(HalfOpen, later);
            lastHalfOpenTime := now;
            admitted := true;
          } else {
            admitted := false;
          }
        case HalfOpen =>
          if halfOpenRequests >= config.maxHalfOpenRequests {
            return false;
          }
          halfOpenRequests := halfOpenRequests + 1;
          halfOpenAttempts := halfOpenAttempts + 1;
          admitted := true;
      }
    }

    method AfterCall(ok: bool, now: int, later: int)
      requires Valid()
      modifies this, slidingWindow
      ensures Valid()
      ensures View() == Completion(config, old(View()), ok, now, later)
    {
      RecordOutcome(ok);
      match state {
        case Closed => EndInClosed(ok, now, later);
        case HalfOpen => EndInHalfOpen(ok, now, later);
        case Open =>
      }
    }

    method EndInClosed(ok: bool, now: int, later: int)
      modifies this
      ensures View() == ClosedCompletion(config, old(View()), ok, now, later)
    {
      if ok {
        AddSuccess();
      } else {
        AddFailure();
        var shouldOpen := failureCount >= config.failureThreshold;
        if shouldOpen && config.failureRateThreshold > 0.0 && slidingWindow.Length > 0 {
          var rate := CalculateFailureRate();
          shouldOpen := rate >= config.failureRateThreshold;
        }
        if shouldOpen {
          SwitchTo(Open, later);
          lastOpenTime := now;
        }
      }
    }

    method EndInHalfOpen(ok: bool, now: int, later: int)
      modifies this
      ensures View() == HalfOpenCompletion(config, old(View()), ok, now, later)
    {
      halfOpenRequests := halfOpenRequests - 1;
      if ok {
        SucceedInHalfOpen(now, later);
      } else {
        FailInHalfOpen(now, later);
      }
    }

    method SucceedInHalfOpen(now: int, later: int)
      modifies this
      ensures View() == HalfOpenSuccess(config, old(View()), now, later)
    {
      AddSuccess();
      halfOpenSuccesses := halfOpenSuccesses + 1;
      if successCount >= config.successThreshold {
        halfOpenDurationTotal := halfOpenDurationTotal + (now - lastHalfOpenTime);
        SwitchTo(Closed, later);
      }
    }

    method FailInHalfOpen(now: int, later: int)
      modifies this
      ensures View() == HalfOpenFailure(old(View()), now, later)
    {
      AddFailure();
      halfOpenFailures := halfOpenFailures + 1;
      halfOpenDurationTotal := halfOpenDurationTotal + (now - lastHalfOpenTime);
      SwitchTo(Open, later);
      lastOpenTime := now;
    }

    method RecordOutcome(ok: bool)
      requires Valid()
      modifies this`windowIndex, slidingWindow
      ensures Valid()
      ensures View() == Record(old(View()), ok)
    {
      if slidingWindow.Length > 0 {
        slidingWindow[windowIndex] := ok;
        assert windowIndex + 1 < slidingWindow.Length ==>
            (windowIndex + 1) % slidingWindow.Length == windowIndex + 1;
        windowIndex := (windowIndex + 1) % slidingWindow.Length;
      }
    }

    method AddFailure()
      modifies this
      ensures View() == CountFailure(old(View()))
    {
      failureCount := failureCount + 1;
      consecutiveFailures := consecutiveFailures + 1;
      successCount := 0;
      totalFailures := totalFailures + 1;
    }

    method AddSuccess()
      modifies this
      ensures View() == CountSuccess(old(View()))
    {
      failureCount := 0;
      consecutiveFailures := 0;
      successCount := successCount + 1;
      totalSuccesses := totalSuccesses + 1;
    }

    method CalculateFailureRate() returns (rate: real)
      ensures rate == FailureRate(slidingWindow[..])
      ensures slidingWindow.Length > 0 ==>
                rate * slidingWindow.Length as real
                  == |set i | 0 <= i < |slidingWindow[..]| && !slidingWindow[..][i]| as real
      ensures slidingWindow.Length == 0 ==> rate == 0.0
    {
      FailuresCounted(slidingWindow[..]);
      if slidingWindow.Length == 0 {
        return 0.0;
      }
      var failures := 0;
      for i := 0 to slidingWindow.Length
        invariant failures == CountFailures(slidingWindow[..i])
      {
        assert slidingWindow[..i + 1] == slidingWindow[..i] + [slidingWindow[i]];
        CountFailuresAppend(slidingWindow[..i], slidingWindow[i]);
        if !slidingWindow[i] {
          failures := failures + 1;
        }
      }
      assert slidingWindow[..slidingWindow.Length] == slidingWindow[..];
      rate := failures as real / slidingWindow.Length as real;
    }

    method SwitchTo(newState: State, later: int)
      modifies this
      ensures View() == TransitionTo(old(View()), newState, later)
    {
      if newState != state {
        state := newState;
        lastStateChange := later;
        failureCount := 0;
        successCount := 0;
        halfOpenRequests := 0;
      }
    }

    method Reset(now: int)
      requires Valid()
      modifies this
      ensures Valid()
      ensures View() == ResetSpec(old(View()), now)
    {
      state := Closed;
      failureCount := 0;
      successCount := 0;
      halfOpenRequests := 0;
      lastStateChange := now;
    }
  }
}
