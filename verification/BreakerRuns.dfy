// Whole runs of the circuit breaker. `Call` releases the lock while the request is in
// flight, so a run is any interleaving of begin and end steps of any number of calls,
// with Reset anywhere. Each call in flight carries the epoch (the visit to a state) in
// which it was admitted.
module BreakerRuns {
  import opened CircuitBreakers
  import BreakerHistory

  // `now` and `later` are the two clock readings a step can take.
  datatype Step =
    | BeginCall(id: nat, now: int, later: int)
    | EndCall(id: nat, ok: bool, now: int, later: int)
    | ResetBreaker(now: int)

  datatype Event = Tripped(at: int) | Admitted(at: int) | WasReset

  datatype System = System(
    breaker: Breaker,
    history: BreakerHistory.History,
    inFlight: map<nat, nat>,   // call -> admitting epoch
    epoch: nat,
    late: nat,                 // completions in this epoch of calls admitted earlier
    rejected: nat,
    arrivedWhileOpen: nat,
    clock: int,
    log: seq<Event>)

  function Start(config: Config, now: int): System {
    System(Initial(config, now), BreakerHistory.EMPTY, map[], 0, 0, 0, 0, now, [])
  }

  ghost predicate Enabled(config: Config, s: System, step: Step) {
    && s.breaker.WellFormed(config)
    && match step
       case BeginCall(id, now, later) => id !in s.inFlight && s.clock <= now <= later
       case EndCall(id, _, now, later) => id in s.inFlight && s.clock <= now <= later
       case ResetBreaker(now) => s.clock <= now
  }

  function EnterEpoch(s: System, b: Breaker): System {
    if b.state == s.breaker.state then s.(breaker := b)
    else s.(breaker := b, epoch := s.epoch + 1, late := 0)
  }

  ghost function Apply(config: Config, s: System, step: Step): System
    requires Enabled(config, s, step)
  {
    match step
    case BeginCall(id, now, later) =>
      var (b, admitted) := Admission(config, s.breaker, now, later);
      var t := EnterEpoch(s, b).(history := BreakerHistory.Begin(config, s.history, now).0, clock := later);
      if admitted then t.(inFlight := t.inFlight[id := t.epoch], log := t.log + [Admitted(now)])
      else t.(rejected := t.rejected + 1)
    case EndCall(id, ok, now, later) =>
      var b := Completion(config, s.breaker, ok, now, later);
      var s' := s.(late := if s.inFlight[id] < s.epoch then s.late + 1 else s.late,
                   inFlight := s.inFlight - {id},
                   arrivedWhileOpen := s.arrivedWhileOpen + if s.breaker.state == Open then 1 else 0);
      var t := EnterEpoch(s', b).(history := BreakerHistory.End(config, s.history, ok, now, later), clock := later);
      if b.state == Open && s.breaker.state != Open then t.(log := t.log + [Tripped(now)]) else t
    case ResetBreaker(now) =>
      s.(breaker := ResetSpec(s.breaker, now), epoch := s.epoch + 1, late := 0,
         history := BreakerHistory.Reset(s.history), clock := now, log := s.log + [WasReset])
  }

  // A run is a list of steps each of which was possible when it was taken.
  ghost predicate IsRun(config: Config, start: int, steps: seq<Step>)
    decreases |steps|, 0
  {
    steps == [] ||
    (var before := steps[..|steps| - 1];
     IsRun(config, start, before) && Enabled(config, After(config, start, before), steps[|steps| - 1]))
  }

  ghost function After(config: Config, start: int, steps: seq<Step>): System
    requires IsRun(config, start, steps)
    decreases |steps|, 1
  {
    if steps == [] then Start(config, start)
    else Apply(config, After(config, start, steps[..|steps| - 1]), steps[|steps| - 1])
  }

  ghost function AdmittedIn(inFlight: map<nat, nat>, epoch: nat): set<nat> {
    set id | id in inFlight && inFlight[id] == epoch
  }

  // Calls in flight that the current half-open visit admitted.
  ghost function Probes(s: System): nat {
    |AdmittedIn(s.inFlight, s.epoch)|
  }

  ghost predicate Ledger(config: Config, s: System) {
    && (forall id | id in s.inFlight :: s.inFlight[id] <= s.epoch)
    && (s.breaker.state == HalfOpen ==>
          && s.breaker.halfOpenRequests == Probes(s) - 1 - s.late
          && s.breaker.halfOpenRequests <= if config.maxHalfOpenRequests > 0 then config.maxHalfOpenRequests else 0)
    && s.breaker.totalRequests
         == s.breaker.totalSuccesses + s.breaker.totalFailures + s.rejected + |s.inFlight| + s.arrivedWhileOpen
  }

  // Opening i is still in force at the end of the log: no Reset came after it.
  predicate InForce(log: seq<Event>, i: nat) {
    i < |log| && log[i].Tripped? && WasReset !in log[i..]
  }

  ghost predicate Quiet(config: Config, s: System) {
    && s.breaker.lastStateChange <= s.clock
    && (forall i: nat | InForce(s.log, i) ::
         || (s.breaker.state == Open && s.log[i].at <= s.breaker.lastStateChange)
         || s.log[i].at + config.timeout <= s.clock)
    && (forall i: nat, j: nat | i < j < |s.log| && InForce(s.log[..j], i) && s.log[j].Admitted? ::
         s.log[i].at + config.timeout <= s.log[j].at)
  }

  lemma TagAdded(inFlight: map<nat, nat>, id: nat, epoch: nat)
    requires id !in inFlight
    ensures |AdmittedIn(inFlight[id := epoch], epoch)| == |AdmittedIn(inFlight, epoch)| + 1
    ensures |inFlight[id := epoch]| == |inFlight| + 1
  {
    assert AdmittedIn(inFlight[id := epoch], epoch) == AdmittedIn(inFlight, epoch) + {id};
  }

  lemma TagRemoved(inFlight: map<nat, nat>, id: nat, epoch: nat)
    requires id in inFlight
    ensures |AdmittedIn(inFlight - {id}, epoch)|
              == |AdmittedIn(inFlight, epoch)| - if inFlight[id] == epoch then 1 else 0
    ensures |inFlight - {id}| == |inFlight| - 1
  {
    assert AdmittedIn(inFlight - {id}, epoch) == AdmittedIn(inFlight, epoch) - {id};
    assert (inFlight - {id}).Keys == inFlight.Keys - {id};
    assert |inFlight - {id}| == |(inFlight - {id}).Keys|;
  }

  lemma NoTags(inFlight: map<nat, nat>, epoch: nat)
    ensures (forall id | id in inFlight :: inFlight[id] < epoch) ==> AdmittedIn(inFlight, epoch) == {}
  {
  }

  lemma AdmissionEffect(config: Config, b: Breaker, now: int, later: int)
    ensures var (b', admitted) := Admission(config, b, now, later);
            && b'.totalRequests == b.totalRequests + 1
            && b'.totalSuccesses + b'.totalFailures == b.totalSuccesses + b.totalFailures
            && (b'.state == b.state ==> b'.lastStateChange == b.lastStateChange)
            && match b.state
               case Closed => admitted && b'.state == Closed
               case HalfOpen =>
                 && b'.state == HalfOpen && (admitted <==> b.halfOpenRequests < config.maxHalfOpenRequests)
                 && b'.halfOpenRequests == b.halfOpenRequests + if admitted then 1 else 0
               case Open =>
                 && (admitted <==> b.lastStateChange + config.timeout <= now)
                 && if admitted then
                      b'.state == HalfOpen && b'.halfOpenRequests == 0 && b'.lastStateChange == later
                    else b'.state == Open
  {
  }

  lemma CompletionEffect(config: Config, b: Breaker, ok: bool, now: int, later: int)
    requires b.WellFormed(config)
    ensures var b' := Completion(config, b, ok, now, later);
            && b'.totalRequests == b.totalRequests
            && b'.totalSuccesses + b'.totalFailures
                 == b.totalSuccesses + b.totalFailures + (if b.state == Open then 0 else 1)
            && (b'.state == b.state ==> b'.lastStateChange == b.lastStateChange)
            && (b'.state != b.state ==> b'.lastStateChange == later)
            && (b.state == Open ==> b'.state == Open)
            && (b'.state == HalfOpen ==> b.state == HalfOpen && b'.halfOpenRequests == b.halfOpenRequests - 1)
  {
    hide CountFailures;
  }

  lemma LedgerStep(config: Config, s: System, step: Step)
    requires Enabled(config, s, step) && Ledger(config, s)
    ensures Ledger(config, Apply(config, s, step))
  {
    hide Admission, Completion, BreakerHistory.Begin, BreakerHistory.End;
    match step
    case BeginCall(id, now, later) =>
      AdmissionEffect(config, s.breaker, now, later);
      var b := Admission(config, s.breaker, now, later).0;
      NoTags(s.inFlight, s.epoch + 1);
      TagAdded(s.inFlight, id, EnterEpoch(s, b).epoch);
    case EndCall(id, ok, now, later) =>
      CompletionEffect(config, s.breaker, ok, now, later);
      TagRemoved(s.inFlight, id, s.epoch);
    case ResetBreaker(_) =>
  }

  lemma InForceSteps(log: seq<Event>, e: Event)
    ensures forall i: nat | i < |log| :: InForce(log + [e], i) ==> InForce(log, i)
    ensures forall i: nat, j: nat | i < j < |log| :: InForce((log + [e])[..j], i) == InForce(log[..j], i)
    ensures (log + [e])[..|log|] == log
    ensures e == WasReset ==> forall i: nat :: !InForce(log + [e], i)
  {
    forall i: nat | i < |log| ensures (log + [e])[i..] == log[i..] + [e] {
    }
    forall j: nat | j < |log| ensures (log + [e])[..j] == log[..j] {
    }
  }

  lemma QuietStep(config: Config, s: System, step: Step)
    requires Enabled(config, s, step) && Quiet(config, s)
    ensures Quiet(config, Apply(config, s, step))
  {
    hide Admission, Completion, BreakerHistory.Begin, BreakerHistory.End;
    match step
    case BeginCall(_, now, later) =>
      AdmissionEffect(config, s.breaker, now, later);
      InForceSteps(s.log, Admitted(now));
    case EndCall(_, ok, now, later) =>
      CompletionEffect(config, s.breaker, ok, now, later);
      InForceSteps(s.log, Tripped(now));
    case ResetBreaker(_) =>
      InForceSteps(s.log, WasReset);
  }

  lemma TellsStep(config: Config, s: System, step: Step)
    requires Enabled(config, s, step) && BreakerHistory.Tells(config, s.breaker, s.history)
    ensures var t := Apply(config, s, step); BreakerHistory.Tells(config, t.breaker, t.history)
  {
    hide Admission, Completion, BreakerHistory.Begin, BreakerHistory.End, BreakerHistory.Tells;
    match step
    case BeginCall(_, now, later) => BreakerHistory.BeginTells(config, s.breaker, s.history, now, later);
    case EndCall(_, ok, now, later) => BreakerHistory.EndTells(config, s.breaker, s.history, ok, now, later);
    case ResetBreaker(now) => BreakerHistory.ResetTells(config, s.breaker, s.history, now);
  }

  lemma StartKeeps(config: Config, start: int)
    ensures Ledger(config, Start(config, start)) && Quiet(config, Start(config, start))
  {
  }

  lemma {:induction false} RunKeeps(config: Config, start: int, steps: seq<Step>)
    requires IsRun(config, start, steps)
    ensures var s := After(config, start, steps);
            && BreakerHistory.Tells(config, s.breaker, s.history)
            && Ledger(config, s)
            && Quiet(config, s)
  {
    hide Apply, Enabled, Ledger, Quiet, BreakerHistory.Tells;
    if steps == [] {
      BreakerHistory.InitiallyTells(config, start);
      StartKeeps(config, start);
    } else {
      var before, step := steps[..|steps| - 1], steps[|steps| - 1];
      RunKeeps(config, start, before);
      var s := After(config, start, before);
      LedgerStep(config, s, step);
      QuietStep(config, s, step);
      TellsStep(config, s, step);
    }
  }

  // ----- What every run guarantees -----

  // The half-open counter is off by the opening call and by every late completion, so the
  // number of probes exceeds the configured limit by exactly that much.
  lemma HalfOpenLedger(config: Config, start: int, steps: seq<Step>)
    requires IsRun(config, start, steps) && After(config, start, steps).breaker.state == HalfOpen
    ensures var s, limit := After(config, start, steps), config.maxHalfOpenRequests;
            && s.breaker.halfOpenRequests == Probes(s) - 1 - s.late
            && Probes(s) <= (if limit > 0 then limit else 0) + 1 + s.late
  {
    RunKeeps(config, start, steps);
  }

  // One failing call opens the breaker.
  lemma TrippedByOne(config: Config)
    requires config == Config(1, 1, 10, 1, 0.0, 0)
    ensures var s := Start(config, 0);
            && Enabled(config, s, BeginCall(0, 0, 0))
            && var begun := Apply(config, s, BeginCall(0, 0, 0));
               && Enabled(config, begun, EndCall(0, false, 1, 1))
               && Idle(config, Apply(config, begun, EndCall(0, false, 1, 1)))
  {
    var begun := Apply(config, Start(config, 0), BeginCall(0, 0, 0));
    assert begun.inFlight == map[0 := 0] && begun.breaker == Start(config, 0).breaker.(totalRequests := 1);
    var b := Completion(config, begun.breaker, false, 1, 1);
    assert b.state == Open && b.lastStateChange == 1;
  }

  ghost predicate Idle(config: Config, s: System) {
    && s.breaker.WellFormed(config) && s.breaker.state == Open && s.breaker.lastStateChange == 1
    && s.inFlight == map[] && s.clock == 1
  }

  // After the timeout two calls are admitted, and one is counted.
  lemma TwoAdmitted(config: Config, s: System)
    requires config.timeout == 10 && config.maxHalfOpenRequests == 1 && Idle(config, s)
    ensures Enabled(config, s, BeginCall(1, 11, 11))
    ensures var t := Apply(config, s, BeginCall(1, 11, 11));
            && Enabled(config, t, BeginCall(2, 12, 12))
            && var u := Apply(config, t, BeginCall(2, 12, 12));
               u.breaker.state == HalfOpen && u.breaker.halfOpenRequests == 1 && u.late == 0
  {
    hide BreakerHistory.Begin;
    var t := Apply(config, s, BeginCall(1, 11, 11));
    assert t.breaker.state == HalfOpen && t.breaker.halfOpenRequests == 0 && t.late == 0;
    assert 2 !in t.inFlight && t.breaker.WellFormed(config);
  }

  // A run on which the documented bound, probes in flight <= MaxHalfOpenRequests, fails for
  // a limit of 1; ProbeBounds.dfy says for which configurations it holds.
  lemma PlainProbeBoundFails(config: Config)
    requires config == Config(1, 1, 10, 1, 0.0, 0)
    ensures var steps := [BeginCall(0, 0, 0), EndCall(0, false, 1, 1), BeginCall(1, 11, 11), BeginCall(2, 12, 12)];
            && IsRun(config, 0, steps)
            && After(config, 0, steps).breaker.state == HalfOpen
            && Probes(After(config, 0, steps)) == 2
  {
    hide Apply, Enabled, Idle, Probes;
    TrippedByOne(config);
    var none: seq<Step> := [];
    assert IsRun(config, 0, none) && After(config, 0, none) == Start(config, 0);
    var s1 := none + [BeginCall(0, 0, 0)];
    RunExtends(config, 0, none, BeginCall(0, 0, 0));
    var s2 := s1 + [EndCall(0, false, 1, 1)];
    RunExtends(config, 0, s1, EndCall(0, false, 1, 1));
    TwoAdmitted(config, After(config, 0, s2));
    var s3 := s2 + [BeginCall(1, 11, 11)];
    RunExtends(config, 0, s2, BeginCall(1, 11, 11));
    RunExtends(config, 0, s3, BeginCall(2, 12, 12));
    var steps := [BeginCall(0, 0, 0), EndCall(0, false, 1, 1), BeginCall(1, 11, 11), BeginCall(2, 12, 12)];
    assert s3 + [BeginCall(2, 12, 12)] == steps;
    HalfOpenLedger(config, 0, steps);
  }

  lemma RunExtends(config: Config, start: int, steps: seq<Step>, step: Step)
    requires IsRun(config, start, steps)
    ensures IsRun(config, start, steps + [step]) == Enabled(config, After(config, start, steps), step)
    ensures IsRun(config, start, steps + [step]) ==>
              After(config, start, steps + [step]) == Apply(config, After(config, start, steps), step)
  {
    assert (steps + [step])[..|steps|] == steps;
  }

  // Exactly when a half-open breaker lets the next call through, for every limit. With a
  // limit of at least 0 it never wedges: with no probe in flight the next call is admitted.
  lemma NextProbeAdmitted(config: Config, start: int, steps: seq<Step>, now: int, later: int)
    requires IsRun(config, start, steps) && After(config, start, steps).breaker.state == HalfOpen
    ensures var s := After(config, start, steps);
            && (Admission(config, s.breaker, now, later).1 <==> Probes(s) <= config.maxHalfOpenRequests + s.late)
            && (config.maxHalfOpenRequests >= 0 && Probes(s) == 0 ==> Admission(config, s.breaker, now, later).1)
  {
    RunKeeps(config, start, steps);
  }

  // Every request is accounted for, whatever the interleaving and wherever Reset is called.
  lemma Conservation(config: Config, start: int, steps: seq<Step>)
    requires IsRun(config, start, steps)
    ensures var s := After(config, start, steps);
            s.breaker.totalRequests == s.breaker.totalSuccesses + s.breaker.totalFailures
                                       + s.rejected + |s.inFlight| + s.arrivedWhileOpen
  {
    RunKeeps(config, start, steps);
  }

  // No call is admitted within Timeout of an opening that no Reset has undone.
  lemma NoAdmissionWithinTimeout(config: Config, start: int, steps: seq<Step>, i: nat, j: nat)
    requires IsRun(config, start, steps)
    requires var log := After(config, start, steps).log;
             i < j < |log| && log[i].Tripped? && log[j].Admitted? && WasReset !in log[i..j]
    ensures var log := After(config, start, steps).log;
            log[i].at + config.timeout <= log[j].at
  {
    RunKeeps(config, start, steps);
    var log := After(config, start, steps).log;
    assert log[..j][i..] == log[i..j];
    assert InForce(log[..j], i);
  }

  // Counters, timers and ring buffer are functions of the outcomes seen.
  lemma FieldsTellHistory(config: Config, start: int, steps: seq<Step>)
    requires IsRun(config, start, steps)
    ensures var s := After(config, start, steps);
            BreakerHistory.Tells(config, s.breaker, s.history)
  {
    RunKeeps(config, start, steps);
  }

  // When a completion changes the state, read off the outcomes alone.
  lemma CompletionChangesState(config: Config, start: int, steps: seq<Step>, id: nat, ok: bool, now: int, later: int)
    requires IsRun(config, start, steps)
    requires Enabled(config, After(config, start, steps), EndCall(id, ok, now, later))
    ensures var s := After(config, start, steps);
            var next := Completion(config, s.breaker, ok, now, later).state;
            match s.history.mode
            case SinceClosed(outcomes) =>
              && s.breaker.state == Closed
              && next == if !ok && BreakerHistory.Trips(config, outcomes + [ok], s.history.completions + [ok])
                         then Open else Closed
            case SinceHalfOpened(_, outcomes, _) =>
              && s.breaker.state == HalfOpen && (forall i | 0 <= i < |outcomes| :: outcomes[i])
              && next == if !ok then Open
                         else if |outcomes| + 1 >= config.successThreshold then Closed else HalfOpen
            case SinceOpened(_, _) => s.breaker.state == Open == next
  {
    RunKeeps(config, start, steps);
    var s := After(config, start, steps);
    BreakerHistory.EndTells(config, s.breaker, s.history, ok, now, later);
    if s.history.mode.SinceHalfOpened? {
      NoFailures(s.history.mode.outcomes);
    }
  }

  lemma {:induction false} NoFailures(outcomes: seq<bool>)
    requires CountFailures(outcomes) == 0
    ensures forall i | 0 <= i < |outcomes| :: outcomes[i]
  {
    if outcomes != [] {
      NoFailures(outcomes[..|outcomes| - 1]);
    }
  }
}
