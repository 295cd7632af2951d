// The simple form of the circuit breaker: instead of counters, timers and a ring
// buffer it keeps the outcomes themselves. `Tells` ties each field of the breaker to
// that history, and the lemmas show that every step keeps the tie.
module BreakerHistory {
  import opened CircuitBreakers

  datatype Visit = Visit(entered: int, left: int)

  datatype Mode =
    | SinceClosed(outcomes: seq<bool>)                              // completions since it closed
    | SinceOpened(tripped: int, changed: int)
    | SinceHalfOpened(entered: int, outcomes: seq<bool>, probes: nat) // admissions after the opening one

  datatype History = History(
    mode: Mode,
    completions: seq<bool>,    // every completion, oldest first; true is a success
    counted: seq<bool>,        // those that did not arrive while open
    requests: nat,
    probes: nat,               // admissions by an already half-open breaker
    probeOutcomes: seq<bool>,  // completions that arrived while half-open
    openVisits: seq<Visit>,    // visits ended by the breaker itself, not by Reset
    halfOpenVisits: seq<Visit>)

  const EMPTY := History(SinceClosed([]), [], [], 0, 0, [], [], [])

  function TrailingFailures(outcomes: seq<bool>): nat {
    if outcomes == [] || outcomes[|outcomes| - 1] then 0
    else 1 + TrailingFailures(outcomes[..|outcomes| - 1])
  }

  function TrailingSuccesses(outcomes: seq<bool>): nat {
    if outcomes == [] || !outcomes[|outcomes| - 1] then 0
    else 1 + TrailingSuccesses(outcomes[..|outcomes| - 1])
  }

  // The last `width` outcomes of `width` successes followed by all completions.
  function Recent(width: nat, completions: seq<bool>): (r: seq<bool>) {
    (seq(width, _ => true) + completions)[|completions|..]
  }

  function TimeSpent(visits: seq<Visit>): int {
    if visits == [] then 0
    else TimeSpent(visits[..|visits| - 1]) + (visits[|visits| - 1].left - visits[|visits| - 1].entered)
  }

  predicate Trips(config: Config, outcomes: seq<bool>, completions: seq<bool>) {
    && TrailingFailures(outcomes) >= config.failureThreshold
    && (config.failureRateThreshold > 0.0 && WindowLength(config) > 0 ==>
          CountFailures(Recent(WindowLength(config), completions)) as real / WindowLength(config) as real
            >= config.failureRateThreshold)
  }

  function Begin(config: Config, h: History, now: int): (History, bool) {
    var h := h.(requests := h.requests + 1);
    match h.mode
    case SinceClosed(_) => (h, true)
    case SinceOpened(tripped, changed) =>
      if now - changed < config.timeout then (h, false)
      else (h.(mode := SinceHalfOpened(now, [], 0), openVisits := h.openVisits + [Visit(tripped, now)]), true)
    case SinceHalfOpened(entered, outcomes, probes) =>
      if probes - |outcomes| < config.maxHalfOpenRequests then
        (h.(mode := SinceHalfOpened(entered, outcomes, probes + 1), probes := h.probes + 1), true)
      else (h, false)
  }

  function End(config: Config, h: History, ok: bool, now: int, later: int): History {
    var h := h.(completions := h.completions + [ok]);
    match h.mode
    case SinceClosed(outcomes) =>
      var outcomes := outcomes + [ok];
      h.(counted := h.counted + [ok],
         mode := if !ok && Trips(config, outcomes, h.completions) then SinceOpened(now, later)
                 else SinceClosed(outcomes))
    case SinceHalfOpened(entered, outcomes, probes) =>
      var outcomes := outcomes + [ok];
      var h := h.(counted := h.counted + [ok], probeOutcomes := h.probeOutcomes + [ok]);
      var visited := h.halfOpenVisits + [Visit(entered, now)];
      if !ok then h.(mode := SinceOpened(now, later), halfOpenVisits := visited)
      else if |outcomes| >= config.successThreshold then h.(mode := SinceClosed([]), halfOpenVisits := visited)
      else h.(mode := SinceHalfOpened(entered, outcomes, probes))
    case SinceOpened(_, _) => h
  }

  function Reset(h: History): History {
    h.(mode := SinceClosed([]))
  }

  // A ring buffer read from its index: oldest outcome first.
  function Unrolled(ring: seq<bool>, index: nat): seq<bool>
    requires index <= |ring|
  {
    ring[index..] + ring[..index]
  }

  ghost predicate ModeTells(b: Breaker, mode: Mode) {
    match mode
    case SinceClosed(outcomes) =>
      && b.state == Closed && b.halfOpenRequests == 0
      && b.failureCount == TrailingFailures(outcomes)
      && b.successCount == TrailingSuccesses(outcomes)
    case SinceOpened(tripped, changed) =>
      && b.state == Open && b.halfOpenRequests == b.failureCount == b.successCount == 0
      && b.lastOpenTime == tripped && b.lastStateChange == changed
    case SinceHalfOpened(entered, outcomes, probes) =>
      && b.state == HalfOpen && b.lastHalfOpenTime == entered
      && CountFailures(outcomes) == 0 == b.failureCount
      && b.successCount == |outcomes|
      && b.halfOpenRequests == probes - |outcomes|
  }

  ghost predicate TotalsTell(b: Breaker, h: History) {
    && b.totalRequests == h.requests
    && b.totalFailures == CountFailures(h.counted)
    && b.totalSuccesses == |h.counted| - CountFailures(h.counted)
    && b.consecutiveFailures == TrailingFailures(h.counted)
    && b.halfOpenAttempts == h.probes
    && b.halfOpenFailures == CountFailures(h.probeOutcomes)
    && b.halfOpenSuccesses == |h.probeOutcomes| - CountFailures(h.probeOutcomes)
    && b.openDurationTotal == TimeSpent(h.openVisits)
    && b.halfOpenDurationTotal == TimeSpent(h.halfOpenVisits)
  }

  ghost predicate Tells(config: Config, b: Breaker, h: History) {
    && b.WellFormed(config)
    && ModeTells(b, h.mode)
    && TotalsTell(b, h)
    && Unrolled(b.window, b.windowIndex) == Recent(WindowLength(config), h.completions)
  }

  lemma InitiallyTells(config: Config, now: int)
    ensures Tells(config, Initial(config, now), EMPTY)
  {
  }

  lemma {:induction false} CountFailuresSplit(a: seq<bool>, b: seq<bool>)
    ensures CountFailures(a + b) == CountFailures(a) + CountFailures(b)
  {
    if b == [] {
      assert a + b == a;
    } else {
      var b', last := b[..|b| - 1], b[|b| - 1];
      assert b == b' + [last] && a + b == (a + b') + [last];
      CountFailuresSplit(a, b');
      CountFailuresAppend(a + b', last);
    }
  }

  lemma Appended(s: seq<bool>, ok: bool)
    ensures CountFailures(s + [ok]) == CountFailures(s) + if ok then 0 else 1
    ensures TrailingFailures(s + [ok]) == if ok then 0 else TrailingFailures(s) + 1
    ensures TrailingSuccesses(s + [ok]) == if ok then TrailingSuccesses(s) + 1 else 0
  {
    assert (s + [ok])[..|s|] == s;
  }

  lemma VisitAppended(visits: seq<Visit>, v: Visit)
    ensures TimeSpent(visits + [v]) == TimeSpent(visits) + (v.left - v.entered)
  {
    assert (visits + [v])[..|visits|] == visits;
  }

  lemma RecentStep(width: nat, completions: seq<bool>, ok: bool)
    ensures |Recent(width, completions)| == width
    ensures width > 0 ==> Recent(width, completions + [ok]) == Recent(width, completions)[1..] + [ok]
  {
    var padded := seq(width, _ => true) + completions;
    assert seq(width, _ => true) + (completions + [ok]) == padded + [ok];
  }

  // Writing one slot and advancing the index drops the oldest outcome and adds the newest.
  lemma RingStep(older: seq<bool>, oldest: bool, newer: seq<bool>, ok: bool)
    ensures var ring, i := older + [oldest] + newer, |older|;
            Unrolled(ring[i := ok], if newer == [] then 0 else i + 1) == Unrolled(ring, i)[1..] + [ok]
  {
    var ring, i := older + [oldest] + newer, |older|;
    assert ring[i..] == [oldest] + newer && ring[..i] == older;
    assert Unrolled(ring, i)[1..] == newer + older;
    assert ring[i := ok] == older + [ok] + newer;
    assert (older + [ok] + newer)[i + 1..] == newer && (older + [ok] + newer)[..i + 1] == older + [ok];
  }

  lemma UnrolledFailures(ring: seq<bool>, i: nat)
    requires i <= |ring|
    ensures CountFailures(Unrolled(ring, i)) == CountFailures(ring)
  {
    assert ring == ring[..i] + ring[i..];
    CountFailuresSplit(ring[..i], ring[i..]);
    CountFailuresSplit(ring[i..], ring[..i]);
  }

  lemma RecordStep(config: Config, b: Breaker, completions: seq<bool>, ok: bool)
    requires b.WellFormed(config)
    requires Unrolled(b.window, b.windowIndex) == Recent(WindowLength(config), completions)
    ensures Record(b, ok).WellFormed(config)
    ensures var r := Record(b, ok);
            && Unrolled(r.window, r.windowIndex) == Recent(WindowLength(config), completions + [ok])
            && CountFailures(r.window) == CountFailures(Recent(WindowLength(config), completions + [ok]))
  {
    RecentStep(WindowLength(config), completions, ok);
    if b.window != [] {
      var i := b.windowIndex;
      assert b.window == b.window[..i] + [b.window[i]] + b.window[i + 1..];
      RingStep(b.window[..i], b.window[i], b.window[i + 1..], ok);
    }
    var r := Record(b, ok);
    UnrolledFailures(r.window, r.windowIndex);
  }

  lemma BeginTells(config: Config, b: Breaker, h: History, now: int, later: int)
    requires Tells(config, b, h)
    ensures Admission(config, b, now, later).1 == Begin(config, h, now).1
    ensures Tells(config, Admission(config, b, now, later).0, Begin(config, h, now).0)
  {
    if h.mode.SinceOpened? {
      VisitAppended(h.openVisits, Visit(h.mode.tripped, now));
    }
  }

  // The breaker right after the outcome went into the ring buffer, before it is counted.
  ghost predicate Recorded(config: Config, b: Breaker, h: History, completions: seq<bool>) {
    && b.WellFormed(config)
    && ModeTells(b, h.mode)
    && TotalsTell(b, h)
    && CountFailures(b.window) == CountFailures(Recent(WindowLength(config), completions))
  }

  lemma ClosedEndTells(config: Config, b: Breaker, h: History, ok: bool, now: int, later: int)
    requires Recorded(config, b, h, h.completions + [ok]) && h.mode.SinceClosed?
    ensures var b', h' := ClosedCompletion(config, b, ok, now, later), End(config, h, ok, now, later);
            ModeTells(b', h'.mode) && TotalsTell(b', h')
  {
    hide CountFailures, TrailingFailures, TrailingSuccesses, TimeSpent, Recent;
    Appended(h.counted, ok);
    Appended(h.mode.outcomes, ok);
  }

  lemma HalfOpenSuccessTells(config: Config, b: Breaker, h: History, now: int, later: int)
    requires Recorded(config, b, h, h.completions + [true]) && h.mode.SinceHalfOpened?
    ensures var b', h' := HalfOpenCompletion(config, b, true, now, later), End(config, h, true, now, later);
            ModeTells(b', h'.mode) && TotalsTell(b', h')
  {
    assert TrailingFailures([]) == TrailingSuccesses([]) == 0;
    hide CountFailures, TrailingFailures, TrailingSuccesses, TimeSpent, Recent, Trips, HalfOpenFailure;
    Appended(h.counted, true);
    Appended(h.mode.outcomes, true);
    Appended(h.probeOutcomes, true);
    VisitAppended(h.halfOpenVisits, Visit(h.mode.entered, now));
  }

  lemma HalfOpenFailureTells(config: Config, b: Breaker, h: History, now: int, later: int)
    requires Recorded(config, b, h, h.completions + [false]) && h.mode.SinceHalfOpened?
    ensures var b', h' := HalfOpenCompletion(config, b, false, now, later), End(config, h, false, now, later);
            ModeTells(b', h'.mode) && TotalsTell(b', h')
  {
    assert TrailingFailures([]) == TrailingSuccesses([]) == 0;
    hide CountFailures, TrailingFailures, TrailingSuccesses, TimeSpent, Recent, Trips, HalfOpenSuccess;
    Appended(h.counted, false);
    Appended(h.mode.outcomes, false);
    Appended(h.probeOutcomes, false);
    VisitAppended(h.halfOpenVisits, Visit(h.mode.entered, now));
  }

  lemma HalfOpenEndTells(config: Config, b: Breaker, h: History, ok: bool, now: int, later: int)
    requires Recorded(config, b, h, h.completions + [ok]) && h.mode.SinceHalfOpened?
    ensures var b', h' := HalfOpenCompletion(config, b, ok, now, later), End(config, h, ok, now, later);
            ModeTells(b', h'.mode) && TotalsTell(b', h')
  {
    hide Recorded, ModeTells, TotalsTell, HalfOpenCompletion, End;
    if ok {
      HalfOpenSuccessTells(config, b, h, now, later);
    } else {
      HalfOpenFailureTells(config, b, h, now, later);
    }
  }

  lemma EndTells(config: Config, b: Breaker, h: History, ok: bool, now: int, later: int)
    requires Tells(config, b, h)
    ensures Tells(config, Completion(config, b, ok, now, later), End(config, h, ok, now, later))
  {
    hide CountFailures, TrailingFailures, TrailingSuccesses, TimeSpent, Unrolled, Recent;
    RecordStep(config, b, h.completions, ok);
    var r := Record(b, ok);
    match h.mode
    case SinceOpened(_, _) =>
    case SinceClosed(_) => ClosedEndTells(config, r, h, ok, now, later);
    case SinceHalfOpened(_, _, _) => HalfOpenEndTells(config, r, h, ok, now, later);
  }

  lemma ResetTells(config: Config, b: Breaker, h: History, now: int)
    requires Tells(config, b, h)
    ensures Tells(config, ResetSpec(b, now), Reset(h))
  {
  }
}
