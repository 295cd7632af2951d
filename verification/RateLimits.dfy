// How often a NodeGroup can be scaled: the event watcher's stabilization window and the
// scale-down manager's cooldown (pkg/events/watcher.go, pkg/scaler/scaler.go).
module RateLimits {
  const MAX_EVENT_BUFFER_SIZE: nat := 1000

  // ----- Spaced times -----

  predicate Spaced(times: seq<int>, gap: nat) {
    forall i, j :: 0 <= i < j < |times| ==> times[i] + gap <= times[j]
  }

  function CountWithin(times: seq<int>, from: int, to: int): nat {
    if times == [] then 0
    else CountWithin(times[..|times| - 1], from, to) + if from <= times[|times| - 1] <= to then 1 else 0
  }

  lemma {:induction false} CountCut(times: seq<int>, from: int, to: int, cut: int)
    requires cut <= to && forall i :: 0 <= i < |times| ==> times[i] <= cut
    ensures CountWithin(times, from, to) == CountWithin(times, from, cut)
  {
    if times != [] {
      CountCut(times[..|times| - 1], from, to, cut);
    }
  }

  // Of times that are `gap` apart, the c within [from, to] take up (c - 1) * gap of it.
  lemma {:induction false} SpacedSpan(times: seq<int>, gap: nat, from: int, to: int)
    requires Spaced(times, gap)
    ensures var c := CountWithin(times, from, to); c == 0 || from + (c - 1) * gap <= to
  {
    if times != [] {
      var before, last := times[..|times| - 1], times[|times| - 1];
      if from <= last <= to {
        CountCut(before, from, to, if last - gap <= to then last - gap else to);
        SpacedSpan(before, gap, from, last - gap);
        var earlier: int := CountWithin(before, from, last - gap);
        ProductStep(earlier - 1, gap);
        assert CountWithin(times, from, to) == earlier + 1;
      } else {
        SpacedSpan(before, gap, from, to);
      }
    }
  }

  lemma ProductStep(a: int, gap: nat)
    ensures (a + 1) * gap == a * gap + gap
  {
  }

  lemma ProductGrows(a: int, b: int, gap: nat)
    requires a <= b
    ensures a * gap <= b * gap
  {
  }

  lemma AtMostQuotient(c: int, gap: nat, length: nat)
    requires gap > 0 && c * gap <= length
    ensures c <= length / gap
  {
    if c > length / gap {
      ProductGrows(length / gap + 1, c, gap);
    }
  }

  // At most length/gap + 1 of them fit into a closed interval.
  lemma SpacedCount(times: seq<int>, gap: nat, from: int, length: nat)
    requires gap > 0 && Spaced(times, gap)
    ensures CountWithin(times, from, from + length) <= length / gap + 1
  {
    var c := CountWithin(times, from, from + length);
    SpacedSpan(times, gap, from, from + length);
    AtMostQuotient(if c > 0 then c - 1 else 0, gap, length);
  }

  // ----- The stabilization window -----

  predicate CanScaleAt(last: map<string, int>, window: int, name: string, now: int) {
    name !in last || now - last[name] >= window
  }

  function Cleaned(last: map<string, int>, window: int, now: int): map<string, int> {
    map name | name in last && last[name] >= now - 2 * window :: last[name]
  }

  function Trailing<T>(s: seq<T>, n: nat): seq<T> {
    if |s| <= n then s else s[|s| - n..]
  }

  datatype SchedulingEvent = SchedulingEvent(pod: string, timestamp: int)

  function Recent(events: seq<SchedulingEvent>, cutoff: int): seq<SchedulingEvent> {
    if events == [] then []
    else
      var rest := Recent(events[..|events| - 1], cutoff);
      if events[|events| - 1].timestamp > cutoff then rest + [events[|events| - 1]] else rest
  }

  class EventWatcher {
    const stabilizationWindow: nat
    var lastScaleTime: map<string, int>
    var eventBuffer: seq<SchedulingEvent>

    constructor (window: nat)
      ensures stabilizationWindow == window && lastScaleTime == map[] && eventBuffer == []
    {
      stabilizationWindow, lastScaleTime, eventBuffer := window, map[], [];
    }

    method RecordScaleEvent(name: string, now: int)
      modifies `lastScaleTime
      ensures lastScaleTime == old(lastScaleTime)[name := now]
    {
      lastScaleTime := lastScaleTime[name := now];
    }

    method CanScale(name: string, now: int) returns (can: bool)
      ensures can == CanScaleAt(lastScaleTime, stabilizationWindow, name, now)
    {
      if name !in lastScaleTime {
        return true;
      }
      var elapsed := now - lastScaleTime[name];
      return elapsed >= stabilizationWindow;
    }

    method CleanUpLastScaleTime(now: int)
      modifies `lastScaleTime
      ensures lastScaleTime == Cleaned(old(lastScaleTime), stabilizationWindow, now)
      ensures forall name :: name in lastScaleTime <==>
                name in old(lastScaleTime) && now - old(lastScaleTime)[name] <= 2 * stabilizationWindow
      ensures forall name | name in lastScaleTime :: lastScaleTime[name] == old(lastScaleTime)[name]
    {
      var cutoff := now - 2 * stabilizationWindow;
      ghost var was := lastScaleTime;
      var todo := lastScaleTime.Keys;
      while todo != {}
        invariant todo <= was.Keys
        invariant forall name :: name in lastScaleTime <==> name in was && (name in todo || was[name] >= cutoff)
        invariant forall name | name in lastScaleTime :: lastScaleTime[name] == was[name]
        decreases |todo|
      {
        var name :| name in todo;
        if lastScaleTime[name] < cutoff {
          lastScaleTime := lastScaleTime - {name};
        }
        todo := todo - {name};
      }
    }

    // A full buffer drops its oldest event.
    method AddEvent(event: SchedulingEvent)
      modifies `eventBuffer
      requires |eventBuffer| <= MAX_EVENT_BUFFER_SIZE
      ensures eventBuffer == Trailing(old(eventBuffer) + [event], MAX_EVENT_BUFFER_SIZE)
    {
      if |eventBuffer| >= MAX_EVENT_BUFFER_SIZE {
        eventBuffer := eventBuffer[1..];
      }
      eventBuffer := eventBuffer + [event];
    }

    // Empties the buffer and keeps the events younger than the stabilization window.
    method ProcessEvents(now: int) returns (recent: seq<SchedulingEvent>)
      modifies `eventBuffer
      ensures eventBuffer == [] && recent == Recent(old(eventBuffer), now - stabilizationWindow)
    {
      recent := [];
      var events := eventBuffer;
      eventBuffer := [];
      for i := 0 to |events|
        invariant eventBuffer == [] && recent == Recent(events[..i], now - stabilizationWindow)
      {
        assert events[..i + 1][..i] == events[..i];
        if events[i].timestamp > now - stabilizationWindow {
          recent := recent + [events[i]];
        }
      }
      assert events[..|events|] == events;
    }
  }

  // Which events survive: of a single event it, if it is younger than the cutoff, and of two
  // lists what survives of each, in order. So an event is kept as often as it came, or not
  // at all.
  lemma RecentOfOne(e: SchedulingEvent, cutoff: int)
    ensures Recent([e], cutoff) == if e.timestamp > cutoff then [e] else []
  {
    assert [e][..0] == [];
  }

  lemma {:induction false} RecentAdds(a: seq<SchedulingEvent>, b: seq<SchedulingEvent>, cutoff: int)
    ensures Recent(a + b, cutoff) == Recent(a, cutoff) + Recent(b, cutoff)
  {
    if b == [] {
      assert a + b == a;
    } else {
      assert (a + b)[..|a + b| - 1] == a + b[..|b| - 1];
      RecentAdds(a, b[..|b| - 1], cutoff);
    }
  }

  lemma {:induction false} RecentKeeps(events: seq<SchedulingEvent>, cutoff: int, e: SchedulingEvent)
    ensures multiset(Recent(events, cutoff))[e] == if e.timestamp > cutoff then multiset(events)[e] else 0
  {
    if events != [] {
      RecentKeeps(events[..|events| - 1], cutoff, e);
      assert events == events[..|events| - 1] + [events[|events| - 1]];
    }
  }

  // The buffer filled one event at a time.
  function Buffered(events: seq<SchedulingEvent>): seq<SchedulingEvent> {
    if events == [] then []
    else Trailing(Buffered(events[..|events| - 1]) + [events[|events| - 1]], MAX_EVENT_BUFFER_SIZE)
  }

  // It always holds the newest events, and all of them while there are at most 1000.
  lemma {:induction false} BufferHoldsNewest(events: seq<SchedulingEvent>)
    ensures Buffered(events) == Trailing(events, MAX_EVENT_BUFFER_SIZE)
    ensures |Buffered(events)| == (if |events| < 1000 then |events| else 1000)
    ensures Buffered(events) == events[|events| - |Buffered(events)|..]
  {
    if events != [] {
      BufferHoldsNewest(events[..|events| - 1]);
    }
  }

  lemma CleanupHarmless(last: map<string, int>, window: nat, now: int, name: string, later: int)
    requires now <= later
    ensures CanScaleAt(Cleaned(last, window, now), window, name, later) == CanScaleAt(last, window, name, later)
  {
  }

  // ----- Runs of the scale-up path -----

  // The map's keys are names without namespaces, so groups of one name share an entry.
  datatype Group = Group(namespace: string, name: string)

  // Decisions are made and carried out by one loop, so a group has at most one decision
  // under way; a carried-out decision raises the group, finds it raised already, or fails.
  datatype Outcome = Raised | AlreadyScaled | UpdateFailed

  datatype Step =
    | Consider(group: Group, now: int)
    | Execute(group: Group, now: int, later: int, outcome: Outcome)
    | CleanUp(now: int)

  datatype World = World(
    last: map<string, int>,
    pending: set<Group>,
    raised: seq<(Group, int)>,  // which group was raised, and when
    clock: int)

  predicate Enabled(w: World, step: Step) {
    match step
    case Consider(group, now) => group !in w.pending && w.clock <= now
    case Execute(group, now, later, _) => group in w.pending && w.clock <= now <= later
    case CleanUp(now) => w.clock <= now
  }

  function Apply(window: nat, w: World, step: Step): World {
    match step
    case Consider(group, now) =>
      var decided := CanScaleAt(w.last, window, group.name, now);
      w.(pending := if decided then w.pending + {group} else w.pending, clock := now)
    case Execute(group, now, later, outcome) =>
      World(if outcome == UpdateFailed then w.last else w.last[group.name := later],
            w.pending - {group},
            if outcome == Raised then w.raised + [(group, now)] else w.raised,
            later)
    case CleanUp(now) => w.(last := Cleaned(w.last, window, now), clock := now)
  }

  predicate IsRun(window: nat, start: int, steps: seq<Step>)
    decreases |steps|, 0
  {
    steps == [] ||
    (var before := steps[..|steps| - 1];
     IsRun(window, start, before) && Enabled(After(window, start, before), steps[|steps| - 1]))
  }

  function After(window: nat, start: int, steps: seq<Step>): World
    requires IsRun(window, start, steps)
    decreases |steps|, 1
  {
    if steps == [] then World(map[], {}, [], start)
    else Apply(window, After(window, start, steps[..|steps| - 1]), steps[|steps| - 1])
  }

  function TimesOf(raised: seq<(Group, int)>, group: Group): seq<int> {
    if raised == [] then []
    else
      var times := TimesOf(raised[..|raised| - 1], group);
      if raised[|raised| - 1].0 == group then times + [raised[|raised| - 1].1] else times
  }

  // Every earlier raise of the group is at least a window old when the next one is made.
  predicate Paced(window: nat, w: World, group: Group) {
    var times := TimesOf(w.raised, group);
    && Spaced(times, window)
    && (forall i | 0 <= i < |times| ::
          && times[i] <= w.clock
          && (group in w.pending ==> times[i] + window <= w.clock)
          && (group.name in w.last ==> times[i] <= w.last[group.name])
          && (group.name !in w.last ==> times[i] + window <= w.clock))
  }

  lemma PacedStep(window: nat, w: World, step: Step, group: Group)
    requires Paced(window, w, group) && Enabled(w, step)
    ensures Paced(window, Apply(window, w, step), group)
  {
    if step.Execute? && step.outcome == Raised {
      var raised := w.raised + [(step.group, step.now)];
      assert raised[..|w.raised|] == w.raised;
    }
  }

  lemma {:induction false} PacedRun(window: nat, start: int, steps: seq<Step>, group: Group)
    requires IsRun(window, start, steps)
    ensures Paced(window, After(window, start, steps), group)
  {
    if steps != [] {
      PacedRun(window, start, steps[..|steps| - 1], group);
      PacedStep(window, After(window, start, steps[..|steps| - 1]), steps[|steps| - 1], group);
    }
  }

  // In any interval of the given length a group is raised at most length/window + 1 times,
  // with map cleanups anywhere.
  lemma ScaleUpRate(window: nat, start: int, steps: seq<Step>, group: Group, from: int, length: nat)
    requires window > 0 && IsRun(window, start, steps)
    ensures CountWithin(TimesOf(After(window, start, steps).raised, group), from, from + length) <= length / window + 1
  {
    PacedRun(window, start, steps, group);
    SpacedCount(TimesOf(After(window, start, steps).raised, group), window, from, length);
  }

  function WithoutCleanUps(steps: seq<Step>): seq<Step> {
    if steps == [] then []
    else
      var rest := WithoutCleanUps(steps[..|steps| - 1]);
      if steps[|steps| - 1].CleanUp? then rest else rest + [steps[|steps| - 1]]
  }

  ghost predicate SameAnswers(window: nat, a: World, b: World) {
    && a.pending == b.pending && a.raised == b.raised && a.clock <= b.clock
    && forall name: string, t: int :: b.clock <= t ==>
         CanScaleAt(a.last, window, name, t) == CanScaleAt(b.last, window, name, t)
  }

  lemma CleanUpHidden(window: nat, a: World, b: World, now: int)
    requires SameAnswers(window, a, b) && b.clock <= now
    ensures SameAnswers(window, a, Apply(window, b, CleanUp(now)))
  {
    forall name: string, t: int | now <= t
      ensures CanScaleAt(a.last, window, name, t) == CanScaleAt(Cleaned(b.last, window, now), window, name, t)
    {
      CleanupHarmless(b.last, window, now, name, t);
    }
  }

  lemma StepsAlike(window: nat, a: World, b: World, step: Step)
    requires SameAnswers(window, a, b) && Enabled(b, step) && !step.CleanUp?
    ensures Enabled(a, step) && SameAnswers(window, Apply(window, a, step), Apply(window, b, step))
  {
    var c, d := Apply(window, a, step), Apply(window, b, step);
    forall name: string, t: int | d.clock <= t
      ensures CanScaleAt(c.last, window, name, t) == CanScaleAt(d.last, window, name, t)
    {
      assert CanScaleAt(a.last, window, name, t) == CanScaleAt(b.last, window, name, t);
    }
  }

  // Nobody can tell that the map was ever cleaned: dropping every cleanup from a run leaves
  // the same decisions, the same raises and the same answers from then on.
  lemma {:induction false} CleanUpsUnobservable(window: nat, start: int, steps: seq<Step>)
    requires IsRun(window, start, steps)
    ensures IsRun(window, start, WithoutCleanUps(steps))
    ensures SameAnswers(window, After(window, start, WithoutCleanUps(steps)), After(window, start, steps))
  {
    hide SameAnswers, Enabled, Apply;
    if steps == [] {
      NothingToClean(window, start);
    } else {
      var before, step := steps[..|steps| - 1], steps[|steps| - 1];
      CleanUpsUnobservable(window, start, before);
      var w, v := After(window, start, before), After(window, start, WithoutCleanUps(before));
      match step
      case CleanUp(now) => CleaningIsLater(w, now); CleanUpHidden(window, v, w, now);
      case _ =>
        StepsAlike(window, v, w, step);
        assert (WithoutCleanUps(before) + [step])[..|WithoutCleanUps(before)|] == WithoutCleanUps(before);
    }
  }

  lemma NothingToClean(window: nat, start: int)
    ensures SameAnswers(window, After(window, start, []), After(window, start, []))
  {
  }

  lemma CleaningIsLater(w: World, now: int)
    ensures Enabled(w, CleanUp(now)) ==> w.clock <= now
  {
  }

  // ----- What the answers say of the past -----

  // When scale events were recorded under a name.
  function Recorded(steps: seq<Step>, name: string): seq<int> {
    if steps == [] then []
    else
      var step, times := steps[|steps| - 1], Recorded(steps[..|steps| - 1], name);
      if step.Execute? && step.group.name == name && step.outcome != UpdateFailed then times + [step.later] else times
  }

  predicate Remembers(window: nat, w: World, name: string, times: seq<int>) {
    && (forall t | t in times :: t <= w.clock)
    && if name in w.last then w.last[name] in times && forall t | t in times :: t <= w.last[name]
       else forall t | t in times :: t + window <= w.clock
  }

  lemma RemembersStep(window: nat, w: World, step: Step, name: string, times: seq<int>)
    requires Remembers(window, w, name, times) && Enabled(w, step)
    ensures var recorded := step.Execute? && step.group.name == name && step.outcome != UpdateFailed;
            Remembers(window, Apply(window, w, step), name, if recorded then times + [step.later] else times)
  {
  }

  lemma {:induction false} RemembersRun(window: nat, start: int, steps: seq<Step>, name: string)
    requires IsRun(window, start, steps)
    ensures Remembers(window, After(window, start, steps), name, Recorded(steps, name))
  {
    hide Apply, Enabled;
    if steps != [] {
      var before := steps[..|steps| - 1];
      RemembersRun(window, start, before, name);
      RemembersStep(window, After(window, start, before), steps[|steps| - 1], name, Recorded(before, name));
    }
  }

  // In every run, with cleanups anywhere, a group may be scaled exactly when every scale
  // event recorded under its name is at least a window old.
  lemma AnswersTellHistory(window: nat, start: int, steps: seq<Step>, name: string, now: int)
    requires IsRun(window, start, steps) && After(window, start, steps).clock <= now
    ensures CanScaleAt(After(window, start, steps).last, window, name, now) <==>
              forall t | t in Recorded(steps, name) :: now - t >= window
  {
    RemembersRun(window, start, steps, name);
  }
}
