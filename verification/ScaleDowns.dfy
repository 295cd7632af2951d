// Draining the nodes of a group that is scaled down (pkg/scaler/scaler.go:272-281, 357-470,
// 573-583).
module ScaleDowns {
  import R = RateLimits

  // What the checks after cooldown and minimum size say of a node.
  datatype Check = CheckFailed | Unsafe | Safe

  // One candidate node, with the clock at its check and at the end of its drain.
  datatype Candidate = Candidate(name: string, checkedAt: int, check: Check, drainedAt: int, drained: bool)

  predicate Outside(last: map<string, int>, cooldown: int, group: string, now: int) {
    group !in last || now - last[group] >= cooldown
  }

  predicate Reaches(last: map<string, int>, cooldown: int, group: string, spare: bool, c: Candidate) {
    Outside(last, cooldown, group, c.checkedAt) && spare
  }

  function Limited(candidates: seq<Candidate>, limit: nat): seq<Candidate> {
    if |candidates| > limit then candidates[..limit] else candidates
  }

  // When the nodes that were drained were drained; `spare` says that the group's status
  // lists more nodes than its minimum.
  function DrainTimes(last: map<string, int>, cooldown: int, group: string, spare: bool, candidates: seq<Candidate>)
    : seq<int>
  {
    if candidates == [] then []
    else
      var c := candidates[|candidates| - 1];
      var times := DrainTimes(last, cooldown, group, spare, candidates[..|candidates| - 1]);
      if Reaches(last, cooldown, group, spare, c) && c.check == Safe && c.drained then times + [c.drainedAt] else times
  }

  function Errors(last: map<string, int>, cooldown: int, group: string, spare: bool, candidates: seq<Candidate>): nat {
    if candidates == [] then 0
    else
      var c := candidates[|candidates| - 1];
      Errors(last, cooldown, group, spare, candidates[..|candidates| - 1])
      + if Reaches(last, cooldown, group, spare, c) && (c.check == CheckFailed || (c.check == Safe && !c.drained))
        then 1 else 0
  }

  lemma LimitedIsPrefix(candidates: seq<Candidate>, limit: nat)
    ensures var tried := Limited(candidates, limit);
            && |tried| == (if |candidates| < limit then |candidates| else limit)
            && forall i | 0 <= i < |tried| :: tried[i] == candidates[i]
  {
  }

  lemma {:induction false} OnlyTried(last: map<string, int>, cooldown: int, group: string, spare: bool,
                                     candidates: seq<Candidate>)
    ensures |DrainTimes(last, cooldown, group, spare, candidates)| <= |candidates|
    ensures !spare ==> DrainTimes(last, cooldown, group, spare, candidates) == []
    ensures !spare ==> Errors(last, cooldown, group, spare, candidates) == 0
  {
    if candidates != [] {
      OnlyTried(last, cooldown, group, spare, candidates[..|candidates| - 1]);
    }
  }

  lemma NothingTried(last: map<string, int>, cooldown: int, group: string, spare: bool)
    ensures DrainTimes(last, cooldown, group, spare, []) == [] && Errors(last, cooldown, group, spare, []) == 0
  {
  }

  class ScaleDownManager {
    const cooldown: nat
    const limit: nat
    var lastScaleDown: map<string, int>

    constructor (cooldown: nat, limit: nat)
      ensures this.cooldown == cooldown && this.limit == limit && lastScaleDown == map[]
    {
      this.cooldown, this.limit, lastScaleDown := cooldown, limit, map[];
    }

    // Nodes found unsafe are passed over without an error; a drain that succeeded is
    // recorded even when others failed.
    method ScaleDown(group: string, listed: nat, minNodes: int, candidates: seq<Candidate>, now: int)
      returns (drains: seq<int>, ok: bool)
      modifies this
      ensures var tried, last := Limited(candidates, limit), old(lastScaleDown);
              && drains == DrainTimes(last, cooldown, group, listed > minNodes, tried)
              && ok == (Errors(last, cooldown, group, listed > minNodes, tried) == 0)
              && lastScaleDown == if drains == [] then last else last[group := now]
      ensures |drains| <= limit
      ensures listed <= minNodes ==> drains == [] && ok
    {
      hide DrainTimes, Errors;
      LimitedIsPrefix(candidates, limit);
      NothingTried(lastScaleDown, cooldown, group, listed > minNodes);
      OnlyTried(lastScaleDown, cooldown, group, listed > minNodes, Limited(candidates, limit));
      var tried := candidates;
      if |tried| > limit {
        tried := tried[..limit];
      }
      var errors, success := 0, 0;
      drains := [];
      for i := 0 to |tried|
        invariant lastScaleDown == old(lastScaleDown) && success == |drains|
        invariant drains == DrainTimes(lastScaleDown, cooldown, group, listed > minNodes, tried[..i])
        invariant errors == Errors(lastScaleDown, cooldown, group, listed > minNodes, tried[..i])
      {
        var c := tried[i];
        assert tried[..i + 1] == tried[..i] + [c];
        CandidatesAdd(lastScaleDown, cooldown, group, listed > minNodes, tried[..i], [c]);
        OneCandidate(lastScaleDown, cooldown, group, listed > minNodes, c);
        if group in lastScaleDown {
          if c.checkedAt - lastScaleDown[group] < cooldown {
            continue;
          }
        }
        if listed <= minNodes {
          continue;
        }
        if c.check == CheckFailed {
          errors := errors + 1;
        } else if c.check == Safe {
          if c.drained {
            drains := drains + [c.drainedAt];
            success := success + 1;
          } else {
            errors := errors + 1;
          }
        }
      }
      assert tried[..|tried|] == tried;
      if success > 0 {
        lastScaleDown := lastScaleDown[group := now];
      }
      ok := errors == 0;
    }
  }

  // A scale-down that reports no error has drained all its candidates exactly when it
  // skipped none of them; skipped ones raise no error either.
  lemma {:induction false} DrainedOrFailed(last: map<string, int>, cooldown: int, group: string, spare: bool,
                                           candidates: seq<Candidate>)
    ensures var done := |DrainTimes(last, cooldown, group, spare, candidates)|
                        + Errors(last, cooldown, group, spare, candidates);
            && done <= |candidates|
            && (done == |candidates| <==>
                  forall c | c in candidates ::
                    && spare && (group in last ==> c.checkedAt - last[group] >= cooldown) && c.check != Unsafe)
  {
    if candidates != [] {
      var before, c := candidates[..|candidates| - 1], candidates[|candidates| - 1];
      DrainedOrFailed(last, cooldown, group, spare, before);
      assert candidates == before + [c];
    }
  }

  // What happens to one candidate: nothing during the cooldown or when the group has no node
  // to spare, else it is drained only if it is safe, and a failing check or drain is an error.
  lemma OneCandidate(last: map<string, int>, cooldown: int, group: string, spare: bool, c: Candidate)
    ensures var due := spare && (group in last ==> c.checkedAt - last[group] >= cooldown);
            && DrainTimes(last, cooldown, group, spare, [c])
                 == (if due && c.check == Safe && c.drained then [c.drainedAt] else [])
            && Errors(last, cooldown, group, spare, [c])
                 == (if due && (c.check == CheckFailed || (c.check == Safe && !c.drained)) then 1 else 0)
  {
    assert [c][..0] == [];
  }

  // And of two lists of candidates, what happens to each.
  lemma {:induction false} CandidatesAdd(last: map<string, int>, cooldown: int, group: string, spare: bool,
                                         a: seq<Candidate>, b: seq<Candidate>)
    ensures DrainTimes(last, cooldown, group, spare, a + b)
         == DrainTimes(last, cooldown, group, spare, a) + DrainTimes(last, cooldown, group, spare, b)
    ensures Errors(last, cooldown, group, spare, a + b)
         == Errors(last, cooldown, group, spare, a) + Errors(last, cooldown, group, spare, b)
  {
    if b == [] {
      assert a + b == a;
    } else {
      assert (a + b)[..|a + b| - 1] == a + b[..|b| - 1];
      CandidatesAdd(last, cooldown, group, spare, a, b[..|b| - 1]);
    }
  }

  // ----- All scale-downs of one group -----

  // The reconciler runs them one after the other; those of other groups may overlap and
  // touch only their own entries of the map. A group of the same name in another namespace
  // shares the entry.
  datatype Step =
    | Drain(listed: nat, minNodes: int, candidates: seq<Candidate>, now: int)
    | OtherGroup(name: string, now: int)

  datatype World = World(last: map<string, int>, batches: seq<seq<int>>, clock: int)

  predicate InTurn(clock: int, candidates: seq<Candidate>, now: int) {
    && clock <= now
    && forall i :: 0 <= i < |candidates| ==> clock <= candidates[i].checkedAt <= candidates[i].drainedAt <= now
  }

  predicate Enabled(group: string, w: World, step: Step) {
    match step
    case Drain(_, _, candidates, now) => InTurn(w.clock, candidates, now)
    case OtherGroup(name, now) => name != group || w.clock <= now
  }

  function Apply(cooldown: nat, limit: nat, group: string, w: World, step: Step): World {
    match step
    case Drain(listed, minNodes, candidates, now) =>
      var drains := DrainTimes(w.last, cooldown, group, listed > minNodes, Limited(candidates, limit));
      World(if drains == [] then w.last else w.last[group := now], w.batches + [drains], now)
    case OtherGroup(name, now) => w.(last := w.last[name := now], clock := if name == group then now else w.clock)
  }

  predicate IsRun(cooldown: nat, limit: nat, group: string, start: int, steps: seq<Step>)
    decreases |steps|, 0
  {
    steps == [] ||
    (var before := steps[..|steps| - 1];
     && IsRun(cooldown, limit, group, start, before)
     && Enabled(group, After(cooldown, limit, group, start, before), steps[|steps| - 1]))
  }

  function After(cooldown: nat, limit: nat, group: string, start: int, steps: seq<Step>): World
    requires IsRun(cooldown, limit, group, start, steps)
    decreases |steps|, 1
  {
    if steps == [] then World(map[], [], start)
    else Apply(cooldown, limit, group, After(cooldown, limit, group, start, steps[..|steps| - 1]), steps[|steps| - 1])
  }

  predicate Apart(batches: seq<seq<int>>, gap: nat) {
    forall i, j, a, b :: 0 <= i < j < |batches| && 0 <= a < |batches[i]| && 0 <= b < |batches[j]| ==>
      batches[i][a] + gap <= batches[j][b]
  }

  predicate Paced(cooldown: nat, limit: nat, group: string, w: World) {
    && Apart(w.batches, cooldown)
    && (group in w.last ==> w.last[group] <= w.clock)
    && forall i :: 0 <= i < |w.batches| ==> Noted(limit, group, w.last, w.batches[i])
  }

  predicate Noted(limit: nat, group: string, last: map<string, int>, drains: seq<int>) {
    && |drains| <= limit
    && (drains == [] || (group in last && forall a :: 0 <= a < |drains| ==> drains[a] <= last[group]))
  }

  lemma {:induction false} DrainsFit(last: map<string, int>, cooldown: nat, group: string, spare: bool,
                                     candidates: seq<Candidate>, clock: int, now: int)
    requires InTurn(clock, candidates, now)
    ensures var times := DrainTimes(last, cooldown, group, spare, candidates);
            && |times| <= |candidates|
            && forall i :: 0 <= i < |times| ==>
                 times[i] <= now && (group in last ==> last[group] + cooldown <= times[i])
  {
    if candidates != [] {
      DrainsFit(last, cooldown, group, spare, candidates[..|candidates| - 1], clock, now);
    }
  }

  lemma PacedStep(cooldown: nat, limit: nat, group: string, w: World, step: Step)
    requires Paced(cooldown, limit, group, w) && Enabled(group, w, step)
    ensures Paced(cooldown, limit, group, Apply(cooldown, limit, group, w, step))
  {
    hide DrainTimes, Apart, Limited, Paced;
    match step
    case Drain(listed, minNodes, candidates, now) =>
      var tried := Limited(candidates, limit);
      LimitedIsPrefix(candidates, limit);
      assert InTurn(w.clock, tried, now);
      DrainsFit(w.last, cooldown, group, listed > minNodes, tried, w.clock, now);
      MorePaced(cooldown, limit, group, w, DrainTimes(w.last, cooldown, group, listed > minNodes, tried), now);
    case OtherGroup(name, now) =>
      StillPaced(cooldown, limit, group, w, name, now);
  }

  lemma StillPaced(cooldown: nat, limit: nat, group: string, w: World, name: string, now: int)
    requires Paced(cooldown, limit, group, w) && (name != group || w.clock <= now)
    ensures Paced(cooldown, limit, group,
                  w.(last := w.last[name := now], clock := if name == group then now else w.clock))
  {
    hide Apart;
    forall i | 0 <= i < |w.batches|
      ensures Noted(limit, group, w.last[name := now], w.batches[i])
    {
      NotedLater(limit, group, w.last, w.batches[i], name, now);
    }
  }

  lemma NotedLater(limit: nat, group: string, last: map<string, int>, drains: seq<int>, name: string, now: int)
    requires Noted(limit, group, last, drains) && (name == group && group in last ==> last[group] <= now)
    ensures Noted(limit, group, last[name := now], drains)
  {
  }

  lemma ApartMore(cooldown: nat, limit: nat, group: string, w: World, drains: seq<int>)
    requires Paced(cooldown, limit, group, w)
    requires forall b :: 0 <= b < |drains| ==> (group in w.last ==> w.last[group] + cooldown <= drains[b])
    ensures Apart(w.batches + [drains], cooldown)
  {
  }

  lemma MorePaced(cooldown: nat, limit: nat, group: string, w: World, drains: seq<int>, now: int)
    requires Paced(cooldown, limit, group, w) && w.clock <= now && |drains| <= limit
    requires forall b :: 0 <= b < |drains| ==>
               drains[b] <= now && (group in w.last ==> w.last[group] + cooldown <= drains[b])
    ensures Paced(cooldown, limit, group,
                  World(if drains == [] then w.last else w.last[group := now], w.batches + [drains], now))
  {
    hide Apart;
    ApartMore(cooldown, limit, group, w, drains);
    var last, batches := if drains == [] then w.last else w.last[group := now], w.batches + [drains];
    forall i | 0 <= i < |batches|
      ensures Noted(limit, group, last, batches[i])
    {
      if i < |w.batches| {
        assert Noted(limit, group, w.last, w.batches[i]);
      }
    }
  }

  lemma {:induction false} PacedRun(cooldown: nat, limit: nat, group: string, start: int, steps: seq<Step>)
    requires IsRun(cooldown, limit, group, start, steps)
    ensures Paced(cooldown, limit, group, After(cooldown, limit, group, start, steps))
  {
    if steps != [] {
      PacedRun(cooldown, limit, group, start, steps[..|steps| - 1]);
      PacedStep(cooldown, limit, group, After(cooldown, limit, group, start, steps[..|steps| - 1]), steps[|steps| - 1]);
    }
  }

  // ----- Counting drained nodes -----

  function DrainedWithin(batches: seq<seq<int>>, from: int, to: int): nat {
    if batches == [] then 0
    else DrainedWithin(batches[..|batches| - 1], from, to) + R.CountWithin(batches[|batches| - 1], from, to)
  }

  function Hits(batches: seq<seq<int>>, from: int, to: int): nat {
    if batches == [] then 0
    else Hits(batches[..|batches| - 1], from, to) + if R.CountWithin(batches[|batches| - 1], from, to) > 0 then 1 else 0
  }

  lemma {:induction false} CountBounded(times: seq<int>, from: int, to: int)
    ensures R.CountWithin(times, from, to) <= |times|
    ensures R.CountWithin(times, from, to) > 0 ==> exists i :: 0 <= i < |times| && from <= times[i] <= to
  {
    if times != [] {
      CountBounded(times[..|times| - 1], from, to);
    }
  }

  lemma {:induction false} HitsCut(batches: seq<seq<int>>, from: int, to: int, cut: int)
    requires cut <= to
    requires forall i, a :: 0 <= i < |batches| && 0 <= a < |batches[i]| ==> batches[i][a] <= cut
    ensures Hits(batches, from, to) == Hits(batches, from, cut)
  {
    if batches != [] {
      HitsCut(batches[..|batches| - 1], from, to, cut);
      R.CountCut(batches[|batches| - 1], from, to, cut);
    }
  }

  lemma {:induction false} HitsSpan(batches: seq<seq<int>>, gap: nat, from: int, to: int)
    requires Apart(batches, gap)
    ensures var h := Hits(batches, from, to); h == 0 || from + (h - 1) * gap <= to
  {
    if batches != [] {
      var before, last := batches[..|batches| - 1], batches[|batches| - 1];
      CountBounded(last, from, to);
      if R.CountWithin(last, from, to) > 0 {
        var i :| 0 <= i < |last| && from <= last[i] <= to;
        HitsCut(before, from, to, last[i] - gap);
        HitsSpan(before, gap, from, last[i] - gap);
        var earlier: int := Hits(before, from, last[i] - gap);
        R.ProductStep(earlier - 1, gap);
        assert Hits(batches, from, to) == earlier + 1;
      } else {
        HitsSpan(before, gap, from, to);
      }
    }
  }

  lemma {:induction false} DrainedByHits(batches: seq<seq<int>>, limit: nat, from: int, to: int)
    requires forall i :: 0 <= i < |batches| ==> |batches[i]| <= limit
    ensures DrainedWithin(batches, from, to) <= Hits(batches, from, to) * limit
  {
    if batches != [] {
      var before := batches[..|batches| - 1];
      DrainedByHits(before, limit, from, to);
      CountBounded(batches[|batches| - 1], from, to);
      assert (Hits(before, from, to) + 1) * limit == Hits(before, from, to) * limit + limit;
    }
  }

  // In any interval of the given length at most limit * (length/cooldown + 1) nodes of the
  // group are drained.
  lemma ScaleDownRate(cooldown: nat, limit: nat, group: string, start: int, steps: seq<Step>, from: int, length: nat)
    requires cooldown > 0 && IsRun(cooldown, limit, group, start, steps)
    ensures DrainedWithin(After(cooldown, limit, group, start, steps).batches, from, from + length)
              <= (length / cooldown + 1) * limit
  {
    PacedRun(cooldown, limit, group, start, steps);
    PacedCount(After(cooldown, limit, group, start, steps).batches, cooldown, limit, from, length);
  }

  lemma PacedCount(batches: seq<seq<int>>, cooldown: nat, limit: nat, from: int, length: nat)
    requires cooldown > 0 && Apart(batches, cooldown) && forall i :: 0 <= i < |batches| ==> |batches[i]| <= limit
    ensures DrainedWithin(batches, from, from + length) <= (length / cooldown + 1) * limit
  {
    var h := Hits(batches, from, from + length);
    HitsSpan(batches, cooldown, from, from + length);
    R.AtMostQuotient(if h > 0 then h - 1 else 0, cooldown, length);
    DrainedByHits(batches, limit, from, from + length);
    R.ProductGrows(h, length / cooldown + 1, limit);
  }
}
