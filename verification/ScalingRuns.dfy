// One NodeGroup with a fixed spec while three actors step in any order: the NodeGroup
// reconciler (fetch, list, act, persist), the scale-up handler (decide, execute) and the
// VPSieNodes, which change phase and leave on their own.
module ScalingRuns {
  import opened NodeGroups
  import opened NodeGroupRuns
  import U = ScaleUps
  import V = VPSieNodes

  // Where the reconcile under way stands. `base` is the status it fetched: the patch it
  // ends with carries only the fields it changed.
  datatype Reconciling =
    | Idle
    | Fetched(base: Status)
    | Listed(base: Status, nodes: seq<Member>)
    | Acted(base: Status, result: Status)

  datatype World = World(
    group: Status,
    active: seq<Member>,
    reconciling: Reconciling,
    decisions: seq<int>)   // desired counts asked for and not yet carried out

  datatype Step =
    | Fetch
    | List
    | GiveUp                        // the reconcile ends early
    | Perform(io: IO)
    | Persist(write: V.Write)
    | Consider(canScale: bool, selects: bool, needed: int)
    | Execute(k: nat, now: int, write: V.Write)
    | Change(k: nat, member: Member)
    | Leave(id: nat)

  predicate Enabled(w: World, step: Step) {
    match step
    case Fetch => w.reconciling.Idle?
    case List => w.reconciling.Fetched?
    case GiveUp => true
    case Perform(io) =>
      w.reconciling.Listed? && (io.newNode.Some? ==> forall m | m in w.active :: m.id != io.newNode.value)
    case Persist(_) => w.reconciling.Acted?
    case Consider(_, _, _) => true
    case Execute(k, _, _) => k < |w.decisions|
    case Change(k, member) => k < |w.active| && member.id == w.active[k].id
    case Leave(_) => true
  }

  function Patched(stored: Status, base: Status, result: Status): Status {
    Status(if result.current != base.current then result.current else stored.current,
           if result.ready != base.ready then result.ready else stored.ready,
           if result.desired != base.desired then result.desired else stored.desired,
           if result.lastScale != base.lastScale then result.lastScale else stored.lastScale,
           if result.lastScaleUp != base.lastScaleUp then result.lastScaleUp else stored.lastScaleUp,
           if result.lastScaleDown != base.lastScaleDown then result.lastScaleDown else stored.lastScaleDown)
  }

  function Apply(spec: Spec, w: World, step: Step): World
    requires Enabled(w, step)
  {
    match step
    case Fetch => w.(reconciling := Fetched(w.group))
    case List => w.(reconciling := Listed(w.reconciling.base, w.active))
    case GiveUp => w.(reconciling := Idle)
    case Perform(io) =>
      var (result, act) := Decide(spec, w.reconciling.base, w.reconciling.nodes, io);
      w.(active := NodeGroups.Apply(w.active, act), reconciling := Acted(w.reconciling.base, result))
    case Persist(write) =>
      w.(group := if write.Applied() then Patched(w.group, w.reconciling.base, w.reconciling.result) else w.group,
         reconciling := Idle)
    case Consider(canScale, selects, needed) =>
      var target := U.Decision(spec, w.group, canScale, selects, needed);
      if target.Some? then w.(decisions := w.decisions + [target.value]) else w
    case Execute(k, now, write) =>
      w.(group := U.Executed(w.group, w.decisions[k], now, write),
         decisions := w.decisions[..k] + w.decisions[k + 1..])
    case Change(k, member) => w.(active := w.active[k := member])
    case Leave(id) => w.(active := Without(w.active, [id]))
  }

  predicate IsRun(spec: Spec, w: World, steps: seq<Step>)
    decreases |steps|, 0
  {
    steps == [] ||
    (var before := steps[..|steps| - 1];
     IsRun(spec, w, before) && Enabled(After(spec, w, before), steps[|steps| - 1]))
  }

  function After(spec: Spec, w: World, steps: seq<Step>): World
    requires IsRun(spec, w, steps)
    decreases |steps|, 1
  {
    if steps == [] then w
    else Apply(spec, After(spec, w, steps[..|steps| - 1]), steps[|steps| - 1])
  }

  predicate Start(spec: Spec, w: World) {
    && w.group.desired <= spec.maxNodes && |w.active| <= spec.maxNodes && Distinct(w.active)
    && w.reconciling.Idle? && w.decisions == []
  }

  // While a reconcile is under way the stored desired count has not fallen below the one it
  // fetched, and no node has appeared that it did not list.
  predicate Bounded(spec: Spec, w: World) {
    && w.group.desired <= spec.maxNodes
    && |w.active| <= spec.maxNodes && Distinct(w.active)
    && (forall i :: 0 <= i < |w.decisions| ==> w.decisions[i] <= spec.maxNodes)
    && (!w.reconciling.Idle? ==> w.reconciling.base.desired <= w.group.desired)
    && (w.reconciling.Listed? ==> Distinct(w.reconciling.nodes) && |w.active| <= |w.reconciling.nodes| <= spec.maxNodes)
    && (w.reconciling.Acted? ==> spec.minNodes <= w.reconciling.result.desired <= spec.maxNodes)
  }

  lemma Created(spec: Spec, s: Status, nodes: seq<Member>, active: seq<Member>, io: IO)
    requires spec.Valid() && |active| <= |nodes| <= spec.maxNodes && Distinct(active)
    requires io.newNode.Some? ==> forall m | m in active :: m.id != io.newNode.value
    ensures var next := NodeGroups.Apply(active, Decide(spec, s, nodes, io).1);
            Distinct(next) && |next| <= spec.maxNodes
  {
    hide Without;
    WithoutKeeps(active, Decide(spec, s, nodes, io).1.deleted);
    var status, act := Decide(spec, s, nodes, io).0, Decide(spec, s, nodes, io).1;
    if act.created.Some? {
      OnlyForRoom(spec, s, nodes, io);
    }
  }

  lemma OnlyForRoom(spec: Spec, s: Status, nodes: seq<Member>, io: IO)
    requires Decide(spec, s, nodes, io).1.created.Some?
    ensures |nodes| < spec.maxNodes && Decide(spec, s, nodes, io).1.created == io.newNode
  {
  }

  lemma StepBounded(spec: Spec, w: World, step: Step)
    requires spec.Valid() && Bounded(spec, w) && Enabled(w, step)
    ensures Bounded(spec, Apply(spec, w, step))
  {
    hide Decide, Without;
    match step
    case Perform(io) =>
      Created(spec, w.reconciling.base, w.reconciling.nodes, w.active, io);
      DesiredInBounds(spec, w.reconciling.base, w.reconciling.nodes, io);
    case Leave(id) => WithoutKeeps(w.active, [id]);
    case _ =>
  }

  lemma {:induction false} RunBounded(spec: Spec, w: World, steps: seq<Step>)
    requires spec.Valid() && Start(spec, w) && IsRun(spec, w, steps)
    ensures Bounded(spec, After(spec, w, steps))
  {
    if steps != [] {
      RunBounded(spec, w, steps[..|steps| - 1]);
      StepBounded(spec, After(spec, w, steps[..|steps| - 1]), steps[|steps| - 1]);
    }
  }

  // In every interleaving neither the desired count nor the number of VPSieNodes exceeds
  // MaxNodes.
  lemma CapacityBounds(spec: Spec, w: World, steps: seq<Step>)
    requires spec.Valid() && Start(spec, w) && IsRun(spec, w, steps)
    ensures After(spec, w, steps).group.desired <= spec.maxNodes
    ensures |After(spec, w, steps).active| <= spec.maxNodes
  {
    RunBounded(spec, w, steps);
  }

  // Every reconcile that gets to persist its result leaves the desired count between the
  // limits, whatever the scale-up handler stored in between.
  lemma PersistedDesired(spec: Spec, w: World, steps: seq<Step>, write: V.Write)
    requires spec.Valid() && Start(spec, w) && IsRun(spec, w, steps)
    requires After(spec, w, steps).reconciling.Acted? && write.Applied()
    ensures spec.minNodes <= Apply(spec, After(spec, w, steps), Persist(write)).group.desired <= spec.maxNodes
  {
    RunBounded(spec, w, steps);
  }

  // A scale-down step, counted against the nodes that were listed, never goes below
  // MinNodes: nodes that left on their own since are the only ones that can be missing.
  lemma ScaleDownStepKeepsMin(spec: Spec, w: World, steps: seq<Step>, io: IO)
    requires spec.Valid() && Start(spec, w) && IsRun(spec, w, steps)
    requires var v := After(spec, w, steps);
             && v.reconciling.Listed? && Enabled(v, Perform(io))
             && |v.reconciling.nodes| >= CalculateDesired(spec, v.reconciling.base)
             && (io.manager.Some? ==> io.manager.value.limit <= 1)
    ensures var v := After(spec, w, steps);
            |Apply(spec, v, Perform(io)).active| + (|v.reconciling.nodes| - |v.active|) >= spec.minNodes
  {
    hide Decide, Without, CalculateDesired;
    RunBounded(spec, w, steps);
    var v := After(spec, w, steps);
    ReconcileKeepsMin(spec, v.reconciling.base, v.reconciling.nodes, io);
    WithoutCount(v.active, Decide(spec, v.reconciling.base, v.reconciling.nodes, io).1.deleted);
  }

  // ----- The desired count does not run ahead of the nodes -----

  function Max(a: int, b: int): int {
    if a < b then b else a
  }

  // The largest ready count the stored status has shown.
  function PeakReady(spec: Spec, w: World, steps: seq<Step>): int
    requires IsRun(spec, w, steps)
  {
    if steps == [] then w.group.ready
    else Max(PeakReady(spec, w, steps[..|steps| - 1]), After(spec, w, steps).group.ready)
  }

  predicate NotAbove(w: World, bound: int) {
    && w.group.desired <= bound
    && (forall i :: 0 <= i < |w.decisions| ==> w.decisions[i] <= bound)
    && (!w.reconciling.Idle? ==> w.reconciling.base.desired <= bound)
    && (w.reconciling.Acted? ==> w.reconciling.result.desired <= bound)
  }

  lemma StepNotAbove(spec: Spec, w: World, step: Step, bound: int)
    requires spec.Valid() && NotAbove(w, bound) && Enabled(w, step)
    requires spec.minNodes <= bound && w.group.ready + 1 <= bound
    ensures NotAbove(Apply(spec, w, step), bound)
  {
    hide Decide, Without;
    if step.Perform? {
      RaisedOnlyToMin(spec, w.reconciling.base, w.reconciling.nodes, step.io);
    }
  }

  lemma {:induction false} RunNotAbove(spec: Spec, w: World, steps: seq<Step>, bound: int)
    requires spec.Valid() && IsRun(spec, w, steps) && NotAbove(w, bound)
    requires spec.minNodes <= bound && PeakReady(spec, w, steps) + 1 <= bound
    ensures NotAbove(After(spec, w, steps), bound)
  {
    hide Apply, Enabled, NotAbove;
    if steps != [] {
      var before := steps[..|steps| - 1];
      RunNotAbove(spec, w, before, bound);
      AtLeastLast(spec, w, before);
      StepNotAbove(spec, After(spec, w, before), steps[|steps| - 1], bound);
    }
  }

  lemma AtLeastLast(spec: Spec, w: World, steps: seq<Step>)
    requires IsRun(spec, w, steps)
    ensures After(spec, w, steps).group.ready <= PeakReady(spec, w, steps)
  {
  }

  // In every interleaving, with decisions as stale as they may be: beyond where it started
  // and beyond MinNodes, the desired count is at most one more than the number of nodes the
  // stored status has shown Ready at once.
  lemma DesiredNeverRunsAhead(spec: Spec, w: World, steps: seq<Step>)
    requires spec.Valid() && w.reconciling.Idle? && w.decisions == [] && IsRun(spec, w, steps)
    ensures After(spec, w, steps).group.desired
              <= Max(Max(w.group.desired, spec.minNodes), PeakReady(spec, w, steps) + 1)
  {
    RunNotAbove(spec, w, steps, Max(Max(w.group.desired, spec.minNodes), PeakReady(spec, w, steps) + 1));
  }

  // ----- The ready count shown was true once -----

  function ReadyAtOnce(nodes: seq<Member>): nat {
    |set i | 0 <= i < |nodes| && nodes[i].phase == V.Ready|
  }

  // The largest number of nodes that were Ready at the same time.
  function MostReady(spec: Spec, w: World, steps: seq<Step>): nat
    requires IsRun(spec, w, steps)
  {
    var now := ReadyAtOnce(After(spec, w, steps).active);
    if steps == [] then now
    else
      var before := MostReady(spec, w, steps[..|steps| - 1]);
      if before < now then now else before
  }

  predicate ShownWithin(w: World, bound: int) {
    && w.group.ready <= bound
    && (!w.reconciling.Idle? ==> w.reconciling.base.ready <= bound)
    && (w.reconciling.Listed? ==> ReadyAtOnce(w.reconciling.nodes) <= bound)
    && (w.reconciling.Acted? ==> w.reconciling.result.ready <= bound)
  }

  lemma DecidedReady(spec: Spec, s: Status, nodes: seq<Member>, io: IO)
    ensures Decide(spec, s, nodes, io).0.ready == ReadyAtOnce(nodes)
  {
    hide ScaleUp, ScaleDown, Evaluate, CountReady;
    ReadyCounted(nodes);
  }

  lemma StepShownWithin(spec: Spec, w: World, step: Step, bound: int)
    requires ShownWithin(w, bound) && Enabled(w, step) && ReadyAtOnce(w.active) <= bound
    ensures ShownWithin(Apply(spec, w, step), bound)
  {
    hide Decide, Without, ReadyAtOnce;
    if step.Perform? {
      DecidedReady(spec, w.reconciling.base, w.reconciling.nodes, step.io);
    }
  }

  lemma {:induction false} RunShownWithin(spec: Spec, w: World, steps: seq<Step>, bound: int)
    requires w.reconciling.Idle? && IsRun(spec, w, steps)
    requires w.group.ready <= bound && MostReady(spec, w, steps) <= bound
    ensures ShownWithin(After(spec, w, steps), bound) && PeakReady(spec, w, steps) <= bound
    ensures ReadyAtOnce(After(spec, w, steps).active) <= bound
  {
    hide Apply, Enabled, ReadyAtOnce;
    if steps != [] {
      var before := steps[..|steps| - 1];
      RunShownWithin(spec, w, before, bound);
      StepShownWithin(spec, After(spec, w, before), steps[|steps| - 1], bound);
    }
  }

  // In every interleaving the ready count never rises above where it started and the largest
  // number of nodes that were Ready at once; so neither does the desired count rise above
  // where it started, MinNodes, and one more than either.
  lemma ShownReadyWasTrue(spec: Spec, w: World, steps: seq<Step>)
    requires spec.Valid() && w.reconciling.Idle? && w.decisions == [] && IsRun(spec, w, steps)
    ensures var seen := Max(w.group.ready, MostReady(spec, w, steps));
            && PeakReady(spec, w, steps) <= seen
            && After(spec, w, steps).group.desired <= Max(Max(w.group.desired, spec.minNodes), seen + 1)
  {
    RunShownWithin(spec, w, steps, Max(w.group.ready, MostReady(spec, w, steps)));
    DesiredNeverRunsAhead(spec, w, steps);
  }
}
