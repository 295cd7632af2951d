// Scaling up one node at a time: a fixed target, nodes that only make progress, and
// reconciles interleaved with that progress in any fair way
// (pkg/controller/nodegroup/reconciler.go:214-321, status.go:133-164, 279-291).
module SequentialScaling {
  import opened NodeGroups
  import opened NodeGroupRuns
  import V = VPSieNodes

  datatype World = World(group: Status, active: seq<Member>)

  datatype Step = Reconcile(io: IO) | Progress(k: nat)

  // Phases still to go before the node is Ready.
  function Remaining(phase: V.Phase): nat {
    match phase
    case Unset => 5
    case Pending => 4
    case Provisioning => 3
    case Provisioned => 2
    case Joining => 1
    case _ => 0
  }

  function Next(phase: V.Phase): V.Phase {
    match phase
    case Unset => V.Pending
    case Pending => V.Provisioning
    case Provisioning => V.Provisioned
    case Provisioned => V.Joining
    case _ => V.Ready
  }

  predicate Healthy(m: Member) {
    m.phase == V.Ready || Remaining(m.phase) > 0
  }

  // No utilization-driven scale-down is in play and creating an object succeeds.
  predicate Enabled(spec: Spec, w: World, step: Step) {
    match step
    case Reconcile(io) => !(spec.scaleDown && io.manager.Some?) && io.newNode.Some?
    case Progress(k) => k < |w.active| && w.active[k].phase != V.Ready
  }

  function Apply(spec: Spec, w: World, step: Step): World
    requires Enabled(spec, w, step)
  {
    match step
    case Reconcile(io) =>
      var (group, act) := Decide(spec, w.group, w.active, io);
      World(group, NodeGroups.Apply(w.active, act))
    case Progress(k) => w.(active := w.active[k := w.active[k].(phase := Next(w.active[k].phase))])
  }

  predicate IsRun(spec: Spec, w: World, steps: seq<Step>)
    decreases |steps|, 0
  {
    steps == [] ||
    (var before := steps[..|steps| - 1];
     IsRun(spec, w, before) && Enabled(spec, After(spec, w, before), steps[|steps| - 1]))
  }

  function After(spec: Spec, w: World, steps: seq<Step>): World
    requires IsRun(spec, w, steps)
    decreases |steps|, 1
  {
    if steps == [] then w
    else Apply(spec, After(spec, w, steps[..|steps| - 1]), steps[|steps| - 1])
  }

  // ----- The measure -----

  function ToGo(nodes: seq<Member>): nat {
    if nodes == [] then 0 else ToGo(nodes[..|nodes| - 1]) + Remaining(nodes[|nodes| - 1].phase)
  }

  predicate Steady(spec: Spec, target: nat, w: World) {
    && spec.Valid() && spec.minNodes <= target <= spec.maxNodes
    && w.group.desired == target && |w.active| <= target
    && forall i :: 0 <= i < |w.active| ==> Healthy(w.active[i])
  }

  function Measure(target: nat, w: World): int {
    6 * (target - |w.active|) + ToGo(w.active)
  }

  predicate Transitional(w: World) {
    exists i :: 0 <= i < |w.active| && InTransition(w.active[i])
  }

  lemma {:induction false} ToGoUpdated(nodes: seq<Member>, k: nat, m: Member)
    requires k < |nodes|
    ensures ToGo(nodes[k := m]) == ToGo(nodes) - Remaining(nodes[k].phase) + Remaining(m.phase)
  {
    var before := nodes[..|nodes| - 1];
    if k < |nodes| - 1 {
      ToGoUpdated(before, k, m);
      assert nodes[k := m][..|nodes| - 1] == before[k := m];
    } else {
      assert nodes[k := m][..|nodes| - 1] == before;
    }
  }

  lemma {:induction false} ToGoZero(nodes: seq<Member>)
    requires forall i :: 0 <= i < |nodes| ==> Healthy(nodes[i])
    ensures ToGo(nodes) == 0 <==> forall i :: 0 <= i < |nodes| ==> nodes[i].phase == V.Ready
  {
    if nodes != [] {
      ToGoZero(nodes[..|nodes| - 1]);
    }
  }

  // One reconcile: it creates one node exactly when some are missing and none is in
  // transition, and otherwise changes nothing; the target stays.
  lemma ReconcileEffect(spec: Spec, target: nat, w: World, io: IO)
    requires Steady(spec, target, w) && Enabled(spec, w, Reconcile(io))
    ensures var v := Apply(spec, w, Reconcile(io));
            && v.group.desired == target
            && v.active == if |w.active| < target && !Transitional(w) then w.active + [Fresh(io.newNode.value)]
                           else w.active
  {
    hide Without, CountInTransition, CountAtCapacity;
    NoneInTransition(w.active);
    NoneAtCapacity(w.active);
    WithoutNothing(w.active);
  }

  lemma CreationCosts(target: nat, w: World, m: Member)
    requires m.phase == V.Unset
    ensures Measure(target, World(w.group, w.active + [m])) == Measure(target, w) - 1
  {
    assert (w.active + [m])[..|w.active|] == w.active;
  }

  lemma ProgressEffect(spec: Spec, target: nat, w: World, k: nat)
    requires Steady(spec, target, w) && Enabled(spec, w, Progress(k))
    ensures var v := Apply(spec, w, Progress(k));
            Steady(spec, target, v) && |w.active| == |v.active| && Measure(target, v) == Measure(target, w) - 1
  {
    ToGoUpdated(w.active, k, w.active[k].(phase := Next(w.active[k].phase)));
  }

  lemma StepEffect(spec: Spec, target: nat, w: World, step: Step)
    requires Steady(spec, target, w) && Enabled(spec, w, step)
    ensures var v := Apply(spec, w, step);
            && Steady(spec, target, v) && |w.active| <= |v.active|
            && Measure(target, v) == Measure(target, w)
                 - (if step.Progress? then 1 else 0) - (|v.active| - |w.active|)
  {
    hide Decide, ToGo, Transitional;
    match step
    case Reconcile(io) =>
      ReconcileEffect(spec, target, w, io);
      CreationCosts(target, w, Fresh(io.newNode.value));
    case Progress(k) =>
      ProgressEffect(spec, target, w, k);
  }

  function CountProgress(steps: seq<Step>): nat {
    if steps == [] then 0
    else CountProgress(steps[..|steps| - 1]) + if steps[|steps| - 1].Progress? then 1 else 0
  }

  // Exact accounting over any run: every step of a node and every creation costs one unit.
  lemma {:induction false} RunEffect(spec: Spec, target: nat, w: World, steps: seq<Step>)
    requires Steady(spec, target, w) && IsRun(spec, w, steps)
    ensures var v := After(spec, w, steps);
            && Steady(spec, target, v) && |w.active| <= |v.active|
            && Measure(target, v) == Measure(target, w) - CountProgress(steps) - (|v.active| - |w.active|)
  {
    if steps != [] {
      RunEffect(spec, target, w, steps[..|steps| - 1]);
      StepEffect(spec, target, After(spec, w, steps[..|steps| - 1]), steps[|steps| - 1]);
    }
  }

  // ----- Fair rounds -----

  predicate HasReconcile(steps: seq<Step>) {
    exists i :: 0 <= i < |steps| && steps[i].Reconcile?
  }

  // At least one reconcile, and every node that is not Ready at the start moves.
  predicate Fair(w: World, steps: seq<Step>) {
    && HasReconcile(steps)
    && forall k: nat :: k < |w.active| && w.active[k].phase != V.Ready ==> Progress(k) in steps
  }

  lemma {:induction false} SomeProgress(steps: seq<Step>, k: nat)
    requires Progress(k) in steps
    ensures CountProgress(steps) > 0
  {
    var before := steps[..|steps| - 1];
    if steps[|steps| - 1] != Progress(k) {
      assert steps == before + [steps[|steps| - 1]];
      SomeProgress(before, k);
    }
  }

  predicate AllReady(w: World) {
    forall i :: 0 <= i < |w.active| ==> w.active[i].phase == V.Ready
  }

  lemma {:induction false} NothingButReconciles(spec: Spec, w: World, steps: seq<Step>)
    requires IsRun(spec, w, steps) && AllReady(w) && !HasReconcile(steps)
    ensures steps == []
  {
    if steps != [] {
      var before := steps[..|steps| - 1];
      assert forall i :: 0 <= i < |before| ==> before[i] == steps[i];
      NothingButReconciles(spec, w, before);
      assert false;
    }
  }

  lemma {:induction false} AllReadyCreates(spec: Spec, target: nat, w: World, steps: seq<Step>)
    requires Steady(spec, target, w) && IsRun(spec, w, steps)
    requires AllReady(w) && |w.active| < target && HasReconcile(steps)
    ensures |After(spec, w, steps).active| > |w.active|
  {
    hide Decide;
    var before, step := steps[..|steps| - 1], steps[|steps| - 1];
    if HasReconcile(before) {
      AllReadyCreates(spec, target, w, before);
      RunEffect(spec, target, w, before);
      StepEffect(spec, target, After(spec, w, before), step);
    } else {
      NothingButReconciles(spec, w, before);
      ReconcileEffect(spec, target, w, step.io);
    }
  }

  lemma FairRoundDescends(spec: Spec, target: nat, w: World, steps: seq<Step>)
    requires Steady(spec, target, w) && IsRun(spec, w, steps) && Fair(w, steps) && Measure(target, w) > 0
    ensures Measure(target, After(spec, w, steps)) < Measure(target, w)
  {
    RunEffect(spec, target, w, steps);
    if AllReady(w) {
      ToGoZero(w.active);
      AllReadyCreates(spec, target, w, steps);
    } else {
      var k: nat :| k < |w.active| && w.active[k].phase != V.Ready;
      SomeProgress(steps, k);
    }
  }

  predicate FairRounds(spec: Spec, w: World, rounds: seq<seq<Step>>)
    decreases |rounds|
  {
    rounds == [] ||
    (IsRun(spec, w, rounds[0]) && Fair(w, rounds[0]) && FairRounds(spec, After(spec, w, rounds[0]), rounds[1..]))
  }

  function AfterRounds(spec: Spec, w: World, rounds: seq<seq<Step>>): World
    requires FairRounds(spec, w, rounds)
    decreases |rounds|
  {
    if rounds == [] then w else AfterRounds(spec, After(spec, w, rounds[0]), rounds[1..])
  }

  // After as many fair rounds as the measure counts, exactly the missing nodes have been
  // created, all of them are Ready, and the group is at its target.
  lemma {:induction false} ScalingConverges(spec: Spec, target: nat, w: World, rounds: seq<seq<Step>>)
    requires Steady(spec, target, w) && FairRounds(spec, w, rounds) && |rounds| >= Measure(target, w)
    ensures var v := AfterRounds(spec, w, rounds);
            Steady(spec, target, v) && |v.active| == target && AllReady(v)
    decreases |rounds|
  {
    ToGoZero(w.active);
    if rounds != [] {
      RunEffect(spec, target, w, rounds[0]);
      if Measure(target, w) > 0 {
        FairRoundDescends(spec, target, w, rounds[0]);
      }
      ScalingConverges(spec, target, After(spec, w, rounds[0]), rounds[1..]);
    }
  }

  // A group at its target creates nothing more, in any run.
  lemma StaysAtTarget(spec: Spec, target: nat, w: World, steps: seq<Step>)
    requires Steady(spec, target, w) && |w.active| == target && IsRun(spec, w, steps)
    ensures |After(spec, w, steps).active| == target
  {
    RunEffect(spec, target, w, steps);
  }

  // Nodes that no reconcile of their own has touched yet do not count as in transition, so
  // a second node can be created while the first is not Ready.
  lemma UntouchedNodesNotCounted(spec: Spec, target: nat, w: World, io: IO)
    requires Steady(spec, target, w) && Enabled(spec, w, Reconcile(io)) && |w.active| < target
    ensures |Apply(spec, w, Reconcile(io)).active| > |w.active| <==>
              forall i :: 0 <= i < |w.active| ==> w.active[i].phase == V.Ready || w.active[i].phase == V.Unset
  {
    hide Decide;
    ReconcileEffect(spec, target, w, io);
  }

  // Two reconciles in a row, before the first new node is touched, create two nodes, neither
  // of them Ready: for every group without nodes and a target of at least two.
  lemma TwoNodesAtOnce(spec: Spec, target: nat, w: World, first: IO, second: IO)
    requires Steady(spec, target, w) && w.active == [] && target >= 2
    requires Enabled(spec, w, Reconcile(first)) && Enabled(spec, w, Reconcile(second))
    ensures IsRun(spec, w, [Reconcile(first), Reconcile(second)])
    ensures After(spec, w, [Reconcile(first), Reconcile(second)]).active
              == [Fresh(first.newNode.value), Fresh(second.newNode.value)]
  {
    hide Decide, IsRun, After;
    ReconcileEffect(spec, target, w, first);
    StepEffect(spec, target, w, Reconcile(first));
    ReconcileEffect(spec, target, Apply(spec, w, Reconcile(first)), second);
    TwoSteps(spec, w, Reconcile(first), Reconcile(second));
  }

  lemma TwoSteps(spec: Spec, w: World, first: Step, second: Step)
    requires Enabled(spec, w, first) && Enabled(spec, Apply(spec, w, first), second)
    ensures IsRun(spec, w, [first, second])
    ensures After(spec, w, [first, second]) == Apply(spec, Apply(spec, w, first), second)
  {
    hide Apply, Enabled;
    assert [first, second][..1] == [first] && [first][..0] == [];
    assert IsRun(spec, w, []) && IsRun(spec, w, [first]);
  }
}
