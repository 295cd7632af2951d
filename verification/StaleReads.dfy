// Reconciles of one VPSieNode that may read an older version of the object from the cache
// (pkg/controller/vpsienode/controller.go:103-355). An object update built on an older
// version conflicts; a status patch carries only the fields the reconcile changed and is
// applied to whatever is stored.
module StaleReads {
  import opened Options
  import opened VPSieNodes
  import opened VPSieNodeController
  import R = VPSieNodeRuns

  function Merged<T(==)>(stored: T, base: T, result: T): T {
    if result != base then result else stored
  }

  function Patched(stored: Status, base: Status, result: Status): Status {
    Status(Merged(stored.phase, base.phase, result.phase),
           Merged(stored.createdAt, base.createdAt, result.createdAt),
           Merged(stored.provisionedAt, base.provisionedAt, result.provisionedAt),
           Merged(stored.joinedAt, base.joinedAt, result.joinedAt),
           Merged(stored.readyAt, base.readyAt, result.readyAt),
           Merged(stored.terminatingAt, base.terminatingAt, result.terminatingAt),
           Merged(stored.deletedAt, base.deletedAt, result.deletedAt),
           Merged(stored.hostname, base.hostname, result.hostname),
           Merged(stored.nodeName, base.nodeName, result.nodeName))
  }

  function PatchStatus(stored: Node, read: Node, vn: Node, w: Write): Node {
    if w.Applied() then stored.(status := Patched(stored.status, read.status, vn.status)) else stored
  }

  // A reconcile of a version that is no longer the stored one: adding the finalizer, writing
  // the object and dropping the finalizer all conflict.
  function StaleReconcile(stored: Node, read: Node, io: IO): Outcome
    requires io.Valid()
  {
    if !read.hasFinalizer then Outcome(stored, false, None)
    else if !read.deletionRequested && read.status.phase == Unset then
      Outcome(PatchStatus(stored, read, read.(status := read.status.(phase := Pending)), io.patch), false, None)
    else if read.deletionRequested && R.Alive(read.status.phase) then
      Outcome(PatchStatus(stored, read, InPhase(read, Terminating, io.later), io.patch), false, None)
    else if read.deletionRequested && read.status.deletedAt.Some? then Outcome(stored, false, None)
    else
      var h := Handle(read, io);
      if !read.deletionRequested && MetaChanged(read, h.node) then Outcome(stored, h.created, h.gone)
      else Outcome(PatchStatus(stored, read, h.node, io.patch), h.created, h.gone)
  }

  datatype Step = ReconcileVersion(k: nat, io: IO) | RequestDeletion

  datatype World = World(
    stored: Node,
    versions: seq<Node>,  // everything that was ever stored, the current version last
    creations: nat,       // AddK8sSlaveToGroup requests that succeeded
    lost: nat,            // of these, the ones whose object update did not persist
    stale: nat)           // of these, the ones asked for on an older version

  function Start(n: Node): World {
    World(n, [n], 0, 0, 0)
  }

  predicate Enabled(w: World, step: Step) {
    step.ReconcileVersion? ==> step.k < |w.versions| && step.io.Valid()
  }

  predicate IsStale(w: World, step: Step)
    requires Enabled(w, step)
  {
    step.ReconcileVersion? && w.versions[step.k] != w.stored
  }

  function Result(w: World, step: Step): Outcome
    requires Enabled(w, step)
  {
    match step
    case RequestDeletion => Outcome(w.stored.(deletionRequested := true), false, None)
    case ReconcileVersion(k, io) =>
      if w.versions[k] == w.stored then Reconcile(w.stored, io) else StaleReconcile(w.stored, w.versions[k], io)
  }

  // The object update after a creation did not persist.
  predicate Loses(w: World, step: Step)
    requires Enabled(w, step)
  {
    Result(w, step).created && (IsStale(w, step) || !step.io.update.Applied())
  }

  function Apply(w: World, step: Step): World
    requires Enabled(w, step)
  {
    var o := Result(w, step);
    World(o.stored,
          w.versions + [o.stored],
          w.creations + (if o.created then 1 else 0),
          w.lost + (if Loses(w, step) then 1 else 0),
          w.stale + (if o.created && IsStale(w, step) then 1 else 0))
  }

  predicate IsRun(n: Node, steps: seq<Step>)
    decreases |steps|, 0
  {
    steps == [] ||
    (var before := steps[..|steps| - 1];
     IsRun(n, before) && Enabled(After(n, before), steps[|steps| - 1]))
  }

  function After(n: Node, steps: seq<Step>): World
    requires IsRun(n, steps)
    decreases |steps|, 1
  {
    if steps == [] then Start(n) else Apply(After(n, steps[..|steps| - 1]), steps[|steps| - 1])
  }

  // ----- What every step keeps -----

  // A handler that creates leaves an object that remembers it, whatever the status said.
  predicate Remembers(n: Node, h: Handled) {
    && (h.created ==> !n.Recorded() && h.node.Recorded() && MetaChanged(n, h.node))
    && (!h.created ==> h.node.Recorded() == n.Recorded())
    && (h.created ==> h.err == NoError && n.status.phase == Provisioning)
  }

  lemma DiscoverRemembers(n: Node, io: IO)
    requires n.creationRequested
    ensures Remembers(n, Discover(n, io))
  {
    hide MetaChanged, CheckVPSStatus;
    if io.discover.Discovered? {
      CheckRemembers(Adopt(n, io.discover.vps), io);
    }
  }

  lemma CheckRemembers(n: Node, io: IO)
    ensures var h := CheckVPSStatus(n, io);
            && !h.created && h.node.creationRequested == n.creationRequested
            && h.node.spec.instanceID == n.spec.instanceID
  {
  }

  lemma ProvisioningRemembers(n: Node, io: IO)
    requires n.status.phase == Provisioning
    ensures Remembers(n, HandleProvisioning(n, io))
  {
    hide Discover, CheckVPSStatus;
    CheckRemembers(n, io);
    if n.creationRequested {
      DiscoverRemembers(n, io);
    }
  }

  lemma JoiningRemembers(n: Node, io: IO)
    ensures var h := HandleJoining(n, io);
            && !h.created && h.node.creationRequested == n.creationRequested
            && h.node.spec.instanceID == n.spec.instanceID
  {
  }

  lemma HandlersRemember(n: Node, io: IO)
    requires io.Valid()
    ensures Remembers(n, Handle(n, io))
  {
    hide MetaChanged, HandleProvisioning, HandleJoining, DeleteVPS;
    JoiningRemembers(n, io);
    if n.status.phase == Provisioning {
      ProvisioningRemembers(n, io);
    } else if !R.Alive(n.status.phase) {
      R.DyingHandled(n, io);
    }
  }

  predicate Accounted(w: World) {
    && w.creations == w.lost + R.Bit(w.stored.Recorded())
    && w.stale <= w.lost
    && (forall k :: 0 <= k < |w.versions| && w.versions[k].Recorded() ==> w.stored.Recorded())
  }

  lemma FreshEffect(n: Node, io: IO)
    requires io.Valid()
    ensures var o := Reconcile(n, io);
            && (o.created ==> !n.Recorded() && o.stored.Recorded() == io.update.Applied())
            && (!o.created ==> o.stored.Recorded() == n.Recorded())
  {
    hide Handle, MetaChanged;
    HandlersRemember(n, io);
  }

  lemma StaleEffect(stored: Node, read: Node, io: IO)
    requires io.Valid()
    ensures var o := StaleReconcile(stored, read, io);
            && o.stored.Recorded() == stored.Recorded()
            && (o.created ==> !read.Recorded())
            && (o.created ==> o.stored == stored)
  {
    hide Handle, MetaChanged, Patched;
    HandlersRemember(read, io);
    if !R.Alive(read.status.phase) {
      R.DyingHandled(read, io);
    }
  }

  lemma StepAccounted(w: World, step: Step)
    requires Enabled(w, step) && Accounted(w)
    ensures Accounted(Apply(w, step))
  {
    hide Reconcile, StaleReconcile;
    match step
    case RequestDeletion =>
    case ReconcileVersion(k, io) =>
      if w.versions[k] == w.stored {
        FreshEffect(w.stored, io);
      } else {
        StaleEffect(w.stored, w.versions[k], io);
      }
  }

  // With reads as stale as they may be: every successful creation is either the one the
  // object remembers or one whose object update did not persist, and a creation asked for on
  // an older version is always of the second kind.
  lemma {:induction false} StaleCreationsAccounted(n: Node, steps: seq<Step>)
    requires R.Fresh(n) && IsRun(n, steps)
    ensures Accounted(After(n, steps))
    ensures var w := After(n, steps);
            && w.creations == w.lost + (if w.stored.Recorded() then 1 else 0)
            && (w.lost == 0 ==> w.creations <= 1 && w.stale == 0)
  {
    hide Apply, Enabled;
    if steps != [] {
      StaleCreationsAccounted(n, steps[..|steps| - 1]);
      StepAccounted(After(n, steps[..|steps| - 1]), steps[|steps| - 1]);
    }
  }

  // Once a creation is remembered, another can only come from an older version, from before
  // it was remembered.
  lemma SecondCreationIsStale(n: Node, steps: seq<Step>, step: Step)
    requires R.Fresh(n) && IsRun(n, steps) && Enabled(After(n, steps), step)
    requires After(n, steps).stored.Recorded() && Result(After(n, steps), step).created
    ensures IsStale(After(n, steps), step) && !After(n, steps).versions[step.k].Recorded()
    ensures Apply(After(n, steps), step).stored == After(n, steps).stored
  {
    hide Reconcile, StaleReconcile;
    var w := After(n, steps);
    match step
    case RequestDeletion =>
    case ReconcileVersion(k, io) =>
      if w.versions[k] == w.stored {
        FreshEffect(w.stored, io);
      } else {
        StaleEffect(w.stored, w.versions[k], io);
      }
  }

  lemma RunExtends(n: Node, steps: seq<Step>, step: Step)
    requires IsRun(n, steps)
    ensures IsRun(n, steps + [step]) == Enabled(After(n, steps), step)
    ensures IsRun(n, steps + [step]) ==> After(n, steps + [step]) == Apply(After(n, steps), step)
  {
    assert (steps + [step])[..|steps|] == steps;
  }

  function Quiet(k: nat): Step {
    ReconcileVersion(k, R.Calm(k + 1, AddFailed(false), Written, FindFailed))
  }

  function Creating(at: int, vps: VPS): Step {
    ReconcileVersion(3, R.Calm(at, Added(vps), Written, FindFailed))
  }

  function Launch(): seq<Step> {
    [] + [Quiet(0)] + [Quiet(1)] + [Quiet(2)]
  }

  lemma Launched(n: Node)
    requires R.Fresh(n)
    ensures IsRun(n, Launch())
    ensures var w := After(n, Launch());
            && w.stored == n.(hasFinalizer := true, status := n.status.(phase := Provisioning, createdAt := Some(3)))
            && |w.versions| == 4 && w.versions[3] == w.stored && w.creations == 0
  {
    hide DeleteVPS, HandleProvisioning, HandleJoining, StaleReconcile;
    RunExtends(n, [], Quiet(0));
    RunExtends(n, [] + [Quiet(0)], Quiet(1));
    RunExtends(n, [] + [Quiet(0)] + [Quiet(1)], Quiet(2));
  }

  // Every write may succeed: a reconcile that still reads the version from before a creation
  // was remembered asks for a second VPS.
  lemma StaleReadCreatesTwice(n: Node, vps: VPS)
    requires R.Fresh(n) && n.spec.groupID != 0
    ensures var steps := Launch() + [Creating(4, vps)] + [Creating(5, vps)];
            && IsRun(n, steps)
            && var w := After(n, steps); w.creations == 2 && w.lost == 1 && w.stale == 1
  {
    hide DeleteVPS, HandleJoining, Discover, CheckVPSStatus;
    Launched(n);
    var w := After(n, Launch());
    RunExtends(n, Launch(), Creating(4, vps));
    var v := After(n, Launch() + [Creating(4, vps)]);
    CreatesFrom(w.stored, vps, 4);
    CreatesFrom(w.stored, vps, 5);
    assert v.stored.Recorded() && v.versions[3] == w.stored;
    RunExtends(n, Launch() + [Creating(4, vps)], Creating(5, vps));
    StaleCreationsAccounted(n, Launch() + [Creating(4, vps)]);
    StaleCreationsAccounted(n, Launch() + [Creating(4, vps)] + [Creating(5, vps)]);
  }

  lemma CreatesFrom(n: Node, vps: VPS, at: int)
    requires n.hasFinalizer && !n.deletionRequested && n.status.phase == Provisioning && !n.Recorded()
    requires n.status.createdAt == Some(3) && n.spec.groupID != 0 && 3 <= at <= 5
    ensures var io := R.Calm(at, Added(vps), Written, FindFailed);
            && Reconcile(n, io).created && Reconcile(n, io).stored.Recorded()
            && forall stored :: StaleReconcile(stored, n, io).created && StaleReconcile(stored, n, io).stored == stored
  {
    hide MetaChanged;
    var io := R.Calm(at, Added(vps), Written, FindFailed);
    assert Handle(n, io).created;
    HandlersRemember(n, io);
  }
}
