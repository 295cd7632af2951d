// Whole lives of one VPSieNode: any number of reconciles, each with any answers from the
// cloud and the cluster and any fate of its two writes, and a deletion request anywhere.
module VPSieNodeRuns {
  import opened Options
  import opened VPSieNodes
  import opened VPSieNodeController

  datatype Step = ReconcileStep(io: IO) | RequestDeletion

  datatype Departure = Departure(node: Node, io: IO, evidence: Evidence)

  datatype World = World(
    node: Node,                  // as persisted
    creations: nat,              // AddK8sSlaveToGroup requests that succeeded
    lost: nat,                   // of these, the ones whose object update did not persist
    pushed: nat,                 // times a persisted CreatedAt was replaced by another
    guarded: bool,               // the finalizer was once persisted
    phases: seq<Phase>,          // every persisted phase, oldest first
    gone: seq<Departure>,        // the reconciles in which the VPS counted as gone
    deletes: seq<DeleteCall>,    // every delete call made
    clock: int)

  // A VPSieNode as the NodeGroup controller creates it.
  predicate Fresh(n: Node) {
    && n.spec.instanceID == 0 && n.spec.nodeIdentifier == "" && n.spec.nodeName == "" && n.spec.ipAddress == ""
    && !n.creationRequested && !n.hasFinalizer && !n.deletionRequested
    && n.status == Status(Unset, None, None, None, None, None, None, "", "")
  }

  function Start(n: Node, clock: int): World {
    World(n, 0, 0, 0, false, [n.status.phase], [], [], clock)
  }

  predicate Enabled(w: World, step: Step) {
    step.ReconcileStep? ==> step.io.Valid() && w.clock <= step.io.now
  }

  function Apply(w: World, step: Step): World
    requires Enabled(w, step)
  {
    match step
    case RequestDeletion => w.(node := w.node.(deletionRequested := true))
    case ReconcileStep(io) =>
      var o := Reconcile(w.node, io);
      var createdAt := w.node.status.createdAt;
      World(o.stored,
            w.creations + (if o.created then 1 else 0),
            w.lost + (if o.created && !io.update.Applied() then 1 else 0),
            w.pushed + (if createdAt.Some? && o.stored.status.createdAt != createdAt then 1 else 0),
            w.guarded || o.stored.hasFinalizer,
            w.phases + [o.stored.status.phase],
            if o.gone.Some? then w.gone + [Departure(w.node, io, o.gone.value)] else w.gone,
            w.deletes + CallsOf(w.node, io),
            io.later)
  }

  predicate IsRun(n: Node, start: int, steps: seq<Step>)
    decreases |steps|, 0
  {
    steps == [] ||
    (var before := steps[..|steps| - 1];
     IsRun(n, start, before) && Enabled(After(n, start, before), steps[|steps| - 1]))
  }

  function After(n: Node, start: int, steps: seq<Step>): World
    requires IsRun(n, start, steps)
    decreases |steps|, 1
  {
    if steps == [] then Start(n, start)
    else Apply(After(n, start, steps[..|steps| - 1]), steps[|steps| - 1])
  }

  // ----- What one step can do -----

  function Rank(phase: Phase): nat {
    match phase
    case Unset => 0
    case Pending => 1
    case Provisioning => 2
    case Provisioned => 3
    case Joining => 4
    case Ready => 5
    case Failed => 6
    case Terminating => 7
    case Deleting => 8
  }

  // The edges of the documented lifecycle.
  predicate Moves(a: Phase, b: Phase) {
    || a == b
    || (a == Unset && b == Pending)
    || (a == Pending && b == Provisioning)
    || (a == Provisioning && (b == Provisioned || b == Failed))
    || (a == Provisioned && b == Joining)
    || (a == Joining && (b == Ready || b == Failed))
  }

  predicate Alive(phase: Phase) {
    phase != Terminating && phase != Deleting
  }

  predicate Past(t: Option<int>, clock: int) {
    t.Some? ==> t.value <= clock
  }

  // The timers that the two timeouts read are armed.
  predicate Armed(s: Status, clock: int) {
    && Past(s.createdAt, clock) && Past(s.provisionedAt, clock)
    && (s.phase == Provisioning ==> s.createdAt.Some?)
    && (s.phase == Provisioned || s.phase == Joining ==> s.provisionedAt.Some?)
  }

  // What a handler leaves of a live object.
  predicate Advances(n: Node, h: Handled, clock: int) {
    var s := h.node.status;
    && Moves(n.status.phase, s.phase) && Armed(s, clock)
    && h.gone == None && s.deletedAt == n.status.deletedAt
    && h.node.hasFinalizer == n.hasFinalizer && h.node.deletionRequested == n.deletionRequested
    && (h.created ==> !n.Recorded() && h.node.Recorded() && MetaChanged(n, h.node))
    && (h.created ==> s.phase == Provisioning && h.err == NoError)
    && (!h.created ==> h.node.Recorded() == n.Recorded())
    && (s.phase == Provisioned ==> n.status.phase == Provisioned || n.Recorded())
    && (n.spec.instanceID != 0 ==> h.node.spec.instanceID == n.spec.instanceID)
    && (!h.created && n.status.createdAt.Some? ==> s.createdAt == n.status.createdAt)
  }

  lemma CheckAdvances(n: Node, io: IO)
    requires io.Valid() && n.Recorded() && n.status.phase == Provisioning && Armed(n.status, io.now)
    ensures Advances(n, CheckVPSStatus(n, io), io.later)
  {
    hide MetaChanged;
  }

  lemma DiscoverAdvances(n: Node, io: IO)
    requires io.Valid() && n.status.phase == Provisioning && Armed(n.status, io.now)
    requires n.creationRequested && n.spec.instanceID == 0
    ensures Advances(n, Discover(n, io), io.later)
  {
    hide CheckVPSStatus, MetaChanged;
    if io.discover.Discovered? {
      CheckAdvances(Adopt(n, io.discover.vps), io);
    }
  }

  lemma ProvisionAdvances(n: Node, io: IO)
    requires io.Valid() && n.status.phase == Provisioning && Armed(n.status, io.now)
    ensures Advances(n, Provision(n, io), io.later)
  {
    hide CheckVPSStatus, Discover;
    if n.spec.instanceID != 0 {
      CheckAdvances(n, io);
    } else if n.creationRequested {
      DiscoverAdvances(n, io);
    }
  }

  lemma JoinEffect(n: Node, io: IO)
    requires n.status.phase == Joining
    ensures var h := CheckJoinStatus(n, io); var s := h.node.status;
            && !h.created && h.gone == None
            && h.node.spec.instanceID == n.spec.instanceID
            && h.node == n.(spec := h.node.spec, status := s)
            && (s.phase == Joining || s.phase == Ready)
            && s.createdAt == n.status.createdAt && s.provisionedAt == n.status.provisionedAt
            && s.deletedAt == n.status.deletedAt
  {
  }

  lemma JoinAdvances(n: Node, io: IO)
    requires io.Valid() && n.status.phase == Joining && Armed(n.status, io.now)
    ensures Advances(n, CheckJoinStatus(n, io), io.later)
  {
    hide MetaChanged, CheckJoinStatus;
    JoinEffect(n, io);
  }

  lemma LiveHandled(n: Node, io: IO)
    requires io.Valid() && Alive(n.status.phase) && Armed(n.status, io.now)
    ensures Advances(n, Handle(n, io), io.later)
  {
    hide DeleteVPS, Provision, CheckJoinStatus;
    if n.status.phase == Provisioning {
      ProvisionAdvances(n, io);
    } else if n.status.phase == Joining {
      JoinAdvances(n, io);
    }
  }

  lemma DyingHandled(n: Node, io: IO)
    requires io.Valid() && !Alive(n.status.phase)
    ensures var h := Handle(n, io); var s := h.node.status;
            && !h.created && h.node == n.(status := s) && s.createdAt == n.status.createdAt
            && (h.gone.Some? ==> h == DeleteVPS(n, io))
            && (n.status.phase == Terminating ==>
                  s.phase == Deleting && h.gone == None && s.deletedAt == n.status.deletedAt)
            && (n.status.phase == Deleting ==>
                  && (h.gone == None ==>
                        s.deletedAt == n.status.deletedAt && (s.phase == Deleting || s.phase == Failed))
                  && (h.gone.Some? ==> h.err == NoError && s.phase == Deleting && s.deletedAt == Some(io.later)))
  {
    if n.status.phase == Deleting && !NothingKnown(n) {
      RetryEffect(n, io, 1);
    }
  }

  lemma {:induction false} RetryEffect(n: Node, io: IO, attempt: nat)
    requires io.Valid() && 1 <= attempt <= MAX_RETRIES
    ensures var h := Retry(n, io, attempt);
            && !h.created
            && if h.gone.Some? then h.err == NoError && h.node == MarkDeleted(n, io.later)
               else h.node == n || h.node == InPhase(n, Failed, io.later)
    decreases MAX_RETRIES - attempt
  {
    hide Delete;
    if attempt < MAX_RETRIES {
      RetryEffect(n, io, attempt + 1);
    }
  }

  // ----- What every run keeps -----

  function Bit(b: bool): nat {
    if b then 1 else 0
  }

  predicate Once(w: World) {
    && w.creations == w.lost + Bit(w.node.Recorded())
    && w.pushed <= Bit(w.node.Recorded())
  }

  predicate Passed(phases: seq<Phase>, a: Phase, b: Phase) {
    exists i, j :: 0 <= i < j < |phases| && phases[i] == a && phases[j] == b
  }

  // At that time the VPS was unknown, or the cloud answered that it is gone.
  predicate Justified(d: Departure, at: int) {
    && d.io.Valid() && d.io.later == at
    && if d.evidence == NothingToDelete then NothingKnown(d.node)
       else exists k: nat :: k < MAX_RETRIES && Settled(d.node, d.io, k, d.evidence)
  }

  predicate Told(gone: seq<Departure>, at: int) {
    exists k :: 0 <= k < |gone| && Justified(gone[k], at)
  }

  predicate Guarded(w: World) {
    var s := w.node.status;
    && (w.node.hasFinalizer || s.phase != Unset ==> w.guarded)
    && (w.guarded && !w.node.hasFinalizer ==> s.deletedAt.Some?)
    && (s.deletedAt.Some? ==> w.node.deletionRequested && s.phase == Deleting && Told(w.gone, s.deletedAt.value))
    && (s.phase == Terminating ==> w.node.deletionRequested)
    && (s.phase == Deleting ==> w.node.deletionRequested && Passed(w.phases, Terminating, Deleting))
    && |w.phases| > 0 && w.phases[|w.phases| - 1] == s.phase
  }

  // Never back, never past an edge, and Failed is never left.
  predicate Forward(phases: seq<Phase>) {
    && (forall i :: 0 <= i < |phases| ==> Alive(phases[i]))
    && (forall i :: 0 < i < |phases| ==> Moves(phases[i - 1], phases[i]))
    && (forall i, j :: 0 <= i <= j < |phases| ==> Rank(phases[i]) <= Rank(phases[j]))
  }

  predicate Lives(w: World) {
    w.node.deletionRequested ||
    (var phase := w.node.status.phase;
     && Alive(phase) && Armed(w.node.status, w.clock) && Forward(w.phases)
     && (phase == Provisioned || phase == Joining || phase == Ready ==> w.node.Recorded()))
  }

  lemma PassedExtends(phases: seq<Phase>, p: Phase)
    requires |phases| > 0
    ensures Passed(phases, Terminating, Deleting) ==> Passed(phases + [p], Terminating, Deleting)
    ensures phases[|phases| - 1] == Terminating && p == Deleting ==> Passed(phases + [p], Terminating, Deleting)
  {
    if Passed(phases, Terminating, Deleting) {
      var i, j :| 0 <= i < j < |phases| && phases[i] == Terminating && phases[j] == Deleting;
      assert (phases + [p])[i] == Terminating && (phases + [p])[j] == Deleting;
    } else if phases[|phases| - 1] == Terminating && p == Deleting {
      assert (phases + [p])[|phases| - 1] == Terminating && (phases + [p])[|phases|] == Deleting;
    }
  }

  lemma ToldExtends(gone: seq<Departure>, d: Departure, at: int)
    requires Justified(d, at)
    ensures Told(gone + [d], at)
  {
    assert (gone + [d])[|gone|] == d;
  }

  lemma GoneJustified(n: Node, io: IO)
    requires io.Valid() && DeleteVPS(n, io).gone.Some?
    ensures Justified(Departure(n, io, DeleteVPS(n, io).gone.value), io.later)
  {
    hide DeleteVPS, Reached;
    WhyDeleted(n, io);
    if !NothingKnown(n) {
      var k: nat :| Settled(n, io, k, DeleteVPS(n, io).gone.value);
      assert k < MAX_RETRIES;
    }
  }

  lemma ForwardExtends(phases: seq<Phase>, p: Phase)
    requires Forward(phases) && |phases| > 0 && Moves(phases[|phases| - 1], p) && Alive(p)
    ensures Forward(phases + [p])
  {
  }

  lemma LiveStep(w: World, io: IO)
    requires Enabled(w, ReconcileStep(io)) && !w.node.deletionRequested
    requires Once(w) && Guarded(w) && Lives(w)
    ensures var t := Apply(w, ReconcileStep(io)); Once(t) && Guarded(t) && Lives(t)
  {
    hide Handle, MetaChanged, Told, Passed, Forward, CallsOf;
    LiveHandled(w.node, io);
    PassedExtends(w.phases, Apply(w, ReconcileStep(io)).node.status.phase);
    ForwardExtends(w.phases, Apply(w, ReconcileStep(io)).node.status.phase);
  }

  lemma DyingStep(w: World, io: IO)
    requires Enabled(w, ReconcileStep(io)) && w.node.deletionRequested
    requires Once(w) && Guarded(w)
    ensures var t := Apply(w, ReconcileStep(io)); Once(t) && Guarded(t) && t.node.deletionRequested
    ensures Apply(w, ReconcileStep(io)).creations == w.creations
  {
    hide Handle, DeleteVPS, Told, Passed, Justified, CallsOf;
    if !Alive(w.node.status.phase) {
      DyingHandled(w.node, io);
    }
    var o := Reconcile(w.node, io);
    PassedExtends(w.phases, o.stored.status.phase);
    if o.gone.Some? {
      GoneJustified(w.node, io);
      ToldExtends(w.gone, Departure(w.node, io, o.gone.value), io.later);
    }
  }

  lemma {:induction false} RunKeeps(n: Node, start: int, steps: seq<Step>)
    requires Fresh(n) && IsRun(n, start, steps)
    ensures var w := After(n, start, steps); Once(w) && Guarded(w) && Lives(w)
  {
    hide Reconcile;
    if steps == [] {
    } else {
      RunKeeps(n, start, steps[..|steps| - 1]);
      var w := After(n, start, steps[..|steps| - 1]);
      match steps[|steps| - 1]
      case RequestDeletion =>
      case ReconcileStep(io) =>
        if w.node.deletionRequested {
          DyingStep(w, io);
        } else {
          LiveStep(w, io);
        }
    }
  }

  // ----- At most one creation -----

  // Every successful creation request is either remembered by the object, which then asks
  // for no other, or was followed by an object update that did not persist.
  lemma CreationsAccounted(n: Node, start: int, steps: seq<Step>)
    requires Fresh(n) && IsRun(n, start, steps)
    ensures var w := After(n, start, steps);
            && w.creations == w.lost + (if w.node.Recorded() then 1 else 0)
            && (w.lost == 0 ==> w.creations <= 1)
            && (w.lost == 0 && w.node.status.phase == Ready && !w.node.deletionRequested ==> w.creations == 1)
  {
    RunKeeps(n, start, steps);
  }

  lemma NoCreationOnceDeleting(n: Node, start: int, steps: seq<Step>, io: IO)
    requires Fresh(n) && IsRun(n, start, steps)
    requires var w := After(n, start, steps); Enabled(w, ReconcileStep(io)) && w.node.deletionRequested
    ensures Apply(After(n, start, steps), ReconcileStep(io)).creations == After(n, start, steps).creations
  {
    RunKeeps(n, start, steps);
    DyingStep(After(n, start, steps), io);
  }

  lemma RunExtends(n: Node, start: int, steps: seq<Step>, step: Step)
    requires IsRun(n, start, steps)
    ensures IsRun(n, start, steps + [step]) == Enabled(After(n, start, steps), step)
    ensures IsRun(n, start, steps + [step]) ==>
              After(n, start, steps + [step]) == Apply(After(n, start, steps), step)
  {
    assert (steps + [step])[..|steps|] == steps;
  }

  lemma StepKeepsIdentity(w: World, step: Step)
    requires Enabled(w, step) && Lives(w) && w.node.spec.instanceID != 0
    ensures Apply(w, step).node.spec.instanceID == w.node.spec.instanceID
  {
    hide Handle, MetaChanged, Forward, CallsOf;
    if step.ReconcileStep? && !w.node.deletionRequested {
      LiveHandled(w.node, step.io);
    } else if step.ReconcileStep? && !Alive(w.node.status.phase) {
      DyingHandled(w.node, step.io);
    }
  }

  // Once the object names a VPS it never names another, so what is polled and what is
  // deleted is the VPS that was created or discovered.
  lemma {:induction false} IdentityStable(n: Node, start: int, steps: seq<Step>, k: nat)
    requires Fresh(n) && IsRun(n, start, steps) && k <= |steps| && IsRun(n, start, steps[..k])
    requires After(n, start, steps[..k]).node.spec.instanceID != 0
    ensures After(n, start, steps).node.spec.instanceID == After(n, start, steps[..k]).node.spec.instanceID
  {
    hide Apply, Enabled, Lives, Once, Guarded;
    if k == |steps| {
      assert steps[..k] == steps;
    } else {
      var before, step := steps[..|steps| - 1], steps[|steps| - 1];
      assert before[..k] == steps[..k];
      IdentityStable(n, start, before, k);
      RunKeeps(n, start, before);
      StepKeepsIdentity(After(n, start, before), step);
    }
  }

  // ----- Finalizer safety -----

  lemma FinalizerSafety(n: Node, start: int, steps: seq<Step>)
    requires Fresh(n) && IsRun(n, start, steps)
    ensures var w := After(n, start, steps);
            w.guarded && !w.node.hasFinalizer ==>
              && w.node.deletionRequested
              && Passed(w.phases, Terminating, Deleting)
              && w.node.status.deletedAt.Some?
              && Told(w.gone, w.node.status.deletedAt.value)
  {
    RunKeeps(n, start, steps);
  }

  // ----- Lifecycle -----

  lemma LifecycleForward(n: Node, start: int, steps: seq<Step>)
    requires Fresh(n) && IsRun(n, start, steps) && !After(n, start, steps).node.deletionRequested
    ensures var w := After(n, start, steps);
            && Forward(w.phases) && Armed(w.node.status, w.clock) && w.pushed <= 1
            && (forall i, j :: 0 <= i <= j < |w.phases| && w.phases[i] == Failed ==> w.phases[j] == Failed)
  {
    hide Reconcile, Apply, Guarded, CallsOf;
    RunKeeps(n, start, steps);
  }

  // Waiting for the discovery of a VPS that was asked for.
  predicate Waiting(n: Node) {
    n.status.phase == Provisioning && n.creationRequested && n.spec.instanceID == 0
  }

  // While nothing is discovered, the provisioning handler reports an error only for the
  // discovery timeout. Behind the provisioning timeout it can do so exactly if more time
  // passes between the clock readings of one reconcile than lies between the two timeouts:
  // five minutes by default.
  lemma DiscoveryTimeoutShadowed(io: IO)
    requires !io.discover.Discovered?
    ensures (exists n :: Waiting(n) && HandleProvisioning(n, io).err != NoError)
            <==> io.later - io.now > io.discoveryTimeout - PROVISIONING_TIMEOUT
    ensures DISCOVERY_TIMEOUT - PROVISIONING_TIMEOUT == 300 * SECOND
  {
    var status := Status(Provisioning, Some(io.now - PROVISIONING_TIMEOUT), None, None, None, None, None, "", "");
    var n := Node("", Spec(0, "", "", 0, "", ""), true, true, false, status);
    assert Waiting(n) && !Expired(n.status.createdAt, io.now, PROVISIONING_TIMEOUT);
    assert HandleProvisioning(n, io) == Discover(n, io);
  }

  // ----- Every live node settles -----

  // A reconcile whose writes persist and that ends at most `gap` after the one before.
  predicate Prompt(w: World, step: Step, gap: int) {
    step.ReconcileStep? && step.io.update.Written? && step.io.patch.Written? && step.io.later - w.clock <= gap
  }

  // Where the node stands once its reconciles have been prompt since `since`.
  predicate Settling(w: World, since: int, gap: int) {
    var s := w.node.status;
    var armed := since + 3 * gap + if w.node.Recorded() then PROVISIONING_TIMEOUT + gap else 0;
    var provisioned := since + 5 * gap + 2 * PROVISIONING_TIMEOUT;
    !w.node.deletionRequested &&
    match s.phase
    case Unset => w.clock <= since + if w.node.hasFinalizer then gap else 0
    case Pending => w.clock <= since + 2 * gap
    case Provisioning =>
      s.createdAt.Some? && s.createdAt.value <= armed && w.clock <= armed + PROVISIONING_TIMEOUT + gap
    case Provisioned => w.clock <= provisioned && s.provisionedAt.Some? && s.provisionedAt.value <= provisioned
    case Joining =>
      && w.clock <= provisioned + JOINING_TIMEOUT + gap
      && s.provisionedAt.Some? && s.provisionedAt.value <= provisioned
    case _ => true
  }

  lemma HandlerMoves(n: Node, io: IO)
    requires io.Valid()
    ensures var s, t := n.status, Handle(n, io).node.status;
            && (s.phase == Pending ==> t.phase == Provisioning)
            && (s.phase == Provisioned ==> t.phase == Joining && t.provisionedAt == s.provisionedAt)
            && (s.phase == Provisioning && Expired(s.createdAt, io.now, PROVISIONING_TIMEOUT) ==> t.phase == Failed)
            && (s.phase == Joining ==> t.provisionedAt == s.provisionedAt)
            && (s.phase == Joining && Expired(s.provisionedAt, io.now, JOINING_TIMEOUT) ==> t.phase == Failed)
  {
    hide DeleteVPS, Provision, CheckJoinStatus;
    if n.status.phase == Joining {
      JoinEffect(n, io);
    }
  }

  lemma SettlingStep(w: World, io: IO, since: int, gap: int)
    requires Enabled(w, ReconcileStep(io)) && Prompt(w, ReconcileStep(io), gap)
    requires Guarded(w) && Lives(w) && Settling(w, since, gap)
    ensures Settling(Apply(w, ReconcileStep(io)), since, gap)
  {
    hide Handle, MetaChanged, Forward, Passed, Told, CallsOf;
    LiveHandled(w.node, io);
    HandlerMoves(w.node, io);
  }

  predicate PromptSince(n: Node, start: int, steps: seq<Step>, k: nat, gap: nat)
    requires k <= |steps|
  {
    forall i | k <= i < |steps| :: IsRun(n, start, steps[..i]) && Prompt(After(n, start, steps[..i]), steps[i], gap)
  }

  lemma SettlingBegins(w: World, gap: nat)
    requires !w.node.deletionRequested && Lives(w)
    ensures Settling(w, w.clock, gap)
  {
  }

  lemma {:induction false} StaysSettling(n: Node, start: int, steps: seq<Step>, k: nat, gap: nat)
    requires Fresh(n) && IsRun(n, start, steps) && k <= |steps| && IsRun(n, start, steps[..k])
    requires !After(n, start, steps[..k]).node.deletionRequested && PromptSince(n, start, steps, k, gap)
    ensures Settling(After(n, start, steps), After(n, start, steps[..k]).clock, gap)
  {
    hide Reconcile, Apply, Settling, Prompt, Armed, Forward, Once, Guarded, Lives;
    RunKeeps(n, start, steps);
    if k == |steps| {
      assert steps[..k] == steps;
      SettlingBegins(After(n, start, steps), gap);
    } else {
      var before, step := steps[..|steps| - 1], steps[|steps| - 1];
      assert forall i | 0 <= i <= |before| :: before[..i] == steps[..i];
      StaysSettling(n, start, before, k, gap);
      RunKeeps(n, start, before);
      assert Prompt(After(n, start, steps[..|steps| - 1]), steps[|steps| - 1], gap);
      assert step.ReconcileStep? by { PromptReconciles(After(n, start, before), step, gap); }
      SettlingStep(After(n, start, before), step.io, After(n, start, steps[..k]).clock, gap);
    }
  }

  lemma PromptReconciles(w: World, step: Step, gap: int)
    ensures Prompt(w, step, gap) ==> step.ReconcileStep?
  {
  }

  // From any live state, however it was reached: once reconciles are prompt and persist
  // for 35 minutes and six gaps, the node is Ready or Failed.
  lemma Settles(n: Node, start: int, steps: seq<Step>, k: nat, gap: nat)
    requires Fresh(n) && IsRun(n, start, steps) && k <= |steps| && IsRun(n, start, steps[..k])
    requires !After(n, start, steps[..k]).node.deletionRequested && PromptSince(n, start, steps, k, gap)
    requires After(n, start, steps).clock > After(n, start, steps[..k]).clock + 2100 * SECOND + 6 * gap
    ensures var phase := After(n, start, steps).node.status.phase; phase == Ready || phase == Failed
  {
    hide PromptSince, Reconcile, Apply, Settling, Lives, Once, Guarded;
    RunKeeps(n, start, steps);
    StaysSettling(n, start, steps, k, gap);
    SettledByThen(After(n, start, steps), After(n, start, steps[..k]).clock, gap);
  }

  lemma SettledByThen(w: World, since: int, gap: nat)
    requires Settling(w, since, gap) && Lives(w) && w.clock > since + 2100 * SECOND + 6 * gap
    ensures w.node.status.phase == Ready || w.node.status.phase == Failed
  {
  }

  // ----- Deletion -----

  // The lookup by this object's hostname gives no identifier: no such node, a node without
  // one, or no such cluster endpoint.
  predicate Unlisted(n: Node, a: Attempt) {
    n.spec.resourceIdentifier != "" && n.spec.nodeIdentifier == "" && Hostname(n) != "" && a.find == Looked("")
  }

  predicate UsesCluster(n: Node, a: Attempt) {
    n.spec.resourceIdentifier != "" &&
    (n.spec.nodeIdentifier != "" || (Hostname(n) != "" && a.find.Looked? && a.find.identifier != ""))
  }

  predicate Replied(n: Node, a: Attempt, reply: DeleteReply) {
    !Unlisted(n, a) && if UsesCluster(n, a) then a.k8s == reply else n.spec.instanceID != 0 && a.vm == reply
  }

  // What the cloud must have answered for one attempt to count as a deletion.
  predicate Says(n: Node, a: Attempt, e: Evidence) {
    match e
    case CloudDeleted => Replied(n, a, Deleted)
    case CloudNotFound => Replied(n, a, NotFound)
    case NoHostMatch => Unlisted(n, a)
    case NothingToDelete => false
  }

  // The branch of the retry loop for a not-found error is dead: the provisioner turns
  // every not-found answer into success.
  lemma OneAttempt(n: Node, a: Attempt)
    ensures forall e :: Delete(n, a) == Gone(e) <==> Says(n, a, e)
    ensures Delete(n, a) != NotDeleted(true)
  {
  }

  predicate Reached(n: Node, io: IO, k: nat)
    requires io.Valid() && k < MAX_RETRIES
  {
    forall j :: 0 <= j < k ==> Delete(n, io.attempts[j]).NotDeleted? && !io.attempts[j].cancelled
  }

  predicate Settled(n: Node, io: IO, k: nat, e: Evidence)
    requires io.Valid()
  {
    k < MAX_RETRIES && Reached(n, io, k) && Says(n, io.attempts[k], e)
  }

  lemma {:induction false} RetryDecides(n: Node, io: IO, attempt: nat)
    requires io.Valid() && 1 <= attempt <= MAX_RETRIES && Reached(n, io, attempt - 1)
    ensures var h := Retry(n, io, attempt);
            && (h.gone.Some? ==> exists k :: Settled(n, io, k, h.gone.value))
            && (h.gone == None ==>
                  h.node == if Reached(n, io, MAX_RETRIES - 1) then InPhase(n, Failed, io.later) else n)
            && (h.gone == None ==> h.err == Transient && forall k, e :: !Settled(n, io, k, e))
    decreases MAX_RETRIES - attempt
  {
    hide Delete, Says;
    OneAttempt(n, io.attempts[attempt - 1]);
    var h := Retry(n, io, attempt);
    if Delete(n, io.attempts[attempt - 1]).Gone? {
      assert Settled(n, io, attempt - 1, h.gone.value);
    } else if attempt < MAX_RETRIES && !io.attempts[attempt - 1].cancelled {
      RetryDecides(n, io, attempt + 1);
    } else {
      forall k: nat, e | k < MAX_RETRIES && Reached(n, io, k) ensures !Says(n, io.attempts[k], e) {
        OneAttempt(n, io.attempts[k]);
      }
    }
  }

  // DeletedAt is set exactly when nothing identifies a VPS, or when some attempt that was
  // reached had an answer that settles it; the phase becomes Failed exactly when all three
  // attempts were made in vain.
  lemma WhyDeleted(n: Node, io: IO)
    requires io.Valid()
    ensures var h := DeleteVPS(n, io);
            && (h.gone == Some(NothingToDelete) <==> NothingKnown(n))
            && (h.gone.Some? <==> NothingKnown(n) || exists k, e :: Settled(n, io, k, e))
            && (h.gone.Some? && !NothingKnown(n) ==> exists k :: Settled(n, io, k, h.gone.value))
            && (h.gone.Some? ==> h.node == MarkDeleted(n, io.later) && h.err == NoError)
            && (h.gone == None ==> h.err == Transient)
            && (h.gone == None ==>
                  h.node == if Reached(n, io, MAX_RETRIES - 1) then InPhase(n, Failed, io.later) else n)
  {
    hide Retry, Reached;
    assert Reached(n, io, 0) by {
      NothingBefore(n, io);
    }
    RetryEffect(n, io, 1);
    RetryDecides(n, io, 1);
  }

  lemma NothingBefore(n: Node, io: IO)
    requires io.Valid()
    ensures Reached(n, io, 0)
  {
  }

  // ----- Deleted without a delete call -----

  lemma SilentAttempt(n: Node, a: Attempt)
    ensures CallsIn(n, a) == [] && Delete(n, a) != NotDeleted(false) <==> Unlisted(n, a)
    ensures CallsIn(n, a) == [] && n.spec.instanceID != 0 ==> Unlisted(n, a)
  {
  }

  // From this attempt on, none before the one numbered k + 1 makes a delete call, and that
  // one's lookup settles the deletion.
  predicate SilentAt(n: Node, io: IO, attempt: nat, k: nat)
    requires io.Valid() && attempt >= 1
  {
    && attempt - 1 <= k < MAX_RETRIES && Reached(n, io, k) && Unlisted(n, io.attempts[k])
    && forall j :: attempt - 1 <= j < k ==> CallsIn(n, io.attempts[j]) == []
  }

  lemma {:induction false} SilentFrom(n: Node, io: IO, attempt: nat)
    requires io.Valid() && 1 <= attempt <= MAX_RETRIES && Reached(n, io, attempt - 1)
    ensures Retry(n, io, attempt).gone.Some? && CallsFrom(n, io, attempt) == []
            <==> exists k: nat :: k < MAX_RETRIES && SilentAt(n, io, attempt, k)
    decreases MAX_RETRIES - attempt
  {
    hide Delete, CallsIn, Unlisted;
    var a := io.attempts[attempt - 1];
    SilentAttempt(n, a);
    OneAttempt(n, a);
    if Delete(n, a) != NotDeleted(false) || attempt == MAX_RETRIES || a.cancelled {
      assert Unlisted(n, a) ==> SilentAt(n, io, attempt, attempt - 1);
      forall k: nat | SilentAt(n, io, attempt, k) ensures k == attempt - 1 {
        assert Reached(n, io, k);
      }
    } else {
      var next := attempt + 1;
      SilentFrom(n, io, next);
      assert |CallsFrom(n, io, attempt)| == |CallsIn(n, a)| + |CallsFrom(n, io, next)|;
      forall k: nat | SilentAt(n, io, attempt, k) ensures SilentAt(n, io, next, k) && CallsIn(n, a) == [] {
        assert k != attempt - 1;
      }
      if CallsIn(n, a) == [] {
        forall k: nat | SilentAt(n, io, next, k) ensures SilentAt(n, io, attempt, k) {
        }
      }
    }
  }

  // DeletedAt is set without any delete call exactly when nothing is known, or when a reached
  // attempt's lookup gave no identifier and no attempt before it made a call.
  lemma DeletedWithoutCall(n: Node, io: IO)
    requires io.Valid()
    ensures DeleteVPS(n, io).gone.Some? && DeleteCalls(n, io) == []
            <==> NothingKnown(n) || exists k: nat :: k < MAX_RETRIES && SilentAt(n, io, 1, k)
  {
    hide Retry, CallsFrom, Reached;
    assert Reached(n, io, 0) by {
      NothingBefore(n, io);
    }
    SilentFrom(n, io, 1);
  }

  predicate NamedByInstance(n: Node) {
    n.spec.instanceID != 0
  }

  predicate NamedByCluster(n: Node) {
    n.spec.resourceIdentifier != "" && n.spec.nodeIdentifier != ""
  }

  // A VPS that the object names is passed over, without any delete call, on exactly two
  // routes: its cluster identifier is all that is known of it and there is no hostname, or it
  // is known by instance ID but not by cluster identifier and the first lookup of its hostname
  // gives nothing.
  lemma NamedVPSAbandoned(n: Node, io: IO)
    requires io.Valid()
    ensures DeleteVPS(n, io).gone.Some? && DeleteCalls(n, io) == [] && (NamedByInstance(n) || NamedByCluster(n))
            <==>
            || (NamedByCluster(n) && !NamedByInstance(n) && Hostname(n) == "")
            || (NamedByInstance(n) && Unlisted(n, io.attempts[0]))
  {
    hide DeleteVPS, DeleteCalls, CallsIn, Reached;
    DeletedWithoutCall(n, io);
    SilentAttempt(n, io.attempts[0]);
    assert Reached(n, io, 0) by {
      NothingBefore(n, io);
    }
    if Unlisted(n, io.attempts[0]) {
      assert SilentAt(n, io, 1, 0);
    }
  }

  // ----- Deletion comes to its end -----

  // The answers of this reconcile settle the deletion: nothing is known, or a reached attempt
  // is answered as gone.
  predicate Conclusive(n: Node, io: IO)
    requires io.Valid()
  {
    NothingKnown(n) || exists k: nat :: k < MAX_RETRIES && SettledSomehow(n, io, k)
  }

  predicate SettledSomehow(n: Node, io: IO, k: nat)
    requires io.Valid()
  {
    Settled(n, io, k, CloudDeleted) || Settled(n, io, k, CloudNotFound) || Settled(n, io, k, NoHostMatch)
  }

  // A reconcile whose writes persist and, if it tries to delete the VPS, succeeds.
  predicate Concludes(w: World, step: Step) {
    && step.ReconcileStep? && step.io.Valid() && step.io.update.Written? && step.io.patch.Written?
    && (w.node.status.phase == Deleting ==> Conclusive(w.node, step.io))
  }

  function StepsLeft(n: Node): nat {
    if !n.hasFinalizer then 0
    else if Alive(n.status.phase) then 3
    else if n.status.phase == Terminating then 2
    else 1
  }

  lemma ConclusiveSettles(n: Node, io: IO)
    requires io.Valid() && Conclusive(n, io)
    ensures DeleteVPS(n, io).gone.Some?
  {
    hide DeleteVPS, Settled;
    WhyDeleted(n, io);
  }

  lemma DeletionStep(w: World, io: IO)
    requires Enabled(w, ReconcileStep(io)) && Concludes(w, ReconcileStep(io))
    requires w.node.deletionRequested && Guarded(w)
    ensures var left := StepsLeft(w.node);
            StepsLeft(Apply(w, ReconcileStep(io)).node) <= if left > 0 then left - 1 else 0
  {
    hide Handle, DeleteVPS, Conclusive, Told, Passed, CallsOf;
    if !Alive(w.node.status.phase) {
      DyingHandled(w.node, io);
      if w.node.status.phase == Deleting {
        ConclusiveSettles(w.node, io);
        DeletingHandled(w.node, io);
      }
    }
  }

  lemma DeletingHandled(n: Node, io: IO)
    requires io.Valid() && n.status.phase == Deleting
    ensures Handle(n, io) == DeleteVPS(n, io)
  {
  }

  predicate ConcludesSince(n: Node, start: int, steps: seq<Step>, k: nat)
    requires k <= |steps|
  {
    forall i | k <= i < |steps| :: IsRun(n, start, steps[..i]) && Concludes(After(n, start, steps[..i]), steps[i])
  }

  lemma {:induction false} DeletionAdvances(n: Node, start: int, steps: seq<Step>, k: nat)
    requires Fresh(n) && IsRun(n, start, steps) && k <= |steps| && IsRun(n, start, steps[..k])
    requires After(n, start, steps[..k]).node.deletionRequested && ConcludesSince(n, start, steps, k)
    ensures After(n, start, steps).node.deletionRequested
    ensures var done := |steps| - k; StepsLeft(After(n, start, steps).node) <= if done < 3 then 3 - done else 0
  {
    hide Reconcile, Conclusive, Once, Guarded, Lives;
    if k == |steps| {
      assert steps[..k] == steps;
    } else {
      var before, step := steps[..|steps| - 1], steps[|steps| - 1];
      assert forall i | 0 <= i <= |before| :: before[..i] == steps[..i];
      DeletionAdvances(n, start, before, k);
      RunKeeps(n, start, before);
      assert Concludes(After(n, start, steps[..|steps| - 1]), step);
      DyingStep(After(n, start, before), step.io);
      DeletionStep(After(n, start, before), step.io);
    }
  }

  // From any reachable state in which deletion is requested, three such reconciles are
  // enough: the finalizer is gone.
  lemma DeletionCompletes(n: Node, start: int, steps: seq<Step>, k: nat)
    requires Fresh(n) && IsRun(n, start, steps) && k + 3 <= |steps| && IsRun(n, start, steps[..k])
    requires After(n, start, steps[..k]).node.deletionRequested && ConcludesSince(n, start, steps, k)
    ensures !After(n, start, steps).node.hasFinalizer
  {
    DeletionAdvances(n, start, steps, k);
  }

  // ----- Runs that show where the guarantees end -----

  function Asked(find: FindReply): Attempt {
    Attempt(find, DeleteFailed, DeleteFailed, false)
  }

  function Calm(at: int, add: AddReply, update: Write, find: FindReply): IO {
    IO(at, at, add, GetFailed(false), DiscoverFailed, NotJoined, [Asked(find), Asked(find), Asked(find)],
       update, Written, DISCOVERY_TIMEOUT, false, false)
  }

  function Idle(at: int): Step {
    ReconcileStep(Calm(at, AddFailed(false), Written, FindFailed))
  }

  function Launch(): seq<Step> {
    [Idle(1), Idle(2), Idle(3)]
  }

  lemma Launched(n: Node)
    requires Fresh(n)
    ensures IsRun(n, 0, Launch())
    ensures var w := After(n, 0, Launch());
            && w.node == n.(hasFinalizer := true, status := n.status.(phase := Provisioning, createdAt := Some(3)))
            && w.creations == 0 && w.lost == 0 && w.guarded && w.deletes == [] && w.clock == 3
  {
    var s := Launch();
    assert [] + [s[0]] == [s[0]] && [s[0]] + [s[1]] == [s[0], s[1]] && [s[0], s[1]] + [s[2]] == s;
    RunExtends(n, 0, [], s[0]);
    RunExtends(n, 0, [s[0]], s[1]);
    RunExtends(n, 0, [s[0], s[1]], s[2]);
  }

  // When the update after a success is lost, the next reconcile asks for a second VPS.
  lemma LostUpdateCreatesTwice(n: Node, vps: VPS)
    requires Fresh(n) && n.spec.groupID != 0
    ensures var steps := Launch() + [ReconcileStep(Calm(4, Added(vps), WriteFailed(false), FindFailed))]
                                  + [ReconcileStep(Calm(5, Added(vps), Written, FindFailed))];
            IsRun(n, 0, steps) && After(n, 0, steps).creations == 2 && After(n, 0, steps).lost == 1
  {
    hide DeleteVPS, DeleteCalls, Discover, CheckVPSStatus, CheckJoinStatus;
    Launched(n);
    var first := ReconcileStep(Calm(4, Added(vps), WriteFailed(false), FindFailed));
    RunExtends(n, 0, Launch(), first);
    RunExtends(n, 0, Launch() + [first], ReconcileStep(Calm(5, Added(vps), Written, FindFailed)));
  }

  function LastStep(find: FindReply): Step {
    ReconcileStep(Calm(7, AddFailed(false), Written, find))
  }

  // Three undisturbed reconciles take a node to its end without a delete call, if nothing is
  // known of it or the lookup gives no identifier.
  lemma QuietEnd(w: World, find: FindReply)
    requires w.node.deletionRequested && w.node.hasFinalizer && Alive(w.node.status.phase) && w.clock == 4
    requires NothingKnown(w.node) || Unlisted(w.node, Asked(find))
    requires w.node.status.deletedAt == None && w.guarded
    ensures var t := Apply(Apply(Apply(w, Idle(5)), Idle(6)), LastStep(find));
            && !t.node.hasFinalizer && t.creations == w.creations && t.guarded
            && t.node.spec == w.node.spec && t.deletes == w.deletes
  {
    hide MetaChanged, DeleteVPS, DeleteCalls;
    var t := Apply(w, Idle(5));
    assert t.node == InPhase(w.node, Terminating, 5) && t.deletes == w.deletes;
    var u := Apply(t, Idle(6));
    assert u.node == InPhase(t.node, Deleting, 6) && u.node.hasFinalizer && u.deletes == w.deletes;
    var io := LastStep(find).io;
    SilentEnd(u.node, io);
    DyingHandled(u.node, io);
    DeletingHandled(u.node, io);
  }

  lemma SilentEnd(n: Node, io: IO)
    requires io.Valid() && (NothingKnown(n) || Unlisted(n, io.attempts[0]))
    ensures DeleteVPS(n, io).gone.Some? && DeleteCalls(n, io) == []
  {
    hide DeleteVPS, DeleteCalls, NothingKnown, Unlisted;
    DeletedWithoutCall(n, io);
    if Unlisted(n, io.attempts[0]) {
      NothingBefore(n, io);
      assert SilentAt(n, io, 1, 0);
    }
  }

  function CreateStep(vps: VPS): Step {
    ReconcileStep(Calm(4, Added(vps), Written, FindFailed))
  }

  // Launch, create, ask for deletion, reconcile three times.
  function Life(vps: VPS, find: FindReply): seq<Step> {
    Launch() + [CreateStep(vps)] + [RequestDeletion] + [Idle(5)] + [Idle(6)] + [LastStep(find)]
  }

  lemma CreatedThenDeleted(n: Node, vps: VPS, find: FindReply)
    requires Fresh(n) && n.spec.groupID != 0
    requires var created := Remember(n, vps, 4); NothingKnown(created) || Unlisted(created, Asked(find))
    ensures IsRun(n, 0, Life(vps, find))
    ensures var w := After(n, 0, Life(vps, find));
            && w.guarded && !w.node.hasFinalizer && w.creations == 1 && w.deletes == []
            && w.node.spec == Remember(n, vps, 4).spec
  {
    hide DeleteVPS, DeleteCalls;
    Launched(n);
    RunExtends(n, 0, Launch(), CreateStep(vps));
    var s1 := Launch() + [CreateStep(vps)];
    RunExtends(n, 0, s1, RequestDeletion);
    var s2 := s1 + [RequestDeletion];
    var marked := After(n, 0, s2);
    assert marked.node.spec == Remember(n, vps, 4).spec && marked.creations == 1 && marked.deletes == [];
    assert marked.node.status.hostname == Remember(n, vps, 4).status.hostname;
    QuietEnd(marked, find);
    Continues(n, s2, Idle(5), Idle(6), LastStep(find));
  }

  // The first route: a VPS accepted asynchronously and deleted before it is discovered
  // outlives its object; its cluster identifier is stored, but there is no hostname.
  lemma UndiscoveredVPSOutlivesNode(n: Node, identifier: string)
    requires Fresh(n) && n.spec.groupID != 0 && n.spec.resourceIdentifier != "" && identifier != ""
    ensures var steps := Life(VPS(0, "", "", identifier, false), FindFailed);
            && IsRun(n, 0, steps)
            && var w := After(n, 0, steps);
               && w.guarded && !w.node.hasFinalizer && w.creations == 1 && w.deletes == []
               && NamedByCluster(w.node)
  {
    hide IsRun, After;
    CreatedThenDeleted(n, VPS(0, "", "", identifier, false), FindFailed);
  }

  // The second route: a VPS known by its instance ID outlives its object when the cluster has
  // no identifier for its name, although it could be deleted by the instance ID.
  lemma UnlistedVPSOutlivesNode(n: Node, id: int)
    requires Fresh(n) && n.spec.groupID != 0 && n.spec.resourceIdentifier != "" && n.name != "" && id != 0
    ensures var steps := Life(VPS(id, "", "", "", false), Looked(""));
            && IsRun(n, 0, steps)
            && var w := After(n, 0, steps);
               && w.guarded && !w.node.hasFinalizer && w.creations == 1 && w.deletes == []
               && w.node.spec.instanceID == id
  {
    hide IsRun, After;
    CreatedThenDeleted(n, VPS(id, "", "", "", false), Looked(""));
  }

  lemma Continues(n: Node, steps: seq<Step>, a: Step, b: Step, c: Step)
    requires IsRun(n, 0, steps) && Enabled(After(n, 0, steps), a)
    requires Enabled(Apply(After(n, 0, steps), a), b)
    requires Enabled(Apply(Apply(After(n, 0, steps), a), b), c)
    ensures var all := steps + [a] + [b] + [c];
            IsRun(n, 0, all) && After(n, 0, all) == Apply(Apply(Apply(After(n, 0, steps), a), b), c)
  {
    hide Apply;
    RunExtends(n, 0, steps, a);
    RunExtends(n, 0, steps + [a], b);
    RunExtends(n, 0, steps + [a] + [b], c);
  }
}
