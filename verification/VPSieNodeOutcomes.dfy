// What a reconcile makes of the answers it gets, in terms of the answers and the stored
// object alone (pkg/controller/vpsienode/provisioner.go:39-429, joiner.go:48-134,
// phases.go:88-249, controller.go:188-243).
module VPSieNodeOutcomes {
  import opened Options
  import opened VPSieNodes
  import opened VPSieNodeController
  import opened VPSieNodeRuns

  const MINUTE := 60_000_000_000

  // ----- Joining -----

  // A joining node becomes Ready exactly if its Kubernetes node is there, configured and
  // ready, and Failed exactly if fifteen minutes have passed since it was provisioned.
  lemma JoiningOutcome(n: Node, io: IO)
    requires io.Valid() && n.status.phase == Joining
    ensures var phase := Handle(n, io).node.status.phase;
            var late := n.status.provisionedAt.Some? && io.now - n.status.provisionedAt.value > 15 * MINUTE;
            && (phase == Ready <==> !late && io.join.Joined? && io.join.configured && io.join.ready)
            && (phase == Failed <==> late)
            && (phase == Ready || phase == Failed || phase == Joining)
  {
  }

  // The name of a Kubernetes node that was found is recorded; JoinedAt is set, once, when it
  // is configured.
  lemma JoinRecorded(n: Node, io: IO)
    requires io.Valid() && n.status.phase == Joining && io.join.Joined?
    requires n.status.provisionedAt.Some? ==> io.now - n.status.provisionedAt.value <= 15 * MINUTE
    ensures var h := Handle(n, io); var s := h.node.status;
            && s.nodeName == io.join.nodeName
            && h.node.spec.nodeName == (if n.spec.nodeName != "" then n.spec.nodeName else io.join.nodeName)
            && (h.err == NoError <==> io.join.configured)
            && s.joinedAt == (if n.status.joinedAt.Some? || !io.join.configured then n.status.joinedAt
                              else Some(io.later))
            && s.readyAt == (if n.status.readyAt.Some? || !io.join.configured || !io.join.ready then n.status.readyAt
                             else Some(io.later))
  {
  }

  // ----- Provisioning -----

  predicate Late(n: Node, io: IO) {
    n.status.createdAt.Some? && io.now - n.status.createdAt.value > 10 * MINUTE
  }

  // The VPS that was asked for is found by this reconcile.
  predicate Finds(n: Node, io: IO) {
    && n.spec.instanceID == 0 && n.creationRequested && io.discover.Discovered?
    && (n.status.createdAt.Some? ==> io.later - n.status.createdAt.value <= io.discoveryTimeout)
  }

  predicate FindsManaged(n: Node, io: IO) {
    Finds(n, io) && io.discover.vps.id == 0 && io.discover.vps.ipAddress != ""
  }

  // The VPS's status is asked for.
  predicate Polls(n: Node, io: IO) {
    n.spec.instanceID != 0 || (Finds(n, io) && !FindsManaged(n, io))
  }

  predicate Asks(n: Node, io: IO) {
    n.spec.instanceID == 0 && !n.creationRequested && n.spec.groupID != 0
  }

  lemma PollOutcome(n: Node, io: IO)
    ensures var h := CheckVPSStatus(n, io);
            && !h.created
            && (io.get.GotVM? && io.get.vps.running ==>
                  h.node.status.phase == Provisioned && h.node.status.provisionedAt == Some(io.later))
            && (io.get == VMNotFound ==> h.node.status.phase == Failed)
            && (!(io.get.GotVM? && io.get.vps.running) && io.get != VMNotFound ==>
                  h.node.status.phase == n.status.phase)
            && (h.err == Terminal <==> io.get == GetFailed(true))
            && (io.get.GotVM? ==>
                  h.node.spec.ipAddress == io.get.vps.ipAddress && h.node.status.hostname == io.get.vps.hostname)
  {
  }

  lemma DiscoverOutcome(n: Node, io: IO)
    requires n.status.phase == Provisioning && n.spec.instanceID == 0 && n.creationRequested
    ensures !Discover(n, io).created
    ensures var h := Discover(n, io);
            if FindsManaged(n, io) then
              && h.err == NoError && h.node.status.phase == Provisioned
              && h.node.status.provisionedAt == Some(io.later)
            else if Finds(n, io) then h == CheckVPSStatus(Adopt(n, io.discover.vps), io)
            else h.node == n && h.err != Terminal
  {
    hide CheckVPSStatus;
    if io.discover.Discovered? {
      PollOutcome(Adopt(n, io.discover.vps), io);
    }
  }

  lemma AdoptKeepsPhase(n: Node, vps: VPS)
    ensures Adopt(n, vps).status.phase == n.status.phase
  {
  }

  // A node becomes Provisioned exactly if its VPS is seen running, by a poll or because the
  // cluster manages it, and Failed exactly if ten minutes have passed, the polled VPS is
  // gone, or the cloud answered with a terminal error.
  lemma ProvisioningOutcome(n: Node, io: IO)
    requires io.Valid() && n.status.phase == Provisioning
    ensures var phase := Handle(n, io).node.status.phase;
            && (phase == Provisioned <==>
                  !Late(n, io) && (FindsManaged(n, io) || (Polls(n, io) && io.get.GotVM? && io.get.vps.running)))
            && (phase == Failed <==>
                  || Late(n, io)
                  || (Polls(n, io) && (io.get == VMNotFound || io.get == GetFailed(true)))
                  || (Asks(n, io) && io.add == AddFailed(true)))
            && (phase == Provisioned || phase == Failed || phase == Provisioning)
  {
    hide CheckVPSStatus, Discover;
    PollOutcome(n, io);
    if n.spec.instanceID == 0 && n.creationRequested {
      DiscoverOutcome(n, io);
      if Finds(n, io) && !FindsManaged(n, io) {
        PollOutcome(Adopt(n, io.discover.vps), io);
        AdoptKeepsPhase(n, io.discover.vps);
      }
    }
  }

  // The handler reports a creation exactly if it asked for one and the request succeeded. What
  // the answer says of the new VPS is recorded: its ID, or that it was asked for if there is
  // none yet, its cluster identifier, address and names, and when.
  lemma CreationRecorded(n: Node, io: IO)
    requires io.Valid() && n.status.phase == Provisioning
    ensures var h := Handle(n, io);
            h.created <==> !Late(n, io) && Asks(n, io) && io.add.Added?
    ensures var h := Handle(n, io);
            h.created ==>
              var vps, spec := io.add.vps, h.node.spec;
              && spec.instanceID == vps.id && (h.node.creationRequested <==> vps.id == 0)
              && spec.nodeIdentifier == (if vps.identifier != "" then vps.identifier else n.spec.nodeIdentifier)
              && spec.resourceIdentifier == n.spec.resourceIdentifier && spec.groupID == n.spec.groupID
              && h.node.status.createdAt == Some(io.later)
              && (vps.id != 0 ==> spec.ipAddress == vps.ipAddress && h.node.status.hostname == vps.hostname)
              && (vps.id != 0 && n.spec.nodeName == "" ==>
                    spec.nodeName == if vps.hostname != "" then vps.hostname else n.name)
              && (vps.id == 0 || n.spec.nodeName != "" ==> spec.nodeName == n.spec.nodeName)
  {
    hide CheckVPSStatus, Discover;
    PollOutcome(n, io);
    if n.creationRequested && n.spec.instanceID == 0 {
      DiscoverOutcome(n, io);
    }
  }

  lemma PollKeepsNames(n: Node, io: IO)
    ensures var h := CheckVPSStatus(n, io);
            && h.node.spec == n.spec.(ipAddress := h.node.spec.ipAddress)
            && h.node.creationRequested == n.creationRequested && h.node.hasFinalizer == n.hasFinalizer
  {
  }

  // A VPS that is discovered is recorded under its ID and, unless there is one, its hostname
  // as node name.
  lemma DiscoveryRecorded(n: Node, io: IO)
    requires io.Valid() && n.status.phase == Provisioning && !Late(n, io) && Finds(n, io)
    ensures var vps, spec := io.discover.vps, Handle(n, io).node.spec;
            && spec.instanceID == vps.id
            && spec.nodeName == (if n.spec.nodeName != "" then n.spec.nodeName else vps.hostname)
            && (FindsManaged(n, io) ==>
                  spec.ipAddress == vps.ipAddress && Handle(n, io).node.status.hostname == vps.hostname)
  {
    hide CheckVPSStatus;
    PollKeepsNames(Adopt(n, io.discover.vps), io);
  }

  // ----- Timestamps -----

  function First(t: Option<int>, now: int): Option<int> {
    if t.Some? then t else Some(now)
  }

  // Which timestamps entering a phase sets; each only if it is not set yet.
  lemma PhaseStamps(s: Status, phase: Phase, now: int)
    ensures var t := SetPhase(s, phase, now);
            && t.phase == phase && t.hostname == s.hostname && t.nodeName == s.nodeName && t.deletedAt == s.deletedAt
            && t.createdAt == (if phase == Provisioning then First(s.createdAt, now) else s.createdAt)
            && t.provisionedAt == (if phase == Provisioned then First(s.provisionedAt, now) else s.provisionedAt)
            && t.joinedAt == (if phase == Ready then First(s.joinedAt, now) else s.joinedAt)
            && t.readyAt == (if phase == Ready then First(s.readyAt, now) else s.readyAt)
            && t.terminatingAt == (if phase == Terminating then First(s.terminatingAt, now) else s.terminatingAt)
  {
  }

  // ----- What is persisted -----

  // Whatever a handler changes of the specification or the annotation makes the reconcile
  // write the object.
  predicate WritesBack(n: Node, h: Handled) {
    MetaChanged(n, h.node) || (h.node.spec == n.spec && h.node.creationRequested == n.creationRequested)
  }

  lemma PollWritesBack(n: Node, io: IO)
    ensures WritesBack(n, CheckVPSStatus(n, io))
  {
    PollKeepsNames(n, io);
  }

  lemma DiscoverWritesBack(n: Node, io: IO)
    ensures WritesBack(n, Discover(n, io))
    ensures Discover(n, io).node.hasFinalizer == n.hasFinalizer
  {
    hide CheckVPSStatus;
    if io.discover.Discovered? {
      PollKeepsNames(Adopt(n, io.discover.vps), io);
    }
  }

  lemma ProvisioningWritesBack(n: Node, io: IO)
    ensures WritesBack(n, HandleProvisioning(n, io))
    ensures HandleProvisioning(n, io).node.hasFinalizer == n.hasFinalizer
  {
    hide CheckVPSStatus, Discover;
    PollWritesBack(n, io);
    PollKeepsNames(n, io);
    DiscoverWritesBack(n, io);
  }

  lemma JoiningWritesBack(n: Node, io: IO)
    ensures WritesBack(n, HandleJoining(n, io)) && HandleJoining(n, io).node.hasFinalizer == n.hasFinalizer
  {
  }

  lemma NamesKept(n: Node, io: IO)
    requires io.Valid()
    ensures var m := Handle(n, io).node;
            m.name == n.name && m.deletionRequested == n.deletionRequested && m.hasFinalizer == n.hasFinalizer
  {
    hide DeleteVPS, HandleProvisioning;
    if !Alive(n.status.phase) {
      DyingHandled(n, io);
    }
    ProvisioningKeepsName(n, io);
  }

  predicate SameObject(n: Node, m: Node) {
    m == n.(spec := m.spec, creationRequested := m.creationRequested, status := m.status)
  }

  lemma PollKeepsObject(n: Node, io: IO)
    ensures SameObject(n, CheckVPSStatus(n, io).node)
  {
  }

  lemma ProvisioningKeepsName(n: Node, io: IO)
    ensures SameObject(n, HandleProvisioning(n, io).node)
  {
    hide CheckVPSStatus;
    PollKeepsObject(n, io);
    if io.discover.Discovered? {
      PollKeepsObject(Adopt(n, io.discover.vps), io);
    }
  }

  // A live reconcile whose writes persist stores exactly what the handler left.
  lemma PersistedReconcile(n: Node, io: IO)
    requires io.Valid() && !n.deletionRequested && n.hasFinalizer && Alive(n.status.phase) && n.status.phase != Unset
    requires io.update.Written? && io.patch.Written?
    ensures Reconcile(n, io).stored == Handle(n, io).node
  {
    hide HandleProvisioning, HandleJoining, DeleteVPS, MetaChanged;
    NamesKept(n, io);
    ProvisioningWritesBack(n, io);
    JoiningWritesBack(n, io);
  }

  // A status is never written before the object it belongs to: if the object changed and its
  // update is not known to have persisted, the stored status stays.
  lemma ObjectFirst(n: Node, io: IO)
    requires io.Valid() && !n.deletionRequested && n.hasFinalizer && n.status.phase != Unset
    requires Handle(n, io).node.spec != n.spec && Alive(n.status.phase) && !io.update.Written?
    ensures Reconcile(n, io).stored.status == n.status
  {
    hide HandleProvisioning, HandleJoining, DeleteVPS, MetaChanged;
    ProvisioningWritesBack(n, io);
    JoiningWritesBack(n, io);
  }

  // ----- Where a newly stored phase comes from -----

  predicate ReadySeen(io: IO) {
    io.join.Joined? && io.join.configured && io.join.ready
  }

  predicate RunningSeen(io: IO) {
    || (io.get.GotVM? && io.get.vps.running)
    || (io.discover.Discovered? && io.discover.vps.id == 0 && io.discover.vps.ipAddress != "")
  }

  // Why a node may fail: a timeout, a VPS that is gone, a terminal error, or three attempts
  // at deleting its VPS in vain.
  predicate MayFail(n: Node, io: IO)
    requires io.Valid()
  {
    match n.status.phase
    case Provisioning =>
      || Late(n, io)
      || (Polls(n, io) && (io.get == VMNotFound || io.get == GetFailed(true)))
      || (Asks(n, io) && io.add == AddFailed(true))
    case Joining => n.status.provisionedAt.Some? && io.now - n.status.provisionedAt.value > 15 * MINUTE
    case Deleting => forall a :: a in io.attempts ==> Delete(n, a).NotDeleted?
    case _ => false
  }

  predicate Explained(n: Node, io: IO, next: Phase)
    requires io.Valid()
  {
    match next
    case Unset => false
    case Pending => n.status.phase == Unset
    case Provisioning => n.status.phase == Pending
    case Provisioned => n.status.phase == Provisioning && RunningSeen(io)
    case Joining => n.status.phase == Provisioned
    case Ready => n.status.phase == Joining && ReadySeen(io)
    case Failed => MayFail(n, io)
    case Terminating => n.deletionRequested
    case Deleting => n.status.phase == Terminating
  }

  lemma GoneSettles(n: Node, io: IO, k: nat)
    requires io.Valid() && k < MAX_RETRIES
    ensures Reached(n, io, k) && Delete(n, io.attempts[k]).Gone? ==>
              Settled(n, io, k, Delete(n, io.attempts[k]).evidence)
  {
    hide Delete, Says;
    OneAttempt(n, io.attempts[k]);
  }

  lemma FailsInVain(n: Node, io: IO)
    requires io.Valid() && DeleteVPS(n, io).node.status.phase != n.status.phase
    ensures forall a :: a in io.attempts ==> Delete(n, a).NotDeleted?
  {
    hide Retry, Delete, Settled;
    GoneSettles(n, io, MAX_RETRIES - 1);
    WhyDeleted(n, io);
    assert forall j :: 0 <= j < MAX_RETRIES ==> Delete(n, io.attempts[j]).NotDeleted?;
  }

  lemma HandlerExplained(n: Node, io: IO)
    requires io.Valid()
    ensures var next := Handle(n, io).node.status.phase; next == n.status.phase || Explained(n, io, next)
  {
    hide HandleProvisioning, HandleJoining, DeleteVPS, Finds, FindsManaged, Polls;
    if n.status.phase == Provisioning {
      ProvisioningOutcome(n, io);
      ProvisionedSeen(n, io);
    } else if n.status.phase == Joining {
      JoiningOutcome(n, io);
    } else if n.status.phase == Deleting {
      DyingHandled(n, io);
      DeletingHandled(n, io);
      if DeleteVPS(n, io).node.status.phase != Deleting {
        FailsInVain(n, io);
      }
    }
  }

  lemma ProvisionedSeen(n: Node, io: IO)
    ensures FindsManaged(n, io) || (Polls(n, io) && io.get.GotVM? && io.get.vps.running) ==> RunningSeen(io)
  {
  }

  // Whatever was stored before: a phase is stored anew only by a reconcile whose answers call
  // for it. In particular Ready only after the Kubernetes node was seen configured and ready.
  lemma StoredPhaseExplained(n: Node, io: IO)
    requires io.Valid()
    ensures var next := Reconcile(n, io).stored.status.phase; next == n.status.phase || Explained(n, io, next)
  {
    hide Handle, MetaChanged, MayFail;
    HandlerExplained(n, io);
  }

  predicate Sees(steps: seq<Step>, ready: bool) {
    exists i :: 0 <= i < |steps| && steps[i].ReconcileStep?
                && if ready then ReadySeen(steps[i].io) else RunningSeen(steps[i].io)
  }

  lemma SeesMore(steps: seq<Step>, step: Step, ready: bool)
    ensures Sees(steps, ready) ==> Sees(steps + [step], ready)
    ensures step.ReconcileStep? && (if ready then ReadySeen(step.io) else RunningSeen(step.io)) ==>
              Sees(steps + [step], ready)
  {
    if Sees(steps, ready) {
      var i :| 0 <= i < |steps| && steps[i].ReconcileStep?
               && if ready then ReadySeen(steps[i].io) else RunningSeen(steps[i].io);
      assert (steps + [step])[i] == steps[i];
    } else {
      assert (steps + [step])[|steps|] == step;
    }
  }

  predicate WasSeen(phase: Phase, steps: seq<Step>) {
    && (phase == Ready ==> Sees(steps, true))
    && (phase == Provisioned || phase == Joining || phase == Ready ==> Sees(steps, false))
  }

  lemma SeenStep(n: Node, io: IO, before: seq<Step>)
    requires io.Valid() && WasSeen(n.status.phase, before)
    ensures WasSeen(Reconcile(n, io).stored.status.phase, before + [ReconcileStep(io)])
  {
    hide Reconcile, Sees, ReadySeen, RunningSeen, MayFail;
    StoredPhaseExplained(n, io);
    SeesMore(before, ReconcileStep(io), true);
    SeesMore(before, ReconcileStep(io), false);
  }

  // In every run a node is stored as Ready only after some reconcile saw its Kubernetes node
  // configured and ready, and as Provisioned or later only after its VPS was seen running.
  lemma {:induction false} ReadyWasSeen(n: Node, start: int, steps: seq<Step>)
    requires Fresh(n) && IsRun(n, start, steps)
    ensures var phase := After(n, start, steps).node.status.phase;
            && (phase == Ready ==> Sees(steps, true))
            && (phase == Provisioned || phase == Joining || phase == Ready ==> Sees(steps, false))
  {
    hide Reconcile, Sees, CallsOf;
    if steps != [] {
      var before, step := steps[..|steps| - 1], steps[|steps| - 1];
      ReadyWasSeen(n, start, before);
      assert steps == before + [step];
      match step
      case ReconcileStep(io) => SeenStep(After(n, start, before).node, io, before);
      case RequestDeletion =>
        SeesMore(before, step, true);
        SeesMore(before, step, false);
    }
  }

  // ----- Timestamps that stay -----

  predicate Kept(was: Option<int>, now: Option<int>) {
    was.Some? ==> now == was
  }

  predicate StampsKept(s: Status, t: Status) {
    Kept(s.joinedAt, t.joinedAt) && Kept(s.readyAt, t.readyAt) && Kept(s.terminatingAt, t.terminatingAt)
  }

  predicate Stamped(s: Status) {
    && (s.phase == Ready ==> s.joinedAt.Some? && s.readyAt.Some?)
    && (s.phase == Terminating || s.phase == Deleting ==> s.terminatingAt.Some?)
  }

  lemma PollStamps(n: Node, io: IO)
    ensures var s, t := n.status, CheckVPSStatus(n, io).node.status;
            t.joinedAt == s.joinedAt && t.readyAt == s.readyAt && t.terminatingAt == s.terminatingAt
  {
  }

  lemma DiscoverStamps(n: Node, io: IO)
    ensures StampsKept(n.status, Discover(n, io).node.status)
  {
    hide CheckVPSStatus;
    if io.discover.Discovered? {
      PollStamps(Adopt(n, io.discover.vps), io);
    }
  }

  lemma ProvisioningStamps(n: Node, io: IO)
    ensures StampsKept(n.status, HandleProvisioning(n, io).node.status)
  {
    hide CheckVPSStatus, Discover;
    PollStamps(n, io);
    DiscoverStamps(n, io);
  }

  lemma DeletingStamps(n: Node, io: IO)
    requires io.Valid() && n.status.phase == Deleting
    ensures var s, t := n.status, DeleteVPS(n, io).node.status;
            t == s.(phase := t.phase, deletedAt := t.deletedAt) && (t.phase == Deleting || t.phase == Failed)
  {
    if !NothingKnown(n) {
      RetryEffect(n, io, 1);
    }
  }

  lemma CheckJoinStamps(n: Node, io: IO)
    requires n.status.phase == Joining
    ensures var t := CheckJoinStatus(n, io).node.status; StampsKept(n.status, t) && Stamped(t)
  {
  }

  lemma JoiningStamps(n: Node, io: IO)
    requires n.status.phase == Joining
    ensures var t := HandleJoining(n, io).node.status; StampsKept(n.status, t) && Stamped(t)
  {
    hide CheckJoinStatus;
    CheckJoinStamps(n, io);
  }

  lemma ProvisioningPhases(n: Node, io: IO)
    requires io.Valid() && n.status.phase == Provisioning
    ensures HandleProvisioning(n, io).node.status.phase in {Provisioning, Provisioned, Failed}
  {
    hide HandleProvisioning, Late, Finds, FindsManaged, Polls, Asks;
    ProvisioningOutcome(n, io);
  }

  lemma HandlerStamps(n: Node, io: IO)
    requires io.Valid() && Stamped(n.status)
    ensures var t := Handle(n, io).node.status; StampsKept(n.status, t) && Stamped(t)
  {
    hide HandleProvisioning, HandleJoining, DeleteVPS;
    if n.status.phase == Provisioning {
      ProvisioningStamps(n, io);
      ProvisioningPhases(n, io);
    } else if n.status.phase == Joining {
      JoiningStamps(n, io);
    } else if n.status.phase == Deleting {
      DeletingStamps(n, io);
    }
  }

  lemma StoredStamps(n: Node, io: IO)
    requires io.Valid() && Stamped(n.status)
    ensures var t := Reconcile(n, io).stored.status; StampsKept(n.status, t) && Stamped(t)
  {
    hide Handle, MetaChanged;
    HandlerStamps(n, io);
  }

  // In every run a stored JoinedAt, ReadyAt or TerminatingAt is never changed again, and a
  // node is stored as Ready, or as being deleted, only with them set.
  lemma {:induction false} TimestampsKept(n: Node, start: int, steps: seq<Step>, k: nat)
    requires Fresh(n) && IsRun(n, start, steps) && k <= |steps| && IsRun(n, start, steps[..k])
    ensures StampsKept(After(n, start, steps[..k]).node.status, After(n, start, steps).node.status)
    ensures Stamped(After(n, start, steps).node.status)
  {
    hide Reconcile, CallsOf;
    if k == |steps| {
      assert steps[..k] == steps;
    }
    if steps != [] {
      var before, step := steps[..|steps| - 1], steps[|steps| - 1];
      var j := if k < |steps| then k else |steps| - 1;
      assert before[..j] == steps[..j];
      TimestampsKept(n, start, before, j);
      if step.ReconcileStep? {
        StoredStamps(After(n, start, before).node, step.io);
      }
    }
  }

  // ----- Which VPS the object names -----

  predicate NamedIn(io: IO, id: int) {
    (io.add.Added? && io.add.vps.id == id) || (io.discover.Discovered? && io.discover.vps.id == id)
  }

  predicate NamedWell(n: Node, io: IO, m: Node) {
    && (m.spec.instanceID == n.spec.instanceID || NamedIn(io, m.spec.instanceID))
    && m.spec.resourceIdentifier == n.spec.resourceIdentifier
  }

  lemma DiscoveryNames(n: Node, io: IO)
    ensures NamedWell(n, io, Discover(n, io).node)
  {
    hide CheckVPSStatus;
    if io.discover.Discovered? {
      PollKeepsNames(Adopt(n, io.discover.vps), io);
    }
  }

  lemma ProvisioningNames(n: Node, io: IO)
    ensures NamedWell(n, io, HandleProvisioning(n, io).node)
  {
    hide CheckVPSStatus, Discover;
    PollKeepsNames(n, io);
    DiscoveryNames(n, io);
  }

  lemma HandlerNames(n: Node, io: IO)
    requires io.Valid()
    ensures NamedWell(n, io, Handle(n, io).node)
  {
    hide HandleProvisioning, DeleteVPS;
    ProvisioningNames(n, io);
    if !Alive(n.status.phase) {
      DyingHandled(n, io);
    }
  }

  lemma StoredNames(n: Node, io: IO)
    requires io.Valid()
    ensures NamedWell(n, io, Reconcile(n, io).stored)
  {
    hide Handle, MetaChanged, NamedIn;
    HandlerNames(n, io);
  }

  predicate NamedBy(steps: seq<Step>, id: int) {
    exists i :: 0 <= i < |steps| && steps[i].ReconcileStep? && NamedIn(steps[i].io, id)
  }

  // An instance ID is never made up: the cloud named it, creating or discovering the VPS.
  lemma {:induction false} InstanceWasNamed(n: Node, start: int, steps: seq<Step>)
    requires Fresh(n) && IsRun(n, start, steps)
    ensures var id := After(n, start, steps).node.spec.instanceID; id != 0 ==> NamedBy(steps, id)
    ensures After(n, start, steps).node.spec.resourceIdentifier == n.spec.resourceIdentifier
  {
    hide Reconcile, NamedIn, CallsOf;
    if steps != [] {
      var before, step := steps[..|steps| - 1], steps[|steps| - 1];
      InstanceWasNamed(n, start, before);
      var was, id := After(n, start, before).node.spec.instanceID, After(n, start, steps).node.spec.instanceID;
      if step.ReconcileStep? {
        StoredNames(After(n, start, before).node, step.io);
      }
      if id == was != 0 {
        var i :| 0 <= i < |before| && before[i].ReconcileStep? && NamedIn(before[i].io, id);
        assert steps[i] == before[i];
      }
    }
  }

  // ----- Delete calls -----

  // The hostname a deletion looks for is the first that is known.
  lemma HostnameIsFirstKnown(n: Node)
    ensures Hostname(n) == "" <==> n.status.hostname == "" && n.spec.nodeName == "" && n.status.nodeName == ""
    ensures Hostname(n) in [n.status.hostname, n.spec.nodeName, n.status.nodeName]
    ensures n.status.hostname != "" ==> Hostname(n) == n.status.hostname
    ensures n.status.hostname == "" && n.spec.nodeName != "" ==> Hostname(n) == n.spec.nodeName
  {
  }

  // What a delete call names: the stored cluster identifier or else the one looked up, in the
  // node's own cluster; without either, and without a lookup that came back empty, the
  // instance ID.
  lemma CallNames(n: Node, a: Attempt)
    ensures var s, calls := n.spec, CallsIn(n, a);
            var lookedUp := if Hostname(n) != "" && a.find.Looked? then a.find.identifier else "";
            var empty := s.resourceIdentifier != "" && s.nodeIdentifier == "" && Hostname(n) != ""
                         && a.find == Looked("");
            if s.resourceIdentifier != "" && s.nodeIdentifier != "" then
              calls == [DeleteK8sNode(s.resourceIdentifier, s.nodeIdentifier)]
            else if s.resourceIdentifier != "" && lookedUp != "" then
              calls == [DeleteK8sNode(s.resourceIdentifier, lookedUp)]
            else if s.instanceID != 0 && !empty then calls == [DeleteVM(s.instanceID)]
            else calls == []
  {
  }

  // An attempt counts as deleted by the cloud exactly if it made a call and the cloud
  // answered that call so.
  lemma DeletedByCall(n: Node, a: Attempt)
    ensures Delete(n, a) == Gone(CloudDeleted) <==>
              |CallsIn(n, a)| == 1 && (if CallsIn(n, a)[0].DeleteVM? then a.vm == Deleted else a.k8s == Deleted)
    ensures Delete(n, a) == Gone(CloudNotFound) <==>
              |CallsIn(n, a)| == 1 && (if CallsIn(n, a)[0].DeleteVM? then a.vm == NotFound else a.k8s == NotFound)
  {
  }

  predicate OwnCall(n: Node, c: DeleteCall) {
    match c
    case DeleteVM(id) => id == n.spec.instanceID && id != 0
    case DeleteK8sNode(cluster, identifier) =>
      && cluster == n.spec.resourceIdentifier && identifier != ""
      && (n.spec.nodeIdentifier != "" ==> identifier == n.spec.nodeIdentifier)
  }

  lemma {:induction false} CallsFromOwn(n: Node, io: IO, attempt: nat)
    requires io.Valid() && 1 <= attempt <= MAX_RETRIES
    ensures forall c :: c in CallsFrom(n, io, attempt) ==> OwnCall(n, c)
    decreases MAX_RETRIES - attempt
  {
    hide CallsIn, Delete;
    CallNames(n, io.attempts[attempt - 1]);
    if attempt < MAX_RETRIES {
      CallsFromOwn(n, io, attempt + 1);
    }
  }

  predicate OwnCalls(w: World) {
    && (forall c :: c in w.deletes ==> OwnCall(w.node, c))
    && (w.deletes != [] ==> w.node.deletionRequested)
  }

  lemma DyingKeepsSpec(w: World, io: IO)
    requires Enabled(w, ReconcileStep(io)) && w.node.deletionRequested
    ensures Apply(w, ReconcileStep(io)).node.spec == w.node.spec
    ensures Apply(w, ReconcileStep(io)).node.deletionRequested
  {
    hide Handle, CallsOf;
  }

  lemma CallsOfOwn(n: Node, io: IO)
    requires io.Valid()
    ensures forall c :: c in CallsOf(n, io) ==> OwnCall(n, c)
    ensures Alive(n.status.phase) ==> CallsOf(n, io) == []
  {
    hide CallsFrom, OwnCall;
    CallsFromOwn(n, io, 1);
  }

  // In every run each delete call is made after deletion was requested and names the object's
  // own instance ID, or a node of its own cluster under its own identifier if that is known.
  lemma {:induction false} DeletesOwnVPS(n: Node, start: int, steps: seq<Step>)
    requires Fresh(n) && IsRun(n, start, steps)
    ensures OwnCalls(After(n, start, steps))
  {
    hide Reconcile, CallsOf, OwnCall, Once, Guarded, Lives;
    if steps != [] {
      var before, step := steps[..|steps| - 1], steps[|steps| - 1];
      DeletesOwnVPS(n, start, before);
      DeletesOwnStep(n, start, before, step);
    }
  }

  lemma DeletesOwnStep(n: Node, start: int, before: seq<Step>, step: Step)
    requires Fresh(n) && IsRun(n, start, before) && Enabled(After(n, start, before), step)
    requires OwnCalls(After(n, start, before))
    ensures OwnCalls(Apply(After(n, start, before), step))
  {
    hide Reconcile, CallsOf, Once, Guarded;
    var w := After(n, start, before);
    RunKeeps(n, start, before);
    match step
    case RequestDeletion =>
    case ReconcileStep(io) =>
      CallsOfOwn(w.node, io);
      if w.node.deletionRequested {
        DyingKeepsSpec(w, io);
      }
  }

  // ----- Which call deleted the VPS -----

  // At most three attempts are made, each after another only if that one failed and was not
  // cut short, and they make their calls in that order.
  lemma CallsInTurn(n: Node, io: IO)
    requires io.Valid()
    ensures var first, second, third := io.attempts[0], io.attempts[1], io.attempts[2];
            var again := Delete(n, first).NotDeleted? && !first.cancelled;
            var onceMore := again && Delete(n, second).NotDeleted? && !second.cancelled;
            DeleteCalls(n, io) == if NothingKnown(n) then []
                                  else CallsIn(n, first) + (if again then CallsIn(n, second) else [])
                                       + (if onceMore then CallsIn(n, third) else [])
  {
    hide Delete, CallsIn;
    OneAttempt(n, io.attempts[0]);
    OneAttempt(n, io.attempts[1]);
    OneAttempt(n, io.attempts[2]);
    var rest := CallsFrom(n, io, 2);
    assert CallsFrom(n, io, 3) == CallsIn(n, io.attempts[2]);
    assert CallsFrom(n, io, 1) == CallsIn(n, io.attempts[0])
        || CallsFrom(n, io, 1) == CallsIn(n, io.attempts[0]) + rest;
  }

  // Attempt k made this one call, which the cloud answered with a deletion.
  predicate ByCall(n: Node, io: IO, k: nat, c: DeleteCall)
    requires io.Valid()
  {
    && k < MAX_RETRIES && CallsIn(n, io.attempts[k]) == [c]
    && (if c.DeleteVM? then io.attempts[k].vm == Deleted else io.attempts[k].k8s == Deleted)
  }

  ghost predicate DeletedBy(n: Node, io: IO, calls: seq<DeleteCall>) {
    io.Valid() && exists k, c :: ByCall(n, io, k, c) && OwnCall(n, c) && c in calls
  }

  lemma {:induction false} ReachedCalls(n: Node, io: IO, attempt: nat, k: nat)
    requires io.Valid() && 1 <= attempt <= k + 1 <= MAX_RETRIES && Reached(n, io, k)
    ensures forall c :: c in CallsIn(n, io.attempts[k]) ==> c in CallsFrom(n, io, attempt)
    decreases MAX_RETRIES - attempt
  {
    hide Delete, CallsIn;
    var a := io.attempts[attempt - 1];
    OneAttempt(n, a);
    if attempt < k + 1 {
      assert Delete(n, a).NotDeleted? && !a.cancelled;
      ReachedCalls(n, io, attempt + 1, k);
    }
  }

  lemma SettledByCall(n: Node, io: IO, k: nat)
    requires io.Valid() && Settled(n, io, k, CloudDeleted) && !NothingKnown(n)
    ensures DeletedBy(n, io, DeleteCalls(n, io))
  {
    hide Delete, CallsIn, CallsFrom, OwnCall, Says, Reached, NothingKnown;
    var a := io.attempts[k];
    OneAttempt(n, a);
    DeletedByCall(n, a);
    var c := CallsIn(n, a)[0];
    assert CallsIn(n, a) == [c];
    ReachedCalls(n, io, 1, k);
    assert c in CallsIn(n, a);
    CallsFromOwn(n, io, 1);
    assert ByCall(n, io, k, c) && OwnCall(n, c);
  }

  lemma DeletionByCall(n: Node, io: IO)
    requires io.Valid() && DeleteVPS(n, io).gone == Some(CloudDeleted)
    ensures DeletedBy(n, io, DeleteCalls(n, io))
  {
    hide DeleteVPS, DeleteCalls, Settled, NothingKnown, DeletedBy;
    WhyDeleted(n, io);
    var k: nat :| Settled(n, io, k, CloudDeleted);
    SettledByCall(n, io, k);
  }

  lemma GoneInReconcile(n: Node, io: IO)
    requires io.Valid() && Reconcile(n, io).gone.Some?
    ensures Reconcile(n, io).gone == DeleteVPS(n, io).gone && CallsOf(n, io) == DeleteCalls(n, io)
  {
    hide DeleteVPS, DeleteCalls, MetaChanged, HandleProvisioning, HandleJoining;
    if Alive(n.status.phase) {
      AliveKeeps(n, io);
    } else {
      DyingHandled(n, io);
    }
  }

  lemma AliveKeeps(n: Node, io: IO)
    requires io.Valid() && Alive(n.status.phase)
    ensures Handle(n, io).gone == None
  {
    hide DeleteVPS, CheckVPSStatus;
    assert CheckVPSStatus(n, io).gone == None by { PollGone(n, io); }
    if io.discover.Discovered? {
      PollGone(Adopt(n, io.discover.vps), io);
    }
  }

  lemma PollGone(n: Node, io: IO)
    ensures CheckVPSStatus(n, io).gone == None
  {
  }

  // In every run a VPS counts as deleted by the cloud only if the reconcile made a delete
  // call for the object's own VPS and the cloud answered that very call with a deletion.
  lemma {:induction false} CloudDeletedByOwnCall(n: Node, start: int, steps: seq<Step>)
    requires Fresh(n) && IsRun(n, start, steps)
    ensures var w := After(n, start, steps);
            forall d | d in w.gone && d.evidence == CloudDeleted :: DeletedBy(d.node, d.io, w.deletes)
  {
    hide Reconcile, CallsOf, DeletedBy;
    if steps != [] {
      var before, step := steps[..|steps| - 1], steps[|steps| - 1];
      CloudDeletedByOwnCall(n, start, before);
      var v, w := After(n, start, before), After(n, start, steps);
      forall d | d in w.gone && d.evidence == CloudDeleted ensures DeletedBy(d.node, d.io, w.deletes) {
        if d in v.gone {
          DeletedByMore(d.node, d.io, v.deletes, w.deletes);
        } else {
          GoneInReconcile(v.node, step.io);
          DeletionByCall(v.node, step.io);
          DeletedByMore(d.node, d.io, CallsOf(v.node, step.io), w.deletes);
        }
      }
    }
  }

  lemma DeletedByMore(n: Node, io: IO, calls: seq<DeleteCall>, more: seq<DeleteCall>)
    requires DeletedBy(n, io, calls) && forall c | c in calls :: c in more
    ensures DeletedBy(n, io, more)
  {
    var k, c :| ByCall(n, io, k, c) && OwnCall(n, c) && c in calls;
    assert c in more;
  }
}
