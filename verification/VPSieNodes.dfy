// One VPSieNode and the phase handlers that move it along
// (pkg/controller/vpsienode/phases.go, provisioner.go, joiner.go, terminator.go).
//
// The functions say what each handler does to the fetched object; class `VPSieNode` is
// that object and the methods below it perform the handlers in place. What the cloud and
// the cluster answer is an oracle, fixed by an `IO` for each reconcile.
module VPSieNodes {
  import opened Options

  datatype Phase =
    | Unset | Pending | Provisioning | Provisioned | Joining | Ready | Terminating | Deleting | Failed

  datatype Spec = Spec(
    instanceID: int,
    nodeIdentifier: string,
    resourceIdentifier: string,
    groupID: int,
    nodeName: string,
    ipAddress: string)

  datatype Status = Status(
    phase: Phase,
    createdAt: Option<int>,
    provisionedAt: Option<int>,
    joinedAt: Option<int>,
    readyAt: Option<int>,
    terminatingAt: Option<int>,
    deletedAt: Option<int>,
    hostname: string,
    nodeName: string)

  datatype Node = Node(
    name: string,
    spec: Spec,
    creationRequested: bool,  // the creation-requested annotation
    hasFinalizer: bool,
    deletionRequested: bool,
    status: Status)
  {
    // The object remembers that a VPS was asked for.
    predicate Recorded() {
      spec.instanceID != 0 || creationRequested
    }
  }

  const SECOND := 1_000_000_000
  const PROVISIONING_TIMEOUT := 600 * SECOND
  const JOINING_TIMEOUT := 900 * SECOND
  const DISCOVERY_TIMEOUT := 900 * SECOND
  const MAX_RETRIES: nat := 3

  // ----- Answers of the cloud and of the cluster -----

  datatype VPS = VPS(id: int, hostname: string, ipAddress: string, identifier: string, running: bool)

  datatype AddReply = AddFailed(terminal: bool) | Added(vps: VPS)
  datatype GetReply = VMNotFound | GetFailed(terminal: bool) | GotVM(vps: VPS)
  datatype DiscoverReply = DiscoverFailed | NothingFound | Discovered(vps: VPS)
  datatype JoinReply = LookupFailed | NotJoined | Joined(nodeName: string, configured: bool, ready: bool)
  // The lookup of a cluster node identifier gives "" when no node has the hostname, when the
  // matching node has no identifier, and when the cluster's endpoint is not found.
  datatype FindReply = FindFailed | Looked(identifier: string)
  datatype DeleteReply = Deleted | NotFound | DeleteFailed
  datatype Attempt = Attempt(find: FindReply, k8s: DeleteReply, vm: DeleteReply, cancelled: bool)

  datatype Write = Written | Conflict | WriteFailed(applied: bool) {
    predicate Applied() { Written? || (WriteFailed? && applied) }
  }

  // `now` is read when a handler starts, `later` when it sets timestamps.
  datatype IO = IO(
    now: int,
    later: int,
    add: AddReply,
    get: GetReply,
    discover: DiscoverReply,
    join: JoinReply,
    attempts: seq<Attempt>,
    update: Write,
    patch: Write,
    discoveryTimeout: int,  // the discoverer's configuration, DISCOVERY_TIMEOUT by default
    monitorFailed: bool,    // a Ready node could not be looked at
    cleanUpFailed: bool)    // the expired object of a Failed node could not be deleted
  {
    predicate Valid() { now <= later && |attempts| == MAX_RETRIES }
  }

  datatype Err = NoError | Transient | Terminal

  datatype Evidence = CloudDeleted | CloudNotFound | NoHostMatch | NothingToDelete

  // What a handler leaves behind: the object, its error, whether AddK8sSlaveToGroup
  // succeeded, and why the VPS counts as gone if DeletedAt was set.
  datatype Handled = Handled(node: Node, err: Err, created: bool, gone: Option<Evidence>)

  function Just(node: Node, err: Err): Handled {
    Handled(node, err, false, None)
  }

  // ----- Phases -----

  function OrElse(t: Option<int>, now: int): Option<int> {
    if t == None then Some(now) else t
  }

  function SetPhase(s: Status, phase: Phase, now: int): Status {
    var s := s.(phase := phase);
    match phase
    case Provisioning => s.(createdAt := OrElse(s.createdAt, now))
    case Provisioned => s.(provisionedAt := OrElse(s.provisionedAt, now))
    case Ready => s.(joinedAt := OrElse(s.joinedAt, now), readyAt := OrElse(s.readyAt, now))
    case Terminating => s.(terminatingAt := OrElse(s.terminatingAt, now))
    case _ => s
  }

  predicate Expired(since: Option<int>, now: int, timeout: int) {
    since.Some? && now - since.value > timeout
  }

  function InPhase(n: Node, phase: Phase, now: int): Node {
    n.(status := SetPhase(n.status, phase, now))
  }

  // ----- Provisioning -----

  function CheckVPSStatus(n: Node, io: IO): Handled {
    match io.get
    case VMNotFound => Just(InPhase(n, Failed, io.later), NoError)
    case GetFailed(terminal) => Just(n, if terminal then Terminal else Transient)
    case GotVM(vps) =>
      var n := n.(spec := n.spec.(ipAddress := vps.ipAddress), status := n.status.(hostname := vps.hostname));
      if vps.running then
        var n := InPhase(n, Provisioned, io.later);
        Just(n.(status := n.status.(provisionedAt := Some(io.later))), NoError)
      else
        Just(n, NoError)
  }

  function Adopt(n: Node, vps: VPS): Node {
    n.(spec := n.spec.(instanceID := vps.id, ipAddress := vps.ipAddress,
                       nodeName := if n.spec.nodeName == "" then vps.hostname else n.spec.nodeName),
       status := n.status.(hostname := vps.hostname))
  }

  function Discover(n: Node, io: IO): Handled {
    if Expired(n.status.createdAt, io.later, io.discoveryTimeout) then Just(n, Transient)
    else match io.discover
      case DiscoverFailed => Just(n, NoError)
      case NothingFound => Just(n, NoError)
      case Discovered(vps) =>
        var n := Adopt(n, vps);
        if vps.id == 0 && vps.ipAddress != "" then
          var nodeName := if n.status.nodeName == "" then vps.hostname else n.status.nodeName;
          var n := n.(status := n.status.(nodeName := nodeName));
          var n := InPhase(n, Provisioned, io.later);
          Just(n.(status := n.status.(createdAt := OrElse(n.status.createdAt, io.later),
                                      provisionedAt := Some(io.later))), NoError)
        else
          CheckVPSStatus(n, io)
  }

  function Remember(n: Node, vps: VPS, now: int): Node {
    var spec := n.spec.(nodeIdentifier := if vps.identifier != "" then vps.identifier else n.spec.nodeIdentifier);
    if vps.id == 0 then
      n.(spec := spec, creationRequested := true, status := n.status.(createdAt := Some(now)))
    else
      var nodeName := if spec.nodeName != "" then spec.nodeName
                      else if vps.hostname != "" then vps.hostname else n.name;
      n.(spec := spec.(instanceID := vps.id, ipAddress := vps.ipAddress, nodeName := nodeName),
         status := n.status.(hostname := vps.hostname, createdAt := Some(now)))
  }

  function CreateVPS(n: Node, io: IO): Handled {
    if n.creationRequested then Discover(n, io)
    else if n.spec.groupID == 0 then Just(n, Transient)
    else match io.add
      case AddFailed(terminal) => Just(n, if terminal then Terminal else Transient)
      case Added(vps) => Handled(Remember(n, vps, io.later), NoError, true, None)
  }

  function Provision(n: Node, io: IO): Handled {
    if n.spec.instanceID != 0 then CheckVPSStatus(n, io) else CreateVPS(n, io)
  }

  function HandleProvisioning(n: Node, io: IO): Handled {
    if Expired(n.status.createdAt, io.now, PROVISIONING_TIMEOUT) then
      Just(InPhase(n, Failed, io.later), NoError)
    else
      var h := Provision(n, io);
      if h.err == Terminal then h.(node := InPhase(h.node, Failed, io.later), err := NoError) else h
  }

  // ----- Joining -----

  function CheckJoinStatus(n: Node, io: IO): Handled {
    match io.join
    case LookupFailed => Just(n, Transient)
    case NotJoined => Just(n, NoError)
    case Joined(nodeName, configured, ready) =>
      var n := n.(status := n.status.(nodeName := nodeName),
                  spec := n.spec.(nodeName := if n.spec.nodeName == "" then nodeName else n.spec.nodeName));
      if !configured then Just(n, Transient)
      else if ready then Just(InPhase(n, Ready, io.later), NoError)
      else Just(n.(status := n.status.(joinedAt := OrElse(n.status.joinedAt, io.later))), NoError)
  }

  function HandleJoining(n: Node, io: IO): Handled {
    if Expired(n.status.provisionedAt, io.now, JOINING_TIMEOUT) then
      Just(InPhase(n, Failed, io.later), NoError)
    else
      CheckJoinStatus(n, io)
  }

  // ----- Deleting -----

  datatype Deletion = Gone(evidence: Evidence) | NotDeleted(notFound: bool)

  function Hostname(n: Node): string {
    if n.status.hostname != "" then n.status.hostname
    else if n.spec.nodeName != "" then n.spec.nodeName
    else n.status.nodeName
  }

  // Answer of one delete call: an error other than not-found is wrapped and returned.
  function Answer(reply: DeleteReply): Deletion {
    match reply
    case Deleted => Gone(CloudDeleted)
    case NotFound => Gone(CloudNotFound)
    case DeleteFailed => NotDeleted(false)
  }

  predicate LooksUp(n: Node) {
    n.spec.resourceIdentifier != "" && n.spec.nodeIdentifier == "" && Hostname(n) != ""
  }

  function Delete(n: Node, a: Attempt): Deletion {
    if LooksUp(n) && a.find == Looked("") then Gone(NoHostMatch)
    else
      var nodeIdentifier :=
        if LooksUp(n) && a.find.Looked? then a.find.identifier else n.spec.nodeIdentifier;
      if n.spec.resourceIdentifier != "" && nodeIdentifier != "" then Answer(a.k8s)
      else if n.spec.instanceID == 0 then NotDeleted(false)
      else Answer(a.vm)
  }

  datatype DeleteCall = DeleteK8sNode(cluster: string, identifier: string) | DeleteVM(id: int)

  // The delete call one attempt makes, if any; a lookup is not one.
  function CallsIn(n: Node, a: Attempt): seq<DeleteCall> {
    if LooksUp(n) && a.find == Looked("") then []
    else
      var nodeIdentifier :=
        if LooksUp(n) && a.find.Looked? then a.find.identifier else n.spec.nodeIdentifier;
      if n.spec.resourceIdentifier != "" && nodeIdentifier != "" then
        [DeleteK8sNode(n.spec.resourceIdentifier, nodeIdentifier)]
      else if n.spec.instanceID == 0 then []
      else [DeleteVM(n.spec.instanceID)]
  }

  predicate NothingKnown(n: Node) {
    !(n.spec.resourceIdentifier != "" && Hostname(n) != "") && n.spec.instanceID == 0
  }

  function MarkDeleted(n: Node, now: int): Node {
    n.(status := n.status.(deletedAt := Some(now)))
  }

  function Retry(n: Node, io: IO, attempt: nat): Handled
    requires io.Valid() && 1 <= attempt <= MAX_RETRIES
    decreases MAX_RETRIES - attempt
  {
    match Delete(n, io.attempts[attempt - 1])
    case Gone(evidence) => Handled(MarkDeleted(n, io.later), NoError, false, Some(evidence))
    case NotDeleted(true) => Handled(MarkDeleted(n, io.later), NoError, false, Some(CloudNotFound))
    case NotDeleted(false) =>
      if attempt == MAX_RETRIES then Just(InPhase(n, Failed, io.later), Transient)
      else if io.attempts[attempt - 1].cancelled then Just(n, Transient)
      else Retry(n, io, attempt + 1)
  }

  // How the attempts end, and what that leaves.
  datatype Tried = Succeeded(evidence: Evidence) | Cancelled | Exhausted

  function Concluded(n: Node, tried: Tried, now: int): Handled {
    match tried
    case Succeeded(evidence) => Handled(MarkDeleted(n, now), NoError, false, Some(evidence))
    case Cancelled => Just(n, Transient)
    case Exhausted => Just(InPhase(n, Failed, now), Transient)
  }

  // The delete calls made from this attempt on.
  function CallsFrom(n: Node, io: IO, attempt: nat): seq<DeleteCall>
    requires io.Valid() && 1 <= attempt <= MAX_RETRIES
    decreases MAX_RETRIES - attempt
  {
    var a := io.attempts[attempt - 1];
    if Delete(n, a) != NotDeleted(false) || attempt == MAX_RETRIES || a.cancelled then CallsIn(n, a)
    else CallsIn(n, a) + CallsFrom(n, io, attempt + 1)
  }

  function DeleteCalls(n: Node, io: IO): seq<DeleteCall>
    requires io.Valid()
  {
    if NothingKnown(n) then [] else CallsFrom(n, io, 1)
  }

  function DeleteVPS(n: Node, io: IO): Handled
    requires io.Valid()
  {
    if NothingKnown(n) then Handled(MarkDeleted(n, io.later), NoError, false, Some(NothingToDelete))
    else Retry(n, io, 1)
  }

  // ----- The state machine -----

  function Handle(n: Node, io: IO): Handled
    requires io.Valid()
  {
    match n.status.phase
    case Unset => Just(n, Transient)  // no handler is registered
    case Pending => Just(InPhase(n, Provisioning, io.later), NoError)
    case Provisioning => HandleProvisioning(n, io)
    case Provisioned => Just(InPhase(n, Joining, io.later), NoError)
    case Joining => HandleJoining(n, io)
    case Ready => Just(n, if io.monitorFailed then Transient else NoError)
    case Terminating => Just(InPhase(n, Deleting, io.later), NoError)
    case Deleting => DeleteVPS(n, io)
    case Failed => Just(n, if io.cleanUpFailed then Transient else NoError)
  }

  // ----- The fetched object, changed in place -----

  class VPSieNode {
    const name: string
    var spec: Spec
    var creationRequested: bool
    var hasFinalizer: bool
    const deletionRequested: bool
    var status: Status

    constructor (n: Node)
      ensures View() == n
    {
      name, spec, creationRequested := n.name, n.spec, n.creationRequested;
      hasFinalizer, deletionRequested, status := n.hasFinalizer, n.deletionRequested, n.status;
    }

    function View(): Node
      reads this
    {
      Node(name, spec, creationRequested, hasFinalizer, deletionRequested, status)
    }

    method SetPhaseTo(phase: Phase, now: int)
      modifies `status
      ensures View() == InPhase(old(View()), phase, now)
    {
      status := status.(phase := phase);
      match phase {
        case Provisioning =>
          if status.createdAt == None { status := status.(createdAt := Some(now)); }
        case Provisioned =>
          if status.provisionedAt == None { status := status.(provisionedAt := Some(now)); }
        case Ready =>
          if status.joinedAt == None { status := status.(joinedAt := Some(now)); }
          if status.readyAt == None { status := status.(readyAt := Some(now)); }
        case Terminating =>
          if status.terminatingAt == None { status := status.(terminatingAt := Some(now)); }
        case _ =>
      }
    }

    method CheckStatus(io: IO) returns (err: Err)
      modifies this
      ensures Just(View(), err) == CheckVPSStatus(old(View()), io)
    {
      match io.get {
        case VMNotFound =>
          SetPhaseTo(Failed, io.later);
          err := NoError;
        case GetFailed(terminal) =>
          err := if terminal then Terminal else Transient;
        case GotVM(vps) =>
          status := status.(hostname := vps.hostname);
          spec := spec.(ipAddress := vps.ipAddress);
          if vps.running {
            SetPhaseTo(Provisioned, io.later);
            status := status.(provisionedAt := Some(io.later));
          }
          err := NoError;
      }
    }

    method DiscoverVPS(io: IO) returns (err: Err)
      modifies this
      ensures Just(View(), err) == Discover(old(View()), io)
    {
      if status.createdAt.Some? && io.later - status.createdAt.value > io.discoveryTimeout {
        return Transient;
      }
      if !io.discover.Discovered? {
        return NoError;
      }
      var vps := io.discover.vps;
      spec := spec.(instanceID := vps.id, ipAddress := vps.ipAddress);
      if spec.nodeName == "" && vps.hostname != "" {
        spec := spec.(nodeName := vps.hostname);
      }
      status := status.(hostname := vps.hostname);
      if vps.id == 0 && vps.ipAddress != "" {
        if status.nodeName == "" && vps.hostname != "" {
          status := status.(nodeName := vps.hostname);
        }
        SetPhaseTo(Provisioned, io.later);
        if status.createdAt == None {
          status := status.(createdAt := Some(io.later));
        }
        status := status.(provisionedAt := Some(io.later));
        return NoError;
      }
      err := CheckStatus(io);
    }

    method ProvisionVPS(io: IO) returns (err: Err, created: bool)
      modifies this
      ensures Handled(View(), err, created, None) == Provision(old(View()), io)
    {
      if spec.instanceID != 0 {
        err := CheckStatus(io);
        return err, false;
      }
      if creationRequested {
        err := DiscoverVPS(io);
        return err, false;
      }
      if spec.groupID == 0 {
        return Transient, false;
      }
      if io.add.AddFailed? {
        return if io.add.terminal then Terminal else Transient, false;
      }
      var vps := io.add.vps;
      if vps.id == 0 {
        creationRequested := true;
        if vps.identifier != "" {
          spec := spec.(nodeIdentifier := vps.identifier);
        }
        status := status.(createdAt := Some(io.later));
        return NoError, true;
      }
      spec := spec.(instanceID := vps.id, ipAddress := vps.ipAddress);
      if vps.identifier != "" {
        spec := spec.(nodeIdentifier := vps.identifier);
      }
      if spec.nodeName == "" {
        spec := spec.(nodeName := if vps.hostname != "" then vps.hostname else name);
      }
      status := status.(hostname := vps.hostname, createdAt := Some(io.later));
      return NoError, true;
    }

    method CheckJoin(io: IO) returns (err: Err)
      modifies this
      ensures Just(View(), err) == CheckJoinStatus(old(View()), io)
    {
      if io.join.LookupFailed? {
        return Transient;
      } else if io.join.NotJoined? {
        return NoError;
      }
      status := status.(nodeName := io.join.nodeName);
      if spec.nodeName == "" {
        spec := spec.(nodeName := io.join.nodeName);
      }
      if !io.join.configured {
        return Transient;
      }
      if io.join.ready {
        SetPhaseTo(Ready, io.later);
      } else if status.joinedAt == None {
        status := status.(joinedAt := Some(io.later));
      }
      return NoError;
    }

    // One attempt: by the cluster if the node's identifier is stored or can be looked up,
    // else by instance ID. A lookup without a result counts as deleted.
    method DeleteOnce(a: Attempt) returns (deletion: Deletion, calls: seq<DeleteCall>)
      ensures deletion == Delete(View(), a) && calls == CallsIn(View(), a)
    {
      var nodeIdentifier := spec.nodeIdentifier;
      if spec.resourceIdentifier != "" && nodeIdentifier == "" {
        var hostname := status.hostname;
        if hostname == "" {
          hostname := spec.nodeName;
        }
        if hostname == "" {
          hostname := status.nodeName;
        }
        if hostname != "" && a.find.Looked? {
          if a.find.identifier == "" {
            return Gone(NoHostMatch), [];
          }
          nodeIdentifier := a.find.identifier;
        }
      }
      if spec.resourceIdentifier != "" && nodeIdentifier != "" {
        return Answer(a.k8s), [DeleteK8sNode(spec.resourceIdentifier, nodeIdentifier)];
      }
      if spec.instanceID == 0 {
        return NotDeleted(false), [];
      }
      return Answer(a.vm), [DeleteVM(spec.instanceID)];
    }

    // Up to three attempts.
    method TryDeleting(io: IO) returns (outcome: Tried, calls: seq<DeleteCall>)
      requires io.Valid() && !NothingKnown(View())
      ensures Concluded(View(), outcome, io.later) == DeleteVPS(View(), io)
      ensures calls == DeleteCalls(View(), io)
    {
      hide Delete, CallsIn, NothingKnown;
      ghost var n := View();
      calls := [];
      var attempt := 1;
      while attempt <= MAX_RETRIES
        invariant 1 <= attempt <= MAX_RETRIES + 1
        invariant attempt <= MAX_RETRIES ==> Retry(n, io, 1) == Retry(n, io, attempt)
        invariant attempt <= MAX_RETRIES ==> CallsFrom(n, io, 1) == calls + CallsFrom(n, io, attempt)
        invariant attempt > MAX_RETRIES ==> Retry(n, io, 1) == Concluded(n, Exhausted, io.later)
        invariant attempt > MAX_RETRIES ==> CallsFrom(n, io, 1) == calls
      {
        var deletion, made := DeleteOnce(io.attempts[attempt - 1]);
        calls := calls + made;
        if deletion.Gone? {
          return Succeeded(deletion.evidence), calls;
        }
        if deletion.notFound {
          return Succeeded(CloudNotFound), calls;
        }
        if attempt < MAX_RETRIES {
          if io.attempts[attempt - 1].cancelled {
            return Cancelled, calls;
          }
        }
        attempt := attempt + 1;
      }
      outcome := Exhausted;
    }

    method DeleteWithRetries(io: IO) returns (err: Err, gone: Option<Evidence>, calls: seq<DeleteCall>)
      requires io.Valid()
      modifies `status
      ensures Handled(View(), err, false, gone) == DeleteVPS(old(View()), io)
      ensures calls == DeleteCalls(old(View()), io)
    {
      hide Retry, CallsFrom;
      if NothingKnown(View()) {
        status := status.(deletedAt := Some(io.later));
        return NoError, Some(NothingToDelete), [];
      }
      var outcome;
      outcome, calls := TryDeleting(io);
      match outcome {
        case Succeeded(evidence) =>
          status := status.(deletedAt := Some(io.later));
          return NoError, Some(evidence), calls;
        case Cancelled =>
          return Transient, None, calls;
        case Exhausted =>
          SetPhaseTo(Failed, io.later);
          return Transient, None, calls;
      }
    }

    method HandlePhase(io: IO) returns (err: Err, created: bool, gone: Option<Evidence>, calls: seq<DeleteCall>)
      requires io.Valid()
      modifies this
      ensures Handled(View(), err, created, gone) == Handle(old(View()), io)
      ensures calls == if old(status.phase) == Deleting then DeleteCalls(old(View()), io) else []
      ensures created ==> old(status.phase) == Provisioning
      ensures old(status.phase) == Terminating || old(status.phase) == Deleting ==>
                unchanged(`spec, `creationRequested, `hasFinalizer)
    {
      err, created, gone, calls := NoError, false, None, [];
      match status.phase {
        case Unset => err := Transient;
        case Pending => SetPhaseTo(Provisioning, io.later);
        case Provisioning =>
          if status.createdAt.Some? && io.now - status.createdAt.value > PROVISIONING_TIMEOUT {
            SetPhaseTo(Failed, io.later);
          } else {
            err, created := ProvisionVPS(io);
            if err == Terminal {
              SetPhaseTo(Failed, io.later);
              err := NoError;
            }
          }
        case Provisioned => SetPhaseTo(Joining, io.later);
        case Joining =>
          if status.provisionedAt.Some? && io.now - status.provisionedAt.value > JOINING_TIMEOUT {
            SetPhaseTo(Failed, io.later);
          } else {
            err := CheckJoin(io);
          }
        case Ready => err := if io.monitorFailed then Transient else NoError;
        case Terminating => SetPhaseTo(Deleting, io.later);
        case Deleting => err, gone, calls := DeleteWithRetries(io);
        case Failed => err := if io.cleanUpFailed then Transient else NoError;
      }
    }
  }
}
