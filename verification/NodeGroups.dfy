// One NodeGroup and the reconcile that drives its VPSieNodes towards the desired count
// (pkg/controller/nodegroup/status.go, reconciler.go).
//
// The functions say what a reconcile decides from the NodeGroup and the listed nodes;
// class `NodeGroup` is the fetched object and class `Cluster` the API server's list of
// VPSieNodes that carry no deletion timestamp. Deleting a VPSieNode takes it off that list.
module NodeGroups {
  import opened Options
  import V = VPSieNodes

  datatype Member = Member(
    id: nat,
    phase: V.Phase,
    capacityLimit: bool,  // a condition with reason CapacityLimitReached
    nodeName: string,     // Status.NodeName
    specName: string,     // Spec.NodeName
    hostname: string)     // Status.Hostname

  datatype Spec = Spec(minNodes: int, maxNodes: int, scaleDown: bool, cooldown: int, stabilization: int) {
    predicate Valid() { 0 <= minNodes <= maxNodes && 1 <= maxNodes }
  }

  datatype Status = Status(
    current: int,
    ready: int,
    desired: int,
    lastScale: Option<int>,
    lastScaleUp: Option<int>,
    lastScaleDown: Option<int>)

  // The ScaleDownManager: its limit, what it identifies when a scale-down is evaluated and
  // again when it is carried out (None for an error), and whether draining succeeds.
  datatype Manager = Manager(limit: nat, evaluated: Option<seq<string>>, candidates: Option<seq<string>>, drained: bool)

  // `failing` are the nodes whose Delete call fails, `newNode` the object Create makes.
  datatype IO = IO(now: int, manager: Option<Manager>, failing: set<nat>, newNode: Option<nat>)

  datatype Act = Act(deleted: seq<nat>, created: Option<nat>)

  const NOTHING := Act([], None)

  // ----- Counting -----

  predicate InTransition(m: Member) {
    m.phase == V.Pending || m.phase == V.Provisioning || m.phase == V.Provisioned || m.phase == V.Joining
  }

  predicate AtCapacity(m: Member) {
    m.phase == V.Failed && m.capacityLimit
  }

  function CountReady(nodes: seq<Member>): nat {
    if nodes == [] then 0
    else CountReady(nodes[..|nodes| - 1]) + if nodes[|nodes| - 1].phase == V.Ready then 1 else 0
  }

  function CountInTransition(nodes: seq<Member>): nat {
    if nodes == [] then 0
    else CountInTransition(nodes[..|nodes| - 1]) + if InTransition(nodes[|nodes| - 1]) then 1 else 0
  }

  function CountAtCapacity(nodes: seq<Member>): nat {
    if nodes == [] then 0
    else CountAtCapacity(nodes[..|nodes| - 1]) + if AtCapacity(nodes[|nodes| - 1]) then 1 else 0
  }

  lemma {:induction false} ReadyCounted(nodes: seq<Member>)
    ensures CountReady(nodes) == |set i | 0 <= i < |nodes| && nodes[i].phase == V.Ready|
  {
    if nodes != [] {
      var before, last := nodes[..|nodes| - 1], |nodes| - 1;
      ReadyCounted(before);
      var earlier := set i | 0 <= i < last && before[i].phase == V.Ready;
      var all := set i | 0 <= i < |nodes| && nodes[i].phase == V.Ready;
      if nodes[last].phase == V.Ready {
        assert all == earlier + {last};
      } else {
        assert all == earlier;
      }
    }
  }

  // ----- Status arithmetic -----

  function Observe(spec: Spec, s: Status, nodes: seq<Member>): Status {
    s.(current := |nodes|, ready := CountReady(nodes),
       desired := if s.desired == 0 then spec.minNodes else s.desired)
  }

  function SetDesired(s: Status, desired: int, now: int): Status {
    if s.desired == desired then s
    else s.(desired := desired, lastScale := Some(now),
            lastScaleUp := if desired > s.current then Some(now) else s.lastScaleUp,
            lastScaleDown := if desired < s.current then Some(now) else s.lastScaleDown)
  }

  function CalculateDesired(spec: Spec, s: Status): int {
    var desired := if s.desired == 0 then spec.minNodes else s.desired;
    var desired := if desired < spec.minNodes then spec.minNodes else desired;
    if desired > spec.maxNodes then spec.maxNodes else desired
  }

  predicate NeedsScaleUp(spec: Spec, s: Status) {
    s.current < s.desired && s.current < spec.maxNodes
  }

  predicate NeedsScaleDown(spec: Spec, s: Status) {
    s.current > s.desired && s.current > spec.minNodes
  }

  function NodesToAdd(spec: Spec, s: Status): int {
    var needed, canAdd := s.desired - s.current, spec.maxNodes - s.current;
    if needed > canAdd then canAdd else needed
  }

  function NodesToRemove(spec: Spec, s: Status): int {
    var excess, canRemove := s.current - s.desired, s.current - spec.minNodes;
    if excess > canRemove then canRemove else excess
  }

  // ----- Scaling up -----

  // Nodes that failed for lack of capacity and whose Delete call succeeds.
  function CleanedUp(nodes: seq<Member>, failing: set<nat>): seq<nat> {
    if nodes == [] then []
    else
      var m := nodes[|nodes| - 1];
      var cleaned := CleanedUp(nodes[..|nodes| - 1], failing);
      if AtCapacity(m) && m.id !in failing then cleaned + [m.id] else cleaned
  }

  function ScaleUp(spec: Spec, s: Status, nodes: seq<Member>, io: IO): Act {
    if NodesToAdd(spec, s) <= 0 then NOTHING
    else if CountAtCapacity(nodes) > 0 then Act(CleanedUp(nodes, io.failing), None)
    else if CountInTransition(nodes) > 0 then NOTHING
    else Act([], io.newNode)
  }

  // ----- Scaling down -----

  // The ready nodes, or the others, in list order.
  function Split(nodes: seq<Member>, ready: bool): seq<Member> {
    if nodes == [] then []
    else
      var m := nodes[|nodes| - 1];
      var split := Split(nodes[..|nodes| - 1], ready);
      if (m.phase == V.Ready) == ready then split + [m] else split
  }

  function AtMost<T>(s: seq<T>, n: int): seq<T> {
    if n <= 0 then [] else if n >= |s| then s else s[..n]
  }

  function Select(nodes: seq<Member>, count: int): seq<Member> {
    if count >= |nodes| then nodes
    else
      var notReady := AtMost(Split(nodes, false), count);
      notReady + AtMost(Split(nodes, true), count - |notReady|)
  }

  // The simple path stops at the first Delete that fails.
  function UntilFailure(nodes: seq<Member>, failing: set<nat>): seq<nat> {
    if nodes == [] || nodes[0].id in failing then []
    else [nodes[0].id] + UntilFailure(nodes[1..], failing)
  }

  function SimpleScaleDown(spec: Spec, s: Status, nodes: seq<Member>, io: IO): Act {
    var count := NodesToRemove(spec, s);
    if count <= 0 then NOTHING else Act(UntilFailure(Select(nodes, count), io.failing), None)
  }

  datatype Key = NodeName | SpecName | Hostname

  function NameBy(m: Member, key: Key): string {
    match key
    case NodeName => m.nodeName
    case SpecName => m.specName
    case Hostname => m.hostname
  }

  // The node a lookup map ends up with: the last one listed under that name.
  function LastBy(nodes: seq<Member>, key: Key, name: string): Option<Member> {
    if nodes == [] then None
    else
      var m := nodes[|nodes| - 1];
      if name != "" && NameBy(m, key) == name then Some(m) else LastBy(nodes[..|nodes| - 1], key, name)
  }

  function Lookup(nodes: seq<Member>, name: string): Option<Member> {
    if LastBy(nodes, NodeName, name).Some? then LastBy(nodes, NodeName, name)
    else if LastBy(nodes, SpecName, name).Some? then LastBy(nodes, SpecName, name)
    else LastBy(nodes, Hostname, name)
  }

  function Drained(nodes: seq<Member>, names: seq<string>, failing: set<nat>): seq<nat> {
    if names == [] then []
    else
      var m := Lookup(nodes, names[|names| - 1]);
      var drained := Drained(nodes, names[..|names| - 1], failing);
      if m.Some? && m.value.id !in failing then drained + [m.value.id] else drained
  }

  function IntelligentScaleDown(manager: Manager, nodes: seq<Member>, failing: set<nat>): Act {
    if manager.candidates == None || manager.candidates.value == [] || !manager.drained then NOTHING
    else Act(Drained(nodes, AtMost(manager.candidates.value, manager.limit), failing), None)
  }

  function ScaleDown(spec: Spec, s: Status, nodes: seq<Member>, io: IO): Act {
    if io.manager.Some? then IntelligentScaleDown(io.manager.value, nodes, io.failing)
    else SimpleScaleDown(spec, s, nodes, io)
  }

  predicate Within(since: Option<int>, now: int, window: int) {
    since.Some? && now - since.value < window
  }

  // How many nodes utilization alone would remove, if any scale-down is due.
  function Evaluate(spec: Spec, s: Status, io: IO): Option<int> {
    if io.manager == None then None
    else if Within(s.lastScaleDown, io.now, spec.cooldown) || Within(s.lastScale, io.now, spec.stabilization) then None
    else
      var manager := io.manager.value;
      if manager.evaluated == None || manager.evaluated.value == [] then None
      else
        var maxRemovable := s.current - spec.minNodes;
        if maxRemovable <= 0 then None
        else
          var candidates := |manager.evaluated.value|;
          var remove := if candidates > maxRemovable then maxRemovable else candidates;
          Some(if remove > manager.limit then manager.limit else remove)
  }

  // ----- One reconcile -----

  // The status a reconcile will persist and what it does to the VPSieNodes.
  function Decide(spec: Spec, s: Status, nodes: seq<Member>, io: IO): (Status, Act) {
    var s := Observe(spec, s, nodes);
    var s := SetDesired(s, CalculateDesired(spec, s), io.now);
    if NeedsScaleUp(spec, s) then (s, ScaleUp(spec, s, nodes, io))
    else if NeedsScaleDown(spec, s) then (s, ScaleDown(spec, s, nodes, io))
    else if io.manager.Some? && spec.scaleDown && s.current > spec.minNodes && Evaluate(spec, s, io).Some? then
      var desired := s.current - Evaluate(spec, s, io).value;
      var s := SetDesired(s, if desired < spec.minNodes then spec.minNodes else desired, io.now);
      (s, ScaleDown(spec, s, nodes, io))
    else (s, NOTHING)
  }

  function Without(active: seq<Member>, ids: seq<nat>): seq<Member> {
    if active == [] then []
    else
      var m := active[|active| - 1];
      var rest := Without(active[..|active| - 1], ids);
      if m.id in ids then rest else rest + [m]
  }

  function Fresh(id: nat): Member {
    Member(id, V.Unset, false, "", "", "")
  }

  function Apply(active: seq<Member>, act: Act): seq<Member> {
    var rest := Without(active, act.deleted);
    if act.created.Some? then rest + [Fresh(act.created.value)] else rest
  }

  lemma {:induction false} WithoutNothing(active: seq<Member>)
    ensures Without(active, []) == active
  {
    if active != [] {
      WithoutNothing(active[..|active| - 1]);
    }
  }

  lemma {:induction false} WithoutTwice(active: seq<Member>, ids: seq<nat>, id: nat)
    ensures Without(Without(active, ids), [id]) == Without(active, ids + [id])
  {
    if active != [] {
      var m := active[|active| - 1];
      WithoutTwice(active[..|active| - 1], ids, id);
      if m.id !in ids {
        assert (Without(active[..|active| - 1], ids) + [m])[..|Without(active[..|active| - 1], ids)|]
            == Without(active[..|active| - 1], ids);
      }
    }
  }

  // ----- The objects, changed in place -----

  class Cluster {
    var active: seq<Member>

    constructor (active: seq<Member>)
      ensures this.active == active
    {
      this.active := active;
    }

    method Create(newNode: Option<nat>)
      modifies this
      ensures active == Apply(old(active), Act([], newNode))
      ensures active == old(active) + match newNode
                                      case Some(id) => [Member(id, V.Unset, false, "", "", "")]
                                      case None => []
    {
      WithoutNothing(active);
      if newNode.Some? {
        active := active + [Fresh(newNode.value)];
      }
    }

    method Delete(id: nat, failing: set<nat>) returns (ok: bool)
      modifies this
      ensures ok == (id !in failing)
      ensures active == if ok then Without(old(active), [id]) else old(active)
    {
      ok := id !in failing;
      if ok {
        ghost var was := active;
        var kept: seq<Member> := [];
        for i := 0 to |active|
          invariant active == was && kept == Without(active[..i], [id])
        {
          assert active[..i + 1][..i] == active[..i];
          if active[i].id != id {
            kept := kept + [active[i]];
          }
        }
        assert active[..|active|] == active;
        active := kept;
      }
    }
  }

  class NodeGroup {
    const spec: Spec
    var status: Status

    constructor (spec: Spec, status: Status)
      ensures this.spec == spec && this.status == status
    {
      this.spec, this.status := spec, status;
    }

    method UpdateStatus(nodes: seq<Member>)
      modifies `status
      ensures status == Observe(spec, old(status), nodes)
      ensures status == old(status).(
                          current := |nodes|,
                          ready := |set i | 0 <= i < |nodes| && nodes[i].phase == V.Ready|,
                          desired := if old(status.desired) == 0 then spec.minNodes else old(status.desired))
    {
      ReadyCounted(nodes);
      var ready := 0;
      for i := 0 to |nodes|
        invariant ready == CountReady(nodes[..i]) && status == old(status)
      {
        assert nodes[..i + 1][..i] == nodes[..i];
        if nodes[i].phase == V.Ready {
          ready := ready + 1;
        }
      }
      assert nodes[..|nodes|] == nodes;
      status := status.(current := |nodes|, ready := ready);
      if status.desired == 0 {
        status := status.(desired := spec.minNodes);
      }
    }

    method SetDesiredNodes(desired: int, now: int)
      modifies `status
      ensures status == SetDesired(old(status), desired, now)
      ensures status.desired == desired && status.current == old(status.current) && status.ready == old(status.ready)
      ensures status.lastScale == if desired != old(status.desired) then Some(now) else old(status.lastScale)
      ensures status.lastScaleUp == if desired > old(status.current) && desired != old(status.desired) then Some(now)
                                    else old(status.lastScaleUp)
      ensures status.lastScaleDown == if desired < old(status.current) && desired != old(status.desired) then Some(now)
                                      else old(status.lastScaleDown)
    {
      if status.desired != desired {
        status := status.(desired := desired, lastScale := Some(now));
        if desired > status.current {
          status := status.(lastScaleUp := Some(now));
        } else if desired < status.current {
          status := status.(lastScaleDown := Some(now));
        }
      }
    }
  }

  // The reconciler works on a fetched NodeGroup and on the nodes it listed; the cluster
  // may have lost some of them since.
  class Reconciler {
    var cluster: Cluster

    constructor (cluster: Cluster)
      ensures this.cluster == cluster
    {
      this.cluster := cluster;
    }

    method ScaleUpNodes(ng: NodeGroup, nodes: seq<Member>, io: IO)
      modifies cluster
      ensures cluster.active == Apply(old(cluster.active), ScaleUp(ng.spec, ng.status, nodes, io))
    {
      WithoutNothing(cluster.active);
      if NodesToAdd(ng.spec, ng.status) <= 0 {
        return;
      }
      var failures, inTransition := 0, 0;
      for i := 0 to |nodes|
        invariant failures == CountAtCapacity(nodes[..i])
      {
        assert nodes[..i + 1][..i] == nodes[..i];
        if AtCapacity(nodes[i]) {
          failures := failures + 1;
        }
      }
      assert nodes[..|nodes|] == nodes;
      if failures > 0 {
        CleanUp(nodes, io.failing);
        return;
      }
      for i := 0 to |nodes|
        invariant inTransition == CountInTransition(nodes[..i])
      {
        assert nodes[..i + 1][..i] == nodes[..i];
        if InTransition(nodes[i]) {
          inTransition := inTransition + 1;
        }
      }
      if inTransition > 0 {
        return;
      }
      cluster.Create(io.newNode);
    }

    method CleanUp(nodes: seq<Member>, failing: set<nat>)
      modifies cluster
      ensures cluster.active == Without(old(cluster.active), CleanedUp(nodes, failing))
    {
      WithoutNothing(cluster.active);
      for i := 0 to |nodes|
        invariant cluster.active == Without(old(cluster.active), CleanedUp(nodes[..i], failing))
      {
        assert nodes[..i + 1][..i] == nodes[..i];
        if AtCapacity(nodes[i]) {
          WithoutTwice(old(cluster.active), CleanedUp(nodes[..i], failing), nodes[i].id);
          var _ := cluster.Delete(nodes[i].id, failing);
        }
      }
      assert nodes[..|nodes|] == nodes;
    }

    static method SelectNodesToDelete(nodes: seq<Member>, count: nat) returns (result: seq<Member>)
      ensures result == Select(nodes, count)
    {
      if count >= |nodes| {
        return nodes;
      }
      var ready, notReady: seq<Member> := [], [];
      for i := 0 to |nodes|
        invariant ready == Split(nodes[..i], true) && notReady == Split(nodes[..i], false)
      {
        assert nodes[..i + 1][..i] == nodes[..i];
        if nodes[i].phase != V.Ready {
          notReady := notReady + [nodes[i]];
        } else {
          ready := ready + [nodes[i]];
        }
      }
      assert nodes[..|nodes|] == nodes;
      result := [];
      var i := 0;
      while i < count && i < |notReady|
        invariant 0 <= i <= count && i <= |notReady| && result == notReady[..i]
      {
        result := result + [notReady[i]];
        i := i + 1;
      }
      ghost var first := result;
      var remaining := count - |result|;
      i := 0;
      while i < remaining && i < |ready|
        invariant 0 <= i <= remaining && i <= |ready| && result == first + ready[..i]
      {
        result := result + [ready[i]];
        i := i + 1;
      }
    }

    method SimplyScaleDown(ng: NodeGroup, nodes: seq<Member>, io: IO)
      modifies cluster
      ensures cluster.active == Apply(old(cluster.active), SimpleScaleDown(ng.spec, ng.status, nodes, io))
    {
      WithoutNothing(cluster.active);
      var count := NodesToRemove(ng.spec, ng.status);
      if count <= 0 {
        return;
      }
      var selected := SelectNodesToDelete(nodes, count);
      DeleteUntilFailure(selected, io.failing);
    }

    method DeleteUntilFailure(selected: seq<Member>, failing: set<nat>)
      modifies cluster
      ensures cluster.active == Without(old(cluster.active), UntilFailure(selected, failing))
    {
      hide Without;
      WithoutNothing(cluster.active);
      ghost var done: seq<nat> := [];
      var i := 0;
      while i < |selected|
        invariant 0 <= i <= |selected|
        invariant cluster.active == Without(old(cluster.active), done)
        invariant UntilFailure(selected, failing) == done + UntilFailure(selected[i..], failing)
      {
        assert selected[i..][1..] == selected[i + 1..];
        WithoutTwice(old(cluster.active), done, selected[i].id);
        var ok := cluster.Delete(selected[i].id, failing);
        if !ok {
          assert done + [] == done;
          return;
        }
        done := done + [selected[i].id];
        i := i + 1;
      }
      assert done + [] == done;
    }

    // The three lookup maps.
    static method IndexNodes(nodes: seq<Member>)
      returns (byNodeName: map<string, Member>, bySpecName: map<string, Member>, byHostname: map<string, Member>)
      ensures Indexes(byNodeName, nodes, NodeName) && Indexes(bySpecName, nodes, SpecName)
      ensures Indexes(byHostname, nodes, Hostname)
    {
      byNodeName, bySpecName, byHostname := map[], map[], map[];
      for i := 0 to |nodes|
        invariant Indexes(byNodeName, nodes[..i], NodeName) && Indexes(bySpecName, nodes[..i], SpecName)
        invariant Indexes(byHostname, nodes[..i], Hostname)
      {
        assert nodes[..i + 1][..i] == nodes[..i];
        var m := nodes[i];
        if m.nodeName != "" {
          byNodeName := byNodeName[m.nodeName := m];
        }
        if m.specName != "" {
          bySpecName := bySpecName[m.specName := m];
        }
        if m.hostname != "" {
          byHostname := byHostname[m.hostname := m];
        }
      }
      assert nodes[..|nodes|] == nodes;
    }

    method DeleteDrained(nodes: seq<Member>, names: seq<string>, failing: set<nat>)
      modifies cluster
      ensures cluster.active == Without(old(cluster.active), Drained(nodes, names, failing))
    {
      WithoutNothing(cluster.active);
      var byNodeName, bySpecName, byHostname := IndexNodes(nodes);
      for i := 0 to |names|
        invariant cluster.active == Without(old(cluster.active), Drained(nodes, names[..i], failing))
      {
        assert names[..i + 1][..i] == names[..i];
        var found := Get(byNodeName, names[i]);
        if found == None {
          found := Get(bySpecName, names[i]);
        }
        if found == None {
          found := Get(byHostname, names[i]);
        }
        if found.Some? {
          WithoutTwice(old(cluster.active), Drained(nodes, names[..i], failing), found.value.id);
          var _ := cluster.Delete(found.value.id, failing);
        }
      }
      assert names[..|names|] == names;
    }

    method ScaleDownNodes(ng: NodeGroup, nodes: seq<Member>, io: IO)
      modifies cluster
      ensures cluster.active == Apply(old(cluster.active), ScaleDown(ng.spec, ng.status, nodes, io))
    {
      if io.manager == None {
        SimplyScaleDown(ng, nodes, io);
        return;
      }
      WithoutNothing(cluster.active);
      var manager := io.manager.value;
      if manager.candidates == None {
        return;
      }
      var candidates := manager.candidates.value;
      if |candidates| == 0 {
        return;
      }
      if |candidates| > manager.limit {
        candidates := candidates[..manager.limit];
      }
      if !manager.drained {
        return;
      }
      DeleteDrained(nodes, candidates, io.failing);
    }

    method Reconcile(ng: NodeGroup, nodes: seq<Member>, io: IO)
      modifies ng, cluster
      ensures var (status, act) := Decide(ng.spec, old(ng.status), nodes, io);
              ng.status == status && cluster.active == Apply(old(cluster.active), act)
    {
      ng.UpdateStatus(nodes);
      var desired := CalculateDesired(ng.spec, ng.status);
      if ng.status.desired != desired {
        ng.SetDesiredNodes(desired, io.now);
      }
      if NeedsScaleUp(ng.spec, ng.status) {
        ScaleUpNodes(ng, nodes, io);
      } else if NeedsScaleDown(ng.spec, ng.status) {
        ScaleDownNodes(ng, nodes, io);
      } else {
        WithoutNothing(cluster.active);
        if io.manager.Some? && ng.spec.scaleDown && ng.status.current > ng.spec.minNodes {
          var remove := Evaluate(ng.spec, ng.status, io);
          if remove.Some? {
            var newDesired := ng.status.current - remove.value;
            if newDesired < ng.spec.minNodes {
              newDesired := ng.spec.minNodes;
            }
            ng.SetDesiredNodes(newDesired, io.now);
            ScaleDownNodes(ng, nodes, io);
          }
        }
      }
    }
  }

  function Get<K, T>(m: map<K, T>, key: K): Option<T> {
    if key in m then Some(m[key]) else None
  }

  ghost predicate Indexes(index: map<string, Member>, nodes: seq<Member>, key: Key) {
    forall name :: Get(index, name) == LastBy(nodes, key, name)
  }
}
