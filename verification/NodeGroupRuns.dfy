// What NodeGroup reconciles guarantee: one decision at a time, and over whole runs in which
// the reconciler, the scale-up handler and the VPSieNodes step in any order
// (pkg/controller/nodegroup/reconciler.go, pkg/events/scaleup.go).
module NodeGroupRuns {
  import opened Options
  import opened NodeGroups
  import V = VPSieNodes

  predicate Distinct(nodes: seq<Member>) {
    forall i, j :: 0 <= i < j < |nodes| ==> nodes[i].id != nodes[j].id
  }

  // ----- One decision -----

  // A stored desired count within the limits is kept, an unset one becomes MinNodes, and any
  // other the nearest limit.
  lemma DesiredClamped(spec: Spec, s: Status)
    requires spec.Valid()
    ensures var desired := CalculateDesired(spec, s);
            && spec.minNodes <= desired <= spec.maxNodes
            && (s.desired == 0 ==> desired == spec.minNodes)
            && (s.desired != 0 && spec.minNodes <= s.desired <= spec.maxNodes ==> desired == s.desired)
            && (0 != s.desired < spec.minNodes ==> desired == spec.minNodes)
            && (s.desired > spec.maxNodes ==> desired == spec.maxNodes)
  {
  }

  lemma DesiredInBounds(spec: Spec, s: Status, nodes: seq<Member>, io: IO)
    requires spec.Valid()
    ensures spec.minNodes <= Decide(spec, s, nodes, io).0.desired <= spec.maxNodes
  {
  }

  // A reconcile raises the desired count only to MinNodes.
  lemma RaisedOnlyToMin(spec: Spec, s: Status, nodes: seq<Member>, io: IO)
    requires spec.Valid()
    ensures var desired := Decide(spec, s, nodes, io).0.desired; desired <= s.desired || desired == spec.minNodes
  {
    hide ScaleUp, ScaleDown;
  }

  lemma {:induction false} NoneInTransition(nodes: seq<Member>)
    ensures CountInTransition(nodes) == 0 <==> forall m | m in nodes :: !InTransition(m)
  {
    if nodes != [] {
      NoneInTransition(nodes[..|nodes| - 1]);
      assert nodes == nodes[..|nodes| - 1] + [nodes[|nodes| - 1]];
    }
  }

  lemma {:induction false} NoneAtCapacity(nodes: seq<Member>)
    ensures CountAtCapacity(nodes) == 0 <==> forall m | m in nodes :: !AtCapacity(m)
  {
    if nodes != [] {
      NoneAtCapacity(nodes[..|nodes| - 1]);
      assert nodes == nodes[..|nodes| - 1] + [nodes[|nodes| - 1]];
    }
  }

  // A node is created exactly when fewer are listed than the clamped target, none is in
  // transition and none has failed for lack of capacity; then nothing is deleted.
  lemma CreatesExactlyWhen(spec: Spec, s: Status, nodes: seq<Member>, io: IO)
    requires spec.Valid() && io.newNode.Some?
    ensures var (status, act) := Decide(spec, s, nodes, io);
            && (act.created.Some? <==>
                  && |nodes| < CalculateDesired(spec, s)
                  && (forall m | m in nodes ::
                        m.phase != V.Pending && m.phase != V.Provisioning && m.phase != V.Provisioned
                        && m.phase != V.Joining)
                  && (forall m | m in nodes :: m.phase != V.Failed || !m.capacityLimit))
            && (act.created.Some? ==> act == Act([], io.newNode) && |nodes| < status.desired)
  {
    NoneInTransition(nodes);
    NoneAtCapacity(nodes);
  }

  // Scaling up deletes nothing but the nodes that failed for lack of capacity, and all of
  // those whose Delete call succeeds.
  lemma {:induction false} CleansUpExactly(nodes: seq<Member>, failing: set<nat>, id: nat)
    ensures id in CleanedUp(nodes, failing) <==>
              id !in failing && exists m :: m in nodes && m.id == id && m.phase == V.Failed && m.capacityLimit
  {
    if nodes != [] {
      CleansUpExactly(nodes[..|nodes| - 1], failing, id);
      assert nodes == nodes[..|nodes| - 1] + [nodes[|nodes| - 1]];
    }
  }

  // A reconcile that finds too few nodes deletes just those, and creates none while there is
  // one; waiting for a node in transition it does nothing.
  lemma CleansUpFirst(spec: Spec, s: Status, nodes: seq<Member>, io: IO, id: nat)
    requires spec.Valid() && |nodes| < CalculateDesired(spec, s)
    ensures var act := Decide(spec, s, nodes, io).1;
            && (id in act.deleted <==>
                  id !in io.failing && exists m :: m in nodes && m.id == id && m.phase == V.Failed && m.capacityLimit)
            && ((exists m :: m in nodes && m.phase == V.Failed && m.capacityLimit) ==> act.created == None)
  {
    NoneAtCapacity(nodes);
    CleansUpExactly(nodes, io.failing, id);
  }

  function Least(a: int, b: int): int {
    if a < b then a else b
  }

  // At the target, utilization lowers the desired count only outside both windows, and
  // then by as many nodes as were found, could be spared and may go at once.
  lemma UtilizationShrinks(spec: Spec, s: Status, nodes: seq<Member>, io: IO)
    requires spec.Valid() && spec.minNodes <= s.desired == |nodes| <= spec.maxNodes
    ensures var due := && io.manager.Some? && spec.scaleDown
                       && (s.lastScaleDown.Some? ==> io.now - s.lastScaleDown.value >= spec.cooldown)
                       && (s.lastScale.Some? ==> io.now - s.lastScale.value >= spec.stabilization);
            var found := if due && io.manager.value.evaluated.Some? then |io.manager.value.evaluated.value| else 0;
            var limit := if due then io.manager.value.limit else 0;
            && Decide(spec, s, nodes, io).0.desired == |nodes| - Least(Least(found, |nodes| - spec.minNodes), limit)
            && (!due ==> Decide(spec, s, nodes, io).1 == NOTHING)
  {
    hide ScaleDown, CountReady;
  }

  // ----- Deleting keeps MinNodes -----

  lemma {:induction false} WithoutMembers(nodes: seq<Member>, ids: seq<nat>)
    ensures forall m :: m in Without(nodes, ids) <==> m in nodes && m.id !in ids
    ensures |Without(nodes, ids)| <= |nodes|
  {
    if nodes != [] {
      WithoutMembers(nodes[..|nodes| - 1], ids);
      assert nodes == nodes[..|nodes| - 1] + [nodes[|nodes| - 1]];
    }
  }

  lemma {:induction false} WithoutDistinct(nodes: seq<Member>, ids: seq<nat>)
    requires Distinct(nodes)
    ensures Distinct(Without(nodes, ids))
  {
    if nodes != [] {
      var before, last := nodes[..|nodes| - 1], nodes[|nodes| - 1];
      WithoutDistinct(before, ids);
      WithoutMembers(before, ids);
      forall m | m in Without(before, ids) ensures m.id != last.id {
        assert m in before;
      }
    }
  }

  lemma WithoutKeeps(nodes: seq<Member>, ids: seq<nat>)
    ensures forall m :: m in Without(nodes, ids) <==> m in nodes && m.id !in ids
    ensures Distinct(nodes) ==> Distinct(Without(nodes, ids))
    ensures |Without(nodes, ids)| <= |nodes|
  {
    hide Without, Distinct;
    WithoutMembers(nodes, ids);
    if Distinct(nodes) {
      WithoutDistinct(nodes, ids);
    }
  }

  lemma {:induction false} WithoutOne(nodes: seq<Member>, id: nat)
    requires Distinct(nodes)
    ensures |Without(nodes, [id])| >= |nodes| - 1
    ensures (forall m | m in nodes :: m.id != id) ==> Without(nodes, [id]) == nodes
  {
    if nodes != [] {
      var before, m := nodes[..|nodes| - 1], nodes[|nodes| - 1];
      WithoutOne(before, id);
      assert nodes == before + [m];
      if m.id == id {
        forall k | k in before ensures k.id != id {
        }
      }
    }
  }

  lemma {:induction false} WithoutCount(nodes: seq<Member>, ids: seq<nat>)
    requires Distinct(nodes)
    ensures |Without(nodes, ids)| >= |nodes| - |ids|
  {
    if ids == [] {
      WithoutNothing(nodes);
    } else {
      var before, id := ids[..|ids| - 1], ids[|ids| - 1];
      WithoutCount(nodes, before);
      WithoutKeeps(nodes, before);
      WithoutOne(Without(nodes, before), id);
      WithoutTwice(nodes, before, id);
      assert ids == before + [id];
    }
  }

  lemma {:induction false} SplitParts(nodes: seq<Member>)
    ensures multiset(Split(nodes, true)) + multiset(Split(nodes, false)) == multiset(nodes)
    ensures |Split(nodes, true)| + |Split(nodes, false)| == |nodes|
    ensures forall ready, m | m in Split(nodes, ready) :: (m.phase == V.Ready) == ready
    ensures forall m | m in nodes && m.phase != V.Ready :: m in Split(nodes, false)
  {
    if nodes != [] {
      SplitParts(nodes[..|nodes| - 1]);
      assert nodes == nodes[..|nodes| - 1] + [nodes[|nodes| - 1]];
    }
  }

  lemma TakeIsPart<T>(s: seq<T>, n: int)
    ensures multiset(AtMost(s, n)) <= multiset(s)
    ensures |AtMost(s, n)| == if n <= 0 then 0 else if n >= |s| then |s| else n
    ensures forall x | x in AtMost(s, n) :: x in s
  {
    if 0 < n < |s| {
      assert s == s[..n] + s[n..];
    }
  }

  // The right number of the listed nodes, none twice, and no ready node while another that
  // is not ready is spared.
  lemma SelectionPrefersUnready(nodes: seq<Member>, count: nat)
    ensures var chosen := Select(nodes, count);
            && |chosen| == (if count < |nodes| then count else |nodes|)
            && multiset(chosen) <= multiset(nodes)
            && (forall m, spared | m in chosen && m.phase == V.Ready && spared in nodes && spared.phase != V.Ready ::
                  spared in chosen)
  {
    hide Split, AtMost;
    SplitParts(nodes);
    var first := AtMost(Split(nodes, false), count);
    var second := AtMost(Split(nodes, true), count - |first|);
    TakeIsPart(Split(nodes, false), count);
    TakeIsPart(Split(nodes, true), count - |first|);
    if count < |nodes| {
      assert multiset(first + second) == multiset(first) + multiset(second);
      if count < |Split(nodes, false)| {
        assert second == [];
      } else {
        WholeTake(Split(nodes, false), count);
      }
    }
  }

  lemma WholeTake<T>(s: seq<T>, n: int)
    requires n >= |s|
    ensures AtMost(s, n) == s
  {
  }

  lemma {:induction false} UntilFailureFits(nodes: seq<Member>, failing: set<nat>)
    ensures |UntilFailure(nodes, failing)| <= |nodes|
    ensures (forall m | m in nodes :: m.id !in failing) ==> |UntilFailure(nodes, failing)| == |nodes|
  {
    if nodes != [] {
      UntilFailureFits(nodes[1..], failing);
    }
  }

  // The simple path deletes its selection in order, up to the first call that fails.
  lemma {:induction false} StopsAtFailure(nodes: seq<Member>, failing: set<nat>)
    ensures var ids := UntilFailure(nodes, failing);
            && |ids| <= |nodes|
            && (forall i | 0 <= i < |ids| :: ids[i] == nodes[i].id && ids[i] !in failing)
            && (|ids| < |nodes| ==> nodes[|ids|].id in failing)
  {
    if nodes != [] && nodes[0].id !in failing {
      StopsAtFailure(nodes[1..], failing);
    }
  }

  lemma {:induction false} DrainedFits(nodes: seq<Member>, names: seq<string>, failing: set<nat>)
    ensures |Drained(nodes, names, failing)| <= |names|
  {
    if names != [] {
      DrainedFits(nodes, names[..|names| - 1], failing);
    }
  }

  predicate Known(nodes: seq<Member>, key: Key, name: string) {
    exists m :: m in nodes && NameBy(m, key) == name
  }

  lemma {:induction false} LastByFinds(nodes: seq<Member>, key: Key, name: string)
    ensures LastBy(nodes, key, name).Some? <==> name != "" && Known(nodes, key, name)
    ensures LastBy(nodes, key, name).Some? ==>
              LastBy(nodes, key, name).value in nodes && NameBy(LastBy(nodes, key, name).value, key) == name
  {
    if nodes != [] {
      LastByFinds(nodes[..|nodes| - 1], key, name);
      assert nodes == nodes[..|nodes| - 1] + [nodes[|nodes| - 1]];
    }
  }

  // Of several nodes listed under one name, the last is found.
  lemma {:induction false} LastByIsLast(nodes: seq<Member>, key: Key, name: string, i: nat)
    requires i < |nodes| && name != "" && NameBy(nodes[i], key) == name
    requires forall j | i < j < |nodes| :: NameBy(nodes[j], key) != name
    ensures LastBy(nodes, key, name) == Some(nodes[i])
  {
    if i < |nodes| - 1 {
      LastByIsLast(nodes[..|nodes| - 1], key, name, i);
    }
  }

  // A drained node is looked up by node name before spec name before hostname, and is found
  // exactly when some node is listed under its name.
  lemma LookupFinds(nodes: seq<Member>, name: string)
    ensures var found := Lookup(nodes, name);
            && (found.Some? <==> name != "" && exists key :: Known(nodes, key, name))
            && (found.Some? ==> found.value in nodes)
            && (found.Some? && Known(nodes, NodeName, name) ==> found.value.nodeName == name)
            && (found.Some? && !Known(nodes, NodeName, name) && Known(nodes, SpecName, name) ==>
                  found.value.specName == name)
            && (found.Some? && !Known(nodes, NodeName, name) && !Known(nodes, SpecName, name) ==>
                  found.value.hostname == name)
  {
    hide Known;
    LastByFinds(nodes, NodeName, name);
    LastByFinds(nodes, SpecName, name);
    LastByFinds(nodes, Hostname, name);
    if Lookup(nodes, name) == None && name != "" {
      forall key ensures !Known(nodes, key, name) {
        LastByFinds(nodes, key, name);
      }
    }
  }

  lemma {:induction false} DeletesDrainedExactly(nodes: seq<Member>, names: seq<string>, failing: set<nat>, id: nat)
    ensures id in Drained(nodes, names, failing) <==>
              id !in failing &&
              exists name :: name in names && Lookup(nodes, name).Some? && Lookup(nodes, name).value.id == id
  {
    hide Lookup;
    if names != [] {
      DeletesDrainedExactly(nodes, names[..|names| - 1], failing, id);
      assert names == names[..|names| - 1] + [names[|names| - 1]];
    }
  }

  // With a ScaleDownManager, only a drain that reports no error is followed by deletions, and
  // then only of nodes found under one of the first `limit` candidates, as far as the Delete
  // calls succeed.
  lemma ManagerDeletesExactly(spec: Spec, s: Status, nodes: seq<Member>, io: IO, id: nat)
    requires io.manager.Some?
    ensures var manager := io.manager.value;
            id in ScaleDown(spec, s, nodes, io).deleted <==>
              && manager.drained && manager.candidates.Some? && id !in io.failing
              && exists i :: 0 <= i < |manager.candidates.value| && i < manager.limit
                             && Lookup(nodes, manager.candidates.value[i]).Some?
                             && Lookup(nodes, manager.candidates.value[i]).value.id == id
    ensures ScaleDown(spec, s, nodes, io).created == None
  {
    hide Drained, Lookup;
    var manager := io.manager.value;
    if manager.candidates.Some? {
      var tried := AtMost(manager.candidates.value, manager.limit);
      assert forall i | 0 <= i < |tried| :: tried[i] == manager.candidates.value[i];
      DeletesDrainedExactly(nodes, tried, io.failing, id);
    }
  }

  // A scale-down deletes at most |nodes| - MinNodes nodes: always on the simple path, and
  // with a ScaleDownManager whenever its limit is no larger than that.
  lemma ScaleDownKeepsMin(spec: Spec, s: Status, nodes: seq<Member>, io: IO)
    requires spec.Valid() && Distinct(nodes) && s.current == |nodes| >= spec.minNodes
    requires io.manager.Some? ==> io.manager.value.limit <= |nodes| - spec.minNodes
    ensures |ScaleDown(spec, s, nodes, io).deleted| <= |nodes| - spec.minNodes
    ensures |Apply(nodes, ScaleDown(spec, s, nodes, io))| >= spec.minNodes
  {
    var act := ScaleDown(spec, s, nodes, io);
    WithoutCount(nodes, act.deleted);
    match io.manager
    case Some(manager) =>
      if manager.candidates.Some? {
        TakeIsPart(manager.candidates.value, manager.limit);
        DrainedFits(nodes, AtMost(manager.candidates.value, manager.limit), io.failing);
      }
    case None =>
      var count := NodesToRemove(spec, s);
      if count > 0 {
        SelectionPrefersUnready(nodes, count);
        UntilFailureFits(Select(nodes, count), io.failing);
      }
  }

  // Every scale-down a reconcile starts finds more than MinNodes nodes, so a limit of one
  // is safe.
  lemma ReconcileKeepsMin(spec: Spec, s: Status, nodes: seq<Member>, io: IO)
    requires spec.Valid() && Distinct(nodes)
    requires io.manager.Some? ==> io.manager.value.limit <= 1 || io.manager.value.limit <= |nodes| - spec.minNodes
    requires |nodes| >= CalculateDesired(spec, s)
    ensures |Decide(spec, s, nodes, io).1.deleted| <= |nodes| - spec.minNodes
    ensures |nodes| > spec.minNodes ==> |Apply(nodes, Decide(spec, s, nodes, io).1)| >= spec.minNodes
    ensures |nodes| == spec.minNodes ==> Apply(nodes, Decide(spec, s, nodes, io).1) == nodes
  {
    hide ScaleDown;
    WithoutNothing(nodes);
    if |nodes| > spec.minNodes {
      ScaleDownKeepsMin(spec, Decide(spec, s, nodes, io).0, nodes, io);
    }
  }

  // Every node joined the cluster under a name of its own.
  predicate NamesKnown(nodes: seq<Member>) {
    && (forall i :: 0 <= i < |nodes| ==> nodes[i].nodeName != "")
    && (forall i, j :: 0 <= i < j < |nodes| ==> nodes[i].nodeName != nodes[j].nodeName)
  }

  lemma {:induction false} FindsByName(nodes: seq<Member>, i: nat)
    requires NamesKnown(nodes) && i < |nodes|
    ensures LastBy(nodes, NodeName, nodes[i].nodeName) == Some(nodes[i])
  {
    if i < |nodes| - 1 {
      FindsByName(nodes[..|nodes| - 1], i);
    }
  }

  function Names(nodes: seq<Member>): seq<string> {
    seq(|nodes|, i requires 0 <= i < |nodes| => nodes[i].nodeName)
  }

  lemma {:induction false} DrainsAll(nodes: seq<Member>, k: nat)
    requires NamesKnown(nodes) && k <= |nodes|
    ensures forall i | 0 <= i < k :: nodes[i].id in Drained(nodes, Names(nodes)[..k], {})
  {
    if k > 0 {
      DrainsAll(nodes, k - 1);
      FindsByName(nodes, k - 1);
      assert Names(nodes)[..k][..k - 1] == Names(nodes)[..k - 1];
    }
  }

  lemma {:induction false} WithoutPrefix(nodes: seq<Member>, ids: seq<nat>, k: nat)
    requires k <= |nodes| && forall i | 0 <= i < k :: nodes[i].id in ids
    ensures |Without(nodes, ids)| <= |nodes| - k
  {
    if nodes != [] {
      WithoutPrefix(nodes[..|nodes| - 1], ids, if k < |nodes| then k else k - 1);
    }
  }

  lemma ManagerDeletesAtMost(nodes: seq<Member>, manager: Manager, failing: set<nat>)
    requires Distinct(nodes)
    ensures |Apply(nodes, IntelligentScaleDown(manager, nodes, failing))| >= |nodes| - manager.limit
  {
    WithoutCount(nodes, IntelligentScaleDown(manager, nodes, failing).deleted);
    if manager.candidates.Some? {
      TakeIsPart(manager.candidates.value, manager.limit);
      DrainedFits(nodes, AtMost(manager.candidates.value, manager.limit), failing);
    }
  }

  // With a ScaleDownManager, a given number of nodes survives every choice of candidates
  // exactly when the manager's limit fits above it.
  lemma ManagerKeepsIff(nodes: seq<Member>, limit: nat, floor: nat)
    requires Distinct(nodes) && NamesKnown(nodes) && |nodes| >= floor
    ensures (forall manager: Manager, failing: set<nat> | manager.limit == limit ::
               |Apply(nodes, IntelligentScaleDown(manager, nodes, failing))| >= floor)
            <==> limit <= |nodes| - floor || floor == 0
  {
    hide Drained;
    if limit <= |nodes| - floor {
      forall manager: Manager, failing: set<nat> | manager.limit == limit
        ensures |Apply(nodes, IntelligentScaleDown(manager, nodes, failing))| >= floor
      {
        ManagerDeletesAtMost(nodes, manager, failing);
      }
    } else if floor > 0 {
      ManagerBreaks(nodes, limit, floor);
      assert Manager(limit, None, Some(Names(nodes)), true).limit == limit;
    }
  }

  lemma ManagerBreaks(nodes: seq<Member>, limit: nat, floor: nat)
    requires NamesKnown(nodes) && |nodes| >= floor > 0 && limit > |nodes| - floor
    ensures |Apply(nodes, IntelligentScaleDown(Manager(limit, None, Some(Names(nodes)), true), nodes, {}))| < floor
  {
    var k := if limit < |nodes| then limit else |nodes|;
    assert AtMost(Names(nodes), limit) == Names(nodes)[..k];
    DrainsAll(nodes, k);
    WithoutPrefix(nodes, Drained(nodes, Names(nodes)[..k], {}), k);
  }

  // MinNodes survives every choice of candidates exactly when the limit fits, or when it is
  // zero.
  lemma ManagerLimitDecides(spec: Spec, nodes: seq<Member>, limit: nat)
    requires spec.Valid() && Distinct(nodes) && NamesKnown(nodes) && |nodes| >= spec.minNodes
    ensures (forall manager: Manager, failing: set<nat> | manager.limit == limit ::
               |Apply(nodes, IntelligentScaleDown(manager, nodes, failing))| >= spec.minNodes)
            <==> limit <= |nodes| - spec.minNodes || spec.minNodes == 0
  {
    hide Apply, IntelligentScaleDown, Distinct, NamesKnown;
    ManagerKeepsIff(nodes, limit, spec.minNodes);
  }

  // ----- Deleting keeps the desired count -----

  // A reconcile that does not scale up leaves at least as many nodes as it wants: always on
  // the simple path, and with a manager whose limit is no larger than the excess.
  lemma ReconcileKeepsDesired(spec: Spec, s: Status, nodes: seq<Member>, io: IO)
    requires spec.Valid() && Distinct(nodes) && |nodes| >= CalculateDesired(spec, s)
    requires io.manager.Some? ==> io.manager.value.limit <= |nodes| - Decide(spec, s, nodes, io).0.desired
    ensures |Apply(nodes, Decide(spec, s, nodes, io).1)| >= Decide(spec, s, nodes, io).0.desired
  {
    hide IntelligentScaleDown, SimpleScaleDown;
    WithoutNothing(nodes);
    var status := Decide(spec, s, nodes, io).0;
    if io.manager.Some? {
      ManagerDeletesAtMost(nodes, io.manager.value, io.failing);
    } else {
      SimpleKeepsDesired(spec, status, nodes, io);
    }
  }

  lemma SimpleKeepsDesired(spec: Spec, s: Status, nodes: seq<Member>, io: IO)
    requires Distinct(nodes) && s.current == |nodes| >= s.desired
    ensures |Apply(nodes, SimpleScaleDown(spec, s, nodes, io))| >= s.desired
  {
    hide Select, UntilFailure;
    WithoutCount(nodes, SimpleScaleDown(spec, s, nodes, io).deleted);
    var count := NodesToRemove(spec, s);
    if count > 0 {
      SelectionPrefersUnready(nodes, count);
      UntilFailureFits(Select(nodes, count), io.failing);
    }
  }

  lemma {:induction false} WithoutOneExact(nodes: seq<Member>, id: nat)
    requires Distinct(nodes) && exists m :: m in nodes && m.id == id
    ensures |Without(nodes, [id])| == |nodes| - 1
  {
    var before, m := nodes[..|nodes| - 1], nodes[|nodes| - 1];
    assert nodes == before + [m];
    if m.id == id {
      forall k | k in before ensures k.id != id {
      }
      WithoutOne(before, id);
    } else {
      WithoutOneExact(before, id);
    }
  }

  lemma {:induction false} WithoutExact(nodes: seq<Member>, ids: seq<nat>)
    requires Distinct(nodes) && forall i, j | 0 <= i < j < |ids| :: ids[i] != ids[j]
    requires forall id | id in ids :: exists m :: m in nodes && m.id == id
    ensures |Without(nodes, ids)| == |nodes| - |ids|
  {
    hide Without;
    if ids == [] {
      WithoutNothing(nodes);
    } else {
      var before, id := ids[..|ids| - 1], ids[|ids| - 1];
      assert ids == before + [id];
      assert id in ids && forall k | k in before :: k in ids;
      WithoutExact(nodes, before);
      WithoutKeeps(nodes, before);
      assert id !in before by { assert forall i | 0 <= i < |before| :: before[i] == ids[i]; }
      var m :| m in nodes && m.id == id;
      assert m in Without(nodes, before);
      WithoutOneExact(Without(nodes, before), id);
      WithoutTwice(nodes, before, id);
    }
  }

  lemma Twice<T>(s: seq<T>, i: nat, j: nat)
    requires i < j < |s| && s[i] == s[j]
    ensures multiset(s)[s[i]] >= 2
  {
    assert s == s[..j] + s[j..];
    assert s[..j][i] == s[i] && s[j..][0] == s[j];
  }

  lemma {:induction false} ListedOnce(nodes: seq<Member>)
    requires Distinct(nodes)
    ensures forall m | m in nodes :: multiset(nodes)[m] == 1
  {
    if nodes != [] {
      ListedOnce(nodes[..|nodes| - 1]);
      assert nodes == nodes[..|nodes| - 1] + [nodes[|nodes| - 1]];
    }
  }

  lemma PartDistinct(part: seq<Member>, nodes: seq<Member>)
    requires Distinct(nodes) && multiset(part) <= multiset(nodes)
    ensures Distinct(part) && forall m | m in part :: m in nodes
  {
    ListedOnce(nodes);
    forall m | m in part ensures m in nodes {
      assert m in multiset(part);
    }
    forall i, j | 0 <= i < j < |part| ensures part[i].id != part[j].id {
      if part[i].id == part[j].id {
        assert part[i] in nodes && part[j] in nodes;
        Twice(part, i, j);
      }
    }
  }

  // If no Delete call fails, the simple path leaves exactly the desired number of nodes.
  lemma SimpleReachesDesired(spec: Spec, s: Status, nodes: seq<Member>, io: IO)
    requires spec.Valid() && Distinct(nodes) && |nodes| >= CalculateDesired(spec, s)
    requires io.manager == None && forall m | m in nodes :: m.id !in io.failing
    ensures |Apply(nodes, Decide(spec, s, nodes, io).1)| == CalculateDesired(spec, s)
  {
    hide Select, UntilFailure, Without;
    WithoutNothing(nodes);
    var count := |nodes| - CalculateDesired(spec, s);
    if count > 0 {
      SelectionPrefersUnready(nodes, count);
      var chosen := Select(nodes, count);
      PartDistinct(chosen, nodes);
      StopsAtFailure(chosen, io.failing);
      UntilFailureFits(chosen, io.failing);
      var ids := UntilFailure(chosen, io.failing);
      forall id | id in ids ensures exists m :: m in nodes && m.id == id {
        var i :| 0 <= i < |ids| && ids[i] == id;
        assert chosen[i] in chosen;
      }
      WithoutExact(nodes, ids);
    }
  }

  // The intelligent path does not look at the excess: a scale-down started for a lower desired
  // count can go below it, for some choice of candidates, exactly when the manager's limit is
  // larger than the excess.
  lemma ManagerOvershootsIff(spec: Spec, s: Status, nodes: seq<Member>, limit: nat)
    requires Distinct(nodes) && NamesKnown(nodes) && s.current == |nodes| >= s.desired > 0
    ensures (exists io: IO :: io.manager.Some? && io.manager.value.limit == limit
                              && |Apply(nodes, ScaleDown(spec, s, nodes, io))| < s.desired)
            <==> limit > s.current - s.desired
  {
    hide Apply, IntelligentScaleDown, Distinct, NamesKnown;
    ManagerKeepsIff(nodes, limit, s.desired);
    if limit > s.current - s.desired {
      ManagerBreaks(nodes, limit, s.desired);
      var io := IO(0, Some(Manager(limit, None, Some(Names(nodes)), true)), {}, None);
      assert ScaleDown(spec, s, nodes, io) == IntelligentScaleDown(io.manager.value, nodes, io.failing);
    }
  }
}
