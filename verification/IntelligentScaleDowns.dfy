// Scale-down through the ScaleDownManager: the manager drains the candidates, then the
// reconciler deletes their VPSieNodes (pkg/controller/nodegroup/reconciler.go:340-479,
// pkg/scaler/scaler.go:357-470).
module IntelligentScaleDowns {
  import opened Options
  import opened NodeGroups
  import opened NodeGroupRuns
  import S = ScaleDowns

  // What the manager's checks depend on besides the candidates: its cooldown and map, the
  // group's name, and whether the group's status lists more nodes than its minimum.
  datatype Setting = Setting(last: map<string, int>, cooldown: int, group: string, spare: bool)

  function NamesOf(candidates: seq<S.Candidate>): seq<string> {
    if candidates == [] then []
    else NamesOf(candidates[..|candidates| - 1]) + [candidates[|candidates| - 1].name]
  }

  function ErrorsOf(e: Setting, tried: seq<S.Candidate>): nat {
    S.Errors(e.last, e.cooldown, e.group, e.spare, tried)
  }

  // The manager as the reconciler sees it: it reports success if no candidate failed.
  function ManagerOf(e: Setting, limit: nat, candidates: seq<S.Candidate>): Manager {
    Manager(limit, None, Some(NamesOf(candidates)), ErrorsOf(e, S.Limited(candidates, limit)) == 0)
  }

  function ScaleDownWith(e: Setting, limit: nat, candidates: seq<S.Candidate>,
                         nodes: seq<Member>, failing: set<nat>): Act
  {
    IntelligentScaleDown(ManagerOf(e, limit, candidates), nodes, failing)
  }

  lemma {:induction false} NamesAt(candidates: seq<S.Candidate>)
    ensures |NamesOf(candidates)| == |candidates|
    ensures forall i | 0 <= i < |candidates| :: NamesOf(candidates)[i] == candidates[i].name
  {
    if candidates != [] {
      NamesAt(candidates[..|candidates| - 1]);
    }
  }

  lemma LimitedNames(candidates: seq<S.Candidate>, limit: nat)
    ensures AtMost(NamesOf(candidates), limit) == NamesOf(S.Limited(candidates, limit))
  {
    NamesAt(candidates);
    NamesAt(S.Limited(candidates, limit));
  }

  // The reconciler's step, with a manager that drains in between.
  method ReconcileScaleDown(r: Reconciler, manager: S.ScaleDownManager, group: string, listed: nat, minNodes: int,
                            nodes: seq<Member>, candidates: seq<S.Candidate>, failing: set<nat>, now: int)
    modifies r.cluster, manager
    ensures var e := Setting(old(manager.lastScaleDown), manager.cooldown, group, listed > minNodes);
            r.cluster.active
            == Apply(old(r.cluster.active), ScaleDownWith(e, manager.limit, candidates, nodes, failing))
  {
    WithoutNothing(r.cluster.active);
    NamesAt(candidates);
    if |candidates| == 0 {
      return;
    }
    var limited := candidates;
    if |candidates| > manager.limit {
      limited := candidates[..manager.limit];
    }
    LimitedNames(candidates, manager.limit);
    var drains, ok := manager.ScaleDown(group, listed, minNodes, limited, now);
    if !ok {
      return;
    }
    r.DeleteDrained(nodes, NamesOf(limited), failing);
  }

  // ----- Nodes deleted without having been drained -----

  predicate Reaches(e: Setting, c: S.Candidate) {
    S.Reaches(e.last, e.cooldown, e.group, e.spare, c)
  }

  predicate WasDrained(e: Setting, c: S.Candidate) {
    Reaches(e, c) && c.check == S.Safe && c.drained
  }

  // Passed over without an error.
  predicate Skipped(e: Setting, c: S.Candidate) {
    !Reaches(e, c) || c.check == S.Unsafe
  }

  predicate FoundAs(nodes: seq<Member>, c: S.Candidate, id: nat) {
    Lookup(nodes, c.name).Some? && Lookup(nodes, c.name).value.id == id
  }

  lemma {:induction false} NoErrors(e: Setting, tried: seq<S.Candidate>)
    ensures ErrorsOf(e, tried) == 0 <==> forall c | c in tried :: WasDrained(e, c) || Skipped(e, c)
  {
    if tried != [] {
      var before, last := tried[..|tried| - 1], tried[|tried| - 1];
      NoErrors(e, before);
      assert tried == before + [last];
      assert ErrorsOf(e, tried) == ErrorsOf(e, before) + if WasDrained(e, last) || Skipped(e, last) then 0 else 1;
      assert last in tried;
    }
  }

  lemma {:induction false} NameOfCandidate(candidates: seq<S.Candidate>, name: string)
    ensures name in NamesOf(candidates) <==> exists c :: c in candidates && c.name == name
  {
    if candidates != [] {
      NameOfCandidate(candidates[..|candidates| - 1], name);
      assert candidates == candidates[..|candidates| - 1] + [candidates[|candidates| - 1]];
    }
  }

  lemma DeletedIffFound(e: Setting, limit: nat, candidates: seq<S.Candidate>,
                        nodes: seq<Member>, failing: set<nat>, id: nat)
    ensures var tried := S.Limited(candidates, limit);
            id in ScaleDownWith(e, limit, candidates, nodes, failing).deleted <==>
              ErrorsOf(e, tried) == 0 && id !in failing && exists c :: c in tried && FoundAs(nodes, c, id)
  {
    hide Lookup, ErrorsOf;
    var tried := S.Limited(candidates, limit);
    LimitedNames(candidates, limit);
    NamesAt(candidates);
    DeletesDrainedExactly(nodes, NamesOf(tried), failing, id);
    forall name ensures name in NamesOf(tried) <==> exists c :: c in tried && c.name == name {
      NameOfCandidate(tried, name);
    }
  }

  // A node is deleted although no candidate found as it was drained exactly when the scale-down
  // reported no error and every candidate found as it, one at least, was skipped.
  lemma DeletedUndrained(e: Setting, limit: nat, candidates: seq<S.Candidate>,
                         nodes: seq<Member>, failing: set<nat>, id: nat)
    ensures var tried := S.Limited(candidates, limit);
            && id in ScaleDownWith(e, limit, candidates, nodes, failing).deleted
            && (forall c | c in tried && FoundAs(nodes, c, id) :: !WasDrained(e, c))
            <==>
            && id !in failing
            && (forall c | c in tried :: WasDrained(e, c) || Skipped(e, c))
            && (exists c :: c in tried && FoundAs(nodes, c, id))
            && (forall c | c in tried && FoundAs(nodes, c, id) :: Skipped(e, c))
  {
    hide ScaleDownWith, ErrorsOf, FoundAs;
    DeletedIffFound(e, limit, candidates, nodes, failing, id);
    NoErrors(e, S.Limited(candidates, limit));
  }

  // One candidate that became unsafe to remove: not drained, no error, deleted.
  lemma UnsafeNodeDeleted(m: Member, now: int)
    requires m.nodeName != ""
    ensures var e := Setting(map[], 0, "group", true);
            var c := S.Candidate(m.nodeName, now, S.Unsafe, now, false);
            !WasDrained(e, c) && ScaleDownWith(e, 1, [c], [m], {}) == Act([m.id], None)
  {
    var e := Setting(map[], 0, "group", true);
    var c := S.Candidate(m.nodeName, now, S.Unsafe, now, false);
    assert [c][..0] == [];
    assert NamesOf([c][..0]) == [] && NamesOf([c]) == [m.nodeName];
    assert S.Limited([c], 1) == [c] && AtMost([m.nodeName], 1) == [m.nodeName];
    NoErrors(e, [c]);
    FindsByName([m], 0);
    assert [m.nodeName][..0] == [];
    assert Drained([m], [m.nodeName][..0], {}) == [];
    assert Drained([m], [m.nodeName], {}) == [m.id];
  }
}
