// How much is missing and how many nodes would supply it
// (pkg/events/analyzer.go:53-83, 374-430).
module Demand {
  import opened PodResources

  const MAX_PODS_PER_NODE := 110
  const MEBIBYTE := 1024 * 1024

  datatype Deficit = Deficit(cpu: nat, memory: nat, pods: nat)

  const NONE_MISSING := Deficit(0, 0, 0)

  function Plus(d: Deficit, request: Request): Deficit {
    Deficit(d.cpu + request.cpu, d.memory + request.memory, d.pods + 1)
  }

  function Key(pod: Pod): string {
    pod.namespace + "/" + pod.name
  }

  // ----- The deficit of a list of events, one pod each -----

  predicate Seen(pods: seq<Pod>, key: string) {
    exists i :: 0 <= i < |pods| && Key(pods[i]) == key
  }

  function DeficitOf(pods: seq<Pod>): Deficit {
    if pods == [] then NONE_MISSING
    else
      var before, pod := pods[..|pods| - 1], pods[|pods| - 1];
      if Seen(before, Key(pod)) then DeficitOf(before) else Plus(DeficitOf(before), RequestOf(pod))
  }

  method CalculateDeficit(pods: seq<Pod>) returns (deficit: Deficit)
    ensures deficit == DeficitOf(pods)
  {
    hide Seen, RequestOf, Key;
    var cpu: nat, memory: nat, count: nat := 0, 0, 0;
    var seen: set<string> := {};
    NothingSeen();
    for i := 0 to |pods|
      invariant forall key :: key in seen <==> Seen(pods[..i], key)
      invariant Deficit(cpu, memory, count) == DeficitOf(pods[..i])
    {
      assert pods[..i + 1][..i] == pods[..i];
      var key := Key(pods[i]);
      SeenNext(pods, i);
      if key in seen {
        continue;
      }
      seen := seen + {key};
      var request := CalculatePodResources(pods[i]);
      cpu, memory, count := cpu + request.cpu, memory + request.memory, count + 1;
    }
    assert pods[..|pods|] == pods;
    deficit := Deficit(cpu, memory, count);
  }

  lemma NothingSeen()
    ensures forall key :: !Seen([], key)
  {
  }

  lemma SeenNext(pods: seq<Pod>, i: nat)
    requires i < |pods|
    ensures forall key :: Seen(pods[..i + 1], key) <==> Seen(pods[..i], key) || key == Key(pods[i])
  {
    assert pods[..i + 1] == pods[..i] + [pods[i]];
    forall key | Seen(pods[..i], key) ensures Seen(pods[..i + 1], key) {
      var k :| 0 <= k < i && Key(pods[..i][k]) == key;
      assert Key(pods[..i + 1][k]) == key;
    }
    assert Key(pods[..i + 1][i]) == Key(pods[i]);
  }

  // Kubernetes names contain no slash, so the key identifies the pod.
  lemma KeyIdentifies(a: Pod, b: Pod)
    requires '/' !in a.namespace && '/' !in b.namespace && Key(a) == Key(b)
    ensures a.namespace == b.namespace && a.name == b.name
  {
    FirstSlash(a);
    FirstSlash(b);
    var n := |a.namespace|;
    assert n == |b.namespace|;
    assert a.namespace == Key(a)[..n] && b.namespace == Key(b)[..n];
    assert a.name == Key(a)[n + 1..] && b.name == Key(b)[n + 1..];
  }

  lemma FirstSlash(pod: Pod)
    requires '/' !in pod.namespace
    ensures Key(pod)[|pod.namespace|] == '/'
    ensures forall i :: 0 <= i < |pod.namespace| ==> Key(pod)[i] != '/'
  {
    assert forall i :: 0 <= i < |pod.namespace| ==> Key(pod)[i] == pod.namespace[i];
  }

  // Events about one pod carry the same pod.
  predicate Consistent(pods: seq<Pod>) {
    forall i, j :: 0 <= i < |pods| && 0 <= j < |pods| && Key(pods[i]) == Key(pods[j]) ==> pods[i] == pods[j]
  }

  function Except(pods: seq<Pod>, pod: Pod): seq<Pod> {
    if pods == [] then []
    else
      var rest := Except(pods[..|pods| - 1], pod);
      if pods[|pods| - 1] == pod then rest else rest + [pods[|pods| - 1]]
  }

  lemma {:induction false} ExceptMembers(pods: seq<Pod>, pod: Pod)
    ensures forall p :: p in Except(pods, pod) <==> p in pods && p != pod
    ensures pod !in pods ==> Except(pods, pod) == pods
  {
    if pods != [] {
      ExceptMembers(pods[..|pods| - 1], pod);
      assert pods == pods[..|pods| - 1] + [pods[|pods| - 1]];
    }
  }

  lemma SeenIffMember(pods: seq<Pod>, all: seq<Pod>, pod: Pod)
    requires Consistent(all) && pod in all && forall p :: p in pods ==> p in all
    ensures Seen(pods, Key(pod)) <==> pod in pods
  {
    if Seen(pods, Key(pod)) {
      var i :| 0 <= i < |pods| && Key(pods[i]) == Key(pod);
      assert pods[i] in all;
      var j, k :| 0 <= j < |all| && 0 <= k < |all| && all[j] == pods[i] && all[k] == pod;
    }
  }

  lemma {:induction false} OnePodMore(pods: seq<Pod>, all: seq<Pod>, pod: Pod)
    requires Consistent(all) && pod in pods && forall p :: p in pods ==> p in all
    ensures DeficitOf(pods) == Plus(DeficitOf(Except(pods, pod)), RequestOf(pod))
  {
    var before, last := pods[..|pods| - 1], pods[|pods| - 1];
    assert pods == before + [last];
    ExceptMembers(before, pod);
    SeenIffMember(before, all, last);
    if pod in before {
      OnePodMore(before, all, pod);
    }
    if last != pod {
      var rest := Except(before, pod);
      SeenIffMember(rest, all, last);
      assert (rest + [last])[..|rest|] == rest;
    }
  }

  // Only which pods occur matters: reordering or repeating events changes nothing.
  lemma {:induction false} OnlyDistinctPodsCount(a: seq<Pod>, b: seq<Pod>)
    requires Consistent(a) && Consistent(b) && forall p :: p in a <==> p in b
    ensures DeficitOf(a) == DeficitOf(b)
    decreases |set p | p in a|
  {
    if a == [] {
      SomeMember(b);
    } else {
      var pod := a[0];
      assert pod in a;
      var a', b' := Except(a, pod), Except(b, pod);
      ExceptMembers(a, pod);
      ExceptMembers(b, pod);
      OnePodMore(a, a, pod);
      OnePodMore(b, b, pod);
      StaysConsistent(a', a);
      StaysConsistent(b', b);
      assert (set p | p in a') == (set p | p in a) - {pod};
      OnlyDistinctPodsCount(a', b');
    }
  }

  lemma SomeMember(pods: seq<Pod>)
    ensures pods != [] ==> exists p :: p in pods
  {
    if pods != [] {
      assert pods[0] in pods;
    }
  }

  lemma StaysConsistent(pods: seq<Pod>, all: seq<Pod>)
    requires Consistent(all) && forall p :: p in pods ==> p in all
    ensures Consistent(pods)
  {
    forall i, j | 0 <= i < |pods| && 0 <= j < |pods| && Key(pods[i]) == Key(pods[j]) ensures pods[i] == pods[j] {
      assert pods[i] in all && pods[j] in all;
      var k, l :| 0 <= k < |all| && 0 <= l < |all| && all[k] == pods[i] && all[l] == pods[j];
    }
  }

  // One entry for every pod of the events.
  ghost predicate DistinctPods(distinct: seq<Pod>, events: seq<Pod>) {
    && (forall i, j :: 0 <= i < j < |distinct| ==> distinct[i] != distinct[j])
    && forall p :: p in distinct <==> p in events
  }

  function TotalOf(pods: seq<Pod>, r: Resource): nat {
    if pods == [] then 0
    else (if r == CPU then RequestOf(pods[0]).cpu else RequestOf(pods[0]).memory) + TotalOf(pods[1..], r)
  }

  lemma {:induction false} TotalOfAll(pods: seq<Pod>, r: Resource)
    requires pods != []
    ensures var last := RequestOf(pods[|pods| - 1]);
            TotalOf(pods, r) == TotalOf(pods[..|pods| - 1], r) + if r == CPU then last.cpu else last.memory
  {
    hide RequestOf;
    var before := pods[..|pods| - 1];
    if before != [] {
      assert before[1..] == pods[1..][..|pods[1..]| - 1];
      TotalOfAll(pods[1..], r);
    }
  }

  lemma {:induction false} SumOfAll(pods: seq<Pod>)
    requires forall i, j :: 0 <= i < j < |pods| ==> Key(pods[i]) != Key(pods[j])
    ensures DeficitOf(pods) == Deficit(TotalOf(pods, CPU), TotalOf(pods, Memory), |pods|)
  {
    hide RequestOf, Key;
    if pods != [] {
      SumOfAll(pods[..|pods| - 1]);
      TotalOfAll(pods, CPU);
      TotalOfAll(pods, Memory);
    }
  }

  lemma DifferentKeys(distinct: seq<Pod>, events: seq<Pod>)
    requires Consistent(events) && DistinctPods(distinct, events)
    ensures forall i, j :: 0 <= i < j < |distinct| ==> Key(distinct[i]) != Key(distinct[j])
  {
    StaysConsistent(distinct, events);
  }

  // However often and in whatever order its pods come up, the deficit of a list of events is
  // the sum of the requests of its pods, and their number.
  lemma DeficitIsTotal(events: seq<Pod>, distinct: seq<Pod>)
    requires Consistent(events) && DistinctPods(distinct, events)
    ensures DeficitOf(events) == Deficit(TotalOf(distinct, CPU), TotalOf(distinct, Memory), |distinct|)
  {
    hide Consistent, DeficitOf, RequestOf, Key;
    StaysConsistent(distinct, events);
    OnlyDistinctPodsCount(events, distinct);
    DifferentKeys(distinct, events);
    SumOfAll(distinct);
  }

  // A pod under a key seen before adds nothing, whatever it asks for; any other adds its
  // request.
  lemma OneMoreEvent(events: seq<Pod>, pod: Pod)
    ensures var d, e := DeficitOf(events), DeficitOf(events + [pod]);
            if exists p :: p in events && p.namespace + "/" + p.name == pod.namespace + "/" + pod.name then e == d
            else e == Deficit(d.cpu + RequestOf(pod).cpu, d.memory + RequestOf(pod).memory, d.pods + 1)
  {
    hide RequestOf;
    assert (events + [pod])[..|events|] == events;
  }

  // ----- The number of nodes -----

  // n instances hold all missing CPU, memory and pods at once.
  predicate Covers(n: int, d: Deficit, cpu: nat, memoryMB: nat) {
    && d.cpu <= n * (cpu * 1000)
    && d.memory <= n * (memoryMB * MEBIBYTE)
    && d.pods <= n * MAX_PODS_PER_NODE
  }

  lemma CeilingIsLeast(amount: nat, size: nat, n: int)
    requires size > 0
    ensures amount <= n * size <==> (amount + size - 1) / size <= n
  {
    var q := (amount + size - 1) / size;
    assert q * size <= amount + size - 1 < (q + 1) * size;
    if q <= n {
      Scale(q, n, size);
    } else {
      Scale(n, q - 1, size);
    }
  }

  lemma Scale(a: int, b: int, size: nat)
    requires a <= b
    ensures a * size <= b * size
  {
  }

  // No pods, no nodes; otherwise the least positive number of instances that suffices.
  method EstimateNodesNeeded(d: Deficit, cpu: nat, memoryMB: nat) returns (n: int)
    requires cpu > 0 && memoryMB > 0
    ensures d.pods == 0 ==> n == 0
    ensures d.pods > 0 ==> n >= 1 && Covers(n, d, cpu, memoryMB)
    ensures d.pods > 0 ==> forall m :: m >= 1 && Covers(m, d, cpu, memoryMB) ==> n <= m
    ensures d.pods > 0 ==> d.cpu <= n * (cpu * 1000) && d.memory <= n * (memoryMB * 1_048_576) && d.pods <= n * 110
    ensures d.pods > 0 && n > 1 ==>
              var m := n - 1; d.cpu > m * (cpu * 1000) || d.memory > m * (memoryMB * 1_048_576) || d.pods > m * 110
  {
    if d.pods == 0 {
      return 0;
    }
    hide Covers;
    var cpuSize, memorySize := cpu * 1000, memoryMB * MEBIBYTE;
    var byCPU := (d.cpu + cpuSize - 1) / cpuSize;
    var byMemory := (d.memory + memorySize - 1) / memorySize;
    var byPods := (d.pods + MAX_PODS_PER_NODE - 1) / MAX_PODS_PER_NODE;
    n := byCPU;
    if byMemory > n {
      n := byMemory;
    }
    if byPods > n {
      n := byPods;
    }
    if n < 1 {
      n := 1;
    }
    forall m: int ensures Covers(m, d, cpu, memoryMB) <==> byCPU <= m && byMemory <= m && byPods <= m {
      CoversIff(m, d, cpu, memoryMB);
    }
  }

  lemma CoversIff(m: int, d: Deficit, cpu: nat, memoryMB: nat)
    requires cpu > 0 && memoryMB > 0
    ensures Covers(m, d, cpu, memoryMB) <==>
              && (d.cpu + cpu * 1000 - 1) / (cpu * 1000) <= m
              && (d.memory + memoryMB * MEBIBYTE - 1) / (memoryMB * MEBIBYTE) <= m
              && (d.pods + MAX_PODS_PER_NODE - 1) / MAX_PODS_PER_NODE <= m
  {
    CeilingIsLeast(d.cpu, cpu * 1000, m);
    CeilingIsLeast(d.memory, memoryMB * MEBIBYTE, m);
    CeilingIsLeast(d.pods, MAX_PODS_PER_NODE, m);
  }

  // ----- Ranking the matching NodeGroups -----

  datatype Match = Match(nodeGroup: string, score: int)

  predicate Ranked(s: seq<Match>) {
    forall i, j :: 0 <= i < j < |s| ==> s[i].score >= s[j].score
  }

  function WithScore(s: seq<Match>, score: int): seq<Match> {
    if s == [] then []
    else
      var rest := WithScore(s[..|s| - 1], score);
      if s[|s| - 1].score == score then rest + [s[|s| - 1]] else rest
  }

  lemma {:induction false} WithScoreSplit(a: seq<Match>, b: seq<Match>, score: int)
    ensures WithScore(a + b, score) == WithScore(a, score) + WithScore(b, score)
  {
    if b == [] {
      assert a + b == a;
    } else {
      assert (a + b)[..|a + b| - 1] == a + b[..|b| - 1];
      WithScoreSplit(a, b[..|b| - 1], score);
    }
  }

  // Swapping neighbours with different scores keeps the order within every score.
  lemma SwapKeepsOrder(s: seq<Match>, j: nat, score: int)
    requires j + 1 < |s| && s[j].score != s[j + 1].score
    ensures WithScore(s[j := s[j + 1]][j + 1 := s[j]], score) == WithScore(s, score)
  {
    var a, x, y, b := s[..j], s[j], s[j + 1], s[j + 2..];
    assert s == a + ([x, y] + b) && s[j := y][j + 1 := x] == a + ([y, x] + b);
    WithScoreSplit(a, [x, y] + b, score);
    WithScoreSplit(a, [y, x] + b, score);
    WithScoreSplit([x, y], b, score);
    WithScoreSplit([y, x], b, score);
    assert [x, y][..1] == [x] && [y, x][..1] == [y];
    assert WithScore([x], score) == (if x.score == score then [x] else []) by { assert [x][..0] == []; }
    assert WithScore([y], score) == (if y.score == score then [y] else []) by { assert [y][..0] == []; }
  }

  // What the entries of one score are: of a single entry it or none, of two lists both lists'
  // (WithScoreSplit). So the entries are the same, and for each score in the same order.
  lemma WithScoreOfOne(m: Match, score: int)
    ensures WithScore([m], score) == if m.score == score then [m] else []
  {
    assert [m][..0] == [];
  }

  lemma {:induction false} WithScoreHolds(s: seq<Match>, m: Match)
    ensures multiset(WithScore(s, m.score))[m] == multiset(s)[m]
  {
    if s != [] {
      WithScoreHolds(s[..|s| - 1], m);
      assert s == s[..|s| - 1] + [s[|s| - 1]];
    }
  }

  // Keeping the order within every score loses no entry and adds none.
  lemma SameEntries(s: seq<Match>, t: seq<Match>)
    requires SameOrder(s, t)
    ensures multiset(s) == multiset(t)
  {
    forall m: Match ensures multiset(s)[m] == multiset(t)[m] {
      WithScoreHolds(s, m);
      WithScoreHolds(t, m);
    }
  }

  ghost predicate SameOrder(s: seq<Match>, t: seq<Match>) {
    |s| == |t| && forall score :: WithScore(s, score) == WithScore(t, score)
  }

  // The last m entries are in their final places.
  ghost predicate Placed(s: seq<Match>, m: nat)
    requires m <= |s|
  {
    Ranked(s[|s| - m..]) && forall k, l :: 0 <= k < |s| - m <= l < |s| ==> s[k].score >= s[l].score
  }

  // Best first, and ties keep their order: within every score nothing moves.
  method SortMatches(a: array<Match>)
    modifies a
    ensures Ranked(a[..]) && SameOrder(a[..], old(a[..])) && multiset(a[..]) == multiset(old(a[..]))
  {
    hide SameOrder;
    OrderKept(a[..], a[..], a[..]);
    var n := a.Length;
    var i := 0;
    while i < n - 1
      invariant 0 <= i <= n && (n > 0 ==> i <= n - 1)
      invariant Placed(a[..], i) && SameOrder(a[..], old(a[..]))
    {
      ghost var s := a[..];
      Bubble(a, i);
      OrderKept(a[..], s, old(a[..]));
      i := i + 1;
    }
    SameEntries(a[..], old(a[..]));
  }

  method Bubble(a: array<Match>, m: nat)
    requires m < a.Length && Placed(a[..], m)
    modifies a
    ensures Placed(a[..], m + 1) && SameOrder(a[..], old(a[..]))
  {
    hide SameOrder;
    OrderKept(a[..], a[..], a[..]);
    var j := 0;
    while j < a.Length - m - 1
      invariant 0 <= j <= a.Length - m - 1
      invariant Placed(a[..], m) && SameOrder(a[..], old(a[..]))
      invariant forall k :: 0 <= k < j ==> a[k].score >= a[j].score
    {
      if a[j].score < a[j + 1].score {
        ghost var s := a[..];
        SwapNeighbours(a, j);
        OrderKept(a[..], s, old(a[..]));
        StillPlaced(s, j, m);
      }
      j := j + 1;
    }
  }

  lemma OrderKept(s: seq<Match>, t: seq<Match>, u: seq<Match>)
    ensures SameOrder(s, s) && (SameOrder(s, t) && SameOrder(t, u) ==> SameOrder(s, u))
  {
  }

  lemma StillPlaced(s: seq<Match>, j: nat, m: nat)
    requires m <= |s| && j + 1 < |s| - m && Placed(s, m)
    ensures Placed(s[j := s[j + 1]][j + 1 := s[j]], m)
  {
    assert s[j := s[j + 1]][j + 1 := s[j]][|s| - m..] == s[|s| - m..];
  }

  method SwapNeighbours(a: array<Match>, j: nat)
    requires j + 1 < a.Length && a[j].score != a[j + 1].score
    modifies a
    ensures a[..] == old(a[..])[j := old(a[j + 1])][j + 1 := old(a[j])]
    ensures SameOrder(a[..], old(a[..]))
  {
    ghost var s := a[..];
    forall score ensures WithScore(s[j := s[j + 1]][j + 1 := s[j]], score) == WithScore(s, score) {
      SwapKeepsOrder(s, j, score);
    }
    a[j], a[j + 1] := a[j + 1], a[j];
    assert a[..] == s[j := s[j + 1]][j + 1 := s[j]];
  }
}
