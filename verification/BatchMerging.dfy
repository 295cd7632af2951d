// What merging the batches of a rebalance plan means (pkg/rebalancer/planner.go:287-308, 371-402),
// on the node lists alone. Slices and in-place appends are in RebalancePlanner.dfy.
module BatchMerging {

  datatype Workload = Workload(hasPDB: bool, hasLocalStorage: bool, isCritical: bool)

  datatype Candidate = Candidate(
    nodeName: string,
    currentOffering: string,
    targetOffering: string,
    workloads: seq<Workload>)

  type Nodes = seq<Candidate>

  datatype Config = Config(batchSize: int, maxConcurrent: int, drainTimeout: int, provisionTimeout: int)

  const MINUTE := 60_000_000_000

  function Concat(batches: seq<Nodes>): Nodes {
    if batches == [] then [] else batches[0] + Concat(batches[1..])
  }

  function Flatten(groups: seq<seq<Nodes>>): seq<Nodes> {
    if groups == [] then [] else groups[0] + Flatten(groups[1..])
  }

  // The greedy merge: `current` is the group being filled.
  function Merge(current: Nodes, batches: seq<Nodes>, limit: int): seq<Nodes>
    decreases |batches|
  {
    if batches == [] then
      if current == [] then [] else [current]
    else if |current| + |batches[0]| > limit then
      (if current == [] then [] else [current]) + Merge(batches[0], batches[1..], limit)
    else
      Merge(current + batches[0], batches[1..], limit)
  }

  // ----- Groupings: the reference -----

  function Used(groups: seq<seq<Nodes>>): nat {
    if groups == [] then 0 else (if Concat(groups[0]) == [] then 0 else 1) + Used(groups[1..])
  }

  // A group may be executed together if it stays within the limit; a batch that is too
  // large on its own can only stand alone (next to empty batches).
  ghost predicate Admissible(group: seq<Nodes>, limit: int) {
    || |Concat(group)| <= limit
    || Concat(group) == []
    || exists i: nat :: Lone(group, i)
  }

  ghost predicate Lone(group: seq<Nodes>, i: nat) {
    && i < |group|
    && Concat(group[..i]) == [] == Concat(group[i + 1..])
  }

  // The groups are consecutive runs of the batches, in order, none left out.
  ghost predicate IsGrouping(groups: seq<seq<Nodes>>, batches: seq<Nodes>, limit: int) {
    && Flatten(groups) == batches
    && forall i | 0 <= i < |groups| :: Admissible(groups[i], limit)
  }

  // The grouping the greedy merge follows.
  function Followed(filling: seq<Nodes>, batches: seq<Nodes>, limit: int): seq<seq<Nodes>>
    decreases |batches|
  {
    if batches == [] then [filling]
    else if |Concat(filling)| + |batches[0]| > limit && Concat(filling) != [] then
      [filling] + Followed([batches[0]], batches[1..], limit)
    else
      Followed(filling + [batches[0]], batches[1..], limit)
  }

  function NodesOf(groups: seq<seq<Nodes>>): seq<Nodes> {
    if groups == [] then []
    else (if Concat(groups[0]) == [] then [] else [Concat(groups[0])]) + NodesOf(groups[1..])
  }

  lemma {:induction false} ConcatSplit(a: seq<Nodes>, b: seq<Nodes>)
    ensures Concat(a + b) == Concat(a) + Concat(b)
  {
    if a == [] {
      assert a + b == b;
    } else {
      assert (a + b)[1..] == a[1..] + b;
      ConcatSplit(a[1..], b);
    }
  }

  lemma ConcatAdd(filling: seq<Nodes>, batch: Nodes)
    ensures Concat(filling + [batch]) == Concat(filling) + batch
  {
    ConcatSplit(filling, [batch]);
    assert Concat([batch]) == batch + Concat([batch][1..]);
  }

  // Swapping the group being filled never costs or saves more than one group.
  lemma {:induction false} Exchange(a: Nodes, b: Nodes, batches: seq<Nodes>, limit: int)
    requires |a| <= |b|
    ensures |Merge(a, batches, limit)| <= |Merge(b, batches, limit)| <= |Merge(a, batches, limit)| + 1
    decreases |batches|
  {
    if batches != [] {
      var first, rest := batches[0], batches[1..];
      if |b| + |first| <= limit {
        Exchange(a + first, b + first, rest, limit);
      } else if |a| + |first| <= limit {
        Exchange(first, a + first, rest, limit);
      }
    }
  }

  lemma {:induction false} Fits(current: Nodes, group: seq<Nodes>, rest: seq<Nodes>, limit: int)
    requires |current| + |Concat(group)| <= limit
    ensures Merge(current, group + rest, limit) == Merge(current + Concat(group), rest, limit)
    decreases |group|
  {
    if group == [] {
      assert group + rest == rest && current + Concat(group) == current;
    } else {
      assert (group + rest)[1..] == group[1..] + rest;
      assert current + Concat(group) == (current + group[0]) + Concat(group[1..]);
      Fits(current + group[0], group[1..], rest, limit);
    }
  }

  lemma {:induction false} EmptiesVanish(group: seq<Nodes>, rest: seq<Nodes>, limit: int)
    requires Concat(group) == []
    ensures Merge([], group + rest, limit) == Merge([], rest, limit)
    decreases |group|
  {
    if group == [] {
      assert group + rest == rest;
    } else {
      assert (group + rest)[1..] == group[1..] + rest;
      assert group[0] == [] && [] + group[0] == [];
      EmptiesVanish(group[1..], rest, limit);
    }
  }

  lemma LoneCost(group: seq<Nodes>, i: nat, rest: seq<Nodes>, limit: int)
    requires Lone(group, i) && group[i] != []
    ensures |Merge([], group + rest, limit)| <= |Merge([], rest, limit)| + 1
  {
    var before, batch, after := group[..i], group[i], group[i + 1..];
    assert group + rest == before + ([batch] + (after + rest));
    EmptiesVanish(before, [batch] + (after + rest), limit);
    FirstAlone(batch, after + rest, limit);
    EmptiesVanish(after, rest, limit);
  }

  lemma FirstAlone(batch: Nodes, rest: seq<Nodes>, limit: int)
    requires batch != []
    ensures |Merge([], [batch] + rest, limit)| <= |Merge([], rest, limit)| + 1
  {
    assert ([batch] + rest)[1..] == rest && [] + batch == batch;
    Exchange([], batch, rest, limit);
  }

  // One group of any admissible grouping costs the greedy merge at most one group.
  lemma GroupCost(group: seq<Nodes>, rest: seq<Nodes>, limit: int)
    requires Admissible(group, limit)
    ensures |Merge([], group + rest, limit)|
              <= |Merge([], rest, limit)| + if Concat(group) == [] then 0 else 1
  {
    hide Merge;
    if Concat(group) == [] {
      EmptiesVanish(group, rest, limit);
    } else if |Concat(group)| <= limit {
      Fits([], group, rest, limit);
      assert [] + Concat(group) == Concat(group);
      Exchange([], Concat(group), rest, limit);
    } else {
      var i: nat :| Lone(group, i);
      LoneBatch(group, i);
      LoneCost(group, i, rest, limit);
    }
  }

  lemma LoneBatch(group: seq<Nodes>, i: nat)
    requires Lone(group, i)
    ensures Concat(group) == group[i]
  {
    assert group == group[..i] + ([group[i]] + group[i + 1..]);
    ConcatSplit(group[..i], [group[i]] + group[i + 1..]);
    assert ([group[i]] + group[i + 1..])[1..] == group[i + 1..];
  }

  // No admissible grouping of the batches, in order, needs fewer groups than the merge makes.
  lemma {:induction false} MergeIsOptimal(groups: seq<seq<Nodes>>, batches: seq<Nodes>, limit: int)
    requires IsGrouping(groups, batches, limit)
    ensures |Merge([], batches, limit)| <= Used(groups)
    decreases |groups|
  {
    if groups != [] {
      assert IsGrouping(groups[1..], Flatten(groups[1..]), limit);
      MergeIsOptimal(groups[1..], Flatten(groups[1..]), limit);
      GroupCost(groups[0], Flatten(groups[1..]), limit);
    }
  }

  lemma {:induction false} FollowedGroups(filling: seq<Nodes>, batches: seq<Nodes>, limit: int)
    requires Admissible(filling, limit)
    ensures IsGrouping(Followed(filling, batches, limit), filling + batches, limit)
    ensures NodesOf(Followed(filling, batches, limit)) == Merge(Concat(filling), batches, limit)
    ensures |Merge(Concat(filling), batches, limit)| == Used(Followed(filling, batches, limit))
    decreases |batches|
  {
    if batches == [] {
      assert filling + batches == filling == Flatten([filling]);
    } else {
      var first, rest := batches[0], batches[1..];
      assert filling + batches == (filling + [first]) + rest;
      ConcatAdd(filling, first);
      assert Concat([first]) == first by { ConcatAdd([], first); assert [] + [first] == [first]; }
      if |Concat(filling)| + |first| > limit && Concat(filling) != [] {
        assert Lone([first], 0);
        FollowedGroups([first], rest, limit);
        var tail := Followed([first], rest, limit);
        assert ([filling] + tail)[1..] == tail;
        assert filling + batches == filling + ([first] + rest);
      } else {
        if |Concat(filling)| + |first| > limit {
          assert (filling + [first])[..|filling|] == filling && (filling + [first])[|filling| + 1..] == [];
          assert Lone(filling + [first], |filling|);
          assert Concat(filling) + first == first;
        }
        FollowedGroups(filling + [first], rest, limit);
      }
    }
  }

  // The merge itself is an admissible grouping of the batches with that many groups.
  lemma MergeIsAttained(batches: seq<Nodes>, limit: int)
    ensures var groups := Followed([], batches, limit);
            && IsGrouping(groups, batches, limit)
            && NodesOf(groups) == Merge([], batches, limit)
            && |Merge([], batches, limit)| == Used(groups)
  {
    FollowedGroups([], batches, limit);
    assert [] + batches == batches;
  }

  lemma {:induction false} MergeKeepsNodes(current: Nodes, batches: seq<Nodes>, limit: int)
    ensures Concat(Merge(current, batches, limit)) == current + Concat(batches)
    decreases |batches|
  {
    if batches == [] {
      if current != [] {
        assert Concat([current]) == current + Concat([current][1..]);
      }
    } else {
      var first, rest := batches[0], batches[1..];
      if |current| + |first| > limit {
        MergeKeepsNodes(first, rest, limit);
        if current != [] {
          assert ([current] + Merge(first, rest, limit))[1..] == Merge(first, rest, limit);
        } else {
          assert [] + Merge(first, rest, limit) == Merge(first, rest, limit);
        }
      } else {
        MergeKeepsNodes(current + first, rest, limit);
        assert current + (first + Concat(rest)) == (current + first) + Concat(rest);
      }
    }
  }

  lemma {:induction false} MergedGroupsFit(current: Nodes, batches: seq<Nodes>, limit: int)
    requires |current| <= limit && forall k | 0 <= k < |batches| :: |batches[k]| <= limit
    ensures var groups := Merge(current, batches, limit);
            forall group | group in groups :: 0 < |group| <= limit
    decreases |batches|
  {
    if batches != [] {
      var first, rest := batches[0], batches[1..];
      MergedGroupsFit(if |current| + |first| > limit then first else current + first, rest, limit);
    }
  }

  // ----- Duration estimates -----

  function BaseTime(config: Config): int {
    config.provisionTimeout + config.drainTimeout + MINUTE
  }

  // The estimate of two or more nodes divides by the concurrency.
  predicate Estimable(config: Config, nodeCount: int) {
    nodeCount <= 1 || config.maxConcurrent != 0
  }

  function Estimate(config: Config, nodeCount: nat): int
    requires Estimable(config, nodeCount)
  {
    if nodeCount <= 1 then BaseTime(config)
    else
      var concurrent := if nodeCount < config.maxConcurrent then nodeCount else config.maxConcurrent;
      GoDiv(BaseTime(config) * nodeCount, concurrent)
  }

  // Go truncates the quotient toward zero.
  function GoDiv(a: int, b: int): int
    requires b != 0
  {
    if a >= 0 then (if b > 0 then a / b else -(a / -b))
    else if b > 0 then -(-a / b) else -a / -b
  }

  function TotalEstimate(config: Config, batches: seq<Nodes>): int
    requires config.maxConcurrent != 0
  {
    if batches == [] then 0 else Estimate(config, |batches[0]|) + TotalEstimate(config, batches[1..])
  }

  lemma MulMonotone(x: nat, y: nat, c: nat)
    requires x <= y
    ensures x * c <= y * c
  {
  }

  lemma DivideBack(a: nat, b: nat, c: nat)
    requires 0 < c <= b
    ensures a * b / c >= a
    ensures c == b ==> a * b / c == a
  {
    var q := a * b / c;
    assert q * c <= a * b < (q + 1) * c;
    MulMonotone(c, b, a);
    if q + 1 <= a {
      MulMonotone(q + 1, a, c);
    } else if c == b && a + 1 <= q {
      MulMonotone(a + 1, q, c);
    }
  }

  lemma EstimateBounds(config: Config, n: nat)
    requires config.maxConcurrent >= 1 && BaseTime(config) >= 0
    ensures Estimate(config, n) >= BaseTime(config)
    ensures n <= config.maxConcurrent ==> Estimate(config, n) == BaseTime(config)
  {
    if n > 1 {
      DivideBack(BaseTime(config), n, if n < config.maxConcurrent then n else config.maxConcurrent);
    }
  }

  // One round of provisioning, draining and a minute more is enough for as many nodes as are
  // replaced at once; beyond that the estimate is the whole part of its share for each node.
  lemma EstimateExactly(config: Config, n: nat)
    requires config.maxConcurrent >= 1 && config.provisionTimeout + config.drainTimeout + 60_000_000_000 >= 0
    ensures var round := config.provisionTimeout + config.drainTimeout + 60_000_000_000;
            var estimate, limit := Estimate(config, n), config.maxConcurrent;
            && (n <= limit ==> estimate == round)
            && (n > limit ==> estimate * limit <= round * n < estimate * limit + limit)
  {
    EstimateBounds(config, n);
    if n > config.maxConcurrent {
      DividesDown(BaseTime(config) * n, config.maxConcurrent);
    }
  }

  lemma DividesDown(a: int, c: nat)
    requires c > 0
    ensures a / c * c <= a < a / c * c + c
  {
  }

  // Merging never makes the summed estimate grow.
  lemma {:induction false} MergeNeverSlower(config: Config, current: Nodes, batches: seq<Nodes>)
    requires config.maxConcurrent >= 1 && BaseTime(config) >= 0
    ensures TotalEstimate(config, Merge(current, batches, config.maxConcurrent))
              <= (if current == [] then 0 else Estimate(config, |current|)) + TotalEstimate(config, batches)
    decreases |batches|
  {
    var limit := config.maxConcurrent;
    EstimateBounds(config, |current|);
    if batches != [] {
      var first, rest := batches[0], batches[1..];
      EstimateBounds(config, |first|);
      if |current| + |first| > limit {
        MergeNeverSlower(config, first, rest);
        var tail := Merge(first, rest, limit);
        if current != [] {
          assert ([current] + tail)[1..] == tail;
        } else {
          assert [] + tail == tail;
        }
      } else {
        EstimateBounds(config, |current + first|);
        MergeNeverSlower(config, current + first, rest);
      }
    }
  }
}
