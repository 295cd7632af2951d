// The rebalance planner over Go slices (pkg/rebalancer/planner.go). A slice is an array
// with an offset, a length and a capacity, and an append writes into the array whenever
// the capacity allows it, so batches, merged batches and the candidate list share cells.
module RebalancePlanner {
  import opened BatchMerging

  datatype Slice = Slice(cells: array<Candidate>, offset: nat, len: nat, cap: nat) {
    ghost predicate Valid() {
      len <= cap && offset + cap <= cells.Length
    }

    function Contents(): Nodes
      requires Valid()
      reads cells
    {
      cells[offset..offset + len]
    }
  }

  datatype NodeBatch = NodeBatch(
    batchNumber: int,
    nodes: Slice,
    estimatedDuration: int,
    dependsOn: seq<int>)

  function Min(a: int, b: int): int {
    if a < b then a else b
  }

  // Go's append(s, t...): in place within the capacity, else into a new, larger array.
  method Append(s: Slice, t: Slice, filler: Candidate) returns (r: Slice)
    requires s.Valid() && t.Valid()
    modifies s.cells
    ensures r.Valid() && r.len == s.len + t.len
    ensures s.len + t.len <= s.cap ==> r == s.(len := s.len + t.len)
    ensures s.len + t.len > s.cap ==> fresh(r.cells) && s.cells[..] == old(s.cells[..])
    ensures r.Contents() == old(s.Contents() + t.Contents())
    ensures forall k | 0 <= k < s.cells.Length && !(s.offset + s.len <= k < s.offset + s.len + t.len) ::
              s.cells[k] == old(s.cells[k])
  {
    ghost var joined := s.Contents() + t.Contents();
    if s.len + t.len <= s.cap {
      var base, moved := s.offset + s.len, t.cells[t.offset..t.offset + t.len];
      forall k | 0 <= k < t.len {
        s.cells[base + k] := moved[k];
      }
      r := s.(len := s.len + t.len);
      assert forall k | 0 <= k < r.len :: r.cells[r.offset + k] == joined[k];
    } else {
      r := Grow(s.cells[s.offset..s.offset + s.len], t.cells[t.offset..t.offset + t.len], filler);
    }
    assert r.Contents() == joined;
  }

  method Grow(left: Nodes, right: Nodes, filler: Candidate) returns (r: Slice)
    ensures fresh(r.cells) && r.Valid() && r.Contents() == left + right
  {
    var joined := left + right;
    var grown := new Candidate[2 * |joined|](k requires 0 <= k => if k < |joined| then joined[k] else filler);
    r := Slice(grown, 0, |joined|, 2 * |joined|);
    assert forall k | 0 <= k < |joined| :: grown[k] == joined[k];
  }

  // ----- Batching -----

  // Batch number k of size `size`: the cells from k * size, free to grow to the end.
  function Planned(config: Config, nodes: Slice, size: nat, k: nat): NodeBatch
    requires Estimable(config, Min(size, nodes.len)) && k * size < nodes.len <= nodes.cap
  {
    var len := Min(size, nodes.len - k * size);
    NodeBatch(k, Slice(nodes.cells, nodes.offset + k * size, len, nodes.cap - k * size),
              Estimate(config, len), if k == 0 then [] else [k - 1])
  }

  ghost predicate IsBatching(config: Config, nodes: Slice, size: nat, batches: seq<NodeBatch>)
    requires Estimable(config, Min(size, nodes.len)) && nodes.len <= nodes.cap
  {
    && (forall k | 0 <= k < |batches| ::
          k * size < nodes.len && batches[k] == Planned(config, nodes, size, k))
    && nodes.len <= |batches| * size
  }

  lemma NextMultiple(k: nat, size: nat)
    ensures (k + 1) * size == k * size + size
  {
  }

  method BatchNodes(config: Config, nodes: Slice, batchSize: int) returns (batches: seq<NodeBatch>)
    requires nodes.Valid() && (batchSize <= 0 ==> config.batchSize >= 1)
    requires Estimable(config, Min(if batchSize <= 0 then config.batchSize else batchSize, nodes.len))
    ensures IsBatching(config, nodes, if batchSize <= 0 then config.batchSize else batchSize, batches)
  {
    hide Estimate;
    var size := if batchSize <= 0 then config.batchSize else batchSize;
    batches := [];
    var i := 0;
    while i < nodes.len
      invariant i == |batches| * size
      invariant forall k | 0 <= k < |batches| ::
                  k * size < nodes.len && batches[k] == Planned(config, nodes, size, k)
      decreases nodes.len - i
    {
      var end := Min(i + size, nodes.len);
      var part := Slice(nodes.cells, nodes.offset + i, end - i, nodes.cap - i);
      var number := |batches|;
      var batch := NodeBatch(number, part, Estimate(config, part.len), if number > 0 then [number - 1] else []);
      assert batch == Planned(config, nodes, size, number);
      NextMultiple(number, size);
      batches := batches + [batch];
      i := i + size;
    }
  }

  // Gap-free consecutive slices of one array, each free to grow to the end of `nodes`.
  ghost predicate Tiles(nodes: Slice, batches: seq<NodeBatch>) {
    && nodes.Valid()
    && (forall k | 0 <= k < |batches| ::
          && batches[k].nodes.cells == nodes.cells
          && batches[k].nodes.len <= batches[k].nodes.cap
          && batches[k].nodes.offset + batches[k].nodes.cap == nodes.offset + nodes.cap)
    && (forall k | 0 < k < |batches| ::
          batches[k].nodes.offset == batches[k - 1].nodes.offset + batches[k - 1].nodes.len)
  }

  // The cells each batch covers in an array holding `all`.
  ghost function PartsOf(all: Nodes, batches: seq<NodeBatch>): (parts: seq<Nodes>)
    requires forall k | 0 <= k < |batches| :: batches[k].nodes.offset + batches[k].nodes.len <= |all|
    ensures |parts| == |batches|
  {
    seq(|batches|, k requires 0 <= k < |batches| =>
      all[batches[k].nodes.offset..batches[k].nodes.offset + batches[k].nodes.len])
  }

  lemma BatchingTiles(config: Config, nodes: Slice, size: nat, batches: seq<NodeBatch>)
    requires nodes.Valid() && Estimable(config, Min(size, nodes.len)) && size >= 1
    requires IsBatching(config, nodes, size, batches)
    ensures Tiles(nodes, batches)
  {
    hide Estimate;
    forall k | 0 < k < |batches|
      ensures batches[k].nodes.offset == batches[k - 1].nodes.offset + batches[k - 1].nodes.len
    {
      NextMultiple(k - 1, size);
      assert k * size < nodes.len && batches[k] == Planned(config, nodes, size, k);
    }
  }

  ghost predicate IsGroup(config: Config, batch: NodeBatch, k: nat, group: Nodes)
    requires config.maxConcurrent != 0
    reads batch.nodes.cells
  {
    && batch.nodes.Valid() && batch.nodes.Contents() == group
    && batch.batchNumber == k
    && batch.dependsOn == []
    && batch.estimatedDuration == Estimate(config, |group|)
  }

  ghost predicate Holds(config: Config, merged: seq<NodeBatch>, groups: seq<Nodes>)
    requires config.maxConcurrent != 0
    reads set k | 0 <= k < |merged| :: merged[k].nodes.cells
  {
    |merged| == |groups| && forall k | 0 <= k < |merged| :: IsGroup(config, merged[k], k, groups[k])
  }

  // `current` lives in an array of its own, which only the first group can, or ends right
  // where `next` begins in the candidate list.
  ghost predicate Fillable(nodes: Slice, current: Slice, merged: seq<NodeBatch>, next: nat) {
    && nodes.Valid() && current.Valid()
    && if current.cells != nodes.cells then merged == []
       else current.offset + current.cap == nodes.offset + nodes.cap && current.offset + current.len == next
  }

  // Appending to a slice of the candidate list whose neighbour is the appended batch
  // overwrites that batch with itself, so no array and no group already merged changes.
  method AppendBatch(config: Config, nodes: Slice, current: Slice, batch: Slice, filler: Candidate,
                     ghost merged: seq<NodeBatch>, ghost done: seq<Nodes>) returns (r: Slice)
    requires config.maxConcurrent != 0
    requires Fillable(nodes, current, merged, batch.offset) && Holds(config, merged, done)
    requires batch.Valid() && batch.cells == nodes.cells && batch.offset + batch.cap == nodes.offset + nodes.cap
    modifies current.cells
    ensures nodes.cells[..] == old(nodes.cells[..])
    ensures r.cells == current.cells || fresh(r.cells)
    ensures Fillable(nodes, r, merged, batch.offset + batch.len) && Holds(config, merged, done)
    ensures r.Contents() == old(current.Contents() + batch.Contents())
  {
    hide Estimate;
    ghost var all := nodes.cells[..];
    r := Append(current, batch, filler);
    if current.cells == nodes.cells {
      forall k | 0 <= k < nodes.cells.Length
        ensures nodes.cells[k] == all[k]
      {
        if batch.offset <= k < batch.offset + batch.len {
          assert r.Contents()[k - r.offset] == nodes.cells[k];
        }
      }
    }
    assert nodes.cells[..] == all;
    forall k | 0 <= k < |merged|
      ensures IsGroup(config, merged[k], k, done[k])
    {
      assert merged[k].nodes.Contents() == old(merged[k].nodes.Contents());
    }
  }

  lemma MergeStep(done: seq<Nodes>, current: Nodes, parts: seq<Nodes>, i: nat, limit: int)
    requires i < |parts|
    ensures done + Merge(current, parts[i..], limit) ==
              if |current| + |parts[i]| > limit then
                (if current == [] then done else done + [current]) + Merge(parts[i], parts[i + 1..], limit)
              else done + Merge(current + parts[i], parts[i + 1..], limit)
  {
    assert parts[i..][0] == parts[i] && parts[i..][1..] == parts[i + 1..];
  }

  lemma MergeEnd(done: seq<Nodes>, current: Nodes, parts: seq<Nodes>, limit: int)
    ensures done + Merge(current, parts[|parts|..], limit) == if current == [] then done else done + [current]
  {
  }

  function Closed(config: Config, number: nat, current: Slice): NodeBatch
    requires config.maxConcurrent != 0
  {
    NodeBatch(number, current, Estimate(config, current.len), [])
  }

  lemma HoldsNone(config: Config)
    requires config.maxConcurrent != 0
    ensures Holds(config, [], [])
  {
  }

  lemma HoldsMore(config: Config, merged: seq<NodeBatch>, done: seq<Nodes>, current: Slice)
    requires config.maxConcurrent != 0 && current.Valid() && Holds(config, merged, done)
    ensures Holds(config, merged + [Closed(config, |merged|, current)], done + [current.Contents()])
  {
    hide Estimate;
  }

  method MergeBatches(config: Config, nodes: Slice, batches: seq<NodeBatch>, limit: int, filler: Candidate)
    returns (merged: seq<NodeBatch>)
    requires Tiles(nodes, batches) && config.maxConcurrent != 0
    modifies nodes.cells
    ensures nodes.cells[..] == old(nodes.cells[..])
    ensures Holds(config, merged, Merge([], PartsOf(nodes.cells[..], batches), limit))
  {
    hide Estimate, Merge, Holds, Closed;
    ghost var all := nodes.cells[..];
    ghost var parts := PartsOf(all, batches);
    ghost var done: seq<Nodes> := [];
    assert parts[0..] == parts;
    var none := new Candidate[0];
    var current, number := Slice(none, 0, 0, 0), 0;
    merged := [];
    HoldsNone(config);
    for i := 0 to |batches|
      invariant nodes.cells[..] == all
      invariant number == |merged| == |done| && Holds(config, merged, done)
      invariant current.cells == nodes.cells || fresh(current.cells)
      invariant Fillable(nodes, current, merged,
                         if i < |batches| then batches[i].nodes.offset else current.offset + current.len)
      invariant done + Merge(current.Contents(), parts[i..], limit) == Merge([], parts, limit)
    {
      var batch := batches[i];
      assert batch.nodes.Contents() == parts[i];
      MergeStep(done, current.Contents(), parts, i, limit);
      if current.len + batch.nodes.len > limit {
        if current.len > 0 {
          HoldsMore(config, merged, done, current);
          done := done + [current.Contents()];
          merged := merged + [Closed(config, number, current)];
        }
        current, number := batch.nodes, |merged|;
      } else {
        current := AppendBatch(config, nodes, current, batch.nodes, filler, merged, done);
      }
    }
    MergeEnd(done, current.Contents(), parts, limit);
    if current.len > 0 {
      HoldsMore(config, merged, done, current);
      done := done + [current.Contents()];
      merged := merged + [Closed(config, number, current)];
    }
  }

  // ----- What batching and merging guarantee together -----

  lemma {:induction false} TilesConcat(nodes: Slice, batches: seq<NodeBatch>, all: Nodes, n: nat)
    requires Tiles(nodes, batches) && |all| == nodes.cells.Length && 0 < n <= |batches|
    ensures batches[0].nodes.offset <= batches[n - 1].nodes.offset
    ensures Concat(PartsOf(all, batches)[..n])
              == all[batches[0].nodes.offset..batches[n - 1].nodes.offset + batches[n - 1].nodes.len]
  {
    var parts := PartsOf(all, batches);
    assert parts[..n] == parts[..n - 1] + [parts[n - 1]];
    ConcatAdd(parts[..n - 1], parts[n - 1]);
    if n > 1 {
      TilesConcat(nodes, batches, all, n - 1);
    } else {
      assert parts[..0] == [] && [] + parts[0] == parts[0];
    }
  }

  // Batch i is number i and waits for batch i - 1 only.
  predicate Chained(batches: seq<NodeBatch>) {
    forall i | 0 <= i < |batches| ::
      batches[i].batchNumber == i && batches[i].dependsOn == if i == 0 then [] else [i - 1]
  }

  lemma BatchSizes(config: Config, nodes: Slice, size: nat, batches: seq<NodeBatch>)
    requires Estimable(config, Min(size, nodes.len)) && size >= 1 && nodes.len <= nodes.cap
    requires IsBatching(config, nodes, size, batches)
    ensures Chained(batches)
    ensures forall k | 0 <= k < |batches| :: 0 < batches[k].nodes.len <= size
    ensures forall k | 0 <= k < |batches| - 1 :: batches[k].nodes.len == size
    ensures batches == [] <==> nodes.len == 0
    ensures batches != [] ==>
              var last := batches[|batches| - 1].nodes;
              batches[0].nodes.offset == nodes.offset && last.offset + last.len == nodes.offset + nodes.len
  {
    hide Estimate;
    var n := |batches|;
    forall k | 0 <= k < n - 1
      ensures batches[k].nodes.len == size
    {
      NextMultiple(k, size);
      assert (k + 1) * size < nodes.len;
    }
    if n > 0 {
      assert batches[0] == Planned(config, nodes, size, 0);
      assert batches[n - 1] == Planned(config, nodes, size, n - 1);
      NextMultiple(n - 1, size);
    }
  }

  // The batches cut the candidates, in order, into ceil(n/size) chained parts, all full but the last.
  lemma BatchesPartition(config: Config, nodes: Slice, size: nat, batches: seq<NodeBatch>)
    requires nodes.Valid() && Estimable(config, Min(size, nodes.len)) && size >= 1
    requires IsBatching(config, nodes, size, batches)
    ensures Tiles(nodes, batches) && Concat(PartsOf(nodes.cells[..], batches)) == nodes.Contents()
    ensures |batches| == (nodes.len + size - 1) / size
    ensures forall k | 0 <= k < |batches| :: 0 < batches[k].nodes.len <= size
    ensures forall k | 0 <= k < |batches| - 1 :: batches[k].nodes.len == size
    ensures Chained(batches)
  {
    hide Estimate, Planned;
    BatchingTiles(config, nodes, size, batches);
    BatchSizes(config, nodes, size, batches);
    var n := |batches|;
    Ceiling(nodes.len, size, n);
    if n > 0 {
      TilesConcat(nodes, batches, nodes.cells[..], n);
      var parts := PartsOf(nodes.cells[..], batches);
      assert parts[..n] == parts;
    }
  }

  lemma Ceiling(total: nat, size: nat, n: nat)
    requires size >= 1 && total <= n * size && (n > 0 ==> (n - 1) * size < total)
    ensures n == (total + size - 1) / size
  {
    var q := (total + size - 1) / size;
    assert q * size <= total + size - 1 < (q + 1) * size;
    NextMultiple(q, size);
    if q + 1 <= n {
      MulMonotone(q, n - 1, size);
    } else if n + 1 <= q {
      MulMonotone(n + 1, q, size);
      NextMultiple(n, size);
    }
  }

  // Batching and then merging: the candidates in order, in as few groups as any admissible
  // grouping of the batches and estimated no longer; if the batches fit the limit, non-empty
  // groups within it.
  lemma MergedPlan(config: Config, nodes: Slice, size: nat, batches: seq<NodeBatch>, groups: seq<seq<Nodes>>)
    requires nodes.Valid() && size >= 1 && config.maxConcurrent >= 1 && BaseTime(config) >= 0
    requires IsBatching(config, nodes, size, batches)
    requires IsGrouping(groups, PartsOf(nodes.cells[..], batches), config.maxConcurrent)
    ensures var parts := PartsOf(nodes.cells[..], batches);
            var merged := Merge([], parts, config.maxConcurrent);
            && Concat(merged) == nodes.Contents()
            && (size <= config.maxConcurrent ==> forall group | group in merged :: 0 < |group| <= config.maxConcurrent)
            && |merged| <= Used(groups)
            && TotalEstimate(config, merged) <= TotalEstimate(config, parts)
  {
    hide Estimate, Merge, IsBatching, Planned, IsGrouping;
    BatchesPartition(config, nodes, size, batches);
    var parts := PartsOf(nodes.cells[..], batches);
    MergeKeepsNodes([], parts, config.maxConcurrent);
    if size <= config.maxConcurrent {
      MergedGroupsFit([], parts, config.maxConcurrent);
    }
    MergeIsOptimal(groups, parts, config.maxConcurrent);
    MergeNeverSlower(config, [], parts);
  }

  // ----- Executing batches in dependency order -----

  // GetBatchByNumber: the first batch carrying the number, or the length if there is none.
  function Find(batches: seq<NodeBatch>, number: int): (i: nat)
    ensures i <= |batches|
    ensures i < |batches| ==> batches[i].batchNumber == number
    ensures forall j | 0 <= j < i :: batches[j].batchNumber != number
  {
    if batches == [] || batches[0].batchNumber == number then 0 else 1 + Find(batches[1..], number)
  }

  predicate CanRun(batches: seq<NodeBatch>, number: int, completed: seq<int>) {
    var i := Find(batches, number);
    i < |batches| && forall k | 0 <= k < |batches[i].dependsOn| :: batches[i].dependsOn[k] in completed
  }

  method CanExecuteBatch(batches: seq<NodeBatch>, number: int, completed: seq<int>) returns (can: bool)
    ensures can <==> CanRun(batches, number, completed)
  {
    var i := 0;
    while i < |batches| && batches[i].batchNumber != number
      invariant 0 <= i <= |batches|
      invariant forall j | 0 <= j < i :: batches[j].batchNumber != number
    {
      i := i + 1;
    }
    if i == |batches| {
      return false;
    }
    for d := 0 to |batches[i].dependsOn|
      invariant forall k | 0 <= k < d :: batches[i].dependsOn[k] in completed
    {
      var found := false;
      for c := 0 to |completed|
        invariant found <==> batches[i].dependsOn[d] in completed[..c]
      {
        assert completed[..c + 1] == completed[..c] + [completed[c]];
        if batches[i].dependsOn[d] == completed[c] {
          found := true;
        }
      }
      assert completed[..|completed|] == completed;
      if !found {
        return false;
      }
    }
    return true;
  }

  // A schedule runs each batch number at most once, each when CanExecuteBatch allows it.
  ghost predicate Admitted(batches: seq<NodeBatch>, schedule: seq<int>) {
    && (forall i, j | 0 <= i < j < |schedule| :: schedule[i] != schedule[j])
    && forall i | 0 <= i < |schedule| :: CanRun(batches, schedule[i], schedule[..i])
  }

  // Of a chained plan the only admitted schedules are 0, 1, 2, ... up to some point.
  lemma OnlySchedule(batches: seq<NodeBatch>, schedule: seq<int>)
    requires Chained(batches)
    ensures Admitted(batches, schedule) <==>
              |schedule| <= |batches| && forall i | 0 <= i < |schedule| :: schedule[i] == i
  {
    if Admitted(batches, schedule) {
      InOrder(batches, schedule, |schedule|);
    } else if |schedule| <= |batches| && forall i | 0 <= i < |schedule| :: schedule[i] == i {
      forall i | 0 <= i < |schedule|
        ensures CanRun(batches, schedule[i], schedule[..i])
      {
        assert batches[i].batchNumber == i && (forall j | 0 <= j < i :: batches[j].batchNumber == j);
        assert Find(batches, i) == i;
        assert i > 0 ==> schedule[..i][i - 1] == i - 1;
      }
    }
  }

  lemma {:induction false} InOrder(batches: seq<NodeBatch>, schedule: seq<int>, n: nat)
    requires Chained(batches) && Admitted(batches, schedule) && n <= |schedule|
    ensures n <= |batches| && forall i | 0 <= i < n :: schedule[i] == i
  {
    hide Find;
    if n > 0 {
      InOrder(batches, schedule, n - 1);
      var done, next := schedule[..n - 1], schedule[n - 1];
      assert CanRun(batches, next, done);
      RunsAfter(batches, next, done);
      SmallerDone(done, next);
    }
  }

  lemma SmallerDone(done: seq<int>, number: int)
    requires forall i | 0 <= i < |done| :: done[i] == i
    ensures 0 <= number < |done| ==> number in done
  {
    if 0 <= number < |done| {
      assert done[number] == number;
    }
  }

  // In a chained plan a batch runs only right after its predecessor.
  lemma RunsAfter(batches: seq<NodeBatch>, number: int, done: seq<int>)
    requires Chained(batches) && CanRun(batches, number, done)
    ensures 0 <= number < |batches| && (number == 0 || number - 1 in done)
  {
    hide Find;
    var b := Find(batches, number);
    assert b > 0 ==> batches[b].dependsOn[0] == b - 1;
  }

  // ----- Validation -----

  datatype Strategy = Rolling | Surge | BlueGreen | Unknown(name: string)

  datatype PlanError = LaterDependency | InvalidDependency | TooManyNodes | InvalidStrategy | NoRollback | Fine

  predicate DependenciesValid(batches: seq<NodeBatch>) {
    forall i | 0 <= i < |batches| :: forall dep <- batches[i].dependsOn ::
      0 <= dep < |batches| && dep < batches[i].batchNumber
  }

  method ValidatePlan(batches: seq<NodeBatch>, totalNodes: int, strategy: Strategy, hasRollback: bool, maxNodes: int)
    returns (r: PlanError)
    ensures r == Fine <==>
              DependenciesValid(batches) && totalNodes <= maxNodes && !strategy.Unknown? && hasRollback
    ensures r == TooManyNodes ==> DependenciesValid(batches) && totalNodes > maxNodes
  {
    for i := 0 to |batches|
      invariant forall k | 0 <= k < i :: forall dep <- batches[k].dependsOn ::
                  0 <= dep < |batches| && dep < batches[k].batchNumber
    {
      for d := 0 to |batches[i].dependsOn|
        invariant forall c | 0 <= c < d ::
                    0 <= batches[i].dependsOn[c] < |batches| && batches[i].dependsOn[c] < batches[i].batchNumber
      {
        var dep := batches[i].dependsOn[d];
        assert dep in batches[i].dependsOn;
        if dep >= batches[i].batchNumber {
          return LaterDependency;
        }
        if dep < 0 || dep >= |batches| {
          return InvalidDependency;
        }
      }
    }
    if totalNodes > maxNodes {
      return TooManyNodes;
    }
    if strategy.Unknown? {
      return InvalidStrategy;
    }
    if !hasRollback {
      return NoRollback;
    }
    return Fine;
  }

  lemma ChainedPlansValidate(batches: seq<NodeBatch>)
    requires Chained(batches)
    ensures DependenciesValid(batches)
  {
    forall i, dep | 0 <= i < |batches| && dep in batches[i].dependsOn
      ensures 0 <= dep < |batches| && dep < batches[i].batchNumber
    {
    }
  }

  // ----- Optimizing -----

  const HALF_MINUTE := 30_000_000_000

  function Complex(workloads: seq<Workload>): nat {
    if workloads == [] then 0
    else
      var w := workloads[|workloads| - 1];
      Complex(workloads[..|workloads| - 1]) + if w.hasPDB || w.hasLocalStorage || w.isCritical then 1 else 0
  }

  function ComplexNodes(nodes: Nodes): nat {
    if nodes == [] then 0
    else ComplexNodes(nodes[..|nodes| - 1]) + Complex(nodes[|nodes| - 1].workloads)
  }

  // How many workloads of a node are complex, and of several nodes those of each.
  lemma {:induction false} ComplexCounted(workloads: seq<Workload>)
    ensures Complex(workloads)
         == |set i | 0 <= i < |workloads|
                     && (workloads[i].hasPDB || workloads[i].hasLocalStorage || workloads[i].isCritical)|
  {
    if workloads != [] {
      var before, last := workloads[..|workloads| - 1], |workloads| - 1;
      ComplexCounted(before);
      var earlier := set i | 0 <= i < last && (before[i].hasPDB || before[i].hasLocalStorage || before[i].isCritical);
      var all := set i | 0 <= i < |workloads|
                         && (workloads[i].hasPDB || workloads[i].hasLocalStorage || workloads[i].isCritical);
      if workloads[last].hasPDB || workloads[last].hasLocalStorage || workloads[last].isCritical {
        assert all == earlier + {last};
      } else {
        assert all == earlier;
      }
    }
  }

  lemma {:induction false} ComplexNodesAdd(a: Nodes, b: Nodes)
    ensures ComplexNodes(a + b) == ComplexNodes(a) + ComplexNodes(b)
    ensures |b| == 1 ==> ComplexNodes(b) == Complex(b[0].workloads)
  {
    if b == [] {
      assert a + b == a;
    } else {
      assert (a + b)[..|a + b| - 1] == a + b[..|b| - 1];
      ComplexNodesAdd(a, b[..|b| - 1]);
    }
  }

  method AdjustDuration(batch: NodeBatch) returns (duration: int)
    requires batch.nodes.Valid()
    ensures duration == batch.estimatedDuration + ComplexNodes(batch.nodes.Contents()) * 30_000_000_000
  {
    var nodes := batch.nodes.Contents();
    var complex := 0;
    for i := 0 to |nodes|
      invariant complex == ComplexNodes(nodes[..i])
    {
      assert nodes[..i + 1][..i] == nodes[..i];
      var workloads := nodes[i].workloads;
      for k := 0 to |workloads|
        invariant complex == ComplexNodes(nodes[..i]) + Complex(workloads[..k])
      {
        assert workloads[..k + 1][..k] == workloads[..k];
        if workloads[k].hasPDB || workloads[k].hasLocalStorage || workloads[k].isCritical {
          complex := complex + 1;
        }
      }
      assert workloads[..|workloads|] == workloads;
    }
    assert nodes[..|nodes|] == nodes;
    duration := batch.estimatedDuration + complex * HALF_MINUTE;
  }

  function SumDurations(batches: seq<NodeBatch>): int {
    if batches == [] then 0 else SumDurations(batches[..|batches| - 1]) + batches[|batches| - 1].estimatedDuration
  }

  lemma {:induction false} DurationsAdd(a: seq<NodeBatch>, b: seq<NodeBatch>)
    ensures SumDurations(a + b) == SumDurations(a) + SumDurations(b)
    ensures |b| == 1 ==> SumDurations(b) == b[0].estimatedDuration
  {
    if b == [] {
      assert a + b == a;
    } else {
      assert (a + b)[..|a + b| - 1] == a + b[..|b| - 1];
      DurationsAdd(a, b[..|b| - 1]);
    }
  }

  // Twenty percent more, truncated toward zero.
  function WithBuffer(total: int): int {
    var buffered := total as real * 1.2;
    if buffered >= 0.0 then buffered.Floor else -(-buffered).Floor
  }

  lemma BufferCovers(total: int)
    requires total >= 0
    ensures total <= WithBuffer(total) && 5 * WithBuffer(total) <= 6 * total < 5 * WithBuffer(total) + 5
  {
    var buffered := total as real * 1.2;
    assert buffered.Floor as real <= buffered < buffered.Floor as real + 1.0;
  }

  method EstimateTotalDuration(batches: seq<NodeBatch>, strategy: Strategy) returns (total: int)
    ensures total == WithBuffer(if strategy.Unknown? then 0 else SumDurations(batches))
  {
    total := 0;
    if !strategy.Unknown? {
      for i := 0 to |batches|
        invariant total == SumDurations(batches[..i])
      {
        assert batches[..i + 1][..i] == batches[..i];
        total := total + batches[i].estimatedDuration;
      }
      assert batches[..|batches|] == batches;
    }
    total := WithBuffer(total);
  }

  // OptimizePlan copies the plan but not its batch list. With one batch it therefore writes
  // the adjusted duration into the plan it was given, which changes that plan exactly if some
  // workload is complex; with any other number it writes nothing.
  method OptimizePlan(config: Config, nodes: Slice, planned: array<NodeBatch>, strategy: Strategy, filler: Candidate)
    returns (optimized: array<NodeBatch>, total: int)
    requires Tiles(nodes, planned[..]) && config.maxConcurrent != 0
    modifies nodes.cells, planned
    ensures nodes.cells[..] == old(nodes.cells[..])
    ensures planned[..] != old(planned[..]) <==>
              planned.Length == 1 && ComplexNodes(old(planned[0].nodes.Contents())) > 0
    ensures planned.Length == 0 ==> optimized == planned
    ensures total == WithBuffer(if strategy.Unknown? then 0 else SumDurations(optimized[..]))
    ensures planned.Length == 1 ==>
              var b := old(planned[0]);
              optimized == planned && b.nodes.Valid() &&
              planned[0] == b.(estimatedDuration :=
                b.estimatedDuration + ComplexNodes(b.nodes.Contents()) * HALF_MINUTE)
    ensures planned.Length > 1 ==>
              var groups := Merge([], PartsOf(nodes.cells[..], planned[..]), config.maxConcurrent);
              && fresh(optimized) && optimized.Length == |groups|
              && forall k | 0 <= k < |groups| ::
                   && optimized[k].nodes.Valid() && optimized[k].nodes.Contents() == groups[k]
                   && optimized[k].estimatedDuration
                      == Estimate(config, |groups[k]|) + ComplexNodes(groups[k]) * HALF_MINUTE
  {
    hide Estimate, Merge, ComplexNodes, WithBuffer, SumDurations;
    if planned.Length <= 1 {
      optimized := planned;
      if planned.Length == 1 {
        var duration := AdjustDuration(planned[0]);
        planned[0] := planned[0].(estimatedDuration := duration);
      }
    } else {
      var merged := MergeBatches(config, nodes, planned[..], config.maxConcurrent, filler);
      optimized := AdjustAll(config, merged, Merge([], PartsOf(nodes.cells[..], planned[..]), config.maxConcurrent));
    }
    total := EstimateTotalDuration(optimized[..], strategy);
  }

  // The merged list is a new one; its durations are adjusted in place.
  method AdjustAll(config: Config, merged: seq<NodeBatch>, ghost groups: seq<Nodes>)
    returns (optimized: array<NodeBatch>)
    requires config.maxConcurrent != 0 && Holds(config, merged, groups)
    ensures fresh(optimized) && optimized.Length == |groups|
    ensures forall k | 0 <= k < |groups| ::
              && optimized[k].nodes.Valid() && optimized[k].nodes.Contents() == groups[k]
              && optimized[k].estimatedDuration == Estimate(config, |groups[k]|) + ComplexNodes(groups[k]) * HALF_MINUTE
  {
    hide Estimate, ComplexNodes;
    optimized := new NodeBatch[|merged|](k requires 0 <= k < |merged| => merged[k]);
    for i := 0 to optimized.Length
      invariant forall k | i <= k < optimized.Length :: optimized[k] == merged[k]
      invariant forall k | 0 <= k < i ::
                  optimized[k] == merged[k].(estimatedDuration := merged[k].estimatedDuration
                    + ComplexNodes(groups[k]) * HALF_MINUTE)
    {
      var duration := AdjustDuration(optimized[i]);
      optimized[i] := optimized[i].(estimatedDuration := duration);
    }
  }
}
