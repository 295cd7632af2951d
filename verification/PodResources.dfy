// What one pod asks for: CPU in millicores, memory in bytes
// (pkg/events/analyzer.go:85-121, pkg/events/creator.go:649-685).
module PodResources {
  import opened Options

  datatype Container = Container(cpu: Option<nat>, memory: Option<nat>)

  datatype Pod = Pod(namespace: string, name: string, containers: seq<Container>, initContainers: seq<Container>)

  datatype Request = Request(cpu: nat, memory: nat)

  datatype Resource = CPU | Memory

  function Asked(c: Container, r: Resource): Option<nat> {
    if r == CPU then c.cpu else c.memory
  }

  function Sum(containers: seq<Container>, r: Resource): nat {
    if containers == [] then 0
    else
      var asked := Asked(containers[|containers| - 1], r);
      Sum(containers[..|containers| - 1], r) + if asked.Some? then asked.value else 0
  }

  // Init containers run one at a time, so only the largest counts.
  function Peak(total: nat, initContainers: seq<Container>, r: Resource): nat {
    if initContainers == [] then total
    else
      var peak := Peak(total, initContainers[..|initContainers| - 1], r);
      var asked := Asked(initContainers[|initContainers| - 1], r);
      if asked.Some? && asked.value > peak then asked.value else peak
  }

  function RequestOf(pod: Pod): Request {
    Request(Peak(Sum(pod.containers, CPU), pod.initContainers, CPU),
            Peak(Sum(pod.containers, Memory), pod.initContainers, Memory))
  }

  method CalculatePodResources(pod: Pod) returns (request: Request)
    ensures request == RequestOf(pod)
  {
    var cpu, memory := 0, 0;
    for i := 0 to |pod.containers|
      invariant cpu == Sum(pod.containers[..i], CPU) && memory == Sum(pod.containers[..i], Memory)
    {
      var c := pod.containers[i];
      assert pod.containers[..i + 1][..i] == pod.containers[..i];
      if c.cpu.Some? {
        cpu := cpu + c.cpu.value;
      }
      if c.memory.Some? {
        memory := memory + c.memory.value;
      }
    }
    assert pod.containers[..|pod.containers|] == pod.containers;
    ghost var totalCPU, totalMemory := cpu, memory;
    for i := 0 to |pod.initContainers|
      invariant cpu == Peak(totalCPU, pod.initContainers[..i], CPU)
      invariant memory == Peak(totalMemory, pod.initContainers[..i], Memory)
    {
      var c := pod.initContainers[i];
      assert pod.initContainers[..i + 1][..i] == pod.initContainers[..i];
      if c.cpu.Some? && c.cpu.value > cpu {
        cpu := c.cpu.value;
      }
      if c.memory.Some? && c.memory.value > memory {
        memory := c.memory.value;
      }
    }
    assert pod.initContainers[..|pod.initContainers|] == pod.initContainers;
    request := Request(cpu, memory);
  }

  // What the containers ask for together: nothing for none, the amount asked for by one, and
  // the sum for any two lists.
  lemma {:induction false} TotalAdds(a: seq<Container>, b: seq<Container>)
    ensures Sum(a + b, CPU) == Sum(a, CPU) + Sum(b, CPU)
    ensures Sum(a + b, Memory) == Sum(a, Memory) + Sum(b, Memory)
  {
    if b == [] {
      assert a + b == a;
    } else {
      assert (a + b)[..|a + b| - 1] == a + b[..|b| - 1];
      TotalAdds(a, b[..|b| - 1]);
    }
  }

  lemma TotalOfOne(c: Container)
    ensures Sum([], CPU) == Sum([], Memory) == 0
    ensures Sum([c], CPU) == match c.cpu { case Some(millis) => millis case None => 0 }
    ensures Sum([c], Memory) == match c.memory { case Some(bytes) => bytes case None => 0 }
  {
    assert [c][..0] == [];
  }

  // The least amount that covers all containers together and every init container alone.
  lemma {:induction false} PeakIsLeast(total: nat, initContainers: seq<Container>, r: Resource, enough: nat)
    ensures Peak(total, initContainers, r) <= enough <==>
              && total <= enough
              && forall i :: 0 <= i < |initContainers| && Asked(initContainers[i], r).Some? ==>
                   Asked(initContainers[i], r).value <= enough
  {
    if initContainers != [] {
      PeakIsLeast(total, initContainers[..|initContainers| - 1], r, enough);
    }
  }

  // A pod's request, per resource: the least amount that covers all its containers together
  // and every init container alone.
  lemma RequestIsLeast(pod: Pod, cpu: nat, memory: nat)
    ensures RequestOf(pod).cpu <= cpu <==>
              && Sum(pod.containers, CPU) <= cpu
              && forall c | c in pod.initContainers && c.cpu.Some? :: c.cpu.value <= cpu
    ensures RequestOf(pod).memory <= memory <==>
              && Sum(pod.containers, Memory) <= memory
              && forall c | c in pod.initContainers && c.memory.Some? :: c.memory.value <= memory
  {
    hide Peak, Sum;
    PeakIsLeast(Sum(pod.containers, CPU), pod.initContainers, CPU, cpu);
    PeakIsLeast(Sum(pod.containers, Memory), pod.initContainers, Memory, memory);
  }
}
