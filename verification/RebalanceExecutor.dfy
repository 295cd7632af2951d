// Rolling execution of a rebalance plan (pkg/rebalancer/executor.go:43-249).
//
// Everything the executor asks the outside world is an oracle: for each candidate a
// `Reply` fixes what the node's label, the provisioning, the readiness wait, the drain
// and the termination of the old node return. The calls it makes are logged in order.
module RebalanceExecutor {
  import opened BatchMerging

  datatype Provision = ProvisionError | NoNode | NewNode(name: string)

  datatype Reply = Reply(
    currentGroup: string,
    provision: Provision,
    becameReady: bool,
    drained: bool,
    terminated: bool)

  datatype Job = Job(candidate: Candidate, reply: Reply)

  // A call about job number `job`, with its outcome.
  datatype Action =
    | ProvisionCall(job: nat, got: Provision)
    | ReadyWait(job: nat, ok: bool)
    | DrainOld(job: nat, ok: bool)
    | TerminateOld(job: nat, ok: bool)
    | TerminateNew(job: nat)

  datatype Operation = ProvisionStep | NodeReadyStep | DrainStep | TerminateStep

  datatype Failure = Failure(nodeName: string, operation: Operation)

  datatype Status = InProgress | Completed | Failed

  datatype Fate = Skipped | FailedAt(operation: Operation) | Rebalanced

  predicate AlreadyThere(job: Job, planGroup: string) {
    job.reply.currentGroup == planGroup && job.candidate.currentOffering == job.candidate.targetOffering
  }

  function FateOf(job: Job, planGroup: string): Fate {
    if AlreadyThere(job, planGroup) then Skipped
    else if !job.reply.provision.NewNode? then FailedAt(ProvisionStep)
    else if !job.reply.becameReady then FailedAt(NodeReadyStep)
    else if !job.reply.drained then FailedAt(DrainStep)
    else if !job.reply.terminated then FailedAt(TerminateStep)
    else Rebalanced
  }

  // The calls made for one job.
  function Calls(job: Job, i: nat, planGroup: string): seq<Action> {
    var reply := job.reply;
    if AlreadyThere(job, planGroup) then []
    else if !reply.provision.NewNode? then [ProvisionCall(i, reply.provision)]
    else if !reply.becameReady then [ProvisionCall(i, reply.provision), ReadyWait(i, false), TerminateNew(i)]
    else
      [ProvisionCall(i, reply.provision), ReadyWait(i, true), DrainOld(i, reply.drained)]
      + if reply.drained then [TerminateOld(i, reply.terminated)] else []
  }

  function AllCalls(jobs: seq<Job>, planGroup: string): seq<Action> {
    if jobs == [] then []
    else AllCalls(jobs[..|jobs| - 1], planGroup) + Calls(jobs[|jobs| - 1], |jobs| - 1, planGroup)
  }

  function Replaced(jobs: seq<Job>, planGroup: string): seq<string> {
    if jobs == [] then []
    else
      var last := jobs[|jobs| - 1];
      Replaced(jobs[..|jobs| - 1], planGroup)
      + if FateOf(last, planGroup) == Rebalanced then [last.candidate.nodeName] else []
  }

  function Failures(jobs: seq<Job>, planGroup: string): seq<Failure> {
    if jobs == [] then []
    else
      var last := jobs[|jobs| - 1];
      Failures(jobs[..|jobs| - 1], planGroup)
      + match FateOf(last, planGroup)
        case FailedAt(op) => [Failure(last.candidate.nodeName, op)]
        case _ => []
  }

  function Provisioned(jobs: seq<Job>, planGroup: string): seq<string> {
    if jobs == [] then []
    else
      var last := jobs[|jobs| - 1];
      Provisioned(jobs[..|jobs| - 1], planGroup)
      + if !AlreadyThere(last, planGroup) && last.reply.provision.NewNode? then [last.reply.provision.name] else []
  }

  function SkippedCount(jobs: seq<Job>, planGroup: string): nat {
    if jobs == [] then 0
    else
      SkippedCount(jobs[..|jobs| - 1], planGroup)
      + if FateOf(jobs[|jobs| - 1], planGroup) == Skipped then 1 else 0
  }

  function Joined(batches: seq<seq<Job>>): seq<Job> {
    if batches == [] then [] else Joined(batches[..|batches| - 1]) + batches[|batches| - 1]
  }

  lemma OneMore(jobs: seq<Job>, job: Job, planGroup: string)
    ensures AllCalls(jobs + [job], planGroup) == AllCalls(jobs, planGroup) + Calls(job, |jobs|, planGroup)
    ensures Provisioned(jobs + [job], planGroup) == Provisioned(jobs, planGroup)
              + if !AlreadyThere(job, planGroup) && job.reply.provision.NewNode? then [job.reply.provision.name] else []
    ensures Replaced(jobs + [job], planGroup) == Replaced(jobs, planGroup)
              + if FateOf(job, planGroup) == Rebalanced then [job.candidate.nodeName] else []
    ensures Failures(jobs + [job], planGroup) == Failures(jobs, planGroup)
              + match FateOf(job, planGroup)
                case FailedAt(op) => [Failure(job.candidate.nodeName, op)]
                case _ => []
  {
    assert (jobs + [job])[..|jobs|] == jobs;
  }

  lemma OneMoreThanNone(planGroup: string)
    ensures Replaced([], planGroup) == [] && Failures([], planGroup) == []
  {
  }

  datatype BatchResult = BatchResult(
    nodesRebalanced: int,
    nodesFailed: int,
    completedNodes: seq<string>,
    failedNodes: seq<Failure>)

  datatype Result = Result(status: Status, nodesRebalanced: int, nodesFailed: int)

  class ExecutionState {
    var status: Status
    var currentBatch: int
    var completedNodes: seq<string>
    var failedNodes: seq<Failure>
    var provisionedNodes: seq<string>
    ghost var calls: seq<Action>  // the calls made so far
    ghost var jobs: seq<Job>      // the jobs taken so far

    constructor ()
      ensures status == InProgress && currentBatch == 0 && jobs == []
      ensures completedNodes == [] && failedNodes == [] && provisionedNodes == [] && calls == []
    {
      status, currentBatch, completedNodes, failedNodes, provisionedNodes := InProgress, 0, [], [], [];
      calls, jobs := [], [];
    }

    // What the state says of the jobs taken so far.
    ghost predicate Logged(planGroup: string)
      reads this
    {
      calls == AllCalls(jobs, planGroup) && provisionedNodes == Provisioned(jobs, planGroup)
    }

    method ExecuteRollingBatch(planGroup: string, batch: seq<Job>) returns (r: BatchResult)
      requires Logged(planGroup)
      modifies `provisionedNodes, `calls, `jobs
      ensures Logged(planGroup) && jobs == old(jobs) + batch
      ensures r == BatchResult(|Replaced(batch, planGroup)|, |Failures(batch, planGroup)|,
                               Replaced(batch, planGroup), Failures(batch, planGroup))
    {
      hide Calls, AllCalls, Replaced, Failures, Provisioned, AlreadyThere, FateOf;
      OneMoreThanNone(planGroup);
      r := BatchResult(0, 0, [], []);
      for i := 0 to |batch|
        invariant Logged(planGroup) && jobs == old(jobs) + batch[..i]
        invariant r == BatchResult(|Replaced(batch[..i], planGroup)|, |Failures(batch[..i], planGroup)|,
                                   Replaced(batch[..i], planGroup), Failures(batch[..i], planGroup))
      {
        var job := batch[i];
        assert batch[..i + 1] == batch[..i] + [job];
        OneMore(batch[..i], job, planGroup);
        OneMore(jobs, job, planGroup);
        var fate := Replace(planGroup, job);
        match fate {
          case Skipped =>
          case FailedAt(op) =>
            r := r.(nodesFailed := r.nodesFailed + 1,
                    failedNodes := r.failedNodes + [Failure(job.candidate.nodeName, op)]);
          case Rebalanced =>
            r := r.(nodesRebalanced := r.nodesRebalanced + 1,
                    completedNodes := r.completedNodes + [job.candidate.nodeName]);
        }
      }
      assert batch[..|batch|] == batch;
    }

    // One pass of the loop body: provision, wait, drain, terminate.
    method Replace(planGroup: string, job: Job) returns (fate: Fate)
      modifies `provisionedNodes, `calls, `jobs
      ensures fate == FateOf(job, planGroup) && jobs == old(jobs) + [job]
      ensures calls == old(calls) + Calls(job, |old(jobs)|, planGroup)
      ensures provisionedNodes == old(provisionedNodes)
                + if !AlreadyThere(job, planGroup) && job.reply.provision.NewNode?
                  then [job.reply.provision.name] else []
    {
      ghost var i := |jobs|;
      jobs := jobs + [job];
      if job.reply.currentGroup == planGroup && job.candidate.currentOffering == job.candidate.targetOffering {
        return Skipped;
      }
      calls := calls + [ProvisionCall(i, job.reply.provision)];
      if !job.reply.provision.NewNode? {
        return FailedAt(ProvisionStep);
      }
      provisionedNodes := provisionedNodes + [job.reply.provision.name];
      calls := calls + [ReadyWait(i, job.reply.becameReady)];
      if !job.reply.becameReady {
        calls := calls + [TerminateNew(i)];
        return FailedAt(NodeReadyStep);
      }
      calls := calls + [DrainOld(i, job.reply.drained)];
      if !job.reply.drained {
        return FailedAt(DrainStep);
      }
      calls := calls + [TerminateOld(i, job.reply.terminated)];
      if !job.reply.terminated {
        return FailedAt(TerminateStep);
      }
      return Rebalanced;
    }
  }

  // Every batch in order. No batch of a rolling plan returns an error, so the rollback
  // branch is never taken and the run always completes.
  method ExecuteRebalance(planGroup: string, batches: seq<seq<Job>>)
    returns (result: Result, state: ExecutionState)
    ensures fresh(state) && state.Logged(planGroup) && state.jobs == Joined(batches)
    ensures result.status == state.status == Completed
    ensures state.completedNodes == Replaced(Joined(batches), planGroup)
    ensures state.failedNodes == Failures(Joined(batches), planGroup)
    ensures result.nodesRebalanced == |state.completedNodes| && result.nodesFailed == |state.failedNodes|
  {
    hide FateOf, AlreadyThere, Calls;
    result := Result(InProgress, 0, 0);
    state := new ExecutionState();
    for i := 0 to |batches|
      invariant fresh(state) && state.Logged(planGroup) && state.jobs == Joined(batches[..i])
      invariant state.completedNodes == Replaced(state.jobs, planGroup)
      invariant state.failedNodes == Failures(state.jobs, planGroup)
      invariant result.nodesRebalanced == |state.completedNodes| && result.nodesFailed == |state.failedNodes|
    {
      assert batches[..i + 1][..i] == batches[..i];
      ResultsJoin(state.jobs, batches[i], planGroup);
      state.currentBatch := i;
      var r := state.ExecuteRollingBatch(planGroup, batches[i]);
      result := result.(nodesRebalanced := result.nodesRebalanced + r.nodesRebalanced,
                        nodesFailed := result.nodesFailed + r.nodesFailed);
      state.completedNodes := state.completedNodes + r.completedNodes;
      state.failedNodes := state.failedNodes + r.failedNodes;
    }
    assert batches[..|batches|] == batches;
    state.status := Completed;
    result := result.(status := Completed);
  }

  lemma {:induction false} ResultsJoin(a: seq<Job>, b: seq<Job>, planGroup: string)
    ensures Replaced(a + b, planGroup) == Replaced(a, planGroup) + Replaced(b, planGroup)
    ensures Failures(a + b, planGroup) == Failures(a, planGroup) + Failures(b, planGroup)
  {
    hide FateOf, AlreadyThere;
    if b == [] {
      assert a + b == a;
    } else {
      var b' := b[..|b| - 1];
      assert (a + b)[..|a + b| - 1] == a + b';
      ResultsJoin(a, b', planGroup);
    }
  }

  lemma {:induction false} CountsJoin(a: seq<Job>, b: seq<Job>, planGroup: string)
    ensures Provisioned(a + b, planGroup) == Provisioned(a, planGroup) + Provisioned(b, planGroup)
    ensures SkippedCount(a + b, planGroup) == SkippedCount(a, planGroup) + SkippedCount(b, planGroup)
  {
    hide FateOf, AlreadyThere;
    if b == [] {
      assert a + b == a;
    } else {
      var b' := b[..|b| - 1];
      assert (a + b)[..|a + b| - 1] == a + b';
      CountsJoin(a, b', planGroup);
    }
  }

  // What the reply to one job makes of it: skipped if neither the group nor the offering
  // changes, failed at the first step that fails, and rebalanced if none does.
  lemma OneJob(job: Job, planGroup: string)
    ensures var reply, node, jobs := job.reply, job.candidate.nodeName, [job];
            var moves := reply.currentGroup != planGroup
                         || job.candidate.currentOffering != job.candidate.targetOffering;
            var ready := moves && reply.provision.NewNode? && reply.becameReady;
            && SkippedCount(jobs, planGroup) == (if moves then 0 else 1)
            && Provisioned(jobs, planGroup)
                 == (if moves && reply.provision.NewNode? then [reply.provision.name] else [])
            && Replaced(jobs, planGroup) == (if ready && reply.drained && reply.terminated then [node] else [])
            && |Failures(jobs, planGroup)| <= 1
            && (Failures(jobs, planGroup) == [Failure(node, ProvisionStep)] <==> moves && !reply.provision.NewNode?)
            && (Failures(jobs, planGroup) == [Failure(node, NodeReadyStep)] <==>
                  moves && reply.provision.NewNode? && !reply.becameReady)
            && (Failures(jobs, planGroup) == [Failure(node, DrainStep)] <==> ready && !reply.drained)
            && (Failures(jobs, planGroup) == [Failure(node, TerminateStep)] <==>
                  ready && reply.drained && !reply.terminated)
  {
    hide FateOf, AlreadyThere, Replaced, Failures, Provisioned, SkippedCount;
    FateExactly(job, planGroup);
    SingleJob(job, planGroup);
    forall op: Operation ensures Failures([job], planGroup) == [Failure(job.candidate.nodeName, op)]
                                 <==> FateOf(job, planGroup) == FailedAt(op)
    {
      SingleFailure(job, planGroup, op);
    }
  }

  lemma SingleFailure(job: Job, planGroup: string, op: Operation)
    ensures Failures([job], planGroup) == [Failure(job.candidate.nodeName, op)]
            <==> FateOf(job, planGroup) == FailedAt(op)
  {
    hide FateOf, AlreadyThere, Failures;
    SingleJob(job, planGroup);
    match FateOf(job, planGroup)
    case FailedAt(was) =>
      assert Failures([job], planGroup)[0] == Failure(job.candidate.nodeName, was);
    case _ =>
  }

  lemma SingleJob(job: Job, planGroup: string)
    ensures SkippedCount([job], planGroup) == if FateOf(job, planGroup) == Skipped then 1 else 0
    ensures Provisioned([job], planGroup)
         == if !AlreadyThere(job, planGroup) && job.reply.provision.NewNode? then [job.reply.provision.name] else []
    ensures Replaced([job], planGroup) == if FateOf(job, planGroup) == Rebalanced then [job.candidate.nodeName] else []
    ensures Failures([job], planGroup) == match FateOf(job, planGroup)
                                          case FailedAt(op) => [Failure(job.candidate.nodeName, op)]
                                          case _ => []
  {
    hide FateOf, AlreadyThere;
    assert [job][..0] == [];
  }

  lemma FateExactly(job: Job, planGroup: string)
    ensures var reply, fate := job.reply, FateOf(job, planGroup);
            var moves := reply.currentGroup != planGroup
                         || job.candidate.currentOffering != job.candidate.targetOffering;
            var ready := moves && reply.provision.NewNode? && reply.becameReady;
            && (AlreadyThere(job, planGroup) <==> !moves)
            && (fate == Skipped <==> !moves)
            && (fate == FailedAt(ProvisionStep) <==> moves && !reply.provision.NewNode?)
            && (fate == FailedAt(NodeReadyStep) <==> moves && reply.provision.NewNode? && !reply.becameReady)
            && (fate == FailedAt(DrainStep) <==> ready && !reply.drained)
            && (fate == FailedAt(TerminateStep) <==> ready && reply.drained && !reply.terminated)
            && (fate == Rebalanced <==> ready && reply.drained && reply.terminated)
  {
  }

  // ----- What holds for every plan and every reply -----

  // Which calls a run makes about job i, from the reply alone: a replacement is provisioned
  // exactly if the group or the offering changes; it is waited for if there is one, removed
  // if it does not become ready; and the old node is drained before it is terminated.
  lemma {:induction false} CallsMade(jobs: seq<Job>, planGroup: string, i: nat)
    requires i < |jobs|
    ensures var calls, reply := AllCalls(jobs, planGroup), jobs[i].reply;
            var moves := reply.currentGroup != planGroup
                         || jobs[i].candidate.currentOffering != jobs[i].candidate.targetOffering;
            var ready := moves && reply.provision.NewNode? && reply.becameReady;
            && (forall got :: ProvisionCall(i, got) in calls <==> moves && got == reply.provision)
            && (forall ok :: ReadyWait(i, ok) in calls <==>
                  moves && reply.provision.NewNode? && ok == reply.becameReady)
            && (TerminateNew(i) in calls <==> moves && reply.provision.NewNode? && !reply.becameReady)
            && (forall ok :: DrainOld(i, ok) in calls <==> ready && ok == reply.drained)
            && (forall ok :: TerminateOld(i, ok) in calls <==> ready && reply.drained && ok == reply.terminated)
  {
    hide Calls;
    var before, last := jobs[..|jobs| - 1], |jobs| - 1;
    OwnCalls(before, planGroup);
    CallsOf(jobs[last], last, planGroup);
    if i < last {
      CallsMade(before, planGroup, i);
    } else {
      CallsOnce(jobs[i], i, planGroup);
    }
  }

  lemma CallsOnce(job: Job, i: nat, planGroup: string)
    ensures var calls, reply := Calls(job, i, planGroup), job.reply;
            var moves := reply.currentGroup != planGroup
                         || job.candidate.currentOffering != job.candidate.targetOffering;
            var ready := moves && reply.provision.NewNode? && reply.becameReady;
            && (forall got :: ProvisionCall(i, got) in calls <==> moves && got == reply.provision)
            && (forall ok :: ReadyWait(i, ok) in calls <==>
                  moves && reply.provision.NewNode? && ok == reply.becameReady)
            && (TerminateNew(i) in calls <==> moves && reply.provision.NewNode? && !reply.becameReady)
            && (forall ok :: DrainOld(i, ok) in calls <==> ready && ok == reply.drained)
            && (forall ok :: TerminateOld(i, ok) in calls <==> ready && reply.drained && ok == reply.terminated)
  {
  }

  // Rebalanced, failed and skipped nodes add up to the candidates.
  lemma {:induction false} Accounting(jobs: seq<Job>, planGroup: string)
    ensures |Replaced(jobs, planGroup)| + |Failures(jobs, planGroup)| + SkippedCount(jobs, planGroup) == |jobs|
  {
    if jobs != [] {
      Accounting(jobs[..|jobs| - 1], planGroup);
    }
  }

  // An old node is terminated only after its own replacement was provisioned, then seen
  // Ready, then the old node itself drained.
  lemma {:induction false} TerminatedOnlyWhenReplaced(jobs: seq<Job>, planGroup: string, k: nat)
    requires k < |AllCalls(jobs, planGroup)| && AllCalls(jobs, planGroup)[k].TerminateOld?
    ensures var calls := AllCalls(jobs, planGroup);
            var i := calls[k].job;
            && i < |jobs| && !AlreadyThere(jobs[i], planGroup)
            && k >= 3 && calls[k - 1] == DrainOld(i, true) && calls[k - 2] == ReadyWait(i, true)
            && calls[k - 3] == ProvisionCall(i, jobs[i].reply.provision) && jobs[i].reply.provision.NewNode?
  {
    var before := AllCalls(jobs[..|jobs| - 1], planGroup);
    if k < |before| {
      TerminatedOnlyWhenReplaced(jobs[..|jobs| - 1], planGroup, k);
    }
  }

  // A node counts as rebalanced exactly when the termination of the old node succeeded, and
  // a replacement is terminated exactly when it did not become ready.
  lemma {:induction false} TerminatedIffRebalanced(jobs: seq<Job>, planGroup: string, i: nat)
    requires i < |jobs|
    ensures TerminateOld(i, true) in AllCalls(jobs, planGroup) <==> FateOf(jobs[i], planGroup) == Rebalanced
    ensures TerminateNew(i) in AllCalls(jobs, planGroup) <==> FateOf(jobs[i], planGroup) == FailedAt(NodeReadyStep)
  {
    hide Calls, FateOf;
    var before, last := jobs[..|jobs| - 1], |jobs| - 1;
    CallsOf(jobs[last], last, planGroup);
    OwnCalls(before, planGroup);
    if i < last {
      TerminatedIffRebalanced(before, planGroup, i);
    }
  }

  lemma CallsOf(job: Job, i: nat, planGroup: string)
    ensures TerminateOld(i, true) in Calls(job, i, planGroup) <==> FateOf(job, planGroup) == Rebalanced
    ensures TerminateNew(i) in Calls(job, i, planGroup) <==> FateOf(job, planGroup) == FailedAt(NodeReadyStep)
    ensures forall call <- Calls(job, i, planGroup) :: call.job == i
  {
  }

  lemma {:induction false} OwnCalls(jobs: seq<Job>, planGroup: string)
    ensures forall call <- AllCalls(jobs, planGroup) :: call.job < |jobs|
  {
    if jobs != [] {
      OwnCalls(jobs[..|jobs| - 1], planGroup);
      CallsOf(jobs[|jobs| - 1], |jobs| - 1, planGroup);
    }
  }
}
