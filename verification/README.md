# A verified model of the VPSie Kubernetes node autoscaler

The autoscaler keeps node groups of a Kubernetes cluster at the size their pods need, by
creating and deleting VPSie servers. This project models the parts of it that keep state
or do arithmetic every run depends on, and proves what they guarantee over all inputs and
over whole runs. `dafny verify dfyconfig.toml` checks everything.

| files | what they cover |
|---|---|
| `CircuitBreaker.dfy`, `BreakerHistory.dfy`, `BreakerRuns.dfy`, `ProbeBounds.dfy` | the API client's circuit breaker, the history it implements, every interleaving of calls, and when the half-open limit holds |
| `VPSieNodes.dfy`, `VPSieNodeController.dfy`, `VPSieNodeRuns.dfy`, `VPSieNodeOutcomes.dfy`, `StaleReads.dfy` | one VPSieNode: phase handlers, the two ordered writes of a reconcile, whole lives with failing writes, which answers every phase, identity and delete call goes back to, and creations under stale reads |
| `NodeGroups.dfy`, `NodeGroupRuns.dfy`, `ScaleUps.dfy`, `ScalingRuns.dfy`, `SequentialScaling.dfy` | one NodeGroup: reconcile decisions, the scale-up handler, all interleavings of the actors, convergence |
| `BatchMerging.dfy`, `RebalancePlanner.dfy`, `RebalanceExecutor.dfy` | rebalance plans over aliased Go slices, optimal merging, rolling execution |
| `RateLimits.dfy`, `ScaleDowns.dfy`, `IntelligentScaleDowns.dfy` | cooldown maps, bounded event buffer, rates over any interval, draining followed by deletion |
| `PodResources.dfy`, `Demand.dfy`, `KubeSizes.dfy` | what pods ask for, node estimates, ranking of matches, choice of the cheapest size |
| `CostTrend.dfy` | least-squares trend and forecast of costs |

How the model is built:

- A component whose methods change its fields is a class. Each method is proved equal to a
  function of the old state. The lemmas are about those functions, and for each of them some
  lemma or `ensures` says what it computes without naming it: from the answers and the stored
  fields, as a cardinality, or by its value on one element and on two lists joined.
- A run is a list of steps, each possible in the state before it, and every theorem about
  runs quantifies over all such lists. Locks make a step atomic; whatever happens between
  two critical sections, or between two API calls, is another step.
- The cloud, the Kubernetes API, clocks and the results of drains are parameters: an oracle
  that may answer anything. Every write to the API server can succeed, conflict, fail, or
  fail after having been applied.
- Clock readings are integers and never decrease within a run. Where the source reads the
  clock twice in one step the model does too (`now`, `later`).
- Floating-point numbers are reals.

Where the code and its comments disagree, the model follows the code:

- `MaxHalfOpenRequests` is documented as the maximum number of concurrent half-open
  requests (`circuitbreaker.go:44`). The call that half-opens the breaker is not counted and
  late completions lower the counter, so more run: `ProbeBounds.ProbeBoundHoldsIff` says that
  the bound fails for every configuration under which the breaker can open at all,
  `BreakerRuns.HalfOpenLedger` gives the exact number.
- A VPS that its VPSieNode names can be left behind without a delete call, on two routes:
  only its cluster node identifier is stored and there is no hostname yet, or only its instance
  ID is stored and the lookup of its hostname gives no identifier, which the client also
  reports when the cluster endpoint is missing. `VPSieNodeRuns.NamedVPSAbandoned` says exactly
  when; `UndiscoveredVPSOutlivesNode` and `UnlistedVPSOutlivesNode` are runs of the two.
- The update after a successful creation must persist for creation to happen once:
  `VPSieNodeRuns.LostUpdateCreatesTwice`; so must the read before it be current:
  `StaleReads.StaleReadCreatesTwice`.
- Scaling up is described as one node at a time, but a node no reconcile has touched yet is
  not counted as in transition: `SequentialScaling.UntouchedNodesNotCounted`; `TwoNodesAtOnce` is
  a run.
- `OptimizePlan` announces a new plan but writes into a plan of a single batch if that has a
  complex workload.
- The trend's "standard deviation" is the variance: `CostTrend.VarianceTakenForDeviation` says
  for which series the verdict differs, `CostTrend.TestsAgreeOnlyAtTen` for which means it can.
- Memory requests are rounded down to whole MiB before they are compared with an offer, so the
  selected size can be too small although another one holds the pod: `KubeSizes.SelectionHoldsIff`
  says for which requests.
- A scale-down passes over unsafe nodes without an error, and the caller then deletes all
  candidates: `IntelligentScaleDowns.DeletedUndrained` says which nodes are deleted undrained.

## Model

| member | source | states |
|---|---|---|
| CircuitBreakers.CircuitBreaker.constructor | pkg/vpsie/client/circuitbreaker.go:101-124 | A new breaker is closed, with a window of the configured size, none if that is not positive, full of successes |
| CircuitBreakers.CircuitBreaker.BeforeCall | pkg/vpsie/client/circuitbreaker.go:143-182 | Begins a call: the new state and the verdict of every branch |
| CircuitBreakers.CircuitBreaker.AfterCall | pkg/vpsie/client/circuitbreaker.go:185-265 | Ends a call in any state, including late completions while open |
| CircuitBreakers.CircuitBreaker.CalculateFailureRate | pkg/vpsie/client/circuitbreaker.go:268-280 | The rate is the fraction of failures in the window, 0 for an empty one |
| CircuitBreakers.FailuresCounted | pkg/vpsie/client/circuitbreaker.go:272-278 | The failures counted are the positions of the window that hold one |
| CircuitBreakers.CircuitBreaker.SwitchTo | pkg/vpsie/client/circuitbreaker.go:283-320 | A transition resets exactly the counters and timers of the visit |
| CircuitBreakers.CircuitBreaker.Reset | pkg/vpsie/client/circuitbreaker.go:393-409 | Reset closes the breaker and keeps the totals and the window |
| BreakerHistory.BeginTells | pkg/vpsie/client/circuitbreaker.go:143-182 | Beginning a call keeps every field equal to what the history of outcomes says, and admits exactly when the history machine does |
| BreakerHistory.RecordStep | pkg/vpsie/client/circuitbreaker.go:189-204 | The ring buffer read from its index is the last W of W successes followed by all completions |
| BreakerHistory.EndTells | pkg/vpsie/client/circuitbreaker.go:185-265 | Ending a call keeps fields and history in step |
| BreakerHistory.ResetTells | pkg/vpsie/client/circuitbreaker.go:393-409 | So does Reset |
| BreakerRuns.FieldsTellHistory | pkg/vpsie/client/circuitbreaker.go:143-320 | In every run the counters, timers, durations and the ring buffer are functions of the outcomes seen |
| BreakerRuns.CompletionChangesState | pkg/vpsie/client/circuitbreaker.go:206-264 | Closed opens exactly when the trailing failure run and the window meet their thresholds; half-open closes exactly after SuccessThreshold failure-free completions |
| BreakerRuns.HalfOpenLedger | pkg/vpsie/client/circuitbreaker.go:143-265 | halfOpenRequests = probes in flight - 1 - late completions in every interleaving, and the bound on probes that follows |
| BreakerRuns.PlainProbeBoundFails | pkg/vpsie/client/circuitbreaker.go:44-45 | A run that exceeds the documented bound: two probes in flight at a limit of one |
| ProbeBounds.ProbeBoundHoldsIff | pkg/vpsie/client/circuitbreaker.go:44-45 | The documented bound holds in every run exactly for configurations with a rate threshold above 1 and a window, which never open; for every other configuration, whatever its limit, some run exceeds it |
| ProbeBounds.StaysClosed | pkg/vpsie/client/circuitbreaker.go:206-222 | With a rate threshold above 1 and a window the breaker never leaves Closed |
| ProbeBounds.EnoughFailuresTrip | pkg/vpsie/client/circuitbreaker.go:206-222 | With any other configuration enough failures in a row meet both thresholds |
| BreakerRuns.NextProbeAdmitted | pkg/vpsie/client/circuitbreaker.go:167-180 | Exactly when a half-open breaker admits; with no probe in flight it always does, so it never wedges |
| BreakerRuns.Conservation | pkg/vpsie/client/circuitbreaker.go:143-265 | Requests = successes + failures + rejected + in flight + completions that arrived while open |
| BreakerRuns.NoAdmissionWithinTimeout | pkg/vpsie/client/circuitbreaker.go:154-166 | No call is admitted within Timeout of an opening that no Reset undid |
| VPSieNodes.VPSieNode.SetPhaseTo | pkg/controller/vpsienode/phases.go:88-117 | SetPhase sets each timestamp at most once |
| VPSieNodes.VPSieNode.CheckStatus | pkg/controller/vpsienode/provisioner.go:220-289 | checkVPSStatus in place, all branches |
| VPSieNodes.VPSieNode.DiscoverVPS | pkg/controller/vpsienode/provisioner.go:57-129 | Discovery after a creation was requested, including timeout and ID 0 |
| VPSieNodes.VPSieNode.ProvisionVPS | pkg/controller/vpsienode/provisioner.go:39-217 | Provision and createVPS in place; reports whether the creation call succeeded |
| VPSieNodes.VPSieNode.CheckJoin | pkg/controller/vpsienode/joiner.go:48-134 | CheckJoinStatus in place, as the function JoiningOutcome and JoinRecorded pin down |
| VPSieNodes.VPSieNode.DeleteOnce | pkg/controller/vpsienode/provisioner.go:293-429 | One deletion attempt: its result and the delete call it makes, if any; CallNames says which |
| VPSieNodes.VPSieNode.DeleteWithRetries | pkg/controller/vpsienode/terminator.go:110-201 | The retry loop of DeleteVPS, the delete calls it makes, and what it leaves when all attempts fail |
| VPSieNodes.VPSieNode.HandlePhase | pkg/controller/vpsienode/phases.go:76-379 | The state machine: each phase's handler with its error |
| VPSieNodeController.Server.ReconcileNode | pkg/controller/vpsienode/controller.go:104-243 | One reconcile with its two ordered writes, either of which may fail |
| VPSieNodeController.Server.ReconcileDelete | pkg/controller/vpsienode/controller.go:282-355 | The deletion path, including a failed patch that is passed over |
| VPSieNodeRuns.CreationsAccounted | pkg/controller/vpsienode/provisioner.go:39-217 | In every run whose reads return the stored object, successful creations = lost updates + 1 if the object remembers one; so at most one if no update after a success is lost, and exactly one for a Ready node |
| StaleReads.StaleCreationsAccounted | pkg/controller/vpsienode/controller.go:129-243 | With reads of any older version: the same equation, where a creation asked for on an older version always counts as lost |
| StaleReads.SecondCreationIsStale | pkg/controller/vpsienode/controller.go:129-243 | Once a creation is remembered, another comes only from a version from before, and changes nothing stored |
| StaleReads.StaleReadCreatesTwice | pkg/controller/vpsienode/controller.go:129-243 | A run in which every write may succeed and a stale read creates a second VPS |
| VPSieNodeRuns.LostUpdateCreatesTwice | pkg/controller/vpsienode/controller.go:188-222 | A run with one lost update and two creations |
| VPSieNodeRuns.NoCreationOnceDeleting | pkg/controller/vpsienode/controller.go:282-355 | After a deletion request no reconcile creates a VPS |
| VPSieNodeRuns.IdentityStable | pkg/controller/vpsienode/provisioner.go:39-217 | In every run, an object that names a VPS never names another |
| VPSieNodeRuns.FinalizerSafety | pkg/controller/vpsienode/controller.go:282-355 | In every run the finalizer is gone only after Terminating and then Deleting were persisted, DeletedAt is set, and at that time nothing identified a VPS or an attempt was answered as gone |
| VPSieNodeRuns.OneAttempt | pkg/controller/vpsienode/provisioner.go:293-429 | What the cloud must have answered for a deletion to succeed; not-found never reaches the retry loop |
| VPSieNodeRuns.WhyDeleted | pkg/controller/vpsienode/terminator.go:110-201 | DeletedAt is set if and only if nothing is known or a reached attempt settles it; Failed if and only if three attempts were made in vain |
| VPSieNodeRuns.DeletedWithoutCall | pkg/controller/vpsienode/provisioner.go:297-345 | DeletedAt is set without any delete call if and only if nothing is known, or a reached attempt's lookup gives no identifier and no earlier attempt made a call |
| VPSieNodeRuns.NamedVPSAbandoned | pkg/controller/vpsienode/terminator.go:111-134 | A VPS the object names is passed over without a delete call on exactly two routes: a stored cluster identifier without hostname and instance ID, or an instance ID without cluster identifier whose first lookup gives nothing |
| VPSieNodeRuns.UndiscoveredVPSOutlivesNode | pkg/controller/vpsienode/terminator.go:111-134 | The first route as a run: a VPS is created, its identifier stored, and the finalizer dropped without a delete call |
| VPSieNodeRuns.UnlistedVPSOutlivesNode | pkg/controller/vpsienode/provisioner.go:333-343 | The second route as a run: the instance ID is stored, and the finalizer dropped without a delete call |
| VPSieNodeRuns.DeletionCompletes | pkg/controller/vpsienode/controller.go:282-355 | From any reachable state with a deletion request, three persisted reconciles whose answers settle the deletion drop the finalizer |
| VPSieNodeRuns.LifecycleForward | pkg/controller/vpsienode/phases.go:88-249 | Until deletion is requested the persisted phases follow the documented edges and never go back, Failed is absorbing, the timers both timeouts read are armed, and CreatedAt is replaced at most once |
| VPSieNodeRuns.DiscoveryTimeoutShadowed | pkg/controller/vpsienode/phases.go:141-190 | While nothing is discovered the provisioning handler can report the discovery timeout if and only if a reconcile takes longer between its clock readings than the configured discovery timeout exceeds the provisioning timeout, five minutes by default |
| VPSieNodeRuns.SettlingStep | pkg/controller/vpsienode/phases.go:124-249 | Each prompt, persisted reconcile keeps the node within the time budget of its phase |
| VPSieNodeRuns.Settles | pkg/controller/vpsienode/phases.go:32-36 | From any reachable live state, 35 minutes and six gaps of prompt persisted reconciles lead to Ready or Failed |
| VPSieNodeOutcomes.JoiningOutcome | pkg/controller/vpsienode/joiner.go:49-134 | A joining node becomes Ready if and only if it is not late and its Kubernetes node is there, configured and ready; Failed if and only if fifteen minutes have passed |
| VPSieNodeOutcomes.JoinRecorded | pkg/controller/vpsienode/joiner.go:66-124 | The names recorded, when an unconfigured node is an error, and that JoinedAt and ReadyAt are set once |
| VPSieNodeOutcomes.ProvisioningOutcome | pkg/controller/vpsienode/provisioner.go:39-289 | A node becomes Provisioned if and only if its VPS is seen running or is found under the cluster; Failed if and only if ten minutes have passed, the polled VPS is gone, or the cloud answered with a terminal error |
| VPSieNodeOutcomes.CreationRecorded | pkg/controller/vpsienode/provisioner.go:132-217 | A creation is reported if and only if one was asked for and succeeded, and which fields of its answer are recorded |
| VPSieNodeOutcomes.DiscoveryRecorded | pkg/controller/vpsienode/provisioner.go:76-125 | A discovered VPS is recorded under its ID, and under its hostname unless there is a node name |
| VPSieNodeOutcomes.PhaseStamps | pkg/controller/vpsienode/phases.go:88-117 | Which timestamps entering a phase sets, each only if it is not set yet |
| VPSieNodeOutcomes.PersistedReconcile | pkg/controller/vpsienode/controller.go:188-243 | A live reconcile whose two writes persist stores exactly what the handler left: every change of the specification causes the first write |
| VPSieNodeOutcomes.ObjectFirst | pkg/controller/vpsienode/controller.go:188-243 | A status is never stored without the change of the specification it belongs to |
| VPSieNodeOutcomes.StoredPhaseExplained | pkg/controller/vpsienode/phases.go:124-249 | From any stored object, a phase is stored anew only by a reconcile whose answers call for it; Failed only after a timeout, a VPS that is gone, a terminal error, or three deletion attempts in vain |
| VPSieNodeOutcomes.ReadyWasSeen | pkg/controller/vpsienode/joiner.go:96-124 | In every run a node is stored as Ready only after a reconcile saw its Kubernetes node configured and ready, and as Provisioned or later only after its VPS was seen running |
| VPSieNodeOutcomes.TimestampsKept | pkg/controller/vpsienode/phases.go:88-117 | In every run a stored JoinedAt, ReadyAt or TerminatingAt never changes, and Ready, Terminating and Deleting are stored only with theirs |
| VPSieNodeOutcomes.InstanceWasNamed | pkg/controller/vpsienode/provisioner.go:76-217 | In every run an instance ID was named by an answer of the cloud, and the cluster never changes |
| VPSieNodeOutcomes.HostnameIsFirstKnown | pkg/controller/vpsienode/terminator.go:113-119 | The hostname looked for is the first known of status hostname, spec node name, status node name |
| VPSieNodeOutcomes.CallNames | pkg/controller/vpsienode/provisioner.go:297-429 | What a delete call names: the stored or else the looked-up identifier in the own cluster, without either the instance ID; and exactly when there is no call |
| VPSieNodeOutcomes.DeletedByCall | pkg/controller/vpsienode/provisioner.go:355-429 | An attempt counts as deleted, or as not found, if and only if it made one call and that call was answered so |
| VPSieNodeOutcomes.CallsInTurn | pkg/controller/vpsienode/terminator.go:142-188 | At most three attempts, each after another only if that failed and was not cut short, make their calls in order |
| VPSieNodeOutcomes.DeletesOwnVPS | pkg/controller/vpsienode/provisioner.go:293-429 | In every run each delete call comes after a deletion request and names the object's own instance ID, or its own cluster and, if known, its own identifier |
| VPSieNodeOutcomes.CloudDeletedByOwnCall | pkg/controller/vpsienode/terminator.go:142-170 | In every run a VPS counts as deleted by the cloud only if a delete call for the object's own VPS was made and that very call was answered so |
| NodeGroups.NodeGroup.UpdateStatus | pkg/controller/nodegroup/status.go:48-93 | ReadyNodes is the number of listed nodes whose phase is Ready, CurrentNodes the number listed, and an unset desired count becomes MinNodes |
| NodeGroups.NodeGroup.SetDesiredNodes | pkg/controller/nodegroup/status.go:96-109 | Desired count and the scale timestamps it moves |
| NodeGroups.ReadyCounted | pkg/controller/nodegroup/status.go:54-59 | The ready count is the number of positions whose node is Ready |
| NodeGroups.Reconciler.ScaleUpNodes | pkg/controller/nodegroup/reconciler.go:214-321 | Cleaning up after capacity failures, waiting for nodes in transition, creating one node |
| NodeGroups.Reconciler.SelectNodesToDelete | pkg/controller/nodegroup/reconciler.go:653-685 | The chosen nodes, by loops over the two partitions |
| NodeGroups.Reconciler.SimplyScaleDown | pkg/controller/nodegroup/reconciler.go:482-523 | Deletes the selection up to the first failing call |
| NodeGroups.Reconciler.IndexNodes | pkg/controller/nodegroup/reconciler.go:386-407 | Each lookup map holds, for every name, the last node listed under it |
| NodeGroups.Reconciler.DeleteDrained | pkg/controller/nodegroup/reconciler.go:415-457 | Deletes the nodes found by node name, then spec name, then hostname |
| NodeGroups.Reconciler.ScaleDownNodes | pkg/controller/nodegroup/reconciler.go:324-479 | Intelligent or simple scale-down, with every early return |
| NodeGroups.Reconciler.Reconcile | pkg/controller/nodegroup/reconciler.go:67-209 | One reconcile: the status it will persist and the nodes it leaves |
| NodeGroupRuns.DesiredInBounds | pkg/controller/nodegroup/reconciler.go:100-177 | Whatever was fetched and listed, the resulting desired count lies in [MinNodes, MaxNodes] |
| NodeGroupRuns.DesiredClamped | pkg/controller/nodegroup/status.go:112-130 | A desired count within the limits is kept, an unset one becomes MinNodes, any other the nearest limit |
| NodeGroupRuns.RaisedOnlyToMin | pkg/controller/nodegroup/status.go:112-130 | A reconcile never raises the desired count except to MinNodes |
| NodeGroupRuns.CreatesExactlyWhen | pkg/controller/nodegroup/reconciler.go:214-321 | A node is created if and only if some are missing, none is in transition and none failed for capacity |
| NodeGroupRuns.CleansUpExactly | pkg/controller/nodegroup/reconciler.go:230-270 | Scaling up deletes exactly the nodes that failed for capacity and whose Delete call succeeds |
| NodeGroupRuns.CleansUpFirst | pkg/controller/nodegroup/reconciler.go:230-290 | A reconcile that finds too few nodes deletes exactly those, and creates none while there is one |
| NodeGroupRuns.UtilizationShrinks | pkg/controller/nodegroup/reconciler.go:129-158 | At the target, utilization lowers the desired count only outside both windows, by the least of found, spare and limit |
| NodeGroupRuns.SelectionPrefersUnready | pkg/controller/nodegroup/reconciler.go:651-685 | The selection has the right size, repeats nothing, and takes no ready node while it spares another |
| NodeGroupRuns.StopsAtFailure | pkg/controller/nodegroup/reconciler.go:504-519 | The selection is deleted in order, up to the first call that fails |
| NodeGroupRuns.LookupFinds | pkg/controller/nodegroup/reconciler.go:415-438 | A drained node is found if and only if a listed node bears its name, and node name beats spec name beats hostname |
| NodeGroupRuns.LastByIsLast | pkg/controller/nodegroup/reconciler.go:386-407 | Of several nodes listed under one name the last is found |
| NodeGroupRuns.DeletesDrainedExactly | pkg/controller/nodegroup/reconciler.go:411-461 | Exactly the found nodes whose Delete call succeeds are deleted |
| NodeGroupRuns.ManagerDeletesExactly | pkg/controller/nodegroup/reconciler.go:340-461 | Only a drain without an error is followed by deletions, of exactly the nodes found under the first `limit` candidates whose Delete call succeeds |
| NodeGroupRuns.ScaleDownKeepsMin | pkg/controller/nodegroup/reconciler.go:340-523 | A scale-down deletes at most listed - MinNodes nodes: always on the simple path, and with a manager whose limit is no larger |
| NodeGroupRuns.ReconcileKeepsMin | pkg/controller/nodegroup/reconciler.go:113-172 | No reconcile that does not scale up goes below MinNodes, with a limit of one in particular |
| NodeGroupRuns.ManagerLimitDecides | pkg/controller/nodegroup/reconciler.go:361-457 | MinNodes survives every choice of candidates if and only if the limit is at most listed - MinNodes, or MinNodes is 0 |
| NodeGroupRuns.ReconcileKeepsDesired | pkg/controller/nodegroup/reconciler.go:113-172 | A reconcile that does not scale up leaves at least the desired count: always on the simple path, and with a manager whose limit is at most the excess |
| NodeGroupRuns.SimpleReachesDesired | pkg/controller/nodegroup/reconciler.go:482-523 | Without a manager and with no failing Delete call a reconcile that finds at least the desired count leaves exactly that many |
| NodeGroupRuns.ManagerOvershootsIff | pkg/controller/nodegroup/reconciler.go:361-457 | An intelligent scale-down can go below the desired count it was started for if and only if the manager's limit is larger than the excess |
| ScaleUps.ScaleUpController.MakeScaleUpDecision | pkg/events/scaleup.go:171-289 | A decision asks for one more node, if and only if cooldown, maximum and demand allow and all desired nodes are Ready |
| ScaleUps.ScaleUpController.ExecuteScaleUp | pkg/events/scaleup.go:292-343 | The stored status and the cooldown map after each outcome |
| ScaleUps.ExecutionIdempotent | pkg/events/scaleup.go:302-324 | Carrying a decision out never lowers the desired count or overshoots, repeating it changes nothing, and exactly which outcome is reported |
| ScalingRuns.CapacityBounds | pkg/controller/nodegroup/reconciler.go:100-190 | In every interleaving of reconciler, scale-up handler and nodes whose reads return what is stored, desired and active never exceed MaxNodes |
| ScalingRuns.PersistedDesired | pkg/controller/nodegroup/reconciler.go:193-203 | Every reconcile that persists leaves desired in [MinNodes, MaxNodes], whatever was stored in between |
| ScalingRuns.DesiredNeverRunsAhead | pkg/events/scaleup.go:217-262 | In every interleaving the desired count is at most the largest of its start, MinNodes and one more than the nodes ever shown Ready at once, however stale the decisions |
| ScalingRuns.ShownReadyWasTrue | pkg/controller/nodegroup/status.go:48-93 | In every interleaving the stored ready count never exceeds its start and the largest number of nodes Ready at once; nor does the desired count exceed the largest of its start, MinNodes and one more than either |
| ScalingRuns.ScaleDownStepKeepsMin | pkg/controller/nodegroup/reconciler.go:324-523 | A scale-down step on a stale list misses MinNodes at most by the nodes that left on their own |
| SequentialScaling.ReconcileEffect | pkg/controller/nodegroup/reconciler.go:214-321 | At a fixed target a reconcile adds one node exactly when one is missing and none is in transition |
| SequentialScaling.RunEffect | pkg/controller/nodegroup/status.go:112-164 | Over any run the measure drops by exactly one per phase step and one per creation |
| SequentialScaling.FairRoundDescends | pkg/controller/nodegroup/reconciler.go:214-321 | Every fair round lowers the measure while it is positive |
| SequentialScaling.ScalingConverges | pkg/controller/nodegroup/reconciler.go:214-321 | Every fair interleaving reaches the target with all nodes Ready, having created exactly the missing ones |
| SequentialScaling.StaysAtTarget | pkg/controller/nodegroup/status.go:133-136 | At the target nothing more is created |
| SequentialScaling.UntouchedNodesNotCounted | pkg/controller/nodegroup/status.go:279-291 | A reconcile creates while others are not Ready exactly when those are all untouched |
| SequentialScaling.TwoNodesAtOnce | pkg/controller/nodegroup/status.go:279-291 | A witness: from any group without nodes and a target of at least two, two reconciles in a row create two nodes |
| BatchMerging.MergeIsOptimal | pkg/rebalancer/planner.go:372-402 | No order-preserving admissible grouping of any batches has fewer groups than the greedy merge |
| BatchMerging.MergeIsAttained | pkg/rebalancer/planner.go:372-402 | The merge is itself such a grouping |
| BatchMerging.MergeKeepsNodes | pkg/rebalancer/planner.go:372-402 | The merged groups hold the same nodes in the same order |
| BatchMerging.MergedGroupsFit | pkg/rebalancer/planner.go:372-402 | If the batches fit the limit, so does every group, and none is empty |
| BatchMerging.EstimateBounds | pkg/rebalancer/planner.go:288-308 | The estimate is never below, and within the concurrency limit exactly, the base time |
| BatchMerging.EstimateExactly | pkg/rebalancer/planner.go:288-308 | Up to the concurrency limit one provisioning, one drain and a minute; beyond it that times the nodes by the limit, rounded down |
| BatchMerging.MergeNeverSlower | pkg/rebalancer/planner.go:288-308 | Merging never raises the summed estimate |
| RebalancePlanner.Append | pkg/rebalancer/planner.go:391 | Appending writes in place within the capacity and only there, else into a new array |
| RebalancePlanner.BatchNodes | pkg/rebalancer/planner.go:83-116 | Batch k is the slice from k * size, numbered k, waiting for k - 1 |
| RebalancePlanner.AppendBatch | pkg/rebalancer/planner.go:389-392 | Appending the neighbouring batch overwrites cells with themselves: no array and no finished group changes |
| RebalancePlanner.MergeBatches | pkg/rebalancer/planner.go:372-402 | The candidate array is unchanged and the groups, numbered from 0, are those of the greedy merge |
| RebalancePlanner.BatchesPartition | pkg/rebalancer/planner.go:83-116 | The batches cut the candidates in order into ceil(n/size) chained parts, all full but the last |
| RebalancePlanner.MergedPlan | pkg/rebalancer/planner.go:349-402 | Batching then merging: same nodes in order, as few groups as possible, no longer estimate, and groups within the limit if the batches are |
| RebalancePlanner.CanExecuteBatch | pkg/rebalancer/planner.go:427-458 | True if and only if the batch exists and all it depends on is completed |
| RebalancePlanner.OnlySchedule | pkg/rebalancer/planner.go:437-458 | The only repetition-free schedules admitted are 0, 1, 2, ... |
| RebalancePlanner.ValidatePlan | pkg/rebalancer/planner.go:311-346 | Accepts if and only if dependencies point back inside the plan, the size fits, strategy and rollback are set |
| RebalancePlanner.ChainedPlansValidate | pkg/rebalancer/planner.go:311-322 | Chained batches pass the dependency checks |
| RebalancePlanner.AdjustDuration | pkg/rebalancer/planner.go:405-424 | Half a minute more for each complex workload |
| RebalancePlanner.ComplexCounted | pkg/rebalancer/planner.go:405-424 | The number of workloads with a disruption budget, local storage or criticality |
| RebalancePlanner.ComplexNodesAdd | pkg/rebalancer/planner.go:405-424 | That number adds up over the nodes of a batch |
| RebalancePlanner.EstimateTotalDuration | pkg/rebalancer/planner.go:264-285 | The summed durations with twenty percent more, truncated |
| RebalancePlanner.DurationsAdd | pkg/rebalancer/planner.go:264-285 | The sum adds up over the batches |
| RebalancePlanner.BufferCovers | pkg/rebalancer/planner.go:282 | For a non-negative sum the buffered total is six fifths of it, rounded down |
| RebalancePlanner.OptimizePlan | pkg/rebalancer/planner.go:349-369 | The given plan changes if and only if it has one batch and that has a complex workload; with several batches a new list of merged, adjusted batches; the total is recalculated |
| RebalanceExecutor.ExecutionState.Replace | pkg/rebalancer/executor.go:163-245 | One node: the calls made, the outcome, the replacement recorded |
| RebalanceExecutor.ExecutionState.ExecuteRollingBatch | pkg/rebalancer/executor.go:149-249 | One batch: counters equal the lengths of their lists |
| RebalanceExecutor.ExecuteRebalance | pkg/rebalancer/executor.go:44-147 | A plan executed by rolling batches, which an unknown strategy is too, always ends Completed, with totals and lists over all batches |
| RebalanceExecutor.Accounting | pkg/rebalancer/executor.go:149-249 | Rebalanced + failed + skipped = candidates |
| RebalanceExecutor.TerminatedOnlyWhenReplaced | pkg/rebalancer/executor.go:163-245 | An old node is terminated only right after its own replacement was provisioned and seen Ready and it was drained |
| RebalanceExecutor.TerminatedIffRebalanced | pkg/rebalancer/executor.go:163-245 | It counts as rebalanced exactly when that termination succeeded; a replacement is removed exactly when it did not become ready |
| RebalanceExecutor.CallsMade | pkg/rebalancer/executor.go:163-245 | Which calls a run makes about a job, with which outcome, from the reply alone: a replacement is provisioned if and only if the group or the offering changes |
| RebalanceExecutor.OneJob | pkg/rebalancer/executor.go:163-245 | A job is skipped if and only if neither changes, rebalanced if and only if every step succeeds, and a failure names the first step that does not |
| RebalanceExecutor.ResultsJoin | pkg/rebalancer/executor.go:149-249 | Rebalanced nodes and failures of two lists of jobs are those of each, in order |
| RebalanceExecutor.CountsJoin | pkg/rebalancer/executor.go:149-249 | So are the replacements and the skipped |
| RateLimits.EventWatcher.CanScale | pkg/events/watcher.go:353-366 | No entry, or an entry at least a window old |
| RateLimits.EventWatcher.CleanUpLastScaleTime | pkg/events/watcher.go:272-292 | Removes exactly the entries older than two windows |
| RateLimits.EventWatcher.AddEvent | pkg/events/watcher.go:229-244 | A full buffer drops its oldest event |
| RateLimits.EventWatcher.ProcessEvents | pkg/events/watcher.go:295-343 | Empties the buffer and keeps the recent events in order |
| RateLimits.RecentOfOne | pkg/events/watcher.go:331-343 | A single event is kept if and only if it is younger than the window |
| RateLimits.RecentAdds | pkg/events/watcher.go:331-343 | Of two lists the kept events of each are kept, in order |
| RateLimits.RecentKeeps | pkg/events/watcher.go:331-343 | An event is kept as often as it came, or not at all |
| RateLimits.BufferHoldsNewest | pkg/events/watcher.go:229-244 | The buffer always holds the newest 1000 events, or all |
| RateLimits.CleanUpsUnobservable | pkg/events/watcher.go:272-292 | Dropping all cleanups from a run changes no decision, no raise and no later answer |
| RateLimits.AnswersTellHistory | pkg/events/watcher.go:272-366 | In every run, with cleanups anywhere, a group may be scaled if and only if every scale event recorded under its name is at least a window old |
| RateLimits.ScaleUpRate | pkg/events/scaleup.go:178-334 | In any interval a group is raised at most length/window + 1 times, cleanups and groups of the same name anywhere |
| ScaleDowns.ScaleDownManager.ScaleDown | pkg/scaler/scaler.go:357-470 | Which candidates are drained, whether an error is reported, and when the cooldown restarts |
| ScaleDowns.DrainedOrFailed | pkg/scaler/scaler.go:396-431 | All candidates are drained or counted as errors if and only if none was skipped |
| ScaleDowns.OneCandidate | pkg/scaler/scaler.go:396-431 | Nothing is done to a candidate during the cooldown or in a group at its minimum; otherwise it is drained only if safe, and a failing check or drain is an error |
| ScaleDowns.CandidatesAdd | pkg/scaler/scaler.go:396-431 | Drains and errors of two lists of candidates are those of each |
| IntelligentScaleDowns.ReconcileScaleDown | pkg/controller/nodegroup/reconciler.go:340-479 | Limit, drain through the manager, then delete: the nodes left |
| IntelligentScaleDowns.DeletedUndrained | pkg/controller/nodegroup/reconciler.go:370-461 | A node is deleted without having been drained exactly when no candidate failed and every candidate found as it, one at least, was skipped |
| IntelligentScaleDowns.UnsafeNodeDeleted | pkg/scaler/scaler.go:409-415 | A witness: one candidate found unsafe is not drained, no error is reported, and its node is deleted |
| ScaleDowns.ScaleDownRate | pkg/scaler/scaler.go:573-583 | In any interval at most (length/cooldown + 1) * limit nodes of a group are drained |
| PodResources.CalculatePodResources | pkg/events/analyzer.go:89-121 | Sum of the containers, raised to the largest init container |
| PodResources.PeakIsLeast | pkg/events/analyzer.go:103-114 | That is the least amount covering all containers together and each init container alone |
| PodResources.TotalAdds | pkg/events/analyzer.go:92-101 | What two lists of containers ask for adds up, CPU and memory each |
| PodResources.TotalOfOne | pkg/events/analyzer.go:92-101 | What one container asks for is its own CPU and memory, or nothing |
| PodResources.RequestIsLeast | pkg/events/analyzer.go:89-121 | A pod's CPU is the least that covers its containers' CPU together and each init container's alone; memory likewise |
| Demand.CalculateDeficit | pkg/events/analyzer.go:53-83 | Each pod key counts once, at its first event |
| Demand.KeyIdentifies | pkg/events/analyzer.go:64 | The key is unique for names without a slash |
| Demand.OnlyDistinctPodsCount | pkg/events/analyzer.go:53-83 | The deficit depends only on the set of pods: order and repetition do not matter |
| Demand.DeficitIsTotal | pkg/events/analyzer.go:53-83 | However often and in whatever order the pods come up, the deficit is the sum of the requests of the distinct pods, and their number |
| Demand.OneMoreEvent | pkg/events/analyzer.go:60-80 | An event under a key seen before adds nothing, any other the request of its pod |
| Demand.EstimateNodesNeeded | pkg/events/analyzer.go:386-430 | 0 without pods, else the least n >= 1 covering CPU, memory and pod count at once |
| Demand.SortMatches | pkg/events/analyzer.go:373-383 | In place: ranked by score, and within each score nothing moves, so it is a stable permutation |
| Demand.SameEntries | pkg/events/analyzer.go:373-383 | Keeping the order within every score loses no entry and adds none |
| Demand.SwapKeepsOrder | pkg/events/analyzer.go:378-380 | A swap of neighbours with different scores keeps the order within every score |
| KubeSizes.SelectOptimalKubeSizeID | pkg/events/creator.go:431-548 | A cheapest unused fitting offer, else a cheapest unused one, for any order the price sort gives; fails exactly when all are used |
| KubeSizes.FirstUnused | pkg/events/creator.go:500-544 | One pass finds a cheapest match or shows there is none |
| KubeSizes.RoundingGap | pkg/events/creator.go:498-512 | An accepted offer is too small exactly when memory was rounded down to just what it has |
| KubeSizes.RoundingHarmlessIff | pkg/events/creator.go:498-512 | Every accepted offer holds the request if and only if the request is a whole number of MiB |
| KubeSizes.SelectionHoldsIff | pkg/events/creator.go:493-544 | As long as some unused offer holds the request, the selected one does: for all offers and used sizes if and only if the request is a whole number of MiB |
| KubeSizes.TooSmallSizeSelected | pkg/events/creator.go:431-548 | A witness for any pod: the cheaper of two unused offers is returned; it cannot hold a pod whose memory is not whole MiB, although the other one can |
| CostTrend.DenominatorClosed | pkg/vpsie/cost/analyzer.go:273-278 | The divisor is n^2 (n^2 - 1) / 12, positive from two points on |
| CostTrend.FitIsLeastSquares | pkg/vpsie/cost/analyzer.go:469-483 | The fitted line has the smallest sum of squared errors of all lines |
| CostTrend.AffineFit | pkg/vpsie/cost/analyzer.go:469-483 | On a + b x the fit recovers a and b |
| CostTrend.ForecastCost | pkg/vpsie/cost/analyzer.go:452-528 | The forecast, its confidence and its bounds, and when there is none |
| CostTrend.ForecastAffine | pkg/vpsie/cost/analyzer.go:482-491 | On a + b x it is the value at 1.5 n, or the average if that is negative |
| CostTrend.GetCostTrend | pkg/vpsie/cost/analyzer.go:190-252 | Average, least and greatest cost, direction and change |
| CostTrend.CostsAdd | pkg/vpsie/cost/analyzer.go:210-292 | The sums of costs and of squared differences add up over the series |
| CostTrend.MeanTimesCount | pkg/vpsie/cost/analyzer.go:227-292 | Mean and variance times the number of points are those sums |
| CostTrend.DetermineTrend | pkg/vpsie/cost/analyzer.go:255-309 | The direction by variance and slope |
| CostTrend.AffineDirection | pkg/vpsie/cost/analyzer.go:280-309 | Exactly when a steady change is reported as increasing, decreasing, stable or volatile |
| CostTrend.VarianceTakenForDeviation | pkg/vpsie/cost/analyzer.go:280-300 | For every series of positive mean: the verdict differs from the documented ten percent test of the standard deviation exactly if the variance lies between a tenth of the mean and its square |
| CostTrend.TestsAgreeOnlyAtTen | pkg/vpsie/cost/analyzer.go:280-300 | The two tests agree on every series of a given positive mean if and only if that mean is 10 |
| CostTrend.CalmCostsVolatile | pkg/vpsie/cost/analyzer.go:280-300 | A witness: the costs 989 and 1011 are reported as volatile |

## Left out

- HTTP client, tokens, Kubernetes calls, webhooks, metrics, logging, tracing, events and conditions: I/O or library wrappers; their answers are oracles.
- Stale cache reads outside `StaleReads.dfy`, which covers the creations of a VPSieNode: everywhere else every Get and List returns what is stored.
- User edits of a VPSieNode and of a NodeGroup's spec: the spec is fixed during a run; a deletion request, by anyone, can come at any time.
- The time-to-live of Failed VPSieNodes: the handler's deletion request is the request step of a run, its error an answer; when the time is up is not modelled.
- Draining in the Terminating phase and joining details: their results do not change phase or identity; MonitorNode of a Ready node changes only conditions, so only its error is modelled.
- Node discovery and claiming: an oracle; exclusivity rests on a patch call whose semantics are outside the source.
- The whole-second truncation of stored timestamps, int32 and int64 overflow, and rounding of floating-point numbers.
- VPSieNodeRuns.Settles: assumes reconciles that persist and come at most a gap apart, because nothing else bounds when they happen.
- NodeGroups.Reconciler.Reconcile: the manager's identification of underutilized nodes is an oracle, and its limit is a natural number because a negative one panics.
- ScalingRuns.CapacityBounds: the update of executeScaleUp carries a resource version, so its read, check and write are one step.
- ScaleDowns.ScaleDownRate: counts drains the manager reports as successful; the scale-downs of one group run one after the other.
- RateLimits.ScaleUpRate: an update that was applied but reported as failed is not recorded by the source and does not count as executed.
- RebalancePlanner.BatchNodes: needs a positive effective batch size, because the source loops forever otherwise.
- RebalancePlanner.MergeBatches: stated for consecutive slices of one array, the only layout BatchNodes makes; needs a nonzero concurrency, because estimating two nodes divides by it; the merged batches carry no dependencies, because the source drops them.
- RebalanceExecutor.ExecuteRebalance: only rolling plans; the source's provisioning function is not implemented, so provisioning is an oracle, and surge, blue-green and rollback are not modelled.
- The rollback plan and the choice of strategy: straight-line code.
- Restoring schedulability after a failed drain: the source works on a copy of the node.
- CostTrend.ForecastCost: a horizon of zero, for which the source divides zero by zero in floating point.
- Snapshot storage, efficiency scores and utilization recommendations: a filter and threshold tables.
- NodeGroup matching by selectors, taints and tolerations, the cost score and the choice of instance type: the outcome is a parameter.
- Demand.CalculateDeficit: OnlyDistinctPodsCount assumes events about one pod carry the same pod.
- The circuit breaker's behaviour for a state string other than its three constants.
