# Node termination handler: a verified model

This project models the concurrent core of the AWS Node Termination Handler and of its Spot
Guard extension, and proves what holds in every run.

* **The interruption pipeline.** A queue monitor turns messages into interruption events, one
  adder puts them in a shared store, one dispatcher hands them to a bounded number of
  handlers, each handler cordons or drains a node and then marks, cancels or acknowledges,
  and a watcher may uncordon. `Pipeline.dfy` is a transition system whose steps are the
  critical sections of the code; a run is a sequence of labels, and every label carries the
  outcome of the outside call made in that step. `EventStore.dfy` holds the store itself as a
  class over the same state functions, and `HandlerCode.dfy` the handlers in the code's own
  shape and on that store, proved to take the one path of the transition system that the
  outcomes of their calls allow. `PipelineDispatch.dfy`, `PipelineHandlers.dfy`,
  `PipelineExits.dfy` and `PipelineEntries.dfy` prove what holds in every run;
  `PipelineWitnesses.dfy` has the runs that happen.
* **Spot Guard.** `SelfMonitor.dfy` is the state machine of one node's self-monitor, whose pod
  may die between any two steps and whose API calls may all fail; `SelfMonitorCode.dfy` is the
  same check in the code's shape, again the only path its calls' outcomes allow.
  `AsgCounter.dfy` is the desired capacity that many pods change by an unprotected read and
  write, and `FleetCapacity.dfy` puts any number of monitors and that counter together.
  `Stability.dfy`, `HealthCheck.dfy`,
  `Utilization.dfy` and `PreScale.dfy` are the gates.
* **Kernels.** The optimistic taint loops (`TaintRetry.dfy`), the heartbeat loop
  (`Heartbeat.dfy`), the capacity keyword scan (`CapacityIssues.dfy`) and the JSON Pointer
  escape (`JsonPointer.dfy`).

`dafny verify dfyconfig.toml` checks everything.

## Where the code does not do what it says

The model follows the code. These are the differences that show up in the theorems.

* The self-monitor returns before it stores a reset stability timer, so its timer is the time
  of the first good check of the pod's life (`SelfPassesIff`). `Monitor` keeps the promise
  "good for the whole duration" (`MonitorPassesIff`). The self-monitor passes a check that
  `Monitor` would hold back exactly when the first good check is old enough but a bad one came
  later and no good check after that one is old enough (`SelfBreaksPromiseIff`);
  `SelfIgnoresOutage` is such a run. For a given duration an outage is harmless once good
  checks have lasted that long again; the two agree for every duration exactly when there was
  no outage (`SelfIsContinuousIff`). The first condition is also proved of whole self-monitor
  runs (`LoweredThroughOutageIff`), and one of them lowers the ASG right after an outage
  (`LoweredAfterOutageRuns`).
* The "temporary" fallback threshold stays until the pod dies (`ThresholdStaysRaised`).
* Two lowerings of the ASG by one node are separated by a full termination wait unless the
  first call's marker write or the second call's marker read failed (`DecrementsSeparated`);
  both exceptions happen (`DoubleDecrementRuns`).
* The capacity gate divides by what is left after the removal. With no CPU or negative memory
  left, NaN and negative quotients open it; `GateSoundIff` gives the exact condition. Removing
  a node that is not ready is such a case (`UnreadyNodeRemoved`), and it lowers the ASG
  (`LoweredWithoutRoomRuns`).
* Concurrent lowerings of the ASG are lost (`HerdLowersByOne`); without overlap each counts
  once (`ExactWithoutOverlap`).
* An event's entry is still open, stored and unmarked, when its handler ends exactly when nobody
  else closed it and the handler passed it by (`LeftOpenIff`). There are three ways to pass it
  by, and each happens: no name was found for the node (`UnnamedEntryRun`), a launch found its
  node ready (`ReadyLaunchRun`), or the drain worked under a name that is not the event's own, so
  that the marking went by another name (`OtherNameRun`; events carry the private DNS name, the
  handler marks the Kubernetes name found by provider ID). The object is then never picked
  again, and its entry blocks its ID until a watcher cancels it, a sweep follows a marking of its
  node, or another handler of that ID removes it (`StartedEntryBlocks`).
* A handler leaves the heartbeat it started running exactly when the drain worked and completing
  the lifecycle hook failed (`LeavesHeartbeatIff`), which happens (`LeftHeartbeatRun`). After a
  failed drain the heartbeat is stopped whatever the completion does.
* `contains` is documented as case-insensitive and is plain substring. The two agree on every
  text exactly when what is looked for has no ASCII letter in it (`ContainsIgnoresCaseIff`), and
  the test for throttling errors lowers neither side (`ThrottlingIsMissed`).
* "Node not found" is any failure to read the node's labels. After a failed drain the message is
  deleted exactly when the delete flag is on, that one read failed, and no hook was left
  incomplete (`MessageDeletedIff`); so an existing node whose drain failed can lose its message
  (`LostMessageRun`).

## Model

| member | source | states |
|---|---|---|
| EventStoreSpec.CleanKeepsDrainable | pkg/interruptioneventstore/interruption-event-store.go:164-185 | a sweep removes processed events only, leaves the drainable set as it was at any time, and can turn the uncordon answer only from no to yes |
| EventStoreSpec.MarkNodeDrains | pkg/interruptioneventstore/interruption-event-store.go:122-131 | marking a node takes exactly that node's stored events out of the drainable set |
| EventStore.Store.CancelInterruptionEvent | pkg/interruptioneventstore/interruption-event-store.go:56-61 | new store state: the ID's entry gone, everything else kept |
| EventStoreSpec.FirstEventWins | pkg/interruptioneventstore/interruption-event-store.go:56-79 | adding keeps every entry; a second event of an ID changes nothing until the first is cancelled, and then replaces it; cancelling undoes adding |
| EventStore.Store.AddInterruptionEvent | pkg/interruptioneventstore/interruption-event-store.go:63-79 | both halves with nobody in between: the new store state is the first-event-wins addition |
| EventStore.Store.InsertEvent | pkg/interruptioneventstore/interruption-event-store.go:72-78 | the write-locked half: the entry points at this object, and the flag is set unless the ID is ignored |
| EventStore.Store.IgnoreEvent | pkg/interruptioneventstore/interruption-event-store.go:133-142 | the ID joins the ignored set, the empty ID does nothing |
| EventStore.Store.MarkAllAsProcessed | pkg/interruptioneventstore/interruption-event-store.go:122-131 | processed is set on exactly the stored objects of that node, in place |
| EventStore.Store.CleanPeriodically | pkg/interruptioneventstore/interruption-event-store.go:164-185 | counts calls and on the 7200th removes exactly the processed entries |
| EventStore.Store.FirstDrainable | pkg/interruptioneventstore/interruption-event-store.go:85-92 | returns a stored drainable object, or none exactly when there is none |
| EventStore.Store.GetActiveEvent | pkg/interruptioneventstore/interruption-event-store.go:81-113 | an event comes back exactly when one was drainable before the sweep |
| EventStore.Store.ShouldUncordonNode | pkg/interruptioneventstore/interruption-event-store.go:144-162 | true exactly when some event counted and none that counts is left for the node |
| QueueReceipt.DropsFullIffAllDropped | pkg/monitor/sqsevent/sqs-monitor.go:242-286 | the drop counter equals the list's length exactly when every wrapper was dropped |
| QueueReceipt.ProcessInterruptionEvents | pkg/monitor/sqsevent/sqs-monitor.go:241-293 | which events go on the channel and in what order; deletion exactly when all were dropped; failure exactly on a retryable error or a failed deletion |
| PipelineDispatch.RunInvariant | cmd/node-termination-handler.go:333-354 | in every run: ownership of objects, slots, and the record of starts and picks |
| PipelineDispatch.DispatchedOnce | cmd/node-termination-handler.go:340-351 | an event object is dispatched at most once in a run |
| PipelineDispatch.RemovedExactlyBy | pkg/interruptioneventstore/interruption-event-store.go:56-61 | an entry disappears exactly by a watcher's cancel, a sweep of a processed event, or a failed handler of that ID |
| PipelineDispatch.RepickNeedsRemoval | pkg/interruptioneventstore/interruption-event-store.go:63-93 | two picks of one ID that yield different objects have a removal between them |
| PipelineDispatch.RedispatchNeedsRemoval | cmd/node-termination-handler.go:340-351 | two dispatches with one ID are of two objects, and between the very picks that led to them, the second after the first dispatch, the first object's entry was removed |
| PipelineDispatch.EventNeverChanges | pkg/monitor/types.go:43-65 | an object's identity fields never change and processed stays processed |
| PipelineDispatch.SlotsAreHandlers | cmd/node-termination-handler.go:341-351 | occupied slots are the handlers in flight, counting the one being spawned, and never exceed the configured workers |
| PipelineDispatch.StartsBoundedByPending | cmd/node-termination-handler.go:339-352 | with no insertion the dispatch loop starts at most the events pending at its start, whatever else happens |
| PipelineDispatch.MarkedNeverPicked | pkg/interruptioneventstore/interruption-event-store.go:107-131 | after a node is marked no event then stored for it is picked again |
| PipelineDispatch.AtLeastOneIffInserted | pkg/interruptioneventstore/interruption-event-store.go:76-78 | the flag is set exactly when an event not ignored at that moment was ever inserted |
| PipelineDispatch.UncordonsExactly | cmd/node-termination-handler.go:387-417 | the watcher uncordons exactly when such an insertion happened and no event that counts is left for the node |
| PipelineHandlers.RunEvidence | pkg/interruptionevent/draincordon/handler.go:60-135 | in every run, what each handler has seen by the place it is at, and which receipt each event came from |
| PipelineHandlers.DeletionJustified | pkg/monitor/sqsevent/sqs-monitor.go:159-293 | a message is deleted only as a test notification, when all of it was dropped on that receipt, or after the work of an event built from it was done and, for ASG events, its hook completed |
| PipelineHandlers.ReceiptsAreFresh | pkg/monitor/sqsevent/sqs-monitor.go:295-315 | no two receipts share a number, so a deletion speaks about one receipt |
| PipelineHandlers.UnfinishedMessageKept | pkg/monitor/sqsevent/sqs-monitor.go:253-256 | a message with an event to handle or to retry is deleted only after such work |
| PipelineHandlers.StepsInOrder | pkg/interruptionevent/draincordon/handler.go:60-135 | one object's handler steps come in strictly rising order over the whole run, and an outcome that skips steps has none of them after it |
| PipelineHandlers.ChannelsClosedOnce | pkg/monitor/sqsevent/asg-lifecycle-event.go:101-134 | the heartbeat starts at most once and each channel is closed at most once per event, also when cancel and post-drain both run |
| PipelineHandlers.ClosersOwnChannels | pkg/monitor/sqsevent/asg-lifecycle-event.go:104-119 | only ASG termination events from the queue ever close a channel |
| PipelineExits.LeavesHeartbeatIff | pkg/interruptionevent/draincordon/handler.go:113-124 | at a handler's end its heartbeat was started and never told to stop exactly when heartbeats are on, the drain worked and completing the hook failed |
| PipelineWitnesses.LeftHeartbeatRun | pkg/monitor/sqsevent/asg-lifecycle-event.go:104-114 | for every ASG termination event, a run that ends so |
| PipelineEntries.ClosesIff | pkg/interruptioneventstore/interruption-event-store.go:56-131 | an open entry is closed exactly by a watcher's cancel, a handler that removes its ID, or a handler that marks its node |
| PipelineEntries.LeftOpenIff | pkg/interruptionevent/draincordon/handler.go:66-120 | when its handler ends the entry is open in the store exactly when nobody else closed it and no name was found, a launch was ready, or the drain worked under a name other than the event's own |
| PipelineEntries.StartedEntryBlocks | pkg/interruptioneventstore/interruption-event-store.go:63-113 | a started object is never picked again, its entry leaves only by the three ways of removal, and until then no event with its ID is picked |
| PipelineWitnesses.UnnamedEntryRun | pkg/interruptionevent/draincordon/handler.go:66-69 | with provider IDs, for every event, a run that leaves its entry open because no name was found |
| PipelineWitnesses.ReadyLaunchRun | pkg/interruptionevent/asg/launch/handler.go:66-85 | for every launch event, a run that goes well, deletes the message and leaves the entry open |
| PipelineWitnesses.OtherNameRun | pkg/interruptionevent/draincordon/handler.go:113-120 | with provider IDs, for every event and every name but its own, a run that drains the node, deletes the message and leaves the entry open |
| PipelineHandlers.FailedDrainKeepsMessage | pkg/interruptionevent/draincordon/handler.go:122-124 | a failed drain of a node that was found never gets its message deleted |
| PipelineExits.MessageDeletedIff | pkg/interruptionevent/draincordon/handler.go:122-124 | by its handler's end the message is deleted exactly when no completion failed and the drain worked or, with the flag on, the labels could not be read; after a failed drain only the latter |
| PipelineWitnesses.LostMessageRun | pkg/interruptionevent/draincordon/handler.go:71-124 | with the flag on, for every event, a run whose drain fails and whose message is deleted after one failed read |
| PipelineHandlers.HandlerNeverStuck | cmd/node-termination-handler.go:419-436 | a handler in flight can always take its next step |
| PipelineExits.HandlerStepsBounded | cmd/node-termination-handler.go:419-436 | in every run, with any outcomes and interleaving, a handler takes at most twelve steps, and one that has taken twelve or is gone has given its slot back |
| PipelineWitnesses.LongestRun | pkg/interruptionevent/draincordon/handler.go:60-135 | the bound of twelve is reached |
| PipelineExits.HandlerReturnsSlot | cmd/node-termination-handler.go:428-436 | from every reachable state a handler can return its slot by steps of its own alone |
| PipelineHandlers.DispatcherNeverStuck | cmd/node-termination-handler.go:333-354 | the dispatcher always has a step |
| PipelineHandlers.DrainableGetsDispatched | cmd/node-termination-handler.go:333-354 | in every reachable state with an idle dispatcher and a free slot, sweep, scan, slot, mark and spawn can start a handler for any drainable event: the sweep hides none |
| PipelineHandlers.AdderNeverStuck | cmd/node-termination-handler.go:380-385 | an adder holding an event always has a step |
| PipelineHandlers.MonitorWaitsOnlyForAdder | pkg/monitor/sqsevent/sqs-monitor.go:247-286 | the queue monitor waits for nothing but the adder |
| HandlerCode.RunPostDrainTask | pkg/monitor/sqsevent/asg-lifecycle-event.go:104-114 | the post-drain closures are a path of the automaton that reports each call's own outcome |
| HandlerCode.LaunchHandleEvent | pkg/interruptionevent/asg/launch/handler.go:57-85 | the launch handler is a path from its entry to the drain handler's, true to what its calls returned, with that path's effect on the store |
| HandlerCode.DrainNode | pkg/interruptionevent/draincordon/handler.go:60-120 | the drain handler up to its bookkeeping ends at the post-drain test with the outcomes it saw, and has cancelled the entry or marked the node in the store |
| HandlerCode.DrainHandleEvent | pkg/interruptionevent/draincordon/handler.go:60-135 | the drain handler, out-of-service taint included, is a path to the release, true to what its calls returned, with that path's effect on the store |
| HandlerCode.ProcessInterruptionEvent | cmd/node-termination-handler.go:419-436 | both handlers then the slot: a complete path on every outcome, releasing once, and the store is left as the pipeline leaves it on that path |
| HandlerCode.PathUnique | cmd/node-termination-handler.go:419-436 | what the calls return leaves one complete path only, so no other order, omission or branch meets the methods' contract |
| PipelineWitnesses.EveryPathRuns | cmd/node-termination-handler.go:419-436 | from every reachable state a handler can take every path of the automaton, and alone it changes the store as the path says |
| AsgCounter.CapacityBounded | pkg/spotguard/scaledown_executor.go:256-320 | under any interleaving with scale-ups, lost updates included: min <= desired <= max and initial - lowered <= desired <= initial + raised |
| AsgCounter.CapacityConserved | pkg/spotguard/spotguard.go:79-118 | desired is initial - lowered + raised plus the drift of the stale writes |
| AsgCounter.ExactWithoutOverlap | pkg/spotguard/scaledown_executor.go:264-320 | without overlapping read-write pairs desired is exactly initial - lowered + raised |
| AsgCounter.HerdLowersByOne | pkg/spotguard/scaledown_executor.go:289-312 | any number of pods that read before the first writes lower the group by one |
| SelfMonitor.DecrementFollowsFullCall | pkg/spotguard/self_monitor.go:155-301 | every lowering ends one uninterrupted call that passed all gates and tainted, cordoned and drained |
| SelfMonitor.DecrementLeavesRoom | pkg/spotguard/safety_checker.go:281-350 | on the nodes and pods listed in that call, with some CPU and no negative memory left, the pods fit the larger of the configured and fallback thresholds of what is left, and the plain utilisation is within it |
| SelfMonitorRuns.LoweredWithoutRoomRuns | pkg/spotguard/safety_checker.go:323-347 | for every configuration, a run that removes an unready node and lowers the ASG with no room for the pods at any threshold |
| SelfMonitorRuns.ClearFollowsWait | pkg/spotguard/self_monitor.go:126-148 | the marker is cleared only after a full wait that saw only a live node, in one pod life |
| SelfMonitorRuns.MarkerStays | pkg/spotguard/self_monitor.go:439-482 | only a successful clear takes a marker away, restarts included |
| SelfMonitorRuns.DecrementsSeparated | pkg/spotguard/self_monitor.go:119-150 | two lowerings by one node have such a wait and a clear between them, unless the first call's marker write or the second call's own marker read failed |
| SelfMonitorRuns.LoweringsBounded | pkg/spotguard/self_monitor.go:119-150 | one node lowers the ASG at most once more than it cleared its marker or failed to write or read it |
| FleetCapacity.FleetKeepsCapacity | pkg/spotguard/scaledown_executor.go:256-320 | for any number of nodes in any interleaving, the group stays in its limits and loses at most one instance per node and one per such clearing or failure |
| SelfMonitorRuns.DoubleDecrementRuns | pkg/spotguard/self_monitor.go:279-282 | for every configuration, runs in which each of the two exceptions lowers the ASG twice |
| SelfMonitorRuns.NeverBeforeMinimumWait | pkg/spotguard/self_monitor.go:162-172 | never before the first start on the node plus the minimum wait, less under a second |
| SelfMonitorRuns.StartSurvivesRestarts | pkg/spotguard/self_monitor.go:387-437 | with the API working a restart keeps the first start time |
| SelfMonitorRuns.ThresholdStaysRaised | pkg/spotguard/self_monitor.go:607-618 | the threshold is the fallback one exactly when a fallback succeeded since the pod started |
| SelfMonitorRuns.DecrementAfterTwoGoodChecks | pkg/spotguard/self_monitor.go:174-214 | every lowering follows two good checks of one pod at least the stability duration apart |
| SelfMonitorRuns.TimerFollowsChecks | pkg/spotguard/self_monitor.go:174-207 | in every run the pod's timer is the self-monitor timer over the checks of its present life |
| SelfMonitorRuns.LoweredThroughOutageIff | pkg/spotguard/self_monitor.go:190-214 | every lowering rests on a check that passed that timer, and Monitor would have held it back exactly on a recent outage |
| SelfMonitorRuns.LoweredAfterOutageRuns | pkg/spotguard/self_monitor.go:190-207 | for every configuration, a run that sees the spot group unhealthy and lowers the ASG with no time in between |
| SelfMonitorCode.Monitor.PassGates | pkg/spotguard/self_monitor.go:162-242 | the gates as code are a path of the state machine, timer and threshold included, each step reporting its call's own outcome |
| SelfMonitorCode.Monitor.ScaleDown | pkg/spotguard/scaledown_executor.go:55-134 | the executor as code is a path; it succeeds exactly when all its required steps do |
| SelfMonitorCode.Monitor.DecreaseCapacity | pkg/spotguard/scaledown_executor.go:256-318 | one less than the described capacity is asked for exactly when the group was found and that is not below its minimum; success exactly when that write succeeds |
| SelfMonitorCode.Monitor.CheckAndScaleDown | pkg/spotguard/self_monitor.go:155-301 | one check as code is a path from idle to idle, or to the termination wait exactly when it returns true |
| SelfMonitorCode.CheckUnique | pkg/spotguard/self_monitor.go:155-301 | what the calls return leaves one whole check only, so the code takes the only one there is |
| StabilityTimer.MonitorPassesIff | pkg/spotguard/monitor.go:135-170 | an event passes at a check exactly when it is good and a streak of good checks, errors aside, began at least the duration ago |
| StabilityTimer.SelfPassesIff | pkg/spotguard/self_monitor.go:174-214 | the self-monitor passes exactly when the check is good and the first good one is at least the duration ago |
| StabilityTimer.SelfBreaksPromiseIff | pkg/spotguard/self_monitor.go:190-207 | it passes what Monitor would not exactly when its first good check is old enough but lies before a bad one after which no good check is; it passes all that Monitor passes |
| StabilityTimer.SelfIsContinuousIff | pkg/spotguard/self_monitor.go:190-207 | with a moving clock it agrees with Monitor for every duration exactly when no check since its first good one was bad |
| StabilityTimer.SelfIgnoresOutage | pkg/spotguard/self_monitor.go:190-207 | for every duration, a run that passes right after an outage |
| StabilityTimer.FallbackEvent.ShouldScaleDown | pkg/spotguard/monitor.go:141-169 | the stored timer and the verdict of one check |
| StabilityTimer.FallbackEvent.ExecuteScaleDown | pkg/spotguard/monitor.go:198-211 | the flag stays set exactly when the attempt succeeded |
| StabilityTimer.WatchEvent | pkg/spotguard/monitor.go:100-132 | over all checks of an event it is scaled down at most once, at the first check that passes on a streak of the required length and executes, and at none only if there is none |
| HealthCheck.LastSegment | pkg/spotguard/health_checker.go:380-383 | the slash-free end of a provider ID, up to its last slash |
| HealthCheck.IsSpotAsgHealthy | pkg/spotguard/health_checker.go:90-119 | healthy exactly when the in-service, healthy instances reach the desired capacity |
| HealthCheck.AreSpotNodesReady | pkg/spotguard/health_checker.go:160-260 | ready exactly when the group has nodes and all are schedulable and ready |
| HealthCheck.IsSpotCapacityStable | pkg/spotguard/health_checker.go:264-353 | the stability verdict and timer of a snapshot |
| HealthCheck.CheckSpotAsgComprehensive | pkg/spotguard/health_checker.go:396-592 | health, readiness, stability, timer and instance IDs of a snapshot, by the same definitions |
| HealthCheck.CompareChecks | pkg/spotguard/health_checker.go:393-396 | the one-call check returns what the three checks return |
| KubeNodes.IsNodeReady | pkg/spotguard/safety_checker.go:352-360 | the first Ready condition decides |
| Utilization.SumCapacity | pkg/spotguard/safety_checker.go:289-302 | capacity summed over ready nodes |
| Utilization.SumRequests | pkg/spotguard/safety_checker.go:310-321 | requests summed over the containers of running pods |
| Utilization.HasClusterCapacityBuffer | pkg/spotguard/safety_checker.go:281-350 | the gate on those totals minus the removed node, ready or not |
| Utilization.GetClusterUtilization | pkg/spotguard/safety_checker.go:363-410 | the higher of CPU and memory utilisation, zero without capacity |
| Utilization.GateExact | pkg/spotguard/safety_checker.go:327-349 | with capacity left the gate opens exactly when 100 used <= limit left for both resources |
| Utilization.GateSoundIff | pkg/spotguard/safety_checker.go:327-349 | for all loads the open gate implies those bounds exactly when some CPU and no negative memory is left |
| Utilization.NegativeRoomOpensGate | pkg/spotguard/safety_checker.go:323-347 | a node larger than all ready capacity passes the gate for every load, and nothing fits |
| Utilization.UnreadyNodeRemoved | pkg/spotguard/safety_checker.go:294-347 | nodes and pods on which that happens, for every threshold |
| Utilization.GateBoundsUtilization | pkg/spotguard/safety_checker.go:363-410 | a removal let through with some CPU and no negative memory left leaves room for the pods and bounds the plain utilisation of the same snapshot |
| PreScale.RoundUp | pkg/spotguard/health_checker.go:689-693 | truncate-and-bump is rounding up |
| PreScale.CalculatePreScaleNodes | pkg/spotguard/health_checker.go:660-747 | needed = spot + additional, additional >= 1 exactly above the target, expected utilisation at most the target |
| PreScale.AdditionalMonotone | pkg/spotguard/health_checker.go:674-729 | higher utilisation never asks for fewer nodes |
| PreScale.OneFewerMissesTarget | pkg/spotguard/health_checker.go:684-696 | without a buffer and with a shortfall, one node fewer misses the target |
| TaintRetry.RemoveUndoesAdd | pkg/node/node.go:839-881 | removing the added key gives the old taints back |
| TaintRetry.WithoutKeepsOthers | pkg/node/node.go:871-881 | a taint under another key survives removal in its place |
| TaintRetry.WithoutLacksKey | pkg/node/node.go:871-889 | the shorter list lacks the key; equal length means it was not there |
| TaintRetry.AddTaintToSpec | pkg/node/node.go:839-856 | appends exactly when the key is absent |
| TaintRetry.TryUpdate | pkg/node/node.go:815-823 | a committed update replaced exactly the taints the copy was read from; another try follows a conflict before the deadline only, after the pause |
| TaintRetry.AddTaint | pkg/node/node.go:783-837 | under any concurrent writers an atomic append to the current taints, a no-op justified by a read in the call, or no write; at most eight updates |
| TaintRetry.RemoveTaint | pkg/node/node.go:858-913 | the same for removal, the rest kept in order |
| TaintRetry.RemoveNthTaints | pkg/node/node.go:563-584 | writes nothing but removals of its own keys, and on success each key was gone at some version since |
| Heartbeat.ParseHeartbeat | pkg/config/config.go:337-356 | accepts exactly the documented settings, fills in the default, and returns documented settings |
| Heartbeat.SendHeartbeats | pkg/monitor/sqsevent/asg-lifecycle-event.go:175-212 | the beats fit in until, the loop ends by until, and each way of ending is justified |
| Heartbeat.AtMost5760 | pkg/config/config.go:341-346 | an accepted configuration has room for at most until / interval <= 5760 heartbeats |
| Heartbeat.Heartbeats | pkg/monitor/sqsevent/asg-lifecycle-event.go:121-127 | from the settings, the stop and the replies to the end of one heartbeat: which beats, how many, why and when it is over, and exactly when and how long the hook lives; undisturbed it reaches its deadline and the hook outlives it |
| Heartbeat.KeptAliveIff | pkg/monitor/sqsevent/asg-lifecycle-event.go:214-246 | with some heartbeats failing, the hook lives through the loop exactly when every silence is shorter than its timeout |
| Heartbeat.HookLifetime | README.md:119-133 | with all accepted: alive exactly when interval < timeout, and then until between until - interval + timeout and until + timeout |
| CapacityIssues.ToLower | pkg/spotguard/spotguard.go:301-313 | bytewise ASCII lowering |
| CapacityIssues.IndexOf | pkg/spotguard/spotguard.go:325-333 | the first occurrence, or -1 exactly when there is none |
| CapacityIssues.Contains | pkg/spotguard/spotguard.go:315-323 | exactly mathematical substring |
| CapacityIssues.ContainsIgnoresCaseIff | pkg/spotguard/spotguard.go:315-323 | substring and occurrence ignoring case agree on every text exactly when what is looked for has no ASCII letter |
| CapacityIssues.ThrottlingIsMissed | pkg/spotguard/spotguard.go:204-213 | a text that mentions throttling in the other case and is not found |
| CapacityIssues.LoweredOccurs | pkg/spotguard/spotguard.go:255-260 | substring of the lowered strings is occurrence ignoring ASCII case |
| CapacityIssues.CheckForCapacityIssues | pkg/spotguard/spotguard.go:216-272 | reported exactly when a recent failed or cancelled activity names a keyword |
| JsonPointer.EscapeIsOnePass | pkg/node/node.go:764-767 | the two passes equal the one-pass escape of section 3 of RFC 6901 |
| JsonPointer.EscapeRoundTrip | pkg/node/node.go:764-767 | the decoding order of section 4 of RFC 6901 undoes it, and no slash is left |
| JsonPointer.EscapeInjective | pkg/node/node.go:764-767 | different keys get different paths |

## Left out

- AWS, Kubernetes, webhook, metrics, logging and event-recorder calls: each is an outcome chosen by the environment; cordon and drain themselves are one such outcome.
- JSON decoding and the construction of events from messages (pkg/monitor/sqsevent): any list of wrappers may come from a message.
- The IMDS monitors: an event without a receipt may arrive at any time.
- A delete, complete, set-capacity or node-update call that reports failure is taken to have had no effect; `AddTaint` and `RemoveTaint` say that a failure writes nothing in this sense.
- A cancelled context: during the termination wait it would clear the marker early (pkg/spotguard/self_monitor.go:320-322), but the self-monitor is started with a context that is never cancelled (cmd/node-termination-handler.go:239).
- The termination wait's and dispatcher's ticker periods: a tick may come at any time.
- Changes of the ASG's limits or desired capacity by anything but the handler's own pods.
- Start-time annotations that do not parse: nothing but the self-monitor writes them in the model.
- SelfMonitorCode.Monitor.CheckAndScaleDown: one check takes no time here; in `SelfMonitor` time may pass between any two steps, the execution jitter included.
- Fallback tracker (pkg/spotguard/fallback_tracker.go): only the event's own fields; the map, its lookup and its cleanup would add easy members.
- Pod placement and disruption budgets (pkg/spotguard/safety_checker.go:180-278): one outcome per check.
- The wait for new or pre-scaled instances (pkg/spotguard/spotguard.go:121-166, pkg/spotguard/self_monitor.go:653-711): one outcome.
- Node type detection, Cluster Autoscaler protection, label handling, uptime and the rest of the configuration.
- Negative resource quantities, which the Kubernetes API does not admit.
- Dry-run mode, and the mapping of taint effect names.
- Shutdown on SIGTERM, and delivery of every entity of an AWS Health event, which the code does not provide.
- Rounding of 64-bit floats: quotients are exact reals apart from infinities and NaN.
- EventStore.Store.AddInterruptionEvent: its two locked halves are one call here; `Pipeline` separates them.
- EventStore.Store.GetActiveEvent: the sweep and the scan are one call here; `Pipeline` separates them.
- EventStore.Store.CleanPeriodically: the statistics log that runs beside it is not modelled.
