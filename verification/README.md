# Maintenance operator: a verified model

The maintenance operator moves NodeMaintenance requests through a fixed sequence of phases: a
scheduler picks requests under two limits, and a reconciler cordons the node, waits for pods, drains
it, reports Ready, and undoes everything on deletion. On OpenShift it also pauses the node's machine
config pool, which several requests may share. This project models the operator and proves what it
guarantees.

## How the model is built

**The scheduler's decision** (`Api`, `Seqs`, `Ordering`, `Ranking`, `Scheduling`, `Selection`,
`PreScheduling`, `Planning`, `SchedulerOptions`) is modelled as methods with the source's loops,
proved against functions, and the functions are then compared with independent descriptions:
counting, permutations, maximality, bounds.

**Everything else runs concurrently, so it is one step system** (`Operator`). A state holds, for
every request name, the whole history of versions the API server ever stored; the position in that
history is the resource version, and the informer cache is a position that only moves forward. A
step is one of: an edit by a user or the garbage collector, a change to a node or a pool by somebody
else, a delivery to a cache, a timer, a process restart, a step of a drain goroutine, one step of a
scheduling round (list, one version-checked write, end of one wait), or one statement of the
reconciler. The reconciler's program is `Handlers.Code`: every statement makes at most one API call
and may fail, writes are version checked, and the process may stop after any of them.

**The proof is one invariant in eight layers**, each kept by every step: legal histories and
exclusive claims (`Lifecycle`, `Histories`, `Rounds`, `Control`, `CoreInvariant`), finalizers
(`Steadiness`), the operation limit (`Capacity`), the cordon (`CordonRestore`), labels and pools
(`Labels`, `Pools`), drains (`Drainage`), wake-ups (`Wakeups`). `Effects`, `Shapes` and `Moves` say
what single statements and steps can change, and `Requestors` follows a request's additional
requestors from version to version. `Theorems` states the results for every run from a start without
requests. `Counterexamples` holds runs that show promises to be false and `NeededAssumptions` runs
that show why a guarantee excludes something; both are put together from the stretches in `Runs`.

**Objects the source updates in place** are also given as classes whose methods are proved against
the same functions: `DrainObjects` (drain request and manager), `CordonHandler`, `SchedulerOptions`,
and the in-place sort of `Conditions`. `PoolUse` has the loops of the pool-use check.

Assumptions under which a guarantee holds are recorded by the model as it runs (`Operator.History`)
and appear as hypotheses about the reached state: `lost` are nodes that were removed, moved to
another pool or found missing; `touched` are requests during whose maintenance somebody else set the
node's unschedulable flag; `timedOut` and `poolTimedOut` say that a wait for the cache was given up
before the cache caught up. `NeededAssumptions` shows what goes wrong after such a wait: two requests
under maintenance on one node, and a request in phase Cordon on a pool that is not paused.

Other parts of the history are exact marks of a failure, not excluded ones. `staleCheck` says of the
last pool-use check that its list showed only requests that no longer used the pool; `leaked` are the
pools whose last request left on such a check; `raced` says of the pool the reconciler is about to
pause that it is paused already, because somebody paused it after the operator's look, or before it
but hidden by a lagging cache.

Two things are built into the steps of others: nobody but the operator unpauses a pool that carries
the operator's annotation or takes the annotation away, and pools are never deleted.

## Promises that are false

Three promises fail. For each there is a run, with no wait given up and no node lost, and a theorem
that says exactly when it fails.

A pool paused by somebody else is meant to be left alone. The pause patch is a merge patch without a
version check, sent for what the cache showed earlier, so a pause that arrives in between is taken
over: it gets the operator's annotation and is undone with it later (`ForeignPauseTakenOver`).
`ForeignPauseChanged` and `ForeignPauseRaced` show that an operator step changes such a pool if and
only if it is the pause patch for that pool and the pool is `raced`.

Clean-up of a terminal request is meant to wait for its additional requestors. The list is looked at
once, and neither the uncordon nor the unpause is version checked, so a requestor that joins later is
overlooked (`UncordonedWhileWanted`, `UnpausedWhileWanted`). `CleanUpDespiteRequestor` shows that this
happens if and only if the statement is one of these two and a requestor joined after the version the
reconciler works from; `WantedRequestStays` that annotation, finalizer and object are safe.

The last request to leave a pool is meant to unpause it. The use check reads the cache, so a request
that already left can still be shown, and the pool stays paused with nobody left to unpause it
(`PauseLeaks`). `WhenPauseLeaks` shows that a pool loses its last request while annotated if and only
if that request's finalizer is removed after a stale check, and `NoLeakedPause` that every other
annotated pool has a request.

## Where code and documentation disagree

The model follows the code. Requests that are still uninitialized are candidates once their node has
a pending one (nodemaintenancescheduler_controller.go:291-294). A `maxParallelOperations` of 0 gives
no slots (line 278). A percentage for `maxUnavailable` rounds down and a negative value is no limit
(lines 281 and 332). A skipped request uses up its place in the window, so selection is maximal only
inside the first `AvailableSlots` entries (default_scheduler.go:59-66). A missing node removes the
finalizer without clean-up (nodemaintenance_controller.go:119-126). The use check accepts any
non-empty pool label (mcp.go:277).

## Model

| member | source | states |
|---|---|---|
| `Theorems.PerNodeExclusion` | internal/controller/nodemaintenancescheduler_controller.go:185-296 | in every reachable state no two requests are under maintenance on one node, with rounds split into list and single writes over a lagging cache, and nodes coming and going |
| `Theorems.CacheShowsMaintenance` | internal/controller/nodemaintenancescheduler_controller.go:202-226 | between rounds the cache shows every request that really is under maintenance as such, on the same node and with the same UID |
| `Theorems.OperationLimit` | internal/controller/nodemaintenancescheduler_controller.go:273-278 | if no round's operation limit exceeds n, at most n of the nodes never removed are under maintenance in any reachable state |
| `Theorems.PhasesNeverGoBack` | internal/controller/nodemaintenance_controller.go:143-174 | over any stretch of an object's stored versions the phase never goes back, successive versions follow the phase diagram, and Ready is true exactly in phase Ready |
| `Theorems.FinalizerCover` | internal/controller/nodemaintenance_controller.go:215-247 | while its node stays, a request in phase Cordon or later, or with a pool label, holds the finalizer |
| `Theorems.NothingLeavesUnclean` | internal/controller/nodemaintenance_controller.go:448-478 | a step that takes finalizer or object away finds the drain removed and no goroutine running, the node's flag back to its value on entering Cordon, no additional requestor of a terminal request, and the pool unmarked or else minded by another request exactly if the use check was not stale |
| `Theorems.CleanUpDespiteRequestor` | internal/controller/nodemaintenance_controller.go:524-550 | a clean-up step for a terminal request that somebody still wants does something if and only if it is the uncordon or the unpause and a requestor joined after the version the reconciler works from |
| `Theorems.RequestorsJoinByEdit` | internal/controller/nodemaintenance_controller.go:528-531 | only a user's edit of that request makes it wanted |
| `Theorems.WantedRequestStays` | internal/controller/nodemaintenance_controller.go:528-549 | while a terminal request is wanted no step of anybody takes its annotation, finalizer or object away |
| `Theorems.DrainRemovedWhileDraining` | internal/controller/nodemaintenance_controller.go:363-446 | a removal of a drain that does anything meets its request in phase Draining, so none is removed for a terminal request, wanted or not |
| `Counterexamples.UncordonedWhileWanted` | internal/cordon/cordon.go:89-101 | a concrete run after which the clean-up uncordons the node of a terminal request with an additional requestor |
| `Counterexamples.UnpausedWhileWanted` | internal/openshift/mcp.go:179-190 | a concrete run after which the clean-up unpauses the pool of a terminal request with an additional requestor |
| `Theorems.CordonHolds` | internal/controller/nodemaintenance_controller.go:261-303 | from WaitForPodCompletion to its deletion a cordoning request's node is unschedulable; without cordon, or without the annotation, the flag is as on entering Cordon |
| `Theorems.OnlyCleanUpUncordons` | internal/cordon/cordon.go:89-111 | the only operator step that makes such a node schedulable is the clean-up of that very request, under deletion |
| `Theorems.PoolSafety` | internal/openshift/mcp.go:74-202 | every request in phase Cordon or later that is not being deleted has its pool paused and annotated, for any number of requests sharing pools |
| `Theorems.UnpauseHurtsNobody` | internal/openshift/mcp.go:135-200 | whenever an operator step unpauses a pool, on the undo path or on leaving, no request in phase Cordon or later that is not being deleted is on it |
| `Theorems.NoLeakedPause` | internal/openshift/mcp.go:156-202 | an annotated pool has a request with label and finalizer on one of its nodes if and only if it has not leaked |
| `Theorems.WhenPauseLeaks` | internal/openshift/mcp.go:156-202 | a step leaves an annotated pool without its last request if and only if it removes that request's finalizer after a use check that showed only requests no longer using the pool |
| `NeededAssumptions.PauseLeaks` | internal/openshift/mcp.go:264-291 | a concrete run, no wait given up, that ends with no request left and the pool still paused and annotated |
| `NeededAssumptions.CordonWithoutPause` | internal/openshift/mcp.go:192-199 | a concrete run in which the wait after an unpause is given up and a request enters phase Cordon with its pool not paused |
| `NeededAssumptions.TwoOnOneNode` | internal/controller/nodemaintenancescheduler_controller.go:202-222 | a concrete run in which the wait of a round is given up and two requests come under maintenance on one node |
| `Theorems.ForeignPauseChanged` | internal/openshift/mcp.go:106-125 | an operator step changes a pool paused by somebody else if and only if it is the pause patch for that pool |
| `Theorems.ForeignPauseRaced` | internal/openshift/mcp.go:100-125 | an operator step changes a pool paused by somebody else if and only if it is the pause patch for that pool and the pool was paused behind the cache's back |
| `Counterexamples.ForeignPauseTakenOver` | internal/openshift/mcp.go:100-125 | a concrete run after which the pause patch takes over a pool that somebody else has paused |
| `Theorems.ReadyIsEarned` | internal/controller/nodemaintenance_controller.go:374-435 | a request went from Draining to Ready only without drain spec, or after a drain for its UID with an equal spec finished without error, despite separate reads of the drain's state |
| `Theorems.DrainsBelong` | internal/drain/manager.go:59-93 | every goroutine at work belongs to the request the manager maps its UID to and, while its node stays, to a request in phase Draining |
| `Theorems.NoLostWakeUp` | internal/controller/nodemaintenance_controller.go:143-176 | every request is settled, queued, due for repetition, being worked on, or has a version still to be delivered that queues it |
| `CoreInvariant.CoreStep` | internal/controller/nodemaintenance_controller.go:97-177 | every step keeps legal histories, exclusive claims on nodes, and the assertion of the reconciler's current statement |
| `Lifecycle.CodeOk` | internal/controller/nodemaintenance_controller.go:189-590 | every statement of the reconciler writes a legal successor of its copy and leads to a statement whose assertion holds |
| `Effects.CodeEffect` | internal/controller/nodemaintenance_controller.go:209-446 | which fields each write may change and to what, and where the node flag is set |
| `Control.CtlRefresh` | internal/openshift/mcp.go:91-98 | after the label wait the re-read copy is still the same request, scheduled, with finalizer and label |
| `Rounds.ListRounds` | internal/controller/nodemaintenancescheduler_controller.go:141-183 | a plan made from the cache claims no node that is, or is shown, under maintenance, and none twice |
| `Rounds.WriteRounds` | internal/controller/nodemaintenancescheduler_controller.go:186-200 | a round's version-checked write adds no claim and is remembered until the cache shows it |
| `Rounds.SeenUnder` | internal/controller/nodemaintenancescheduler_controller.go:202-218 | without writes the round still waits for, the cache shows every maintenance there is |
| `Steadiness.SteadyStep` | internal/k8sutils/k8sutils.go:99-123 | every step keeps the finalizer on engaged requests and keeps undeleted versions the cache may show alive |
| `Capacity.CapacityStep` | internal/controller/nodemaintenancescheduler_controller.go:278-296 | every step keeps the nodes taken or planned within a set no larger than the limit |
| `CordonRestore.CordonStep` | internal/cordon/cordon.go:63-111 | every step, including a crash after any call and statements on stale copies, keeps each request in step with its node's flag |
| `CordonRestore.FlipFlags` | internal/cordon/cordon.go:72-101 | a flip on behalf of one request, even a stale one, leaves every request in step with the flag |
| `Labels.LabelStep` | internal/openshift/mcp.go:83-98 | every step keeps the pool label of requests in phase Cordon or later visible in the cache |
| `Pools.PoolStep` | internal/openshift/mcp.go:74-243 | every step keeps relied-on pools marked, exactly the pools that have not leaked minded, and the cache in step outside the operator's own waits |
| `Pools.CheckUnused` | internal/openshift/mcp.go:245-292 | if the cached use check finds nobody, no request relies on the pool, stale cache or not |
| `Pools.PatchMinded` | internal/openshift/mcp.go:121-125 | when a pool is paused, the request it is paused for exists, with finalizer and label |
| `Drainage.DrainageStep` | internal/controller/nodemaintenance_controller.go:363-478 | every step keeps each known drain owned by a request in phase Draining and each Ready earned |
| `Drainage.CheckedCtl` | internal/controller/nodemaintenance_controller.go:389-417 | the separate reads of a moving drain leave only success for the last branch |
| `Wakeups.WakeStep` | internal/controller/nodemaintenance_controller.go:97-177 | every step keeps unsettled requests awake |
| `Conditions.Update` | internal/controller/nodemaintenance_controller.go:629-670 | on lists with unique types the predicate holds exactly if the object is being deleted, one list is absent and the other is not, or the sets of conditions differ; both lists are left sorted permutations |
| `Conditions.SortThenCompare` | internal/controller/nodemaintenance_controller.go:650-659 | whatever sorted arrangements the sort picks, they are equal exactly if the lists hold the same conditions |
| `Conditions.ChangeDetected` | internal/controller/nodemaintenance_controller.go:616-622 | every change that queues a request in the step system makes the sorted comparison differ or the object deleted |
| `Conditions.SortByType` | internal/controller/nodemaintenance_controller.go:650-656 | the in-place sort leaves the array equal to the sorted list |
| `DrainRequests.CancelIsFinal` | internal/drain/request.go:88-191 | whatever the order of start, cancel, context cancel and finish: at most one goroutine, success is final, and once a cancel has returned the state is Canceled or Success for ever |
| `DrainManagers.DrainExclusivity` | internal/drain/manager.go:59-93 | over all interleavings a goroutine at work belongs to the request its UID maps to, no UID has two, and no request found is unstarted |
| `DrainObjects.DrainRequest.StartDrain` | internal/drain/request.go:88-103 | starts the goroutine once, and never after a cancel |
| `DrainObjects.DrainRequest.CancelDrain` | internal/drain/request.go:106-113 | ends with the goroutine gone and the state Canceled or Success, keeping an earlier result |
| `DrainObjects.DrainRequest.State` | internal/drain/request.go:135-163 | the state read under the lock is the specified one |
| `DrainObjects.Manager.AddRequest` | internal/drain/manager.go:59-69 | refused exactly if the UID is taken, otherwise mapped and started, all else unchanged |
| `DrainObjects.Manager.RemoveRequest` | internal/drain/manager.go:84-93 | removes exactly the UID and leaves its request cancelled with no goroutine |
| `DrainObjects.Manager.ListRequests` | internal/drain/manager.go:96-105 | lists exactly the mapped requests |
| `DrainObjects.AddAgrees` | internal/drain/manager.go:59-69 | the interleaved insertion and start together are AddRequest |
| `DrainObjects.RemoveAgrees` | internal/drain/manager.go:84-93 | the last statement of the interleaved removal leaves the map without the UID and the goroutine idle |
| `CordonHandler.Cluster.HandleCordon` | internal/cordon/cordon.go:63-86 | wherever it stops, the flag's value on entry stays known; on success it is noted and the node is unschedulable; request, node and next statement are those of the step system's statements |
| `CordonHandler.Cluster.HandleUnCordon` | internal/cordon/cordon.go:89-111 | wherever it stops, the value stays known; on success the flag is back to it and the annotation gone; request, node and next statement are those of the step system's statements |
| `PoolUse.UsedByOther` | internal/openshift/mcp.go:259-291 | true exactly if another listed request with a pool label is on a node of the pool |
| `PoolUse.UseAgrees` | internal/openshift/mcp.go:246-292 | on the nodes of the pool and the listed requests the loops give the step system's answer |
| `SchedulerOptions.Options.Store` | internal/controller/nodemaintenancescheduler_controller.go:83-89 | stored options are pending and change no loaded one |
| `SchedulerOptions.Options.Load` | internal/controller/nodemaintenancescheduler_controller.go:92-98 | loads the last stored pair as a whole |
| `SchedulerOptions.Options.GetMaxUnavailableNodes` | internal/controller/nodemaintenancescheduler_controller.go:326-338 | a number is the limit itself, a percentage the largest node count within it, none -1, and a malformed value an error |
| `SchedulerOptions.Options.GetMaxOperations` | internal/controller/nodemaintenancescheduler_controller.go:341-353 | a number is the limit itself, a percentage the smallest node count that reaches it, none 1, and a malformed value an error |
| `Planning.UnavailabilityBound` | internal/controller/nodemaintenancescheduler_controller.go:260-283 | whichever planned writes succeed, the nodes unavailable or under maintenance are at most as many as before or maxUnavailable |
| `Planning.PercentBound` | internal/controller/nodemaintenancescheduler_controller.go:332-332 | a percentage limit that holds before a round holds after it, measured exactly |
| `Planning.PlanSound` | internal/controller/nodemaintenancescheduler_controller.go:285-296 | planned requests are waiting, on existing nodes free of maintenance, one per node, and fit in the free slots |
| `Planning.PlanTakesBest` | internal/scheduler/ranker.go:79-90 | no request listed for the node of a planned one comes before it in the order |
| `Planning.PipelineFit` | internal/scheduler/default_scheduler.go:53-75 | compaction leaves one entry per candidate node, and without an unavailability limit a round fills min(slots, candidate nodes) |
| `Planning.PlanOrderIndependence` | internal/scheduler/default_scheduler.go:41-79 | a round plans the same sequence for every permutation of the listed nodes and requests |
| `PreScheduling.PreSchedule` | internal/controller/nodemaintenancescheduler_controller.go:232-323 | the loops compute the slots, budget and candidates of the specification |
| `PreScheduling.CurrentUnavailableNodes` | internal/controller/nodemaintenancescheduler_controller.go:356-366 | the names of the nodes that are unschedulable or not ready |
| `PreScheduling.RequestsOn` | internal/controller/nodemaintenancescheduler_controller.go:289-296 | the listed requests on candidate nodes, in order |
| `PreScheduling.PlanRound` | internal/controller/nodemaintenancescheduler_controller.go:158-183 | the planning half of a round computes the specified plan |
| `PreScheduling.CandidatesFit` | internal/scheduler/default_scheduler.go:59-61 | every candidate's node is in the cluster state |
| `Scheduling.Schedule` | internal/scheduler/default_scheduler.go:41-79 | rank, sort, compact and pick with a running budget give the specified recommendation |
| `Scheduling.SortFunc` | internal/scheduler/default_scheduler.go:46-46 | the result is sorted and a permutation |
| `Scheduling.AnySort` | internal/scheduler/default_scheduler.go:46-46 | every sorted permutation of ranked requests is the same sequence |
| `Scheduling.CompactIdenticalNodes` | internal/scheduler/ranker.go:80-90 | the loop with its seen map computes the first entry of every node |
| `Scheduling.CompactOnePerNode` | internal/scheduler/ranker.go:80-90 | one entry per node, no node lost, no entry invented |
| `Scheduling.CompactKeepsBest` | internal/scheduler/ranker.go:79-90 | of a sorted list each node keeps its first-ranked request, in order |
| `Selection.PicksInOrder` | internal/scheduler/default_scheduler.go:56-78 | the recommendation is the chosen part of the window, in order |
| `Selection.ChosenAvailable` | internal/scheduler/default_scheduler.go:63-70 | exactly min(budget, available) requests on available nodes are chosen |
| `Selection.NoOvertaking` | internal/scheduler/default_scheduler.go:59-75 | if a request on an available node is chosen, so is every earlier one in the window |
| `Selection.SelectionMaximal` | internal/scheduler/default_scheduler.go:55-78 | no feasible subset of the window is larger |
| `Selection.OrderIndependence` | internal/scheduler/default_scheduler.go:41-79 | the recommendation depends on the sets of objects, not on their order |
| `Ordering.OrderTotal` | internal/scheduler/ranker.go:41-50 | the comparison separates requests with different names, in one direction only |
| `Ordering.OrderTransitive` | internal/scheduler/ranker.go:41-50 | the comparison is transitive, strictly if one step is strict |
| `Ranking.NewClusterState` | internal/scheduler/scheduler.go:28-52 | the loops give the node map and the lists of requests in progress and pending |
| `Ranking.RankSlice` | internal/scheduler/ranker.go:54-65 | every request gets the sum of the rankers' contributions for its requestor |
| `Ranking.RankInProgress` | internal/scheduler/ranker.go:132-139 | adds the in-progress weight once if the requestor has work in progress |
| `Ranking.RankLeastPending` | internal/scheduler/ranker.go:152-165 | adds 100 minus the capped pending count of the requestor |
| `Ranking.WeightLexicographic` | internal/scheduler/ranker.go:27-32 | ranks lie in 0..1100 and order requestors by work in progress first, then by fewer pending, capped at 100 |
| `Ranking.PendingCountIsSize` | internal/scheduler/ranker.go:153-158 | the loop's count is the number of the requestor's pending requests |

## Left out

- The API client, informers, leader election, events and logging: replaced by stored histories, forward-moving cache positions and calls that may fail.
- Writes whose outcome is unknown to the writer, third-party finalizers, and edits of status, labels, annotations or spec.cordon by users.
- Reads of nodes are taken as fresh; only requests and pools are read through a lagging cache, and a pool's cached copy jumps to the stored one instead of passing through every version.
- Pool selectors are taken to partition the nodes and to agree with the pool named by a node's machine config.
- The handlers, PauseMCP and UnpauseMCP are a program of single statements (`Handlers.Code` and the statement functions of `Operator`) rather than methods, because interleaving and crashes between statements are the point.
- `Scheduling.SortFunc`: sorts a sequence, not the slice in place; every sorted permutation is covered by `Scheduling.AnySort`.
- `DrainObjects.DrainRequest.CancelDrain`: runs the goroutine to its end inside the call instead of blocking; the blocking form is `DrainRequests.CancelIsFinal`.
- Several reconciles at once: the controller runs one worker, and the model has one reconciler.
- kubectl's drain (its outcome is arbitrary), pod completion (waiting, done, timed out or failed, chosen arbitrarily), drain progress, eviction filters and selectors.
- RunCordonOrUncordon is one atomic write of the flag.
- The garbage collector is an arbitrary deletion. Not modelled at all: the webhook's validation, the configuration reconciler that stores the options, metrics, command-line set-up and deployment files.
