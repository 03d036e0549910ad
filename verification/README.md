# Verified model of the Godel binder

This project models the binding side of the Godel scheduler and proves what it is meant to
guarantee. `dafny verify dfyconfig.toml` checks all of it.

The system takes units of pods (single pods or PodGroups with a minimum number of members) for
which a scheduler has already chosen nodes and, perhaps, victims to preempt. The binder decides
whether the choice still holds and carries it out. The model has these parts.

- **A binding attempt** (`TaskIndex`, `BindingUnit`, `BindingUnitInfo`, `BinderCache`, `Workflow`,
  `SameNode`, `Marking`, `Assuming`, `Attempt`, `Verdicts`, `Course`, `CheckAndBind`). The unit with its task lists and
  the cache are classes that the six stages update in place. Every verdict of a plugin, lister or
  API call is an arbitrary input, tasks are visited in any order, and the workers of the same-node
  check are interleaved wherever one of them takes the lock of the unit. The ghost field `place`
  says in which list each task is; `Valid` ties it to the lists and to the index of new tasks.
  `CheckAndBind.CheckAndBindUnit` is the result for a whole attempt: what it keeps whatever the
  verdicts, and that nothing is bound without having passed every check nor rejected without reason.
- **The cache over whole runs** (`Capacity`, `AttemptRuns`). Many units are admitted one after the
  other while earlier ones delete victims, are bound, confirmed, fail and are rolled back at any
  moment, and others bind pods too. The stages of an attempt that change the cache are stretches of
  such a run.
- **The final-operation lock of a PodGroup** (`PodGroupProtocol`, `PodGroupActors`). Binders and any
  number of controllers race on one API object with stale reads, compare-and-swap writes, separate
  writes of annotation and status, lost replies and restarts.
- **The binder queue** (`BinderQueue`, `QueueRuns`, `BinderRuns`, `Backoff`), **the maintainer's partitions and their
  rebalancing** (`Maintainer`, `Rebalance`), **the micro-topology annotation** (`MicroTopology`),
  **the embedded binder** (`EmbeddedBinder`) and **movement records** (`Movement`, `Recorders`).

Requests and capacities are additive numbers, one per pod and node. API calls, listers, plugins,
clocks and timeouts are parameters or nondeterministic choices. `SetSum` holds sums over sets.

Some expectations turn out not to hold of the code. Each has a concrete witness and the condition
under which it does hold, which is exact for all but the two about the room of a node.

- *Every pod of a unit is bound, waiting, rejected or ignored, once.* A gang that falls below its
  minimum after binding rejects the pods it has bound (`Attempt.BoundAndRejected`). That is the only
  case (`Attempt.BindReady`, `Attempt.OnlyGangsFallShort`).
- *The pods of a node fit it.* A pod that is forgotten although its binding was accepted comes back
  unchecked (`Capacity.ForgottenComesBack`). Without such a pod, and without pods bound by somebody
  else, they fit in every state (`Capacity.CarefulRunsFit`); these are exactly the runs without a pod
  astray (`Capacity.CarefulExactly`), and in every run the other pods fit.
- *The unmarked pods of a node fit it.* During a rollback they need not: marks are released before
  the pod is forgotten (`Capacity.RollbackCountsTwice`). They exceed the node at most by the pods on
  their way out (`Capacity.OvershootIsPassing`), of which there is none while no task of the node
  waits to be rejected (`Capacity.NothingPendingAllFit`).
- *A failed lock call leaves the lock free.* It took the lock exactly if the reply to one of its
  writes was lost (`PodGroupProtocol.FailedLockMayHold`, `PodGroupActors.LockPodGroupStatus`).
- *The ready heap holds only units that may be popped.* The comment on the waiting heap promises it.
  A never scheduled PodGroup that loses a pod of just enough stays ready, or becomes ready after its
  backoff, and so does one whose scheduled mark is taken away (`QueueRuns.DeleteMayStrand`,
  `QueueRuns.PumpMayStrand`, `QueueRuns.StatusMayStrand`). `QueueRuns.StraysOverRuns` has the condition
  over all sequences of operations; what attempts put back does not do it while their mark stands
  (`BinderRuns.StraysOverBinderRuns`).
- *The waiting heap holds only units that may not be popped.* A PodGroup that was scheduled before is
  moved there, and one that is marked while it waits stays (`QueueRuns.DeleteMayDemote`,
  `QueueRuns.StatusMayHoldBack`); `QueueRuns.WaitsOverRuns` has the condition.
- *A movement records a pod once.* A retry after a lost reply records it again
  (`Recorders.RecordedTwice`); `Recorders.TwiceExactly` has the condition.
- *Writing and reading a micro topology is a round trip.* It is, exactly when every resource list
  exists and is not empty; otherwise reading fails (`MicroTopologies.MarshalMicroTopology`).

## Model

| member | source | states |
|---|---|---|
| `TaskIndex.AddKeepsIndex` | pkg/binder/binder_unit.go:343-384 | Adding a task with fresh victims keeps the node index exact: per node its tasks and the union of their victims, victims of distinct tasks disjoint. |
| `TaskIndex.RemoveKeepsIndex` | pkg/binder/binder_unit.go:562-585 | Removing a task keeps the index exact; in particular no victim of another task is dropped and no node with a task is. |
| `TaskIndex.RemoveAbsentKeepsIndex` | pkg/binder/binder_unit.go:562-605 | Removing a task that never got into the index, as a failed initialisation does, changes nothing. |
| `TaskIndex.AddKeepsNodes` | pkg/binder/binder_unit.go:343-384 | While no task has a victim, the index lists exactly the nodes that have a task. |
| `TaskIndex.RemoveDropsNode` | pkg/binder/binder_unit.go:562-585 | A node leaves the list with its last task iff no victims were ever recorded in the unit, for any node; so a unit with preemptors may list nodes without tasks. |
| `BindingUnit.BindingUnitInfo.ListsPartition` | pkg/binder/binder_unit.go:50-87 | The six lists of a unit, as they are stored, hold each of its pods exactly once and nothing else. |
| `BindingUnit.BindingUnitInfo.constructor` | pkg/binder/binder_unit.go:113-137 | A new unit is consistent and holds no task. |
| `BindingUnit.BindingUnitInfo.IsUnitFailed` | pkg/binder/binder_unit.go:139-156 | A unit fails iff a never scheduled PodGroup has fewer live tasks than its minimum, or a single pod failed. |
| `BindingUnit.BindingUnitInfo.IsAbleToBindReadyTasks` | pkg/binder/binder_unit.go:158-172 | Ready tasks may be bound iff the unit is no PodGroup, was scheduled before, or enough are ready. |
| `BindingUnit.BindingUnitInfo.NewTasksOnNodeNeedPreemption` | pkg/binder/binder_unit.go:310-320 | True iff some new task of the node has a victim. |
| `BindingUnit.BindingUnitInfo.VictimsAre` | pkg/binder/binder_unit.go:181-186 | The unit has victims iff one of its new tasks does. |
| `BindingUnit.BindingUnitInfo.AddAssumedTask` | pkg/binder/binder_unit.go:322-330 | The pod joins the assumed tasks and nothing else changes. |
| `BindingUnit.BindingUnitInfo.AddIgnoredTask` | pkg/binder/binder_unit.go:333-341 | The pod joins the ignored tasks and nothing else changes. |
| `BindingUnit.BindingUnitInfo.AddNewTask` | pkg/binder/binder_unit.go:343-384 | The task joins the new tasks, its victims the victims of the unit; the index stays exact. |
| `BindingUnit.BindingUnitInfo.AddFailedTask` | pkg/binder/binder_unit.go:587-605 | Exactly the task moves, from assumed or new to failed, and leaves the index with its victims. |
| `BindingUnit.BindingUnitInfo.AddFailedArrival` | pkg/binder/binder_unit.go:587-605 | A pod whose initialisation failed is recorded as failed although it was in no list. |
| `BindingUnit.BindingUnitInfo.MoveAllNewTasksOnNodeToFailedList` | pkg/binder/binder_unit.go:387-402 | Exactly the new tasks of the node move to failed; all lists and the index stay consistent. |
| `BindingUnit.BindingUnitInfo.MoveAllNewTasksOnNodeToWaitingList` | pkg/binder/binder_unit.go:513-524 | Exactly the new tasks of the node move to waiting. |
| `BindingUnit.BindingUnitInfo.MoveAllNewTasksOnNodeToReadyList` | pkg/binder/binder_unit.go:527-538 | Exactly the new tasks of the node move to ready. |
| `BindingUnit.BindingUnitInfo.MoveAllNewTasksOnNodeFromWaitingToFailedList` | pkg/binder/binder_unit.go:404-418 | Exactly the new waiting tasks of the node move to failed. |
| `BindingUnit.BindingUnitInfo.MoveTasksFromReadyToFailedList` | pkg/binder/binder_unit.go:420-431 | Exactly the named ready tasks move to failed. |
| `BindingUnit.BindingUnitInfo.MoveAllTasksFromReadyToWaitingList` | pkg/binder/binder_unit.go:433-441 | Exactly the ready tasks move to waiting. |
| `BindingUnit.BindingUnitInfo.MoveAllNewTasksInReadyAndWaitingListToFailedList` | pkg/binder/binder_unit.go:443-468 | Exactly the ready and waiting tasks that are new in this attempt fail. |
| `BindingUnit.BindingUnitInfo.MoveAllTasksToFailedList` | pkg/binder/binder_unit.go:470-511 | Exactly the live tasks of all four lists fail; ignored ones stay. |
| `BindingUnit.BindingUnitInfo.MoveAllAssumedTasksToReadyList` | pkg/binder/binder_unit.go:540-549 | Exactly the assumed tasks move to ready. |
| `BindingUnit.BindingUnitInfo.MoveAllAssumedTasksToWaitingList` | pkg/binder/binder_unit.go:551-560 | Exactly the assumed tasks move to waiting. |
| `Caches.BinderCache.MarkPodToDelete` | pkg/binder/cache/commonstores/deleted_marker_store/deleted_marker_store.go:138-166 | Succeeds iff the victim is a confirmed pod; then it is marked for this preemptor, whoever had it before. Fatal exactly if the caller names another node than the cache; nothing changes when it fails. |
| `Caches.BinderCache.RemoveDeletePodMarker` | pkg/binder/cache/commonstores/deleted_marker_store/deleted_marker_store.go:168-186 | Takes away the mark of this preemptor and of nobody else. |
| `Caches.BinderCache.AssumePod` | pkg/binder/cache/commonstores/pod_store/pod_store.go:134-152 | All or nothing: an unknown pod becomes assumed and its request is added to the node, which stays accounted. |
| `Caches.BinderCache.ForgetPod` | pkg/binder/cache/cache_eventhandler.go:43-55 | Removes an assumed pod and its request from its node; leaves a confirmed one alone, which is no error. |
| `Workflow.Binder.GetVictimsToPreempt` | pkg/binder/godel_binder.go:1056-1077 | Fails iff a victim is marked or cannot be looked up; otherwise returns exactly those that still exist. |
| `Workflow.Binder.InitializeTask` | pkg/binder/godel_binder.go:326-424 | Succeeds iff the pod can be initialised, has a node, and its victims are known, unmarked and nobody else's in the unit. |
| `Workflow.Binder.InitializePod` | pkg/binder/godel_binder.go:435-461 | The pod goes to exactly one of assumed, ignored, new and failed, by the state of its handling, skipping and initialisation. |
| `Workflow.Binder.InitializeUnit` | pkg/binder/godel_binder.go:426-464 | In any order every pod is sorted once, for a stated reason; a new task fails only if it cannot start beside the unit's victims. |
| `Workflow.InitializedExclusive` | pkg/binder/godel_binder.go:398-413 | After initialisation no pod is a victim of two tasks of the unit. |
| `Workflow.Binder.CheckAssumedTasks` | pkg/binder/godel_binder.go:556-585 | Exactly the assumed preemptors that ran out of time fail, unless the unit fails as a whole, which it does only if it is hopeless with all of those failed, and always does then if it has a preemptor. |
| `Workflow.Binder.CheckCrossNodePreemptionForUnit` | pkg/binder/godel_binder.go:556-619 | The unit ends hopeless iff it is with every assumed preemptor failed that ran out of time and, if there are victims, every new task failed whose check fails. Otherwise exactly those have failed and the assumed tasks all wait or are all ready, as one is still waiting for victims or none. |
| `Workflow.Binder.CheckCrossNodeTopologyForUnit` | pkg/binder/godel_binder.go:466-508 | The unit ends hopeless iff it is with every new task failed whose node is unknown or whose topology check fails; otherwise exactly those have failed. It reports so. |
| `SameNode.RemoveVictims` | pkg/binder/godel_binder.go:648-657 | The clone is the node without the victims, still accounted; fails iff a victim is not on the node. |
| `SameNode.StartWorker` | pkg/binder/godel_binder.go:640-657 | A worker gives its node up iff the node is unknown or lacks a victim; then exactly its new tasks fail. |
| `SameNode.CheckTask` | pkg/binder/godel_binder.go:660-697 | A task passes iff its check does and it fits the clone; otherwise it fails alone without victims, and takes the node's new tasks with it if it preempts. |
| `SameNode.FinishNode` | pkg/binder/godel_binder.go:699-704 | The tasks that passed all wait if one of them preempts and are all ready otherwise. |
| `SameNode.BystanderFails` | pkg/binder/godel_binder.go:684-692 | When a task without victims fails, the clone still tracks what is left: only victims of tasks still to be admitted are off it. |
| `SameNode.NodeAdmitted` | pkg/binder/godel_binder.go:699-704 | Moving the checked tasks on is a sound admission of the node. |
| `SameNode.OtherNodeUntouched` | pkg/binder/godel_binder.go:621-709 | A step of one worker breaks no promise of the worker of another node. |
| `SameNode.CheckPasses` | pkg/binder/godel_binder.go:660-675 | On a node where all new tasks pass their checks and fit together, no check fails, in any order. |
| `SameNode.FailsForAReason` | pkg/binder/godel_binder.go:660-697 | A check that fails does so for its own verdict, or because the tasks that passed before it leave no room on the node without its victims; not because of what other workers did. |
| `SameNode.Turn` | pkg/binder/godel_binder.go:621-709 | Any step of any worker keeps the promises of all workers; a worker leaves new tasks behind only if the unit failed; after a failure it goes on iff the unit did not fail, and as it leaves it cancels the others iff the unit did. |
| `SameNode.CheckSameNodeConflictsForUnit` | pkg/binder/godel_binder.go:621-709 | In every interleaving: what was admitted passed its conflict check and fits its node once exactly the victims of the admitted tasks are gone; no task is turned away from a node where all fit, and none without a reason: an unknown node, a victim that is not there, a check of its own or of a preemptor of its node that fails. No new task is left unless the unit failed, and the run is cancelled iff it did. |
| `Marking.MarkWaiting` | pkg/binder/godel_binder.go:744-768 | Exactly the nodes with a victim that cannot be marked are reported; on all others every victim is marked. |
| `Marking.UnmarkFailed` | pkg/binder/godel_binder.go:769-781 | On reported nodes no mark of this attempt is left. |
| `Marking.MarkVictimsOfNewTasks` | pkg/binder/godel_binder.go:744-782 | Node by node all or nothing: the victims of the new waiting tasks are all marked by their own task, or none is and those tasks failed; no older mark changes. |
| `Assuming.AssumeNewTasks` | pkg/binder/godel_binder.go:784-835 | Succeeds iff every task can be assumed; exactly the tasks done are assumed, on their nodes. |
| `Assuming.ForgetNewAssumedTasks` | pkg/binder/godel_binder.go:837-854 | Undoes exactly what was assumed, apart from failed forgets; with none the cache is as before. |
| `Attempt.MarkVictimsAndAssumeTasks` | pkg/binder/godel_binder.go:726-742 | If the unit goes on, each of its tasks is held and, if new, assumed; the tasks of exactly the nodes with a victim that cannot be marked have failed; all the new ones have if one of them cannot be assumed, and then, if every forget succeeds, the cache holds the pods it held before. |
| `Attempt.ReEnqueueWaitingTasks` | pkg/binder/godel_binder.go:927-945 | Puts exactly the waiting tasks back; fatal iff one of them is new and not held. |
| `Attempt.RejectFailedTasks` | pkg/binder/godel_binder.go:956-979 | Exactly the failed tasks lose their marks and, if held and the forget succeeds, their place in the cache. |
| `Attempt.DeleteVictimsOfNewTasks` | pkg/binder/godel_binder.go:1190-1220 | Reports exactly the nodes of new waiting tasks whose victims could not be deleted. |
| `Attempt.BindReady` | pkg/binder/godel_binder.go:901-918 | Tries exactly the ready tasks; each is bound iff its call succeeds, and fails otherwise. Each pod ends up in one place, except that a gang left below its minimum rejects the pods it has bound, and this happens in no other case. A PodGroup is marked as scheduled iff what is bound and waits reaches the minimum it needs. |
| `Attempt.WhenAcceptedIsRejected` | pkg/binder/godel_binder.go:901-918 | A pod whose binding the API server accepted is rejected exactly if the gang falls short after binding or a call reported a failure for it. |
| `Attempt.OnlyGangsFallShort` | pkg/binder/binder_unit.go:139-156 | Falling short means: a never scheduled PodGroup has bound something, and with what waits it is below its minimum. A single pod never does. |
| `Attempt.BoundAndRejected` | pkg/binder/godel_binder.go:901-908 | A gang of two of which one pod is bound and both are rejected. |
| `Attempt.DeleteVictimsAndBindTasks` | pkg/binder/godel_binder.go:857-925 | Binds iff the unit did not fail with the tasks whose victims could not be deleted, enough tasks are ready and a PodGroup could be locked; otherwise what is ready or waits goes back, if too few are ready, or all is rejected. A gang is bound with its minimum ready at once or goes back with its minimum; a PodGroup is marked as scheduled iff it was bound and did not miss its minimum; a pod is bound and rejected in the one case above only; the fatal exit is not reached. |
| `Attempt.PutsBackEnough` | pkg/binder/godel_binder.go:909-945 | What goes back of a gang reaches its minimum, or the gang is marked as scheduled. |
| `CheckAndBind.MarksEnd` | pkg/binder/godel_binder.go:956-979 | After an attempt its marks are exactly those of the victims of the new tasks that wait. |
| `CheckAndBind.KeptOutcome` | pkg/binder/godel_binder.go:857-979 | Other units' pods stay in the cache; bound and waiting new tasks are assumed on their nodes; a rejected pod whose own forget succeeded is not there because of the attempt. |
| `CheckAndBind.RejectEarly` | pkg/binder/godel_binder.go:303-321 | A unit that fails before marking rejects exactly what it does not ignore, binds and puts back nothing and leaves no mark. |
| `CheckAndBind.RunStages` | pkg/binder/godel_binder.go:233-324 | The six stages one after the other follow the course that verdicts and cache prescribe: which pods become tasks, which of them each stage fails, when the unit is given up, and what is bound, put back or rejected in the end. |
| `Course.BoundHasPassed` | pkg/binder/godel_binder.go:233-324 | On such a course a pod that is bound or put back could start, with the node and the existing victims it arrived with, and passed the preemption, topology and conflict checks; its victims could be marked and it could be assumed. One handled before has not run out of time. |
| `Course.RejectedHasReason` | pkg/binder/godel_binder.go:233-324 | On such a course a pod that is rejected is not ignored, and failed a check of its own or with its node, could not be bound, or its unit was left with too few, or could not be locked. |
| `Course.SmoothRejectsNobody` | pkg/binder/godel_binder.go:233-324 | If everything an attempt meets goes well, nothing is rejected. |
| `CheckAndBind.CheckAndBindUnit` | pkg/binder/godel_binder.go:233-324 | Through all six stages, whatever the verdicts: every pod is bound, waiting, rejected or ignored, once, unless the gang fell short after binding, and then the bound pods are rejected too; the gang's minimum is respected and the scheduled mark set exactly when it is reached; a PodGroup is bound only under its lock; marks and cache end as stated above; no fatal exit. Whatever is bound or put back passed every check there is for it; whatever is rejected has a reason; if everything the attempt meets goes well, nothing is. |
| `Verdicts.SetsOut` | pkg/binder/godel_binder.go:326-464 | If every pod that arrives can start, no two want the same victim, all verdicts are good and the pods of each node fit together, no pod fails to become a task and none that is left to check will fail. |
| `Verdicts.PreemptionKeepsCourse` | pkg/binder/godel_binder.go:556-619 | The preemption check then fails nobody and takes nothing from what the later checks need. |
| `Verdicts.AllAdmitted` | pkg/binder/godel_binder.go:621-709 | The same-node check then admits every new task, in every interleaving, with victims that can be marked. |
| `Verdicts.SmoothHappens` | pkg/binder/godel_binder.go:233-324 | An input for which everything goes well. |
| `Capacity.NodeNeverOverfull` | pkg/binder/godel_binder.go:621-709 | In every state that satisfies the invariant the counted pods of a node fit it but for strangers, pods no admission put there; so a node that is too full holds one. |
| `Capacity.ReleaseIsSafe` | pkg/binder/godel_binder.go:956-979 | A rejected task holds no mark that an admission which is still alive relies on. |
| `Capacity.StepKeepsInv` | pkg/binder/godel_binder.go:621-1152 | Every admission, marking, assume, failure, rollback, accepted or lost binding, confirmation, foreign arrival and deletion keeps the invariant. |
| `Capacity.CapacityOverRuns` | pkg/binder/godel_binder.go:726-854 | In every state of every run with many units the pods of a node fit it, without marked victims, pods on their way out and strangers; if they do not fit with strangers, one is there. |
| `Capacity.StrangersAreExplained` | pkg/binder/cache/commonstores/pod_store/pod_store.go:93-152 | A stranger was forgotten after its binding was accepted, or bound by somebody else, at an earlier step of the run. |
| `Capacity.CarefulRunsFit` | pkg/binder/godel_binder.go:901-979 | In a run that forgets no pod whose binding was accepted, and into which nobody else binds, the counted pods fit in every state. |
| `Capacity.CarefulExactly` | pkg/binder/godel_binder.go:901-979 | A run is of that kind iff in none of its states a pod is a stranger or about to become one by its confirmation. |
| `Capacity.ForgottenComesBack` | pkg/binder/godel_binder.go:956-979 | A run in which a pod is bound, the reply is lost and the pod is forgotten, the room is given away, and the pod comes back: the node is too full. |
| `Capacity.OvershootIsPassing` | pkg/binder/godel_binder.go:956-979 | In every state of every run the unmarked pods of a node, without strangers, exceed it at most by those on their way out, each of which is a task of the node that waits to be rejected. |
| `Capacity.NothingPendingAllFit` | pkg/binder/godel_binder.go:956-979 | While no task of the node waits to be rejected, the unmarked pods fit it, but for strangers. |
| `Capacity.MarksAreNeverStolen` | pkg/binder/godel_binder.go:744-782 | Over every run a mark never changes its preemptor and disappears only with its pod or through its own preemptor. |
| `Capacity.AdmissionIsChecked` | pkg/binder/godel_binder.go:621-709 | What the same-node check admits is an admission step of a run. |
| `AttemptRuns.MarkingIsRun` | pkg/binder/godel_binder.go:744-782 | What marking does to marks and tasks is a stretch of a run: marks are set, the failed nodes are given up, the rest is admitted. |
| `AttemptRuns.AssumingIsRun` | pkg/binder/godel_binder.go:784-835 | What assuming does to the cache is a stretch of a run, however far it got. |
| `AttemptRuns.ForgetRun` | pkg/binder/godel_binder.go:837-854 | So is the rollback: forgetting any assumed pods. |
| `AttemptRuns.RejectingIsRun` | pkg/binder/godel_binder.go:956-979 | What rejecting the failed tasks leaves of marks and cache is what a stretch of a run leaves: nodes fail, marks are released, pods are forgotten as far as that succeeds. |
| `AttemptRuns.AttemptIsRun` | pkg/binder/godel_binder.go:726-979 | Whatever the verdicts, from a state that agrees with the cache before an attempt a run gets to one that agrees with marks and pods of the cache after it. |
| `AttemptRuns.AttemptInRun` | pkg/binder/godel_binder.go:233-324 | The same for the whole attempt as it runs, with the invariant of the runs kept. |
| `AttemptRuns.ReachedKeepsInv` | pkg/binder/godel_binder.go:726-979 | Wherever such a stretch gets to, the invariant of the runs holds. |
| `AttemptRuns.SoundWaitsTogether` | pkg/binder/godel_binder.go:699-704 | What the same-node check admits meets the assumption of these results: on a node all wait, or none does and none preempts. |
| `Capacity.RollbackCountsTwice` | pkg/binder/godel_binder.go:956-979 | A run in which the unmarked pods exceed a node, between releasing the marks of a failed task and forgetting it. |
| `PodGroupProtocol.StepIsLegal` | pkg/binder/controller/podgroup.go:399-454 | No write of anybody, from however old a copy, changes a lock that is set or a final phase, or lets an unlocked PodGroup time out. |
| `PodGroupProtocol.StepKeepsInv` | pkg/binder/controller/podgroup.go:506-541 | Every step keeps the invariant of the object and of everybody's copy of it. |
| `PodGroupProtocol.LockIsWrittenOnce` | pkg/util/unit/unit.go:80-96 | Over every run the lock is written once. |
| `PodGroupProtocol.FinalPhaseIsAbsorbing` | pkg/binder/controller/podgroup.go:293-297 | Over every run, with any number of controllers, a final phase stays. |
| `PodGroupProtocol.LockedNeverTimesOut` | pkg/binder/utils/podgroup.go:37-90 | Once a binder's lock call succeeded, no version of the PodGroup is or will be timed out. |
| `PodGroupProtocol.TimedOutIsNeverLocked` | pkg/binder/controller/podgroup.go:446-451 | After a timeout no binder ever obtains the lock. |
| `PodGroupProtocol.PlanIsEarned` | pkg/binder/controller/podgroup.go:399-454 | Given a phase that is not final, what the pods say and the clock, exactly one phase is decided on; each phase with its own condition. |
| `PodGroupProtocol.PhaseIsEarned` | pkg/binder/controller/podgroup.go:399-466 | Over every run a version with a new phase was written by a status request of an actor whose last sync had read a version, and heard from its pods and clock, what that phase asks for. |
| `PodGroupProtocol.ScheduledIsEarned` | pkg/binder/controller/podgroup.go:399-454 | Over every run a PodGroup becomes scheduled only after a sync that found enough of its pods bound or one started, or read a retired phase. |
| `PodGroupProtocol.FailedLockMayHold` | pkg/binder/utils/podgroup.go:64-90 | A run in which the lock call fails although the lock was taken for it; `PodGroupActors.LockPodGroupStatus` has the exact condition. |
| `PodGroupActors.LockPodGroupStatus` | pkg/binder/utils/podgroup.go:37-90 | Interleaved with everybody else request by request: succeeds only while the lock is its own, and then nothing timed out; fails only if the PodGroup could not be listed, somebody else holds it, or a write of it failed and one conflicted or all three attempts were made. When it fails it has taken the lock iff the reply to one of its writes was lost, and then the lock is its own. |
| `PodGroupActors.OwnWrites` | pkg/binder/utils/podgroup.go:64-90 | In every run the requests of a lock call wrote the lock iff one of them was applied or its reply was lost; conflicts and refusals take nothing. |
| `PodGroupActors.TryLock` | pkg/binder/utils/podgroup.go:64-90 | The retried write fails only after a conflict or three requests, and never after an applied one; after a lost reply the lock is its own, whatever others do. |
| `PodGroupActors.Analyze` | pkg/binder/controller/podgroup.go:333-382 | Scheduled iff a pod of the partition runs or enough exist and are bound; not created iff none runs and too few exist. |
| `PodGroupActors.SyncHandler` | pkg/binder/controller/podgroup.go:275-466 | Under any interleaving, on however old a copy: a copy in a final phase is left alone. Otherwise the only phase it stores is the one that its pods, counted, bound or started, the phase and lock of the copy and the clock decide on; it stores it if that differs and all requests are applied, writes nothing if it does not differ, and asks not to be called again iff that phase is final and all requests were applied. |
| `PodGroupActors.DecidesOne` | pkg/binder/controller/podgroup.go:399-454 | That decision is about one phase only. |
| `PodGroupActors.UpdatePodGroup` | pkg/binder/controller/podgroup.go:506-578 | Writes the annotation before the status; succeeds iff all its requests were applied; the only phase it stores is the new one, and it does so when that differs and it succeeds; without a change it writes nothing. |
| `BinderQueue.PriorityQueue.GetUnit` | pkg/binder/queue/binder_queue.go:642-656 | Finds the unit and the one heap it is in. |
| `BinderQueue.PriorityQueue.Insert` | pkg/binder/queue/binder_queue.go:249-340 | The pod joins the unit of its key or the waiting list; a new unit asks for what its PodGroup does, a known one for what it did before; nothing is lost but a single pod of the same name; the unit becomes ready iff it may be popped; no unit goes astray or is held back. |
| `BinderQueue.FirstPodReady` | pkg/binder/queue/binder_queue.go:249-340 | The first pod of a PodGroup that was never scheduled makes it ready iff the PodGroup asks for at most one; without a known PodGroup it goes to the waiting list. |
| `BinderQueue.PriorityQueue.Add` | pkg/binder/queue/binder_queue.go:237-247 | The same, and every pod added earlier is still there. |
| `BinderQueue.PriorityQueue.Update` | pkg/binder/queue/binder_queue.go:364-421 | Exactly: in its unit, which stays in its heap unless it was scheduled before, is ready and has too few pods; else in the list; else added. The queue then carries the new object. |
| `BinderQueue.PriorityQueue.Delete` | pkg/binder/queue/binder_queue.go:423-464 | Only the pod goes; it stays exactly if it is in the waiting list while its unit exists; exact case in which a unit stays wrongly ready. |
| `BinderQueue.PriorityQueue.Pop` | pkg/binder/queue/binder_queue.go:469-498 | One unit leaves the ready heap, none iff that is empty; it and each of its pods count one more attempt and are otherwise as they were; no other pod goes. |
| `BinderQueue.PriorityQueue.MoveToReadyQueue` | pkg/binder/queue/binder_queue.go:501-530 | Terminates and moves exactly the units whose backoff is over; afterwards the ready heap holds only poppable units iff every one that ripened may be popped. |
| `BinderQueue.PriorityQueue.CheckWaitingPods` | pkg/binder/queue/binder_queue.go:533-541 | No pod is lost; exactly those stay in the list whose PodGroup is unknown and whose unit does not exist; no unit goes astray or is held back. |
| `BinderQueue.PriorityQueue.AddUnitPreemptor` | pkg/binder/queue/binder_queue.go:691-709 | The unit waits in the backoff heap with its own minimum and the union of its pods and those queued meanwhile; the entries put back win. |
| `BinderQueue.MergedPoppable` | pkg/binder/queue/binder_queue.go:691-709 | The unit put back may be popped iff it is a single pod's, was scheduled, or the union reaches its minimum. |
| `BinderQueue.PriorityQueue.ActiveWaitingUnit` | pkg/binder/queue/binder_queue.go:712-748 | A waiting unit becomes ready iff it may be popped. |
| `BinderQueue.PoppableAfterDelete` | pkg/binder/queue/binder_queue.go:658-680 | Right after a delete the ready heap holds only poppable units iff it was not a ready, never scheduled PodGroup losing one of just enough members. |
| `BinderQueue.PoppableAfterPump` | pkg/binder/queue/binder_queue.go:501-530 | The pump asks nothing: the ready heap holds only poppable units afterwards iff all ripe units are poppable. |
| `BinderQueue.RipensInTime` | pkg/binder/queue/binder_queue.go:577-597 | A unit ripens between the initial and the maximal delay after it was put back, and no earlier after more attempts. |
| `QueueRuns.StepStrays` | pkg/binder/queue/binder_queue.go:249-748 | An operation leaves a unit that is or will be wrongly ready iff it deletes a pod of just enough outside the waiting heap, puts back too few pods of a PodGroup that was not scheduled, or takes the scheduled mark from a unit that needs it; all told from what is there before. |
| `QueueRuns.StraysOverRuns` | pkg/binder/queue/binder_queue.go:249-748 | Over every sequence of operations and changes of scheduling status no unit ever goes astray iff no operation is one of those. |
| `QueueRuns.PoppableOverRuns` | pkg/binder/queue/binder_queue.go:249-748 | Then the ready heap holds only poppable units at every moment. |
| `QueueRuns.StepMinimums` | pkg/binder/queue/binder_queue.go:249-748 | Every operation leaves each queued unit the minimum it had; only putting it back sets it, and a new one has that of its PodGroup. |
| `QueueRuns.MinimumsOverRuns` | pkg/binder/queue/binder_queue.go:249-748 | Over every sequence of operations a unit has, ever since it was created or put back, the minimum its PodGroup had then or that it was put back with. |
| `QueueRuns.PerformAll` | pkg/binder/queue/binder_queue.go:237-748 | Whatever is called on the queue in whatever order, its heaps go through such a sequence. |
| `BinderRuns.AttemptPutsBackEnough` | pkg/binder/godel_binder.go:909-945 | What an attempt puts back is enough by itself, as long as the scheduled mark it found or set is still known. |
| `BinderRuns.StraysOverBinderRuns` | pkg/binder/godel_binder.go:909-945 | In sequences in which all that is put back comes from such attempts, units go astray exactly through deletions and marks that are taken away. |
| `BinderRuns.Round` | pkg/binder/godel_binder.go:233-324 | A round of the main loop, from popping a unit to putting back what waits: something is attempted iff a unit is ready; that unit leaves the queue but for exactly the pods that wait, which are in backoff with its minimum and one more attempt; no other unit changes, the PodGroup is marked iff the attempt says so, and no unit goes astray, whatever the verdicts. |
| `QueueRuns.DeleteMayStrand` | pkg/binder/queue/binder_queue.go:658-680 | A queue whose ready unit falls below its minimum and stays ready. |
| `QueueRuns.PumpMayStrand` | pkg/binder/queue/binder_queue.go:501-530 | A queue where the unit is in backoff when it loses the pod: nothing shows until the pump makes it ready. |
| `QueueRuns.StatusMayStrand` | pkg/binder/cache/commonstores/unit_status_store/unit_status_store.go:121-124 | A PodGroup known as scheduled has a pod in backoff when an event with an older phase takes the mark away. |
| `QueueRuns.WaitsRightlyAfterDelete` | pkg/binder/queue/binder_queue.go:658-680 | After a delete the waiting heap holds only units that may not be popped iff it did not demote a ready unit that was scheduled before and has too few pods left. |
| `QueueRuns.WaitsRightlyAfterUpdate` | pkg/binder/queue/binder_queue.go:364-421 | After updating a pod in its unit, iff that is not ready, scheduled before and short of pods. |
| `QueueRuns.StepWaits` | pkg/binder/queue/binder_queue.go:237-748 | The exact condition for every operation; the third case is a scheduled mark set while a unit of the PodGroup waits. |
| `QueueRuns.WaitsOverRuns` | pkg/binder/queue/binder_queue.go:237-748 | Over every sequence of operations and changes of status no unit is ever held back iff no operation is one of those. |
| `QueueRuns.DeleteMayDemote` | pkg/binder/queue/binder_queue.go:658-680 | A queue in which a unit that was scheduled before waits although it may be popped. |
| `QueueRuns.StatusMayHoldBack` | pkg/binder/godel_binder.go:909-912 | A PodGroup of which a pod waits becomes known as scheduled, and nothing activates it. |
| `Backoff.CalculateBackoffDuration` | pkg/binder/queue/binder_queue.go:587-597 | The loop computes the closed form and never overflows 64 bits below 2^62. |
| `Backoff.DelayIsMonotone` | pkg/binder/queue/binder_queue.go:587-597 | With an initial delay of at most the maximum, delays never shrink and never exceed it. |
| `Backoff.DelayIsBounded` | pkg/binder/queue/binder_queue.go:587-597 | The maximum is respected iff the initial delay respects it or there was a retry. |
| `Maintainer.OnePartition` | pkg/dispatcher/scheduler-maintainer/handlers.go:101-117 | A node is in one partition at most. |
| `Maintainer.SchedulerMaintainer.UpdateScheduler` | pkg/dispatcher/scheduler-maintainer/handlers.go:30-75 | A new scheduler is active, a known one as long as it reports; no partition changes. |
| `Maintainer.SchedulerMaintainer.DeleteScheduler` | pkg/dispatcher/scheduler-maintainer/handlers.go:79-93 | A scheduler goes iff it has no nodes, otherwise it stays inactive; no node loses its partition. |
| `Maintainer.SchedulerMaintainer.AddNode` | pkg/dispatcher/scheduler-maintainer/handlers.go:101-134 | The index stays exactly the inverse of the annotations; a scheduler first known from the node is active, the activity of others does not change. |
| `Maintainer.SchedulerMaintainer.UpdateNode` | pkg/dispatcher/scheduler-maintainer/handlers.go:154-192 | The same, also when the annotation changes or the first event was missed. |
| `Maintainer.SchedulerMaintainer.DeleteNode` | pkg/dispatcher/scheduler-maintainer/handlers.go:225-241 | The same, without the node; no scheduler comes or goes. |
| `Maintainer.SchedulerMaintainer.LeastLoaded` | pkg/dispatcher/scheduler-maintainer/maintainer_util.go:184-206 | An active scheduler with the fewest nodes, none iff none is active. |
| `Maintainer.SchedulerMaintainer.MostAndLeastLoaded` | pkg/dispatcher/scheduler-maintainer/maintainer_util.go:217-244 | Active schedulers with the most and the fewest nodes. |
| `Maintainer.SchedulerMaintainer.SomeNodes` | pkg/dispatcher/scheduler-maintainer/maintainer_util.go:246-274 | So many distinct nodes of the partition; refused iff it is not active or has no more than that. |
| `Rebalance.MovesSomeNotAll` | pkg/dispatcher/node-shuffler/node_shuffler.go:279-280 | A round moves half the gap, rounded down: at least one node and fewer than all. |
| `Rebalance.GapStays` | pkg/dispatcher/node-shuffler/node_shuffler.go:279-280 | Before each move the giver has at least two nodes more than the receiver. |
| `Rebalance.ReBalance` | pkg/dispatcher/node-shuffler/node_shuffler.go:272-292 | A round moves nodes iff the partitions are unbalanced, and then half the gap between the extremes, from one of the largest. It lowers the sum of squared loads by two per node, stays within the old extremes, and whoever gained nodes ends with at most one more than anybody else. |
| `Rebalance.Settle` | pkg/dispatcher/node-shuffler/shuffler_util.go:48-58 | Rounds come to an end, and then the partitions are balanced; there is none iff they were. |
| `Texts.IntRoundTrip` | pkg/util/utils.go:307-310 | A 64-bit number is read back as it was written. |
| `Texts.SplitJoin` | pkg/util/utils.go:302-303 | Splitting at a separator undoes joining parts that do not contain it. |
| `MicroTopologies.UnmarshalMicroTopology` | pkg/util/utils.go:298-329 | Computes the reading of the annotation, with all its errors. |
| `MicroTopologies.MarshalMicroTopology` | pkg/util/utils.go:331-346 | In whatever order the maps are walked, reading the result gives the topology if every list exists and is not empty, and an error otherwise. |
| `MicroTopologies.RoundTrip` | pkg/util/utils.go:298-346 | Writing and reading succeeds iff all lists hold something, and then gives back every list. |
| `EmbeddedBinder.Validate` | pkg/binder/binder_interface.go:120-147 | Accepts exactly requests with a unit, pods and a node for each of them. |
| `EmbeddedBinder.UniqueNodeNames` | pkg/binder/binder_interface.go:103-118 | Exactly the target nodes named in the request, each once, for every request. |
| `EmbeddedBinder.BindPodToNode` | pkg/binder/embedded_binder.go:245-295 | Between one call and the retry limit, only for this pod and node; only transient errors are retried; success iff the last call was accepted. Once the context has ended it is retried iff the timer fires first. |
| `EmbeddedBinder.BindUnit` | pkg/binder/embedded_binder.go:136-241 | Refusals exactly as stated; each call is for a pod of the request, on the node the request names for it, which is this scheduler's or nobody's; successful and failed pods cover the request and, with distinct identifiers, partition it; bound iff accepted; a pod fails only after a permanent error, after all its calls, or because the context ended; bounded calls. Once the context has ended only the pod under way may be called for again, and the end is noticed only then; panics iff an accepted request has a missing entry. |
| `EmbeddedBinder.RefusedWasTried` | pkg/binder/embedded_binder.go:180-207 | A pod that failed was tried, or the end of the context was noticed. |
| `Movement.RecordInOwner` | pkg/binder/utils/movement.go:81-107 | The pod goes to the first suggestion for its node iff that has room, else to the mismatches iff there are fewer than the suggestions looked at ask for. |
| `Movement.Record` | pkg/binder/utils/movement.go:76-107 | The change is exactly the one the first matching owner has room for; nothing else moves. |
| `Movement.RecordedKeepsBounds` | pkg/binder/utils/movement.go:81-107 | Recording keeps at most the desired pods per suggestion and at most their sum in mismatches. |
| `Movement.BoundsHold` | pkg/binder/utils/movement.go:70-121 | Whoever wrote them, all versions keep the bounds. |
| `Recorders.UpdateMovement` | pkg/binder/utils/movement.go:70-121 | With any number of recorders, over the requests this call made: it asks to be called again iff as many attempts failed as it may make, and iff none ended it (no such movement, nothing to record, an answered write); every write records its pod in a version it has read; if nobody else records the pod, the movement holds it once more for each of its stored writes. The bounds hold at every version. |
| `Recorders.TwiceExactly` | pkg/binder/utils/movement.go:70-121 | A call records its pod more than once iff two of its stored writes got no answer, or one did not and another was answered. |
| `Recorders.TryRecord` | pkg/binder/utils/movement.go:71-107 | One attempt is one read and at most one write; it fails iff the read broke or the write was answered with an error. |
| `Recorders.StoredIsVersion` | pkg/binder/utils/movement.go:100-105 | A stored write is a version of its own, made from the version before it. |
| `Recorders.VersionIsStored` | pkg/binder/utils/movement.go:100-105 | Every version but the first is a stored write. |
| `Recorders.StoredInOrder` | pkg/binder/utils/movement.go:100-105 | No two stored writes are the same version, and they follow the order of the requests. |
| `Recorders.TimesCount` | pkg/binder/utils/movement.go:76-107 | Between any two moments a pod is recorded once more for each stored write for it, whoever made them. |
| `Recorders.RecordedTwice` | pkg/binder/utils/movement.go:70-121 | The requests of a call whose first write is stored without an answer, after which the movement holds the pod twice. |

## Left out

- External cancellation of an attempt: `CheckAndBindUnit` calls the same-node check without it; the check itself is also proved with it, and may then leave new tasks.
- The main loop's test for a failed unit while the goroutine of the last stage is still running, and the rejection of units that waited too long.
- Reservation placeholders, volume binding, micro-topology assignment and all other plugin internals: their verdicts are inputs.
- Expiry of delete marks after ten minutes and of assumed pods: `Capacity` has no such step.
- Capacity.CapacityOverRuns: one additive request per pod; a pod is in one running attempt at a time.
- Capacity.CarefulRunsFit: one way only, since a run that forgets an accepted pod may still fit, as when the pod is deleted before it comes back or room is left; which runs have strangers is exact in `Capacity.CarefulExactly`.
- CheckAndBind.CheckAndBindUnit: the scheduled mark counts waiting tasks with the bound ones, as the code has it; the converse of its last statement is not claimed, since a PodGroup may lose checks it does not need.
- SameNode.CheckSameNodeConflictsForUnit: as many workers as nodes; the limit on how many run at once is not modelled.
- PodGroupActors.SyncHandler: the owner annotation that a sync may fill in from its pods is not modelled.
- BinderQueue.PriorityQueue.Insert: the time at which a unit is created is not modelled; only units that were put back wait for their backoff.
- Caches.BinderCache.MarkPodToDelete: an attempt always names the node the cache has, since a confirmed pod does not change its node.
- AttemptRuns.AttemptIsRun: the pods of the unit are in no other running attempt and none of them was deleted, and the steps of others come before or after the stretch.
- AttemptRuns.MarkingIsRun: the marks that the stage sets and takes back on nodes it fails are left out of the stretch.
- BinderRuns.Round: nothing else happens to the queue during a round; sequences with anything in between are in `BinderRuns.StraysOverBinderRuns`.
- Recorders.UpdateMovement: a pod that names no movement is left alone before the first request.
- Caches.BinderCache.AssumePod: the stores of the cache succeed or fail together.
- PodGroupProtocol.StepIsLegal: other writers of a PodGroup change neither its lock nor its phase; deletion of the object is not modelled.
- PodGroupActors.Analyze: does not model 32-bit counters.
- The order of the ready heap: `Pop` takes any ready unit. Metrics, tracing, events and logging.
- BinderQueue.PriorityQueue.Update: the identity and the group of a pod do not change.
- Maintainer.SchedulerMaintainer.UpdateNode: one kind of node object; deletions carry the last annotation.
- Rebalance.ReBalance: every move is observed by the maintainer before the next one.
- MicroTopologies.MarshalMicroTopology: quantities are opaque, with a format that is read back and free of separators; an absent map counts as an empty one.
- EmbeddedBinder.BindUnit: retry counters in annotations and the reservation cache are not modelled; node owners are read once.
- Servers, options, informer plumbing, the switch of scheduler clusters, label and resource helpers: they would only add easy members.
