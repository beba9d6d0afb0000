# Verification of the agentManager task engine

A Dafny model of the parts of agentManager that decide what runs, when, and what is
remembered about it, with proofs about all inputs, all runs and all interleavings.

* **Dependency graph** (`Graphs.dfy`, `DagEngine.dfy`): the three-colour cycle search on the
  graph plus a virtual edge, `add_node`, `add_edge`, ready nodes, and the graph part of task creation.
* **Scheduler** (`SchedulerEngine.dfy`, `SchedulerPasses.dfy`, over `Heapq.dfy` and `TaskKeys.dfy`):
  dispatch from a heap under a cap, with conflicts, backoff and retry limits.
* **Task lifecycle** (`StateManager.dfy`, `TaskExecutor.dfy`, `RecoveryEngine.dfy`): the
  transition table with its cache and repository, the retry loop, the six recovery strategies
  and event replay.
* **Workflow coordinator** (`Workflow.dfy`, `WorkflowSteps.dfy`, `WorkflowSafety.dfy`,
  `WorkflowProgress.dfy`, `WorkflowFates.dfy`, `WorkflowCompletion.dfy`, `WorkflowGaps.dfy`,
  `WorkflowResume.dfy`, `WorkflowWitnesses.dfy`, `WorkflowCoordinator.dfy`): whole runs over all of the above, from a
  fresh start, from whatever states an interrupted run left, or resumed from checkpoints.
* **Task plans** (`TaskPlans.dfy`): two-phase confirmation, as interleaved locked sections.
* **Resource-aware scheduler** (`PriorityQueue.dfy`, `ResourceAllocator.dfy`, `TaskScheduler.dfy`,
  over `Sorting.dfy`).
* **Engineering memory** (`EngineeringMemory.dfy`): the table and the search index.

Each stateful component is a class whose methods follow the program's own loops and branches.
A method's contract ties the new state, seen as a value (`View()`), to a function of the old
one; the lemmas state what those functions promise: over one call, over any sequence of
calls (`AfterCalls`, `AfterSteps`), or over whole runs (`AtIteration`, `Looped`, `Run`).

What the outside decides is an input: the clock (each value a scheduler pass reads, in
microseconds), sandbox outcomes, checkpoint loads, whether loads and saves raise and with which
text, the event log, the answer of the repair pipeline, the class of an error, the workflow id
and the source code in the metadata of a node, the order in which sets are listed, hook results,
and the functions that read tokens out of values and queries, or fail to. Statements hold for
every choice of these unless their `requires` says otherwise. Amounts and scores are real
numbers; task ids are strings in the order of their code points.

Some promises turn out not to hold of the code as it stands. Each is stated with its exact
condition, and with a lemma at an input that breaks it:

* an item update that is rejected still replaces the items of a draft
  (`RejectedUpdateChangesNothingIff`, `SampleIsValid`);
* a save that raises after the COMPLETED transition splits the stores
  (`StoresAgreeAfterExecutionIff`, `UnsavedRunSplitsStores`);
* an error without text, or a node with an empty workflow id, makes a run with recovery raise
  with a task running (`RunRaisesIff`, `BlankErrorRaises`);
* a resumed workflow never runs a task that was being implemented or verified when the process
  stopped, because IMPLEMENTING may not follow those states, nor one that is COMPLETED without a
  checkpoint: only a repair can complete them (`ResumedWorkflowSucceedsIff`,
  `InterruptedTaskFails`, `CompletedWithoutCheckpointFails`);
* restoring from checkpoints can raise half-way (`RestoringRaisesIff`,
  `BlockedTaskWithCheckpointRaises`), and can restore a task without its dependencies: then a
  task may run although something it depends on, beyond the restored one, has failed
  (`RunsWithoutIff`, `CheckpointBreaksOrder`); `RestoredAreClosedIff` says which checkpoints
  rule that out;
* recovery by retry can never rescue a failed task, because FAILED to IMPLEMENTING is illegal
  (`FailedRunStaysFailed`, `CoordinatorRecovery`), and two event replays in a row can complete
  one that never ran (`SecondReplayCompletesIff`, `FailedTaskCompletedByReplay`);
* `initialize` looks only at the cache and can cut a stored history from its state
  (`InitializedWellKeptIff`, `InitializedAfterRestart`);
* a task refused resources loses its place among its equals, so `get_scheduled_tasks` no longer
  lists the order of execution (`RefusalReordersIff`, `RefusedTaskIsListedFirst`);
* a value whose tags cannot be iterated is stored and not indexed, and is then searched by the
  tokens of the value before it (`IndexAgreesWithStoreIff`, `UnreadableValueKeepsOldScore`); a
  stored null is found by `search` and then dropped (`SearchReturnsAllHitsIff`,
  `StoredNullIsDropped`).

The bound on the clock in `AcyclicWorkflowCompletes` and `ExecutedAndCompletedExactly` is there
because a blocked task past its backoff is failed when its attempts are used up
(`BlockedTaskFailsIff`); it also takes the clock not to run back between the check of a task's
backoff and its next one.

`dafny verify dfyconfig.toml` checks the whole project.

## Model

| member | source | states |
|---|---|---|
| `Graphs.CycleSearch.Dfs` | agentManager/engine/dag.py:147-168 | The inner three-colour search keeps its stack an active path; it returns a simple cycle of the graph plus the virtual edge, or leaves everything reachable from the node visited with the visited nodes in finishing order. It ends because unvisited nodes decrease. |
| `Graphs.CycleSearch.SuccessorsWithExtraEdge` | agentManager/engine/dag.py:116-125 | The successors of a node in the graph that has the virtual edge added, without adding it. |
| `Graphs.DetectCyclePath` | agentManager/engine/dag.py:127-174 | Sound and complete: None exactly when graph plus virtual edge is acyclic; otherwise the returned path is a cycle of it with equal ends, at least one edge and distinct interior nodes. |
| `Graphs.FinishingOrderMeansAcyclic` | agentManager/engine/dag.py:147-168 | Why "no cycle found" may be believed: a complete finishing order in which every successor finished first rules out every cycle, of any length. |
| `Graphs.EdgeKeepsAcyclicIff` | agentManager/engine/dag.py:85-114 | Adding an edge to an acyclic graph keeps it acyclic exactly when no path leads from its target back to its source (the self-edge included). |
| `Graphs.CycleGivesPathBack` | agentManager/engine/dag.py:97-106 | Every cycle found in the extended graph uses the new edge, and cut open there is a path back. |
| `Graphs.SimpleSubcycle` | agentManager/engine/dag.py:127-174 | Any cycle contains a simple one, so searching for simple cycles misses nothing. |
| `Dags.EveryRunStaysAcyclic` | agentManager/engine/dag.py:69-114 | After any sequence of add_node and add_edge calls, accepted or refused, the graph is acyclic, and between present nodes add_edge is refused exactly when the edge would close a cycle. |
| `Dags.EdgeKeepsRest` | agentManager/engine/dag.py:85-114 | An accepted edge appends its source to the dependencies of its target unless listed there already, keeping those already listed, and changes no other dependency, node, status or priority. |
| `Dags.ApplyKeepsMirroredIff` | agentManager/engine/dag.py:69-114 | A call keeps dependency lists and edges the same exactly if it adds no node that brings dependencies of its own. |
| `Dags.EveryRunStaysMirrored` | agentManager/engine/dag.py:69-114 | After any calls that add nodes without dependencies and offer edges, every dependency list says exactly what the edges say, each dependency once. |
| `Dags.DagEngine.AddNode` | agentManager/engine/dag.py:69-83 | Refuses exactly an id that is present and then changes nothing; else the node is added without edges. |
| `Dags.DagEngine.AddEdge` | agentManager/engine/dag.py:85-114 | Refused exactly for an unknown end or a path back; a refused call changes nothing, and a cycle error carries a simple cycle through the refused edge. An accepted call adds the edge and appends the source to the dependencies of the target if it was not listed. |
| `Dags.DagEngine.DetectStoredCycle` | agentManager/engine/dag.py:176-187 | On the stored graph the detector never finds anything, whatever calls built it. |
| `Dags.DagEngine.DependenciesCompleted` | agentManager/engine/dag.py:216-219 | Decides readiness of one pending node; the KeyError arises exactly when an id that is no node is looked up before an uncompleted dependency is met. |
| `Dags.DagEngine.GetReadyNodes` | agentManager/engine/dag.py:204-223 | The pending nodes all of whose dependencies are completed, in insertion order; fails exactly when some lookup hits an id that is no node. |
| `Dags.SomeDangling` | agentManager/engine/dag.py:204-223 | The calls for the ready nodes fail exactly when some pending node, its dependencies looked up in order, comes to an id that is no node before it comes to one that is not completed. |
| `Dags.SelectReadySplits` | agentManager/engine/dag.py:204-223 | The selection of ready nodes keeps their order and repeats none: it may be made piece by piece. |
| `Dags.DagEngine.UpdateNodeStatus` | agentManager/engine/dag.py:250-264 | Changes the status of exactly the named node, or reports that it is unknown and changes nothing. |
| `Dags.WalkBackToReady` | agentManager/engine/dag.py:204-223 | Among pending and completed nodes that contain the dependencies of the pending ones, walking back from a pending node along uncompleted dependencies ends in a ready node. |
| `Dags.NoDeadlock` | agentManager/engine/dag.py:204-223 | With mirrored dependency lists: in any set of pending and completed nodes that contains the dependencies of its pending ones, one of them pending, some node is ready, whatever has failed outside the set. |
| `Dags.CreateTask` | agentManager/api.py:513-544 | The graph part of task creation: unknown dependencies are refused before anything changes; otherwise the new node gets exactly one edge from each dependency and no edge is ever refused; dependency lists keep mirroring edges. |
| `Heapq.RootIsLeast` | agentManager/engine/scheduler.py:198-200 | The first entry of a heap is a least one, so popping dispatches in order. |
| `Heapq.HeapPush` | agentManager/engine/scheduler.py:97-100 | Pushing keeps the heap and adds exactly one entry. |
| `Heapq.HeapPop` | agentManager/engine/scheduler.py:198-200 | Popping keeps the heap and removes exactly one least entry. |
| `TaskKeys.BeforeIsTotalOrder` | agentManager/engine/scheduler.py:97-100 | The keys (-priority, task_id) are totally ordered, so the least entry is unique. |
| `TaskKeys.LexLessIff` | agentManager/engine/scheduler.py:97-100 | Ties between ids are decided by the first differing character, a prefix before what it begins. |
| `Scheduling.SchedulerEngine.AddTask` | agentManager/engine/scheduler.py:75-102 | A new id is recorded as pending with one queue entry; a known id is refused and nothing changes. |
| `Scheduling.SchedulerEngine.DetectConflicts` | agentManager/engine/scheduler.py:104-130 | Exactly the dependencies that are missing or not completed, in order; none for an unknown task. |
| `Scheduling.SchedulerEngine.DetectPermanentConflict` | agentManager/engine/scheduler.py:132-157 | Exactly the dependencies that are missing or failed, in order. |
| `Scheduling.UnmetSplits` | agentManager/engine/scheduler.py:118-130 | The conflicts keep the order of the dependencies, repetitions included. |
| `Scheduling.LostSplits` | agentManager/engine/scheduler.py:145-157 | So do the permanent ones. |
| `Scheduling.SchedulerEngine.CountConflict` | agentManager/engine/scheduler.py:214-251 | Counts the conflict with its record; the task fails exactly if its attempts are used up or some dependency is missing or failed, and is put off for one backoff otherwise. |
| `Scheduling.SchedulerEngine.ExecuteScheduledTasks` | agentManager/engine/scheduler.py:175-267 | The dispatch loop over the heap, with deferral and requeueing, leaves the state the pass specification gives for the state before it and the clock, read anew for each task: for its backoff, its conflict record and its next retry. |
| `Scheduling.SchedulerEngine.MarkCompleted` | agentManager/engine/scheduler.py:273-287 | Completes the task in status, running set and completed set; an unknown id is an error without effect. |
| `Scheduling.SchedulerEngine.MarkFailed` | agentManager/engine/scheduler.py:293-306 | Fails the task and takes it out of the running set; an unknown id is an error without effect. |
| `Scheduling.PassKeepsConsistent` | agentManager/engine/scheduler.py:175-267 | A pass keeps the scheduler consistent, whatever its state and clock. |
| `Scheduling.ApplyKeepsConsistent` | agentManager/engine/scheduler.py:75-306 | So does every operation, the two the coordinator performs on the scheduler's fields included. |
| `Scheduling.EveryRunIsConsistent` | agentManager/engine/scheduler.py:75-306 | After any run of add, execute, mark, requeue and clear: the running set is exactly the running tasks and within the cap; a pending task has exactly one entry, with its own priority; no task has two, running tasks none; a pending task is within its retry limit. |
| `SchedulerPasses.PassSortsAndTakes` | agentManager/engine/scheduler.py:185-267 | One pass refines sort-and-take: started are exactly the first min(room, eligible) of the tasks pending, past backoff and conflict-free at entry, by (-priority, task_id). |
| `SchedulerPasses.PassSteps` | agentManager/engine/scheduler.py:206-267 | All a pass may do to a task: nothing, start it if it was eligible, or count one conflict; it fails a task only past its limit or for a lost dependency. |
| `SchedulerPasses.PassIs` | agentManager/engine/scheduler.py:175-267 | A pass in closed form, task by task: it reaches a pending task exactly if fewer eligible tasks come before it, by falling priority and then by id, than there is room for; a reached task is left alone in its backoff, started without conflict, and else has the conflict recorded in full and is failed exactly if its attempts are used up or a dependency is missing, failed, or failed by this pass before its turn; every other task is untouched. |
| `SchedulerPasses.BlockedTaskFailsIff` | agentManager/engine/scheduler.py:214-257 | A reached task in conflict and past its backoff uses one more attempt and fails exactly if they are used up or a dependency is lost to it, then without a next retry; else it is put off for one backoff. |
| `SchedulerPasses.PassUsesAnAttempt` | agentManager/engine/scheduler.py:201-257 | With room for all and all backoffs past, a task still pending after a pass was pending before and has used one more attempt. |
| `SchedulerPasses.NoEndlessDeferral` | agentManager/engine/scheduler.py:201-257 | With room for all tasks and nothing completed in between, one pass more than the largest retry limit leaves no task pending, failures that cascade included. |
| `SchedulerPasses.SpacedClocksExpireBackoffs` | agentManager/engine/scheduler.py:201-204 | Passes that read the clock for each task at least one backoff after it may have been put off find every backoff expired, so the previous statement applies to them. |
| `SchedulerPasses.HealthyPassFailsNone` | agentManager/engine/scheduler.py:214-251 | In any set of tasks of which none has failed and none is past its limit, closed under the dependencies of the pending ones, a pass fails no task, whatever has failed outside the set. |
| `StateMachines.MovedAnswers` | agentManager/engine/state_manager.py:129-195 | A transition changes the answer of get_state for that task only, and only if it is legal; the history grows by exactly that record; a refused one changes no answer. |
| `StateMachines.InitializedWellKeptIff` | agentManager/engine/state_manager.py:91-112 | Initialising a task keeps the books exactly when the task has no history yet: the cache check of initialize alone would let a stored history be cut from its state. |
| `StateMachines.InitializedAfterRestart` | agentManager/engine/state_manager.py:91-112 | An input at which they are not kept, reached by initialise, one transition and a restart: afterwards get_state answers PENDING and get_history a history that ends in READY. |
| `StateMachines.FreshAnswersTheSame` | agentManager/engine/state_manager.py:201-237 | A fresh machine on the same repository answers get_state and get_history identically. |
| `StateMachines.CachedAnswersTheSame` | agentManager/engine/state_manager.py:201-237 | Filling the cache on a read changes no later answer. |
| `StateMachines.EveryRunKeepsLegalHistories` | agentManager/engine/state_manager.py:46-237 | Over every run of guarded initialise, transition, reads and restarts: consecutive records link, each step is legal, only the last may be terminal, and its target is the current state. |
| `StateMachines.LegalIff` | agentManager/engine/state_manager.py:46-78 | The transition table by target: from every state that is not terminal a task may be completed, failed or blocked; repair is entered from all others but itself, implementation only from PENDING, READY and BLOCKED_REPAIR, VERIFYING and READY from one state each. |
| `StateMachines.FailedRunsAgainAfterRepair` | agentManager/engine/state_manager.py:46-78 | In every legal history a task that failed is implemented again only after it has been in BLOCKED_REPAIR. |
| `StateMachines.StateMachine.Initialize` | agentManager/engine/state_manager.py:91-112 | Refused exactly for a cached task; else state and empty history are set and written through. |
| `StateMachines.StateMachine.GetState` | agentManager/engine/state_manager.py:201-217 | The cached state, else the repository's, which is then cached; no answer changes. |
| `StateMachines.StateMachine.GetHistory` | agentManager/engine/state_manager.py:219-237 | The cached history if not empty, else the repository's. |
| `StateMachines.StateMachine.TransitionTo` | agentManager/engine/state_manager.py:129-195 | Succeeds exactly for a known task and a legal step (by table or emergency); then cache, history and repository record it, else no answer changes. |
| `StateMachines.StateMachine.IsTerminal` | agentManager/engine/state_manager.py:239-249 | True exactly for a known task from which no transition at all is legal. |
| `TaskExecution.TaskExecutor.AttemptAll` | agentManager/runtime/task_executor.py:330-378 | The retry loop makes one call per attempt up to the first accepted one, at most max_retries + 1, and raises the retry count by exactly the attempts that failed. |
| `TaskExecution.TaskExecutor.ExecuteWithRetry` | agentManager/runtime/task_executor.py:315-378 | A task that may not be implemented never reaches the sandbox; one that uses up its attempts is left verifying. |
| `TaskExecution.TaskExecutor.RunTask` | agentManager/runtime/task_executor.py:150-275 | One run: states, calls and success as specified from the states before it; the text of the exception where it raises; the context it leaves, exactly, started from a loaded checkpoint and counting the failed attempts; no other context changes. |
| `TaskExecution.RunIsBounded` | agentManager/runtime/task_executor.py:150-378 | One sandbox call per attempt up to the first accepted one, else max_retries + 1; none if implementing is illegal or the load raises; success exactly after an accepted attempt whose save does not raise, ending COMPLETED; otherwise FAILED, or COMPLETED if only the save raised; no other task changes. |
| `TaskExecution.ContextOfRunMeans` | agentManager/runtime/task_executor.py:150-378 | The context of a run: each failed attempt is counted, the error is set exactly where the run raises or was set before, all else is kept. |
| `TaskExecution.ErrorMeans` | agentManager/runtime/task_executor.py:230-275 | Which exception a run raises: that of the save after a failure, else that of the load, else one of the code itself. |
| `Recovery.ReplayClosedForm` | agentManager/recovery/recovery_engine.py:299-324 | Over any list of events from a non-terminal state, the first completed or blocked one decides the state; else any failed one gives FAILED; else the state moves at most to IMPLEMENTING. |
| `Recovery.ReplayIsIdempotent` | agentManager/recovery/recovery_engine.py:666-754 | Replaying the same events once more changes no state, from whatever state the first replay began. |
| `Recovery.ReplayAllIsReplayState` | agentManager/recovery/recovery_engine.py:666-754 | The replay over the whole state map is that closed form at the task and changes no other task. |
| `Recovery.RecoveryOutcome` | agentManager/recovery/recovery_engine.py:108-179 | Under every strategy and log, recovery of a FAILED task ends in COMPLETED, BLOCKED_REPAIR or BLOCKED_HITL, never READY; a false result means BLOCKED_HITL; no other task moves. |
| `Recovery.RecoveryCompletesIff` | agentManager/recovery/recovery_engine.py:204-571 | A FAILED task is completed exactly by a successful repair of registered code, or by a replay that meets a completed event before any blocked one. |
| `Recovery.FailedReplayIs` | agentManager/recovery/recovery_engine.py:263-328 | Replaying a FAILED task: the first completed or blocked event decides; without one any event sends it to BLOCKED_REPAIR, and none to BLOCKED_HITL; with what is reported. |
| `Recovery.FailedRecoveryIs` | agentManager/recovery/recovery_engine.py:75-179 | The other strategies on a FAILED task, asked for or selected by the class of the failure: where each ends and what it reports. |
| `Recovery.PublishedAre` | agentManager/recovery/recovery_engine.py:595-635 | The events published: ids, task and retry count, raised by a retry that is not refused; a completed or a failed one by the result of the strategy, and a second, failed one exactly where the conclusion raises. |
| `Recovery.ReplayedAre` | agentManager/recovery/recovery_engine.py:284-324 | The events replayed: those of this task or of no task, from the first with the given id on; none without such an event or where the log cannot be read. |
| `Recovery.ContextAfterReplay` | agentManager/recovery/recovery_engine.py:666-716 | The context after a replay has the status of the last event that sets one, and an error exactly if it had one or a failure was replayed. |
| `Recovery.CountAfterReplay` | agentManager/recovery/recovery_engine.py:666-716 | Its retry count is that of the last failure that carries one. |
| `Recovery.CoordinatorRecovery` | agentManager/runtime/workflow_coordinator.py:239-277 | With the context the coordinator builds, only a repair rescues a task: every other strategy ends in BLOCKED_HITL. |
| `Recovery.FailedRunStaysFailed` | agentManager/recovery/recovery_engine.py:235-261 | Recovery by retry makes no sandbox call: FAILED to IMPLEMENTING is illegal. |
| `Recovery.CompletedRecovery` | agentManager/recovery/recovery_engine.py:75-179 | Recovery of a task already COMPLETED, whatever the context and whether or not it is registered, leaves it so and succeeds exactly where its strategy does: for a retry within the limit of an unregistered task, a replay that applies some event, a snapshot that matches, or a successful repair. |
| `Recovery.BlockedRecovery` | agentManager/recovery/recovery_engine.py:75-179 | Recovery of a task in BLOCKED_HITL, whatever the context, changes nothing and reports failure, also where its strategy succeeds. |
| `Recovery.SecondReplayCompletesIff` | agentManager/recovery/recovery_engine.py:263-328 | A replay publishes its success as a completed task, and a second replay from the same event reads it: the second completes a FAILED task exactly if the first left it COMPLETED or in BLOCKED_REPAIR. |
| `Recovery.FailedTaskCompletedByReplay` | agentManager/recovery/recovery_engine.py:595-635 | An input at which that completes a task that never ran: one failed event, and two recoveries. |
| `Recovery.RecoveryEngine.SafeTransition` | agentManager/recovery/recovery_engine.py:739-754 | Initialises an unknown task, then steps if that is legal, and never raises. |
| `Recovery.RecoveryEngine.ApplyEvent` | agentManager/recovery/recovery_engine.py:666-716 | One event changes context and state as specified, the context even where the transition is refused. |
| `Recovery.RecoveryEngine.ReplayEvents` | agentManager/recovery/recovery_engine.py:299-324 | The loop applies exactly the events of this task or of no task, in order, and counts them. |
| `Recovery.RecoveryEngine.FindStart` | agentManager/recovery/recovery_engine.py:284-297 | The first event with the given id, or the end of the log. |
| `Recovery.RecoveryEngine.ExecuteEventReplay` | agentManager/recovery/recovery_engine.py:263-328 | Replays the specified events into states and context; succeeds exactly when at least one event was applied. |
| `Recovery.RecoveryEngine.ExecuteRetry` | agentManager/recovery/recovery_engine.py:204-261 | Refuses past the attempt limit, runs a registered task again, and accepts an unregistered one; states and contexts as specified. |
| `Recovery.RecoveryEngine.ExecuteSnapshotRestore` | agentManager/recovery/recovery_engine.py:330-388 | Succeeds exactly for a checkpoint of this task and id, and then installs exactly it. |
| `Recovery.RecoveryEngine.ExecuteDefectRepair` | agentManager/recovery/recovery_engine.py:390-500 | COMPLETED in state and context on a successful repair, BLOCKED_HITL on escalation, untouched otherwise but for a context that is created. |
| `Recovery.RecoveryEngine.HandToHuman` | agentManager/recovery/recovery_engine.py:502-571 | BLOCKED_HITL if that is legal, which decides the result; the intervention is recorded in the context, which is created if missing. |
| `Recovery.RecoveryEngine.MarkRecoveryReady` | agentManager/recovery/recovery_engine.py:718-737 | COMPLETED, READY and BLOCKED_REPAIR stay, FAILED becomes BLOCKED_REPAIR, anything else READY or an error. |
| `Recovery.RecoveryEngine.Conclude` | agentManager/recovery/recovery_engine.py:147-174 | What follows the result of a strategy, and exactly when the transition that follows it raises. |
| `Recovery.RecoveryEngine.ExecuteRecovery` | agentManager/recovery/recovery_engine.py:75-179 | The whole recovery: the states, the result, the contexts (only that of the task may change) and the events published, with a second failed event where the conclusion raises; one more tracked attempt. |
| `WorkflowSteps.TaskExecutes` | agentManager/runtime/workflow_coordinator.py:200-237 | What one execution does to all three stores, to the log and to the call counts, from any state the task is found in and for every sandbox, store and recovery answer that raises nothing. |
| `WorkflowSteps.CoordinatorCompletesIff` | agentManager/runtime/workflow_coordinator.py:239-277 | The recovery of the coordinator completes a task found in FAILED exactly if recovery and repair are allowed, the failure is of class RUNTIME, there is source code and the pipeline reports success; else it ends in BLOCKED_HITL, or stays FAILED without recovery. |
| `WorkflowSteps.CoordinatorChoice` | agentManager/runtime/workflow_coordinator.py:249-261 | Which strategy the coordinator chooses for each class of failure, by what it does to the execution context. |
| `WorkflowSteps.CallsAreCounted` | agentManager/runtime/workflow_coordinator.py:200-237 | An execution costs exactly the sandbox calls of its run: no recovery the coordinator chooses makes any. |
| `WorkflowSteps.SandboxAcceptsIff` | agentManager/runtime/task_executor.py:330-378 | The sandbox accepts a task exactly if one of max_retries + 1 attempts is accepted and the checkpoint loads. |
| `WorkflowSteps.MarkReadyMeans` | agentManager/runtime/workflow_coordinator.py:175-183 | Marking makes exactly the pending and unknown tasks of a list READY. |
| `WorkflowSteps.SyncedMeans` | agentManager/runtime/workflow_coordinator.py:297-318 | Synchronising makes exactly the tasks that failed in the scheduler FAILED: in the graph unless completed, in the state machine unless COMPLETED or BLOCKED_HITL. |
| `WorkflowSteps.TaskRaises` | agentManager/runtime/workflow_coordinator.py:263-270 | Where the error text, the workflow id or the task id is empty the recovery context cannot be built and the execution raises: the scheduler is untouched, the node stays RUNNING and the task as the run left it. |
| `WorkflowSteps.StoresAgreeAfterExecutionIff` | agentManager/runtime/workflow_coordinator.py:213-237 | After an execution that did not raise the three stores agree, unless the task was COMPLETED before or saving the checkpoint of its accepted run raised, and no repair followed: exactly then the state machine alone says COMPLETED. |
| `WorkflowSafety.ExecutionKeepsInv` | agentManager/runtime/workflow_coordinator.py:200-237 | Executing a running task keeps the invariant of a run, whether or not it raises. |
| `WorkflowSafety.ReadyIffConflictFree` | agentManager/runtime/workflow_coordinator.py:91-96 | The graph calls a waiting task ready exactly when the scheduler finds no conflict for it. |
| `WorkflowSafety.DispatchKeepsInv` | agentManager/runtime/workflow_coordinator.py:90-96 | Marking, clearing, dispatching and synchronising failures keep the invariant of a run. |
| `WorkflowSafety.EveryPointKeepsInv` | agentManager/runtime/workflow_coordinator.py:89-113 | The invariant holds at every point of every run, from any states the tasks are found in: before each iteration, after its failure synchronisation and after each of its executions. |
| `WorkflowSafety.RunEndsAtIteration` | agentManager/runtime/workflow_coordinator.py:88-117 | The main loop passes through these points and no others: a run ends in the system before some iteration, within the bound, and none of the iterations before it raised. |
| `WorkflowSafety.RunStopsAtFirst` | agentManager/runtime/workflow_coordinator.py:88-117 | And it stops at the first chance: before the first iteration at which the bound is reached, an exception has been raised, every task is completed or failed, or the last three iterations were idle. |
| `WorkflowSafety.InvMeansStoresAgreeIff` | agentManager/runtime/workflow_coordinator.py:297-318 | The three stores agree about a task exactly if the state machine has not run ahead of the scheduler: completed in all or none; failed in the scheduler means FAILED in the graph and FAILED or BLOCKED_HITL in the state machine. |
| `WorkflowSafety.ChainBelowIsDone` | agentManager/runtime/workflow_coordinator.py:90-113 | Whatever lies below an executed or running task on a chain of dependencies, as far down as no restored task stands between, is completed. |
| `WorkflowSafety.ClosedChainBelowIsDone` | agentManager/runtime/workflow_coordinator.py:90-113 | So where no task was restored without its dependencies, everything below an executed or running task is completed, through restored tasks too. |
| `WorkflowSafety.DependencySafety` | agentManager/runtime/workflow_coordinator.py:89-113 | At every point of every run, for any sandbox, store, clock, recovery, states found and tasks restored: each task executed at most once and behind all its dependencies that were not restored; only tasks with completed dependencies run, and a completed one has completed dependencies unless it was restored without one; at most max_retries + 1 sandbox calls per task; a restored task is never executed; the stores agree exactly if the state machine has not run ahead. |
| `WorkflowSafety.RunIsSafe` | agentManager/runtime/workflow_coordinator.py:69-161 | The same of the result of the run. |
| `WorkflowProgress.FailureIsFinal` | agentManager/runtime/workflow_coordinator.py:89-113 | A task that has failed stays failed for the rest of the run. |
| `WorkflowProgress.NoDependentOfFailedRuns` | agentManager/runtime/workflow_coordinator.py:200-237 | Once a task has failed, no task that depends on it, however indirectly, runs at that or any later point, unless a restored task stands between. |
| `WorkflowProgress.RunShutsOutDependents` | agentManager/runtime/workflow_coordinator.py:69-161 | In the result of a run, no task that depends on a failed one, however indirectly, was executed or is running, unless a restored task stands between. |
| `WorkflowProgress.DispatchFailsIff` | agentManager/engine/scheduler.py:214-251 | When an iteration fails a waiting task with an uncompleted dependency: past its backoff and with room behind the ready tasks before it, exactly if its attempts are used up or a dependency is lost to it. |
| `WorkflowProgress.DependentsOfFailedFail` | agentManager/engine/scheduler.py:227-237 | So a task that depends on a failed one fails in that iteration, and from then on in scheduler, graph and state machine. |
| `WorkflowProgress.SuccessMeansTopologicalOrder` | agentManager/runtime/workflow_coordinator.py:119-129 | Whatever the inputs and the states found, a run that reports success has completed every node in all three stores, in an order that respects every edge. |
| `WorkflowProgress.SucceedsMeansAllCompleted` | agentManager/runtime/workflow_coordinator.py:119-129 | The computed success flag is true exactly when every scheduled task is completed. |
| `WorkflowFates.EveryPointKeepsFate` | agentManager/runtime/workflow_coordinator.py:89-113 | At every point of every run the records of each task are what its start state and the answers it got determine; a task that could not be implemented has cost no sandbox call. |
| `WorkflowFates.StoresAgreeThroughout` | agentManager/runtime/workflow_coordinator.py:200-237 | The stores agree about a task throughout every run if it was not COMPLETED from the start and no save of an accepted run of it raises. |
| `WorkflowFates.SuccessNeedsEveryTaskDone` | agentManager/runtime/workflow_coordinator.py:119-129 | A successful run has met, for every task not restored, answers that complete it from the state it was found in. |
| `WorkflowFates.InterruptedTaskNeverRuns` | agentManager/engine/state_manager.py:46-67 | A task found in a state from which IMPLEMENTING is illegal never reaches the sandbox, and no run succeeds that does not repair it. |
| `WorkflowFates.RunRaisesIff` | agentManager/runtime/workflow_coordinator.py:239-277 | A run raises exactly when in its last iteration a task is executed whose run fails, by its start state and answers, with recovery on and an empty workflow id, task id or error text: that of the checkpoint store, in the load or in the save after the failure. |
| `WorkflowFates.RunDoesNotRaise` | agentManager/runtime/workflow_coordinator.py:69-161 | So no run raises in which no execution of a task not restored can fail with recovery on and one of these texts empty. |
| `WorkflowCompletion.IterationMakesProgress` | agentManager/runtime/workflow_coordinator.py:89-113 | While a task is pending whose needs end done, an iteration starts at least one task, ends every task it starts, and brings none back: fewer are pending, whatever fails. |
| `WorkflowCompletion.ExecutedAndCompletedExactly` | agentManager/runtime/workflow_coordinator.py:71-161 | What a run does when some tasks fail: with room for one task, an iteration per task left, less clock time than the least retry limit times the backoff and no execution that raises, it executes exactly the tasks not restored of which everything below, as far down as no restored task stands between, ends done; and it completes exactly the restored ones and those executed that end done. |
| `WorkflowCompletion.AcyclicWorkflowCompletes` | agentManager/runtime/workflow_coordinator.py:71-161 | Whole-run success: from a clean or resumed start, with cap at least 1, an iteration per remaining task, every remaining task completable from the state it was found in, and less clock time than the least retry limit times the backoff, an acyclic workflow with mirrored dependencies ends with every task completed in all stores, reports success, raises nothing, and its execution order is topological. |
| `WorkflowCompletion.RunSucceedsIff` | agentManager/runtime/workflow_coordinator.py:71-161 | Under the same bounds a run succeeds exactly when every remaining task is accepted by the sandbox and may be implemented from the state it was found in, or is repaired and not in BLOCKED_HITL. |
| `WorkflowResumption.RestoringRaisesIff` | agentManager/runtime/workflow_coordinator.py:411-441 | Restoring raises exactly when a task still to run has a completed checkpoint but is in BLOCKED_HITL or unknown to the state machine. |
| `WorkflowResumption.RestoreAllIs` | agentManager/runtime/workflow_coordinator.py:411-441 | The restoring loop in closed form, task by task, in all stores. |
| `WorkflowResumption.RestoringLeaves` | agentManager/runtime/workflow_coordinator.py:411-441 | Where it does not raise, restoring completes in all stores exactly the tasks that are pending or running and have a completed checkpoint. |
| `WorkflowResumption.ResumedStartIsClean` | agentManager/runtime/workflow_coordinator.py:400-441 | Whatever checkpoints there are, restoring succeeds and the run starts clean, if no task with a completed checkpoint is in BLOCKED_HITL. |
| `WorkflowResumption.RestoredAreClosedIff` | agentManager/runtime/workflow_coordinator.py:411-441 | The restored tasks are closed under dependencies exactly when every completed checkpoint comes with one for each dependency. |
| `WorkflowResumption.ResumedWorkflowSucceedsIff` | agentManager/runtime/workflow_coordinator.py:400-441 | Resumed under a willing sandbox, whatever states the interrupted run left behind and whichever checkpoints there are, a workflow succeeds exactly when every task without a completed checkpoint is in a state from which IMPLEMENTING is legal, or is repaired and not in BLOCKED_HITL. |
| `WorkflowResumption.ResumedWorkflowCompletes` | agentManager/runtime/workflow_coordinator.py:400-441 | A resumed workflow that succeeds has completed every task in all stores and executed exactly the tasks without a completed checkpoint, each behind its dependencies that were not restored. |
| `WorkflowWitnesses.UnsavedRunSplitsStores` | agentManager/runtime/task_executor.py:220-227 | An input at which the stores split: an accepted run whose checkpoint is not saved ends COMPLETED in the state machine and failed in the scheduler. |
| `WorkflowWitnesses.BlankErrorRaises` | agentManager/runtime/workflow_coordinator.py:263-270 | An input at which a run raises: the load of the checkpoint fails with an error without text, and recovery is on. |
| `WorkflowWitnesses.InterruptedTaskFails` | agentManager/engine/state_manager.py:63-67 | A task that a stopped process left IMPLEMENTING fails when the workflow is resumed, without a sandbox call, though the sandbox would accept it. |
| `WorkflowWitnesses.CompletedWithoutCheckpointFails` | agentManager/runtime/task_executor.py:220-227 | A task left COMPLETED without a checkpoint is failed by the scheduler of the resumed run and stays COMPLETED in the state machine. |
| `WorkflowWitnesses.BlockedTaskWithCheckpointRaises` | agentManager/runtime/workflow_coordinator.py:432-437 | An input at which restoring raises: a completed checkpoint of a task in BLOCKED_HITL. |
| `WorkflowGaps.RunsWithoutIff` | agentManager/runtime/workflow_coordinator.py:411-441 | Some run executes task a without x ever completing exactly when neither is restored and no chain of tasks that are not restored leads from a down to x, or to a task in BLOCKED_HITL: so a task can run without something it depends on only where every chain of dependencies between them passes through a restored task. |
| `WorkflowWitnesses.CheckpointBreaksOrder` | agentManager/runtime/workflow_coordinator.py:411-441 | An input at which the order is broken: of three tasks in a row only the middle one has a checkpoint; resumed, the first fails, and the last, which depends on it, is executed and completed. |
| `Coordination.WorkflowCoordinator.RegisterMissingTasks` | agentManager/runtime/workflow_coordinator.py:163-173 | Every node becomes known to scheduler and state machine, and what they know already is kept. |
| `Coordination.WorkflowCoordinator.MarkReady` | agentManager/runtime/workflow_coordinator.py:175-183 | PENDING tasks of the list become READY, unknown ones are initialised first, others stay. |
| `Coordination.WorkflowCoordinator.ClearBackoffForReadyTasks` | agentManager/runtime/workflow_coordinator.py:185-191 | Backoff and attempts are cleared for exactly the pending tasks of the list. |
| `Coordination.WorkflowCoordinator.SyncSchedulerFailures` | agentManager/runtime/workflow_coordinator.py:297-308 | Every failure of the scheduler reaches graph and state machine; terminal ones are left alone; the order does not matter. |
| `Coordination.WorkflowCoordinator.SetFailedState` | agentManager/runtime/workflow_coordinator.py:310-318 | FAILED unless already COMPLETED, BLOCKED_HITL or FAILED. |
| `Coordination.WorkflowCoordinator.Dispatch` | agentManager/runtime/workflow_coordinator.py:90-94 | The first half of an iteration as specified; it raises exactly on a dangling dependency, before anything changes. |
| `Coordination.WorkflowCoordinator.MarkSchedulerPending` | agentManager/runtime/workflow_coordinator.py:279-289 | The task waits again with exactly one queue entry. |
| `Coordination.WorkflowCoordinator.RecoverFailedTask` | agentManager/runtime/workflow_coordinator.py:239-277 | Recovery with the context and choice of strategy of the coordinator, or none; it raises, before anything changes, exactly where the context cannot be built. |
| `Coordination.WorkflowCoordinator.ExecuteScheduledTask` | agentManager/runtime/workflow_coordinator.py:200-237 | One execution on the real engines leaves exactly the specified system, on all of its branches, the one that raises included. |
| `Coordination.WorkflowCoordinator.MainLoop` | agentManager/runtime/workflow_coordinator.py:88-117 | The main loop with its idle and iteration bounds is the specified run, up to the lookup or the execution that raises. |
| `Coordination.WorkflowCoordinator.RunWorkflow` | agentManager/runtime/workflow_coordinator.py:69-161 | A run on the real engines ends in the specified system with the specified result, and raises exactly where the specified run does. |
| `Coordination.WorkflowCoordinator.RestoreCompletedTasks` | agentManager/runtime/workflow_coordinator.py:411-441 | The restoring loop on the real engines, up to the task that makes it raise. |
| `Coordination.WorkflowCoordinator.ResumeWorkflow` | agentManager/runtime/workflow_coordinator.py:400-409 | Registering, restoring and running, as specified, with the specified result; it returns exactly when restoring and the run do. |
| `TaskPlans.UniqueIffCounts` | agentManager/domain/task_plan.py:102-103 | Comparing the number of distinct ids with the number of items decides uniqueness. |
| `TaskPlans.CollectDuplicates` | agentManager/domain/task_plan.py:104-109 | Collects exactly the repeated ids, each once. |
| `TaskPlans.ValidateDependencies` | agentManager/domain/task_plan.py:96-119 | Accepts exactly unique ids with resolved dependencies; otherwise names exactly the repeated ids or exactly the dangling references. |
| `TaskPlans.ValidateVerification` | agentManager/domain/task_plan.py:121-129 | Accepts exactly items that all have a verification; otherwise names exactly those without. |
| `TaskPlans.BuildItems` | agentManager/api.py:913-940 | The new items with the statuses kept by id; raises exactly for a malformed item. |
| `TaskPlans.StatusIsLast` | agentManager/api.py:914-925 | The status kept for an id is that of the last item with it, pending review without one. |
| `TaskPlans.InjectionKeepsMetadata` | agentManager/api.py:1057-1063 | Confirming overwrites no metadata of the user, and adds only agent_id, workdir and plan_id. |
| `TaskPlans.EveryInterleavingIsSound` | agentManager/api.py:809-1104 | Over every interleaving of create, update, check and commit: a confirmed plan has unique ids, resolved dependencies, verification everywhere and only confirmed items; an unconfirmed one has none; a plan is committed exactly once if confirmed, else never. |
| `TaskPlans.PlansAreAsRequested` | agentManager/api.py:809-1104 | Over every interleaving each plan is, item by item, what its own calls last created or replaced, with the metadata and the time last accepted; it is confirmed exactly if one of its calls passed both checks; and confirming keeps id, title, priority, dependencies, assignee, workdir, verification and the metadata of every item, and adds plan_id, and agent_id and workdir where the item has them. No plan depends on calls for another. |
| `TaskPlans.UpdateAcceptedIff` | agentManager/api.py:893-972 | An update is accepted exactly if the plan exists, is not confirmed, and new items are well formed, unique and resolved. |
| `TaskPlans.ConfirmedIsFrozen` | agentManager/api.py:893-1104 | No later step of any call changes a confirmed plan. |
| `TaskPlans.RejectedUpdateChangesNothingIff` | agentManager/api.py:911-944 | An update whose items do not validate replaces the items all the same: it changes nothing exactly when the items are malformed or are those already there. |
| `TaskPlans.FirstValidationIsNotEnough` | agentManager/api.py:975-1052 | Between check and commit a rejected update can leave an invalid draft, and the commit is then refused: the second validation is needed. |
| `TaskPlans.TaskPlanService.CreateTaskPlan` | agentManager/api.py:809-872 | Creates exactly a new, well-formed, resolved plan; otherwise nothing changes. |
| `TaskPlans.TaskPlanService.UpdateTaskPlan` | agentManager/api.py:893-972 | The specified update, with each error exactly when it is due. |
| `TaskPlans.TaskPlanService.CheckConfirmation` | agentManager/api.py:981-1010 | The first locked section passes exactly a plan that may be confirmed and changes no plan. |
| `TaskPlans.TaskPlanService.CommitConfirmation` | agentManager/api.py:1018-1090 | From the hook to the commit: succeeds exactly if the hook does not raise and the plan may be confirmed now. |
| `StableQueues.PushedInLine` | agentManager/scheduler/priority_queue.py:16-18 | Pushing with a new counter puts an entry behind everything of at least its priority: the heap acts as a stable line. |
| `StableQueues.PriorityQueue.Push` | agentManager/scheduler/priority_queue.py:16-18 | The item joins the line behind everything of at least its priority. |
| `StableQueues.PriorityQueue.Pop` | agentManager/scheduler/priority_queue.py:20-24 | The head of the line leaves; an empty queue is an error. |
| `StableQueues.PriorityQueue.Peek` | agentManager/scheduler/priority_queue.py:26-30 | The head of the line, unchanged. |
| `ResourceAllocation.TotalSplits` | agentManager/scheduler/resource_allocator.py:65-71 | The sum of all allocations may be taken apart at any task, so it does not depend on their order. |
| `ResourceAllocation.TotalSums` | agentManager/scheduler/resource_allocator.py:65-71 | It is the sum of each of the three resources, over every task, separately. |
| `ResourceAllocation.ResourceAllocator.GetAllocated` | agentManager/scheduler/resource_allocator.py:65-71 | The loop computes that sum for all three resources. |
| `ResourceAllocation.ResourceAllocator.Allocate` | agentManager/scheduler/resource_allocator.py:35-41 | Grants exactly a task that has nothing yet and for which each of the three sums stays within its total; a refusal changes nothing. |
| `ResourceAllocation.ResourceAllocator.Release` | agentManager/scheduler/resource_allocator.py:43-45 | Gives back exactly that task's resources; sums stay within the totals. |
| `ResourceScheduling.EveryRunKeepsQueue` | agentManager/scheduler/task_scheduler.py:29-94 | After any calls the queue holds exactly the scheduled tasks, one entry each, by falling priority and then by counter. |
| `ResourceScheduling.ExecutesPrefix` | agentManager/scheduler/task_scheduler.py:58-94 | One call executes exactly the longest prefix of the queue whose tasks are admitted and within the limit, reports it in order, leaves the rest in order but for a refused task, and restores all allocations. |
| `ResourceScheduling.AdmittedStaysWithin` | agentManager/scheduler/task_scheduler.py:73-77 | While an admitted task runs, the sums of all allocations are within the totals. |
| `ResourceScheduling.ListedIsListing` | agentManager/scheduler/task_scheduler.py:50-56 | get_scheduled_tasks lists exactly the scheduled tasks by falling priority, equals in insertion order. |
| `ResourceScheduling.ListingAgreesIff` | agentManager/scheduler/task_scheduler.py:50-94 | The listing is the order of execution exactly when the queue keeps equals in insertion order. |
| `ResourceScheduling.RefusalReordersIff` | agentManager/scheduler/task_scheduler.py:73-77 | A call that stops at a refused allocation, as the queue before it tells, breaks that agreement exactly when another task of the same priority waits: the refused one loses its place. |
| `ResourceScheduling.RefusedTaskIsListedFirst` | agentManager/scheduler/task_scheduler.py:50-94 | An input at which it does: two tasks of one priority, the first asking for more than there is. |
| `ResourceScheduling.TaskScheduler.Schedule` | agentManager/scheduler/task_scheduler.py:29-48 | A new task joins the queue; a known one is refused and nothing changes. |
| `ResourceScheduling.TaskScheduler.GetScheduledTasks` | agentManager/scheduler/task_scheduler.py:50-56 | Computes the listing. |
| `ResourceScheduling.TaskScheduler.ExecuteScheduled` | agentManager/scheduler/task_scheduler.py:58-94 | The loop over queue, allocator and executor is the specified execution, with the result or the error text of every task; it ends because the queue shrinks. |
| `Sorting.SortedAs` | agentManager/scheduler/task_scheduler.py:50-56 | Sorting by falling key permutes, orders and keeps equals in place. |
| `EngineeringMemories.JaccardMeans` | agentManager/memory/vector_backend.py:21-27 | A score is the share of the common tokens in all tokens of both: between 0 and 1, 0 exactly without a common token, 1 exactly for the same non-empty tokens, and symmetric. |
| `EngineeringMemories.SharesCompare` | agentManager/memory/vector_backend.py:21-27 | Scores compare as common tokens of the one times all tokens of the other, counted. |
| `EngineeringMemories.InMemoryVectorSearchBackend.Upsert` | agentManager/memory/vector_backend.py:70-74 | Sets the tokens of the key; a new key goes last, a known one keeps its place. |
| `EngineeringMemories.InMemoryVectorSearchBackend.Remove` | agentManager/memory/vector_backend.py:76-82 | Removes exactly that key; tells whether it was there. |
| `EngineeringMemories.WithoutSplits` | agentManager/memory/vector_backend.py:76-82 | The other keys keep their order. |
| `EngineeringMemories.InMemoryVectorSearchBackend.Query` | agentManager/memory/vector_backend.py:84-101 | Scores, filters, sorts and cuts, the negative limits of a slice included. |
| `EngineeringMemories.InMemoryVectorSearchBackend.Clear` | agentManager/memory/vector_backend.py:103-110 | Drops the namespace and counts its keys; an empty one stays. |
| `EngineeringMemories.IndexAgreesWithStoreIff` | agentManager/memory/engineering_memory.py:88-234 | After any sequence of put, delete and clear an indexed key is stored, and index and store agree about a key exactly when the last value put there since it was last deleted or cleared could be read; the row is committed before the value is read. |
| `EngineeringMemories.RunLeaves` | agentManager/memory/engineering_memory.py:88-234 | After any such sequence a key stores the last value put there, and is indexed with the tokens of the last readable one. |
| `EngineeringMemories.UnreadableValueKeepsOldScore` | agentManager/memory/engineering_memory.py:22-29 | An input at which they disagree: a value whose tags are null replaces a readable one, and search returns it under the score of the old value. |
| `EngineeringMemories.StoredNullIsDropped` | agentManager/memory/engineering_memory.py:185-199 | A stored null is found and then dropped: search returns nothing and does not fall back to the text match. |
| `EngineeringMemories.HitsAreBest` | agentManager/memory/vector_backend.py:84-101 | The hits are min(limit, matches) indexed keys, once each, with their shares as scores; ordered, and better than any match left out, by common tokens of the one times all tokens of the other; a key about which index and store agree is matched and scored by its stored value. |
| `EngineeringMemories.TiesKeepOrder` | agentManager/memory/vector_backend.py:84-101 | Hits of the same score come in the order in which their keys were indexed. |
| `EngineeringMemories.LargerShareComesFirst` | agentManager/memory/vector_backend.py:84-101 | An input that tells the share from other scores: of a key with one of its two tokens in common with the query and one with two of its five, the second comes first. |
| `EngineeringMemories.SearchesTextIff` | agentManager/memory/engineering_memory.py:146-183 | A search falls back to the text match exactly if nothing matches or the limit cuts all hits off. |
| `EngineeringMemories.HydratedSplits` | agentManager/memory/engineering_memory.py:185-199 | Hydrating keeps the order of the hits and drops exactly those whose value is missing or null. |
| `EngineeringMemories.SearchReturnsAllHitsIff` | agentManager/memory/engineering_memory.py:146-199 | After any calls every hit comes back with its stored value exactly when none of them is a stored null, which is found by its tokens and then dropped. |
| `EngineeringMemories.EngineeringMemory.PutValue` | agentManager/memory/engineering_memory.py:88-125 | An empty namespace or key is refused before anything changes; otherwise the row is stored, and the index follows unless reading the value raises, which is reported. |
| `EngineeringMemories.EngineeringMemory.GetValue` | agentManager/memory/engineering_memory.py:127-144 | The stored value; a stored null reads like a missing key. |
| `EngineeringMemories.EngineeringMemory.DeleteValue` | agentManager/memory/engineering_memory.py:201-218 | Removes from store and index; tells whether the store had it. |
| `EngineeringMemories.EngineeringMemory.ClearNamespace` | agentManager/memory/engineering_memory.py:220-234 | Empties the namespace in store and index and counts the rows. |
| `EngineeringMemories.EngineeringMemory.HydrateVectorResults` | agentManager/memory/engineering_memory.py:185-199 | The hits whose value is read back, in order. |
| `EngineeringMemories.EngineeringMemory.Search` | agentManager/memory/engineering_memory.py:146-183 | Ranked and hydrated hits, or the text match exactly when there is no hit. |

## Left out

- WorkflowSafety.DependencySafety: calls that the repair pipeline makes to the sandbox are not
  counted.
- WorkflowCompletion.AcyclicWorkflowCompletes: the bounds on clock and iterations are sufficient;
  when exactly a slower run still succeeds is not stated.
- Graphs.DetectCyclePath: the search is recursive, so a chain near the recursion limit of the
  interpreter raises RecursionError; the depth of the stack is not modelled.
- WorkflowCompletion.ExecutedAndCompletedExactly: whether a task ends done is taken not to depend on
  the iteration.
- WorkflowGaps.RunsWithoutIff: no task has the empty id, which requests for tasks refuse.
- WorkflowResumption.ResumedWorkflowSucceedsIff: repairs are taken not to depend on the iteration;
  `SuccessNeedsEveryTaskDone` has no such condition.
- TaskExecution.TaskExecutor.RunTask: of a context only status, retry count, error flag, checkpoint
  id and the number of interventions are kept; results, timings and other metadata are payload.
- EngineeringMemories.EngineeringMemory.Search: what the text match of the table returns (`ByText`)
  is not modelled.
- EngineeringMemories.EngineeringMemory.PutValue: a value that is no JSON raises before anything is
  stored; such values are not part of the model.
- Coordination.WorkflowCoordinator.RunWorkflow: one state machine serves executor, recovery and
  coordinator, as the application builds them; completed and failed tasks are sets, not lists.
- ResourceScheduling.TaskScheduler.ExecuteScheduled: the executor cannot schedule more work from
  inside.
- Events: only those a recovery publishes and those a replay reads; publishing is taken to succeed,
  and that the log of a later recovery holds them is its input. Events of tasks and workflows, audit
  records, logs, traces, metrics, hooks of a workflow run and memory write-back: no state here
  depends on them; memory writes are taken not to raise.
- Timestamps of transitions, `created_at` of plans and the payload fields of plans and items.
- Several objects sharing one list: dependency lists, items and contexts are values.
- Threads inside one engine: methods under a lock are atomic; only plan confirmation is interleaved.
  Overlapping puts and deletes of the memory are not modelled.
- `execute` of the task executor, sandbox, classifier of errors and repair pipeline: foreign
  answers.
- PostgreSQL, Redis, S3 and Qdrant clients; the SQLite index, whose ties are ordered by row;
  object-store checkpoints.
- `scheduler/resource_manager.py` repeats the allocator; `topological_sort` is library code and the
  order is proved of the run instead; `detect_deadlock` only wraps the cycle search.
- `from_subtasks` of task plans, request schemas and HTTP status codes: formatting and field checks.
- Reading tokens out of text, JSON round trips of stored values, `get_all`, `get_by_type` and
  statistics of the memory.
