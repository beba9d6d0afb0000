/** The coordinator over its engines: agentManager/runtime/workflow_coordinator.py. */
module Coordination {
  import opened Wrappers
  import opened TaskKeys
  import opened Dags
  import opened Scheduling
  import opened StateMachines
  import opened TaskExecution
  import opened Recovery
  import opened Workflow
  import opened WorkflowSteps
  import opened WorkflowProgress
  import opened WorkflowResumption

  datatype RunResult = RunResult(success: bool, completed: set<TaskId>, failed: set<TaskId>)

  // ---------- Steps of the loops ----------

  lemma ClearedOneMore(s: Sched, ids: seq<TaskId>, id: TaskId)
    ensures Cleared(s, ids + [id]).tasks == ClearedTasks(ClearedTasks(s.tasks, ids), [id])
  {
  }

  class WorkflowCoordinator {
    const dagEngine: DagEngine
    const scheduler: SchedulerEngine
    const taskExecutor: TaskExecutor
    const recoveryEngine: RecoveryEngine?
    const maxIterations: int
    const allowDefectRepair: bool

    /** Sandbox calls per task, and the tasks handed to the executor, in order. */
    ghost var calls: map<TaskId, nat>
    ghost var log: seq<TaskId>
    /** The tasks restored from checkpoints. */
    ghost var restored: set<TaskId>
    /** An exception has ended the last run. */
    ghost var raised: bool

    ghost function States(): States
      reads taskExecutor.stateMachine, taskExecutor.stateMachine.repository
    {
      taskExecutor.stateMachine.Known()
    }

    ghost function View(): System
      reads this, dagEngine, scheduler, taskExecutor.stateMachine, taskExecutor.stateMachine.repository
    {
      System(dagEngine.View(), scheduler.View(), States(), calls, log, restored, raised)
    }

    ghost function Cfg(): Config {
      Config(taskExecutor.maxRetries, maxIterations, recoveryEngine != null, allowDefectRepair)
    }

    ghost predicate Valid()
      reads dagEngine, scheduler
    {
      && dagEngine.Valid() && scheduler.Valid()
      && (recoveryEngine != null ==> recoveryEngine.taskExecutor == taskExecutor)
    }

    ghost function Footprint(): set<object> {
      {this, dagEngine, scheduler, taskExecutor} + taskExecutor.stateMachine.Footprint()
      + (if recoveryEngine == null then {} else {recoveryEngine})
    }

    constructor (dagEngine: DagEngine, scheduler: SchedulerEngine, taskExecutor: TaskExecutor,
                 recoveryEngine: RecoveryEngine?, maxIterations: int, allowDefectRepair: bool)
      requires dagEngine.Valid() && scheduler.Valid()
      requires recoveryEngine != null ==> recoveryEngine.taskExecutor == taskExecutor
      ensures Valid() && this.dagEngine == dagEngine && this.scheduler == scheduler
      ensures this.taskExecutor == taskExecutor && this.recoveryEngine == recoveryEngine
      ensures Cfg() == Config(taskExecutor.maxRetries, maxIterations, recoveryEngine != null, allowDefectRepair)
      ensures calls == map[] && log == [] && restored == {} && !raised
    {
      this.dagEngine, this.scheduler, this.taskExecutor := dagEngine, scheduler, taskExecutor;
      this.recoveryEngine, this.maxIterations := recoveryEngine, maxIterations;
      this.allowDefectRepair := allowDefectRepair;
      calls, log, restored, raised := map[], [], {}, false;
    }

    // ---------- Registration ----------

    method RegisterTask(id: TaskId)
      requires Valid() && id in dagEngine.nodes
      modifies scheduler, taskExecutor.stateMachine.Footprint()
      ensures Valid() && View() == RegisterOne(old(View()), id)
      ensures var known, node := old(scheduler.tasks), dagEngine.nodes[id];
        scheduler.tasks == if id in known then known
                           else known[id := Task(node.priority, TaskPending, node.dependencies, None, 0, 3, [])]
      ensures States() == if id in old(States()) then old(States()) else old(States())[id := Pending]
    {
      hide StateMachine.Known;
      if id !in scheduler.tasks {
        var node := dagEngine.nodes[id];
        var _ := scheduler.AddTask(id, node.priority, node.dependencies, DEFAULT_MAX_RETRY_ATTEMPTS);
      }
      taskExecutor.EnsureInitialized(id);
    }

    method RegisterMissingTasks()
      requires Valid()
      modifies scheduler, taskExecutor.stateMachine.Footprint()
      ensures Valid() && View() == RegisterAll(old(View()), dagEngine.order)
    {
      hide StateMachine.Known, RegisterOne;
      var order := dagEngine.order;
      for i := 0 to |order|
        invariant Valid() && View() == RegisterAll(old(View()), order[..i])
      {
        assert order[..i + 1][..i] == order[..i];
        RegisterTask(order[i]);
      }
      assert order[..|order|] == order;
    }

    // ---------- The parts of a dispatch ----------

    method MarkReady(ready: seq<TaskId>)
      modifies taskExecutor.stateMachine.Footprint()
      ensures States() == MarkReadyAll(old(States()), ready)
    {
      hide StateMachine.Known, Moved;
      for i := 0 to |ready|
        invariant States() == MarkReadyAll(old(States()), ready[..i])
      {
        assert ready[..i + 1][..i] == ready[..i];
        taskExecutor.EnsureInitialized(ready[i]);
        var current := taskExecutor.stateMachine.GetState(ready[i]);
        if current == Some(Pending) {
          var _ := taskExecutor.stateMachine.TransitionTo(ready[i], Ready, "Dependencies satisfied");
        }
      }
      assert ready[..|ready|] == ready;
    }

    method ClearBackoffForReadyTasks(ready: seq<TaskId>)
      modifies scheduler`tasks
      ensures scheduler.View() == Cleared(old(scheduler.View()), ready)
      ensures var before := old(scheduler.tasks);
        scheduler.tasks == map id | id in before ::
          if id in ready && before[id].status == TaskPending then before[id].(nextRetryAt := None, retryAttempts := 0)
          else before[id]
    {
      assert ClearedTasks(scheduler.tasks, []) == scheduler.tasks;
      for i := 0 to |ready|
        invariant scheduler.tasks == ClearedTasks(old(scheduler.tasks), ready[..i])
      {
        ghost var before := scheduler.tasks;
        assert ready[..i + 1] == ready[..i] + [ready[i]];
        ClearedOneMore(old(scheduler.View()), ready[..i], ready[i]);
        var id := ready[i];
        if id in scheduler.tasks && scheduler.tasks[id].status == TaskPending {
          scheduler.tasks := scheduler.tasks[id := scheduler.tasks[id].(nextRetryAt := None, retryAttempts := 0)];
        }
        assert scheduler.tasks == ClearedTasks(before, [id]);
      }
      assert ready[..|ready|] == ready;
    }

    method SetFailedState(id: TaskId)
      modifies taskExecutor.stateMachine.Footprint()
      ensures States() == Workflow.SetFailedState(old(States()), id)
      ensures var known := old(States());
        States() == known[id := if id in known && known[id] in {Completed, BlockedHitl} then known[id] else Failed]
    {
      hide StateMachine.Known, Moved;
      taskExecutor.EnsureInitialized(id);
      var current := taskExecutor.stateMachine.GetState(id);
      if current != Some(Completed) && current != Some(BlockedHitl) && current != Some(Failed) {
        var _ := taskExecutor.stateMachine.TransitionTo(id, Failed, "Scheduler marked task as failed");
      }
    }

    /** The loop body for one task. */
    method SyncSchedulerFailure(id: TaskId)
      requires Valid() && id in scheduler.tasks
      modifies dagEngine, taskExecutor.stateMachine.Footprint()
      ensures Valid() && View() == SyncOne(old(View()), id)
    {
      hide StateMachine.Known, Workflow.SetFailedState, WellFormed;
      if scheduler.tasks[id].status == TaskFailed {
        var node := dagEngine.GetNode(id);
        if node.Some? {
          if node.value.status != NodeCompleted && node.value.status != NodeFailed {
            var _ := dagEngine.UpdateNodeStatus(id, NodeFailed);
          } else {
            assert dagEngine.nodes[id := dagEngine.nodes[id]] == dagEngine.nodes;
          }
        }
        SetFailedState(id);
      }
    }

    method SyncSchedulerFailures()
      requires Valid()
      modifies dagEngine, taskExecutor.stateMachine.Footprint()
      ensures Valid() && View() == Synced(old(View()), old(scheduler.tasks.Keys))
    {
      hide StateMachine.Known, SyncOne, Synced, DagEngine.Valid, SchedulerEngine.Valid;
      SyncNone(View());
      var todo := scheduler.tasks.Keys;
      ghost var seen: set<TaskId> := {};
      while todo != {}
        invariant Valid() && todo + seen == scheduler.tasks.Keys && todo !! seen
        invariant View() == Synced(old(View()), seen)
        decreases |todo|
      {
        var id :| id in todo;
        SyncOneMore(old(View()), seen, id);
        SyncSchedulerFailure(id);
        todo, seen := todo - {id}, seen + {id};
      }
      assert seen == scheduler.tasks.Keys;
    }

    /** The first half of an iteration; false is the KeyError of `get_ready_nodes`. */
    method Dispatch(now: Clock) returns (ok: bool)
      requires Valid()
      modifies dagEngine, scheduler, taskExecutor.stateMachine.Footprint()
      ensures Valid() && (ok <==> !LookupFails(old(dagEngine.View())))
      ensures View() == if ok then Dispatched(old(View()), now) else old(View())
    {
      hide StateMachine.Known, Synced, MarkReadyAll, Cleared, Pass, WellFormed, Dangling;
      var ready := dagEngine.GetReadyNodes();
      if ready.None? {
        return false;
      }
      MarkReady(ready.value);
      ClearBackoffForReadyTasks(ready.value);
      scheduler.ExecuteScheduledTasks(now);
      SyncSchedulerFailures();
      return true;
    }

    // ---------- Executing a task ----------

    method MarkSchedulerPending(id: TaskId)
      requires scheduler.Valid()
      modifies scheduler
      ensures scheduler.Valid() && scheduler.View() == Requeued(old(scheduler.View()), id)
      ensures id in old(scheduler.tasks) ==>
        var before := old(scheduler.tasks)[id];
        scheduler.tasks == old(scheduler.tasks)[
          id := before.(status := TaskPending, nextRetryAt := None, retryAttempts := 0)]
      ensures scheduler.runningTasks == (if id in old(scheduler.tasks) then old(scheduler.runningTasks) - {id}
                                         else old(scheduler.runningTasks))
    {
      if id !in scheduler.tasks {
        return;
      }
      var task := scheduler.tasks[id];
      scheduler.tasks := scheduler.tasks[id := task.(status := TaskPending, nextRetryAt := None, retryAttempts := 0)];
      scheduler.runningTasks := scheduler.runningTasks - {id};
      var queued := exists k :: k in scheduler.executionQueue && k.id == id;
      assert queued <==> HasEntry(multiset(scheduler.executionQueue), id) by {
        assert forall k :: k in scheduler.executionQueue <==> k in multiset(scheduler.executionQueue);
      }
      if !queued {
        scheduler.Push(Key(-task.priority, id));
      }
    }

    /** The recovery context is built before the `try` around the recovery. */
    ghost predicate CanBuild(id: TaskId, input: ExecInput, error: string) {
      recoveryEngine != null ==> ContextBuilds(id, input.workflowId, error)
    }

    /** `_recover_failed_task`; `ok` is false where building the context raises. */
    method RecoverFailedTask(id: TaskId, input: ExecInput, error: string) returns (ok: bool, recovered: bool)
      requires Valid() && id in taskExecutor.taskRegistry && taskExecutor.taskRegistry[id] == input.code
      modifies Footprint() - {this, dagEngine, scheduler}
      ensures ok <==> CanBuild(id, input, error)
      ensures ok ==> Outcome(States(), recovered) == RecoveryOf(old(States()), id, input, Cfg())
      ensures ok && recoveryEngine == null ==> taskExecutor.executionContexts == old(taskExecutor.executionContexts)
      ensures ok && recoveryEngine != null ==>
        taskExecutor.executionContexts ==
        ContextsAfter(old(taskExecutor.executionContexts), old(States()), ContextFor(id, input, Cfg()),
                      Some(input.code), input.recovery, Cfg().maxRetries)
      ensures ok && recoveryEngine != null ==>
        var history := recoveryEngine.recoveryHistory;
        && id in history && history[id] != []
        && var ctx := history[id][|history[id]| - 1];
        && ctx.taskId == id && ctx.failureType == input.failure && ctx.retryCount == 0
        && ctx.strategy == Some(match input.failure
                                case TimeoutFailure => Retry
                                case NetworkFailure => EventReplay
                                case SyntaxFailure => Hitl
                                case UnknownFailure => Escalate
                                case RuntimeFailure => if input.recovery.pipeline.Some? && allowDefectRepair
                                                       then DefectRepair else SnapshotRestore)
        && ctx.eventId == "" && ctx.checkpointId == ""
      ensures !ok ==> States() == old(States())
    {
      hide StateMachine.Known, Recovered, ContextsAfter, Published;
      if recoveryEngine == null {
        return true, false;
      }
      var strategy := SelectStrategy(input.failure);
      if input.failure == RuntimeFailure && input.recovery.pipeline.Some? && allowDefectRepair {
        strategy := DefectRepair;
      }
      if id == "" || input.workflowId == "" || error == "" {
        return false, false;
      }
      recovered := recoveryEngine.ExecuteRecovery(
        RecoveryContext(id, input.failure, Some(strategy), 0, "", ""), input.recovery);
      ok := true;
    }

    method Complete(id: TaskId)
      requires Valid()
      modifies dagEngine, scheduler
      ensures Valid() && scheduler.View() == Finished(old(scheduler.View()), id)
      ensures dagEngine.View() == WithStatus(old(dagEngine.View()), id, NodeCompleted)
    {
      hide WellFormed;
      var _ := scheduler.MarkCompleted(id);
      var _ := dagEngine.UpdateNodeStatus(id, NodeCompleted);
    }

    method Abandon(id: TaskId)
      requires Valid()
      modifies dagEngine, scheduler, taskExecutor.stateMachine.Footprint()
      ensures Valid() && scheduler.View() == Dropped(old(scheduler.View()), id)
      ensures dagEngine.View() == WithStatus(old(dagEngine.View()), id, NodeFailed)
      ensures States() == Workflow.SetFailedState(old(States()), id)
    {
      hide WellFormed, StateMachine.Known, Workflow.SetFailedState;
      var _ := scheduler.MarkFailed(id);
      var _ := dagEngine.UpdateNodeStatus(id, NodeFailed);
      SetFailedState(id);
    }

    method TryAgain(id: TaskId)
      requires Valid()
      modifies dagEngine, scheduler
      ensures Valid() && scheduler.View() == Requeued(old(scheduler.View()), id)
      ensures dagEngine.View() == WithStatus(old(dagEngine.View()), id, NodePending)
    {
      hide WellFormed, Requeued;
      MarkSchedulerPending(id);
      var _ := dagEngine.UpdateNodeStatus(id, NodePending);
    }

    /** What the coordinator makes of a recovery. */
    method ConcludeRecovery(id: TaskId, recovered: bool)
      requires Valid()
      modifies dagEngine, scheduler, taskExecutor.stateMachine.Footprint()
      ensures Valid()
      ensures var s, outcome := old(View()), Outcome(old(States()), recovered);
        View() == Settled(s, outcome, VerdictOf(RunOutcome(s.states, 0, false), outcome, id), id)
    {
      hide WellFormed, StateMachine.Known, Workflow.SetFailedState, Requeued, Finished, Dropped, WithStatus;
      if recovered {
        var state := taskExecutor.stateMachine.GetState(id);
        if state == Some(Completed) {
          Complete(id);
          return;
        }
        if state == Some(Ready) {
          TryAgain(id);
          return;
        }
      }
      Abandon(id);
    }

    /** The `except` branch; false where it raises. */
    method AfterFailure(id: TaskId, input: ExecInput, error: string) returns (ok: bool)
      requires Valid() && id in taskExecutor.taskRegistry && taskExecutor.taskRegistry[id] == input.code
      modifies Footprint() - {this}
      ensures Valid() && (ok <==> CanBuild(id, input, error))
      ensures ok ==>
        var s := old(View());
        var recovered := RecoveryOf(s.states, id, input, Cfg());
        View() == Settled(s, recovered, VerdictOf(RunOutcome(s.states, 0, false), recovered, id), id)
      ensures !ok ==> View() == old(View())
    {
      hide WellFormed, StateMachine.Known, Settled, VerdictOf, RecoveryOf;
      ghost var before := View();
      var recovered;
      ok, recovered := RecoverFailedTask(id, input, error);
      if ok {
        SettledForgets(before, States(), Outcome(States(), recovered), id);
        ConcludeRecovery(id, recovered);
      }
    }

    /** The `try` statement: the run, and what follows from it. */
    method RunAndSettle(id: TaskId, input: ExecInput) returns (ok: bool, spent: nat, ghost more: nat)
      requires Valid() && id in dagEngine.nodes
      modifies Footprint() - {this}
      ensures Valid()
      ensures var s := old(View());
        var ran := RunOf(s.states, id, input.run, Cfg().maxRetries);
        var recovered := if ran.succeeded then Outcome(ran.states, true) else RecoveryOf(ran.states, id, input, Cfg());
        && spent == ran.calls && (ok <==> !Raises(s.states, id, input, Cfg()))
        && (ok ==> View() == Settled(s, recovered, VerdictOf(ran, recovered, id), id))
        && (ok ==> more == if ran.succeeded then 0 else RecoveryCalls(ran.states, id, input, Cfg()))
        && (!ok ==> View() == s.(dag := WithStatus(s.dag, id, NodeRunning), states := ran.states) && more == 0)
    {
      hide DagEngine.Valid, SchedulerEngine.Valid, StateMachine.Known, Settled, VerdictOf, Finished, WithStatus,
        RecoveryOf, RecoveryCalls, RunOf, ErrorOf, ContextBuilds;
      ghost var before := View();
      var succeeded, error;
      succeeded, spent, error := StartAndRun(id, input);
      ghost var ran := View();
      more := if succeeded || !CanBuild(id, input, error) then 0 else RecoveryCalls(States(), id, input, Cfg());
      if succeeded {
        Complete(id);
        ok := true;
        SettledAsDone(before, ran, View(), id, spent);
      } else {
        ok := AfterFailure(id, input, error);
        SettledAfterFailure(before, ran, RecoveryOf(ran.states, id, input, Cfg()), id, spent);
      }
    }

    /** The node is marked running, then the task is run. */
    method StartAndRun(id: TaskId, input: ExecInput) returns (succeeded: bool, spent: nat, error: string)
      requires Valid() && id in dagEngine.nodes
      modifies Footprint() - {this, scheduler}
      ensures Valid()
      ensures View() == old(View()).(dag := WithStatus(old(View()).dag, id, NodeRunning), states := States())
      ensures RunOutcome(States(), spent, succeeded) == RunOf(old(States()), id, input.run, Cfg().maxRetries)
      ensures !succeeded ==> error == ErrorOf(old(States()), id, input.run, Cfg().maxRetries)
      ensures id in taskExecutor.taskRegistry && taskExecutor.taskRegistry[id] == input.code
    {
      hide WellFormed, SchedulerEngine.Valid, StateMachine.Known, RunOf, ErrorOf;
      var _ := dagEngine.UpdateNodeStatus(id, NodeRunning);
      succeeded, spent, error := taskExecutor.RunTask(id, input.code, input.run);
    }

    /** A task with a node, and the record of its execution. */
    method ExecuteNode(id: TaskId, input: ExecInput) returns (ok: bool)
      requires Valid() && !raised && id in dagEngine.nodes
      modifies Footprint()
      ensures Valid() && View() == Executed(old(View()), id, input, Cfg()) && (ok <==> !raised)
    {
      hide WellFormed, StateMachine.Known, Executed, Settled, RecoveryOf, RecoveryCalls, RunOf, VerdictOf, Raises,
        WithStatus, DagEngine.Valid, SchedulerEngine.Valid;
      ghost var before := View();
      var spent;
      ghost var more;
      ok, spent, more := RunAndSettle(id, input);
      ghost var settled := View();
      calls := calls[id := CallsOf(calls, id) + spent + more];
      log := log + [id];
      raised := !ok;
      RecordedExecution(before, settled, View(), id, input, Cfg(), ok, spent, more);
    }

    /** `_execute_scheduled_task`, within a run that has not raised; false where it raises. */
    method ExecuteScheduledTask(id: TaskId, input: ExecInput) returns (ok: bool)
      requires Valid() && !raised
      modifies Footprint()
      ensures Valid() && View() == Executed(old(View()), id, input, Cfg()) && (ok <==> !raised)
    {
      hide WellFormed, StateMachine.Known, Executed, Dropped;
      var node := dagEngine.GetNode(id);
      if node.Some? {
        ok := ExecuteNode(id, input);
      } else {
        ExecutedUnknown(View(), id, input, Cfg());
        var _ := scheduler.MarkFailed(id);
        ok := true;
      }
    }

    // ---------- The main loop ----------

    /** The running tasks in order, up to one that raises. */
    method ExecuteRunning(ids: seq<TaskId>, i: nat, env: Env) returns (ok: bool)
      requires Valid() && !raised
      modifies Footprint()
      ensures Valid() && View() == ExecutedAll(old(View()), ids, i, env, Cfg()) && (ok <==> !raised)
    {
      hide WellFormed, StateMachine.Known, Executed;
      for k := 0 to |ids|
        invariant Valid() && View() == ExecutedAll(old(View()), ids[..k], i, env, Cfg()) && !raised
      {
        assert ids[..k + 1][..k] == ids[..k];
        ok := ExecuteScheduledTask(ids[k], env.input(i, ids[k]));
        if !ok {
          NothingAfterRaise(old(View()), ids, k + 1, i, env, Cfg());
          return;
        }
      }
      assert ids[..|ids|] == ids;
      return true;
    }

    method AllTasksTerminal() returns (r: bool)
      ensures r == AllTerminal(scheduler.tasks)
    {
      r := forall id :: id in scheduler.tasks ==> scheduler.tasks[id].status in {TaskCompleted, TaskFailed};
    }

    /** The main loop of `run_workflow`; false where a lookup in `get_ready_nodes` or an
        execution raises. */
    method MainLoop(env: Env) returns (ok: bool)
      requires Valid() && !raised
      modifies Footprint()
      ensures Valid() && View() == Looped(old(View()), 0, 0, env, Cfg()) && (ok <==> !raised)
    {
      hide WellFormed, StateMachine.Known, Dispatched, ExecutedAll, AllTerminal, LookupFails;
      var idle, i := 0, 0;
      while i < maxIterations
        invariant Valid() && 0 <= i && 0 <= idle && !raised
        invariant Looped(View(), i, idle, env, Cfg()) == Looped(old(View()), 0, 0, env, Cfg())
      {
        ok := Dispatch(env.clock(i));
        if !ok {
          raised := true;
          return;
        }
        var terminal;
        if scheduler.runningTasks == {} {
          terminal := AllTasksTerminal();
          idle := idle + 1;
          if terminal || idle > 2 {
            return true;
          }
        } else {
          ok := ExecuteRunning(env.order(i, scheduler.runningTasks), i, env);
          if !ok {
            return;
          }
          terminal := AllTasksTerminal();
          idle := 0;
          if terminal {
            return true;
          }
        }
        i := i + 1;
      }
      return true;
    }

    /** `run_workflow`: a run as specified by `Run`; None where it raises. */
    method RunWorkflow(env: Env) returns (r: Option<RunResult>)
      requires Valid()
      modifies Footprint()
      ensures Valid() && View() == Run(old(View()).(raised := false), env, Cfg())
      ensures r.None? <==> raised
      ensures r.Some? ==>
        r.value == RunResult(Succeeds(scheduler.tasks), WithRunStatus(scheduler.tasks, TaskCompleted),
                             WithRunStatus(scheduler.tasks, TaskFailed))
      ensures r.Some? ==>
        && (r.value.success <==> forall id :: id in scheduler.tasks ==> scheduler.tasks[id].status == TaskCompleted)
        && (forall id :: id in r.value.completed <==>
              id in scheduler.tasks && scheduler.tasks[id].status == TaskCompleted)
        && (forall id :: id in r.value.failed <==> id in scheduler.tasks && scheduler.tasks[id].status == TaskFailed)
    {
      hide WellFormed, StateMachine.Known, Looped, RegisterAll, Dangling;
      raised := false;
      RegisterMissingTasks();
      var ok := MainLoop(env);
      if !ok {
        return None;
      }
      var tasks := scheduler.tasks;
      SucceedsMeansAllCompleted(tasks);
      var completed := set id | id in tasks && tasks[id].status == TaskCompleted;
      var failed := set id | id in tasks && tasks[id].status == TaskFailed;
      return Some(RunResult(failed == {} && |completed| == |tasks|, completed, failed));
    }

    // ---------- Resuming ----------

    /** The loop body of `_restore_completed_tasks_from_checkpoints`; false where it raises. */
    method RestoreTask(id: TaskId, load: Load) returns (ok: bool)
      requires Valid()
      modifies this`restored, dagEngine, scheduler, taskExecutor.stateMachine.Footprint()
      ensures Valid() && Resumption(View(), ok) == RestoreOne(old(View()), id, load)
    {
      hide StateMachine.Known, StateMachine.View, Finished, WithStatus, DagEngine.Valid, SchedulerEngine.Valid, Moved;
      if id !in scheduler.tasks {
        return true;
      }
      if scheduler.tasks[id].status == TaskCompleted || scheduler.tasks[id].status == TaskFailed {
        return true;
      }
      if !load.Found? || load.context.status != ContextCompleted {
        return true;
      }
      restored := restored + {id};
      Complete(id);
      var current := taskExecutor.stateMachine.GetState(id);
      if current == Some(Completed) {
        return true;
      }
      var moved := taskExecutor.stateMachine.TransitionTo(id, Completed, "Restored from checkpoint");
      ok := moved.Ok?;
    }

    /** `ids`: the scheduler's tasks in the order of its dictionary. */
    method RestoreCompletedTasks(ids: seq<TaskId>, loads: Checkpoints) returns (ok: bool)
      requires Valid()
      modifies this`restored, dagEngine, scheduler, taskExecutor.stateMachine.Footprint()
      ensures Valid() && Resumption(View(), ok) == RestoreAll(old(View()), ids, loads)
    {
      hide StateMachine.Known, RestoreOne, DagEngine.Valid, SchedulerEngine.Valid;
      for i := 0 to |ids|
        invariant Valid() && Resumption(View(), true) == RestoreAll(old(View()), ids[..i], loads)
      {
        assert ids[..i + 1][..i] == ids[..i];
        ok := RestoreTask(ids[i], loads(ids[i]));
        if !ok {
          StaysRaised(old(View()), ids, i + 1, loads);
          return;
        }
      }
      assert ids[..|ids|] == ids;
      return true;
    }

    /** `resume_workflow`: it returns exactly when restoring and the run that follows return. */
    method ResumeWorkflow(ids: seq<TaskId>, loads: Checkpoints, env: Env) returns (r: Option<RunResult>)
      requires Valid()
      modifies Footprint()
      ensures Valid()
      ensures var registered := RegisterAll(old(View()).(raised := false), old(dagEngine.order));
        var resumption := RestoreAll(registered, ids, loads);
        && (resumption.ok ==> View() == Run(resumption.sys, env, Cfg()))
        && (!resumption.ok ==> View() == resumption.sys.(raised := true))
        && (r.Some? <==> resumption.ok && !raised)
      ensures r.Some? ==>
        r.value == RunResult(Succeeds(scheduler.tasks), WithRunStatus(scheduler.tasks, TaskCompleted),
                             WithRunStatus(scheduler.tasks, TaskFailed))
      ensures r.Some? ==>
        && (r.value.success <==> forall id :: id in scheduler.tasks ==> scheduler.tasks[id].status == TaskCompleted)
        && (forall id :: id in r.value.completed <==>
              id in scheduler.tasks && scheduler.tasks[id].status == TaskCompleted)
        && (forall id :: id in r.value.failed <==> id in scheduler.tasks && scheduler.tasks[id].status == TaskFailed)
    {
      hide StateMachine.Known, RestoreAll, RegisterAll, Run, DagEngine.Valid, SchedulerEngine.Valid, Succeeds,
        WithRunStatus;
      raised := false;
      RegisterMissingTasks();
      ghost var registered := View();
      RestoringKeepsRaised(registered, ids, loads);
      var ok := RestoreCompletedTasks(ids, loads);
      if !ok {
        raised := true;
        return None;
      }
      assert View().(raised := false) == View();
      r := RunWorkflow(env);
    }
  }

  lemma RestoringKeepsRaised(sys: System, ids: seq<TaskId>, loads: Checkpoints)
    ensures RestoreAll(sys, ids, loads).sys.raised == sys.raised
  {
    RestoreAllFrame(sys, ids, loads);
  }

  /** Nothing follows a task that raises. */
  lemma {:induction false} NothingAfterRaise(sys: System, ids: seq<TaskId>, n: nat, i: nat, env: Env, cfg: Config)
    requires n <= |ids| && ExecutedAll(sys, ids[..n], i, env, cfg).raised
    ensures ExecutedAll(sys, ids, i, env, cfg) == ExecutedAll(sys, ids[..n], i, env, cfg)
    decreases |ids|
  {
    hide Executed;
    if n == |ids| {
      assert ids[..n] == ids;
    } else {
      var shorter := ids[..|ids| - 1];
      assert shorter[..n] == ids[..n];
      NothingAfterRaise(sys, shorter, n, i, env, cfg);
    }
  }

  /** The RUNNING mark leaves no trace behind the status that follows it. */
  lemma SettledFromRunning(before: System, ran: System, recovered: Outcome, verdict: Verdict, id: TaskId)
    requires id in before.dag.nodes
    requires ran == before.(dag := WithStatus(before.dag, id, NodeRunning), states := ran.states)
    ensures Settled(ran, recovered, verdict, id) == Settled(before, recovered, verdict, id)
  {
    hide Finished, Requeued, Dropped, Workflow.SetFailedState;
    var d := before.dag;
    forall status ensures WithStatus(WithStatus(d, id, NodeRunning), id, status) == WithStatus(d, id, status) {
      assert WithStatus(WithStatus(d, id, NodeRunning), id, status).nodes == WithStatus(d, id, status).nodes;
    }
  }

  lemma SettledAsDone(before: System, ran: System, after: System, id: TaskId, spent: nat)
    requires id in before.dag.nodes
    requires ran == before.(dag := WithStatus(before.dag, id, NodeRunning), states := ran.states)
    requires after == ran.(sched := Finished(ran.sched, id), dag := WithStatus(ran.dag, id, NodeCompleted))
    ensures after == Settled(before, Outcome(ran.states, true),
                             VerdictOf(RunOutcome(ran.states, spent, true), Outcome(ran.states, true), id), id)
  {
    SettledFromRunning(before, ran, Outcome(ran.states, true), TaskDone, id);
    hide Finished, WithStatus;
  }

  lemma SettledAfterFailure(before: System, ran: System, recovered: Outcome, id: TaskId, spent: nat)
    requires id in before.dag.nodes
    requires ran == before.(dag := WithStatus(before.dag, id, NodeRunning), states := ran.states)
    ensures Settled(ran, recovered, VerdictOf(RunOutcome(ran.states, 0, false), recovered, id), id)
      == Settled(before, recovered, VerdictOf(RunOutcome(ran.states, spent, false), recovered, id), id)
  {
    SettledFromRunning(before, ran, recovered, VerdictOf(RunOutcome(ran.states, 0, false), recovered, id), id);
    hide Settled;
  }

  /** A verdict replaces the states. */
  lemma SettledForgets(s: System, states: States, recovered: Outcome, id: TaskId)
    ensures Settled(s.(states := states), recovered, VerdictOf(RunOutcome(states, 0, false), recovered, id), id)
      == Settled(s, recovered, VerdictOf(RunOutcome(s.states, 0, false), recovered, id), id)
  {
    hide Finished, Requeued, Dropped, WithStatus, Workflow.SetFailedState;
  }

  lemma RecordedExecution(before: System, settled: System, after: System, id: TaskId, input: ExecInput, cfg: Config,
                          ok: bool, spent: nat, more: nat)
    requires id in before.dag.nodes && !before.raised
    requires var ran := RunOf(before.states, id, input.run, cfg.maxRetries);
      var recovered := if ran.succeeded then Outcome(ran.states, true) else RecoveryOf(ran.states, id, input, cfg);
      && spent == ran.calls && (ok <==> !Raises(before.states, id, input, cfg))
      && (ok ==> settled == Settled(before, recovered, VerdictOf(ran, recovered, id), id))
      && (ok ==> more == if ran.succeeded then 0 else RecoveryCalls(ran.states, id, input, cfg))
      && (!ok ==> settled == before.(dag := WithStatus(before.dag, id, NodeRunning), states := ran.states) && more == 0)
    requires after == settled.(calls := settled.calls[id := CallsOf(settled.calls, id) + spent + more],
                               log := settled.log + [id], raised := !ok)
    ensures after == Executed(before, id, input, cfg)
  {
    hide *;
    var ran := RunOf(before.states, id, input.run, cfg.maxRetries);
    var recovered := if ran.succeeded then Outcome(ran.states, true) else RecoveryOf(ran.states, id, input, cfg);
    ExecutedIsSettled(before, id, input, cfg);
    SettledKeepsRecord(before, recovered, VerdictOf(ran, recovered, id), id);
  }

  lemma SettledKeepsRecord(s: System, recovered: Outcome, verdict: Verdict, id: TaskId)
    ensures var r := Settled(s, recovered, verdict, id);
      r.calls == s.calls && r.log == s.log && r.raised == s.raised && r.restored == s.restored
  {
  }

  lemma ExecutedUnknown(sys: System, id: TaskId, input: ExecInput, cfg: Config)
    requires id !in sys.dag.nodes && !sys.raised
    ensures Executed(sys, id, input, cfg) == sys.(sched := Dropped(sys.sched, id))
  {
  }

  lemma {:induction false} StaysRaised(sys: System, ids: seq<TaskId>, n: nat, loads: Checkpoints)
    requires n <= |ids| && !RestoreAll(sys, ids[..n], loads).ok
    ensures RestoreAll(sys, ids, loads) == RestoreAll(sys, ids[..n], loads)
    decreases |ids|
  {
    if n == |ids| {
      assert ids[..n] == ids;
    } else {
      var shorter := ids[..|ids| - 1];
      assert shorter[..n] == ids[..n];
      StaysRaised(sys, shorter, n, loads);
    }
  }
}
