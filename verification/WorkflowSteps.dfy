/** What one step of a run does: executing a task, dispatching, registering. */
module WorkflowSteps {
  import opened Wrappers
  import opened TaskKeys
  import opened Dags
  import opened Scheduling
  import opened SchedulerPasses
  import opened StateMachines
  import opened TaskExecution
  import opened Recovery
  import opened Workflow

  // ---------- One execution ----------

  /** The sandbox accepts within the allowed attempts. */
  predicate SandboxAccepts(input: RunInput, maxRetries: int) {
    !input.load.LoadRaises? && FirstAccepted(input.sandbox, Budget(maxRetries), 0) < Budget(maxRetries)
  }

  /** One of the `max_retries` + 1 attempts is accepted, and the checkpoint loads. */
  lemma SandboxAcceptsIff(input: RunInput, maxRetries: int)
    ensures SandboxAccepts(input, maxRetries) <==>
      !input.load.LoadRaises? && exists j: nat :: j <= maxRetries && input.sandbox(j) == Accepted
  {
    var k := FirstAccepted(input.sandbox, Budget(maxRetries), 0);
    if k < Budget(maxRetries) {
      assert input.sandbox(k) == Accepted && k <= maxRetries;
    }
  }

  /** A task found in `state` may be implemented, and the sandbox accepts it. */
  predicate Accepts(state: TaskState, input: RunInput, maxRetries: int) {
    Legal(state, Implementing) && SandboxAccepts(input, maxRetries)
  }

  predicate RunSucceeds(state: TaskState, input: ExecInput, cfg: Config) {
    Accepts(state, input.run, cfg.maxRetries) && input.run.saveError.None?
  }

  /** A run of a task found in `state` that fails does so with an error without text: the
      checkpoint store raises one, in the load or in the save that follows the failure. */
  predicate BlankError(state: TaskState, run: RunInput, maxRetries: int) {
    && state !in {Completed, BlockedHitl} && !Accepts(state, run, maxRetries)
    && (run.saveError == Some("") || (run.saveError.None? && run.load == LoadRaises("")))
  }

  /** A recovery context can be built where the run of a task found in `state` fails. */
  predicate Builds(state: TaskState, id: TaskId, input: ExecInput, cfg: Config) {
    id != "" && input.workflowId != "" && !BlankError(state, input.run, cfg.maxRetries)
  }

  /** The coordinator asks for a repair, and it succeeds: recovery and repair are allowed, the
      failure is of class RUNTIME, there is source code, and the pipeline answers with success. */
  predicate RepairOffered(input: ExecInput, cfg: Config) {
    && cfg.recovery && cfg.allowDefectRepair && input.failure == RuntimeFailure
    && input.code != "" && input.recovery.pipeline == Some(RepairSuccess)
  }

  predicate Repairs(state: TaskState, id: TaskId, input: ExecInput, cfg: Config) {
    RepairOffered(input, cfg) && Builds(state, id, input, cfg)
  }

  /** No other class of failure, and no missing permission, makes the coordinator choose a repair. */
  lemma CoordinatorRepairsIff(id: TaskId, input: ExecInput, cfg: Config)
    ensures cfg.recovery && RepairSucceeds(ContextFor(id, input, cfg), input.code, input.recovery)
      <==> RepairOffered(input, cfg)
  {
  }

  /** The coordinator's recovery completes a task found in FAILED exactly in these cases, and then
      reports success; else the task ends in BLOCKED_HITL, or stays FAILED without recovery. */
  lemma CoordinatorCompletesIff(states: States, id: TaskId, input: ExecInput, cfg: Config)
    requires id in states && states[id] == Failed
    ensures var r := RecoveryOf(states, id, input, cfg);
      && id in r.states
      && (r.states[id] == Completed <==>
            && cfg.recovery && cfg.allowDefectRepair && input.failure == RuntimeFailure
            && input.code != "" && input.recovery.pipeline == Some(RepairSuccess))
      && (r.states[id] == Completed ==> r.success)
      && (r.states[id] != Completed ==> r.states[id] == if cfg.recovery then BlockedHitl else Failed)
      && r.states == states[id := r.states[id]]
  {
    CoordinatorRepairsIff(id, input, cfg);
    assert states[id := states[id]] == states;
    hide Recovered, ContextFor;
    ContextForTask(id, input, cfg);
    CoordinatorRecovery(states, ContextFor(id, input, cfg), input.code, input.recovery, cfg.maxRetries);
  }

  /** The strategy the coordinator chooses, by what it does to the execution context of a task:
      after a timeout the task is run again; after a syntax or an unknown error it is handed to a
      human; after a runtime error the pipeline is asked if there is one and repair is allowed; and
      in all other cases, without event and checkpoint ids, nothing happens. */
  lemma CoordinatorChoice(contexts: Contexts, states: States, id: TaskId, input: ExecInput, cfg: Config)
    ensures var c := if id in contexts then contexts[id] else FreshContext(id);
      var byHand := contexts[id := c.(interventions := c.interventions + 1)];
      ContextsAfter(contexts, states, ContextFor(id, input, cfg), Some(input.code), input.recovery, cfg.maxRetries) ==
        match input.failure
        case TimeoutFailure => contexts[id := ContextOfRun(states, id, input.recovery.run, cfg.maxRetries)]
        case NetworkFailure => contexts
        case SyntaxFailure => byHand
        case UnknownFailure => byHand
        case RuntimeFailure =>
          if input.recovery.pipeline.None? || !cfg.allowDefectRepair then contexts
          else if input.code == "" then contexts[id := c]
          else match input.recovery.pipeline.value
            case RepairSuccess => contexts[id := c.(status := ContextCompleted)]
            case RepairEscalated => byHand
            case _ => contexts[id := c]
  {
    hide ContextOfRun, ContextAfterAll, StartOf;
  }

  lemma ContextForTask(id: TaskId, input: ExecInput, cfg: Config)
    ensures var ctx := ContextFor(id, input, cfg); ctx.taskId == id && ctx.eventId == "" && ctx.checkpointId == ""
  {
  }

  /** Executing a task found in `state` ends the run with an exception. */
  predicate ExecutionRaises(state: TaskState, id: TaskId, input: ExecInput, cfg: Config) {
    !RunSucceeds(state, input, cfg) && cfg.recovery && !Builds(state, id, input, cfg)
  }

  /** The task ends completed in the scheduler and the DAG: it ran and was saved, or a repair
      completed it; in BLOCKED_HITL neither is possible. */
  predicate EndsDone(state: TaskState, id: TaskId, input: ExecInput, cfg: Config) {
    RunSucceeds(state, input, cfg) || (state != BlockedHitl && Repairs(state, id, input, cfg))
  }

  /** The state in which the run leaves the task. */
  function StateAfterRun(state: TaskState, input: ExecInput, cfg: Config): TaskState {
    if state in {Completed, BlockedHitl} then state
    else if Accepts(state, input.run, cfg.maxRetries) then Completed
    else Failed
  }

  /** The state in which the execution leaves it. */
  function EndState(state: TaskState, id: TaskId, input: ExecInput, cfg: Config): TaskState {
    var ran := StateAfterRun(state, input, cfg);
    if ran != Failed then ran
    else if Repairs(state, id, input, cfg) then Completed
    else if cfg.recovery then BlockedHitl
    else Failed
  }

  lemma RunFrom(states: States, id: TaskId, input: ExecInput, cfg: Config)
    requires id in states
    ensures var r := RunOf(states, id, input.run, cfg.maxRetries);
      && r.states == states[id := StateAfterRun(states[id], input, cfg)]
      && r.succeeded == RunSucceeds(states[id], input, cfg)
      && r.calls <= Budget(cfg.maxRetries)
      && (!Legal(states[id], Implementing) ==> r.calls == 0)
  {
    assert states[id := states[id]] == states;
  }

  lemma RaisesFrom(states: States, id: TaskId, input: ExecInput, cfg: Config)
    requires id in states
    ensures Raises(states, id, input, cfg) <==> ExecutionRaises(states[id], id, input, cfg)
  {
    RunFrom(states, id, input, cfg);
    hide RunOf, SandboxAccepts, Legal;
  }

  lemma RecoveryAfterRun(states: States, id: TaskId, input: ExecInput, cfg: Config)
    requires id in states && states[id] in {Completed, Failed, BlockedHitl}
    ensures var r := RecoveryOf(states, id, input, cfg);
      var done := states[id] != BlockedHitl && RepairOffered(input, cfg);
      && RecoveryCalls(states, id, input, cfg) == 0
      && (done ==> r == Outcome(states[id := Completed], true))
      && (!done && states[id] != Failed ==> r == Outcome(states, false))
      && (!done && states[id] == Failed ==> r.states == states[id := if cfg.recovery then BlockedHitl else Failed])
  {
    var ctx := ContextFor(id, input, cfg);
    CoordinatorRepairsIff(id, input, cfg);
    assert states[id := states[id]] == states;
    match states[id] {
      case Completed =>
        CompletedRecovery(states, ctx, Some(input.code), input.recovery, cfg.maxRetries);
        TerminalRunDoesNothing(states, id, input.recovery.run, cfg.maxRetries);
      case BlockedHitl =>
        BlockedRecovery(states, ctx, Some(input.code), input.recovery, cfg.maxRetries);
        TerminalRunDoesNothing(states, id, input.recovery.run, cfg.maxRetries);
      case Failed =>
        CoordinatorRecovery(states, ctx, input.code, input.recovery, cfg.maxRetries);
        FailedRunStaysFailed(states, id, input.recovery.run, cfg.maxRetries);
    }
  }

  /** The record of the run after an execution. */
  ghost predicate Logged(sys: System, r: System, id: TaskId, cfg: Config, legal: bool) {
    && r.log == sys.log + [id]
    && r.calls.Keys == sys.calls.Keys + {id}
    && r.calls[id] <= CallsOf(sys.calls, id) + (if legal then Budget(cfg.maxRetries) else 0)
    && (forall x :: x != id ==> CallsOf(r.calls, x) == CallsOf(sys.calls, x))
  }

  lemma ExecutedIsSettled(sys: System, id: TaskId, input: ExecInput, cfg: Config)
    requires id in sys.dag.nodes && !sys.raised
    ensures var ran := RunOf(sys.states, id, input.run, cfg.maxRetries);
      var recovered := if ran.succeeded then Outcome(ran.states, true) else RecoveryOf(ran.states, id, input, cfg);
      var more := if ran.succeeded then 0 else RecoveryCalls(ran.states, id, input, cfg);
      Executed(sys, id, input, cfg) ==
        if Raises(sys.states, id, input, cfg) then
          sys.(dag := WithStatus(sys.dag, id, NodeRunning), states := ran.states,
               calls := sys.calls[id := CallsOf(sys.calls, id) + ran.calls], log := sys.log + [id], raised := true)
        else
          Settled(sys, recovered, VerdictOf(ran, recovered, id), id)
          .(calls := sys.calls[id := CallsOf(sys.calls, id) + ran.calls + more], log := sys.log + [id])
  {
    hide RunOf, RecoveryOf, RecoveryCalls, VerdictOf, Settled, WithStatus, Raises;
  }

  /** What becomes of a task that is executed, in whatever state it is found. */
  lemma TaskExecutes(sys: System, id: TaskId, input: ExecInput, cfg: Config)
    requires !sys.raised && id in sys.dag.nodes && id in sys.states
    requires !ExecutionRaises(sys.states[id], id, input, cfg)
    ensures var r, done := Executed(sys, id, input, cfg), EndsDone(sys.states[id], id, input, cfg);
      && r.sched == (if done then Finished(sys.sched, id) else Dropped(sys.sched, id))
      && r.dag == SetStatus(sys.dag, id, if done then NodeCompleted else NodeFailed)
      && r.states == sys.states[id := EndState(sys.states[id], id, input, cfg)]
      && Logged(sys, r, id, cfg, Legal(sys.states[id], Implementing)) && !r.raised
  {
    hide Executed, Settled, Raises, RunOf, RecoveryOf, RecoveryCalls, VerdictOf, EndsDone, EndState;
    hide Finished, Requeued, Dropped, SetFailedState, SetStatus, WithStatus, Logged, FinalStates, Legal;
    var ran := RunOf(sys.states, id, input.run, cfg.maxRetries);
    var recovered := if ran.succeeded then Outcome(ran.states, true) else RecoveryOf(ran.states, id, input, cfg);
    var more := if ran.succeeded then 0 else RecoveryCalls(ran.states, id, input, cfg);
    ExecutedIsSettled(sys, id, input, cfg);
    VerdictIs(sys.states, id, input, cfg);
    SettledAs(sys, recovered, VerdictOf(ran, recovered, id), id);
    hide *;
    LoggedAs(sys, Executed(sys, id, input, cfg), id, cfg, Legal(sys.states[id], Implementing), ran.calls + more);
  }

  /** What the coordinator concludes, in terms of the inputs. */
  lemma VerdictIs(states: States, id: TaskId, input: ExecInput, cfg: Config)
    requires id in states && !ExecutionRaises(states[id], id, input, cfg)
    ensures var ran := RunOf(states, id, input.run, cfg.maxRetries);
      var recovered := if ran.succeeded then Outcome(ran.states, true) else RecoveryOf(ran.states, id, input, cfg);
      var more := if ran.succeeded then 0 else RecoveryCalls(ran.states, id, input, cfg);
      && !Raises(states, id, input, cfg)
      && VerdictOf(ran, recovered, id) == (if EndsDone(states[id], id, input, cfg) then TaskDone else TaskLost)
      && FinalStates(recovered, VerdictOf(ran, recovered, id), id) == states[id := EndState(states[id], id, input, cfg)]
      && ran.calls + more <= (if Legal(states[id], Implementing) then Budget(cfg.maxRetries) else 0)
  {
    var ran := RunOf(states, id, input.run, cfg.maxRetries);
    RunFrom(states, id, input, cfg);
    RaisesFrom(states, id, input, cfg);
    if !ran.succeeded {
      RecoveryAfterRun(ran.states, id, input, cfg);
    }
    hide Raises, Builds, RepairOffered, RunOf, RecoveryOf, RecoveryCalls, SandboxAccepts, Legal;
  }

  /** The states after a verdict. */
  function FinalStates(recovered: Outcome, verdict: Verdict, id: TaskId): States {
    if verdict == TaskLost then SetFailedState(recovered.states, id) else recovered.states
  }

  lemma SettledAs(sys: System, recovered: Outcome, verdict: Verdict, id: TaskId)
    requires id in sys.dag.nodes
    ensures var r := Settled(sys, recovered, verdict, id);
      && r.sched == (match verdict
                     case TaskDone => Finished(sys.sched, id)
                     case TaskAgain => Requeued(sys.sched, id)
                     case TaskLost => Dropped(sys.sched, id))
      && r.dag == SetStatus(sys.dag, id, match verdict
                                         case TaskDone => NodeCompleted
                                         case TaskAgain => NodePending
                                         case TaskLost => NodeFailed)
      && r.states == FinalStates(recovered, verdict, id)
      && r.raised == sys.raised
  {
    hide Finished, Requeued, Dropped, SetFailedState, SetStatus;
  }

  lemma LoggedAs(sys: System, r: System, id: TaskId, cfg: Config, legal: bool, spent: nat)
    requires r.log == sys.log + [id] && r.calls == sys.calls[id := CallsOf(sys.calls, id) + spent]
    requires spent <= if legal then Budget(cfg.maxRetries) else 0
    ensures Logged(sys, r, id, cfg, legal)
  {
  }

  /** An execution makes the sandbox calls of its run and no more: no recovery the coordinator
      chooses makes any. */
  lemma CallsAreCounted(sys: System, id: TaskId, input: ExecInput, cfg: Config)
    requires !sys.raised && id in sys.dag.nodes && id in sys.states
    ensures CallsOf(Executed(sys, id, input, cfg).calls, id)
      == CallsOf(sys.calls, id) + RunOf(sys.states, id, input.run, cfg.maxRetries).calls
  {
    var ran := RunOf(sys.states, id, input.run, cfg.maxRetries);
    RunFrom(sys.states, id, input, cfg);
    ExecutedIsSettled(sys, id, input, cfg);
    if !ran.succeeded {
      RecoveryAfterRun(ran.states, id, input, cfg);
    }
    hide RunOf, RecoveryOf, RecoveryCalls, VerdictOf, Settled, Raises, WithStatus, Executed, SandboxAccepts;
  }

  /** The exception leaves the scheduler alone, the node RUNNING and the task as the run left it. */
  lemma TaskRaises(sys: System, id: TaskId, input: ExecInput, cfg: Config)
    requires !sys.raised && id in sys.dag.nodes && id in sys.states
    requires ExecutionRaises(sys.states[id], id, input, cfg)
    ensures var r := Executed(sys, id, input, cfg);
      && r.sched == sys.sched
      && r.dag == SetStatus(sys.dag, id, NodeRunning)
      && r.states == sys.states[id := StateAfterRun(sys.states[id], input, cfg)]
      && Logged(sys, r, id, cfg, Legal(sys.states[id], Implementing)) && r.raised
  {
    RunFrom(sys.states, id, input, cfg);
    RaisesFrom(sys.states, id, input, cfg);
    hide RunOf, SandboxAccepts, Raises, Builds;
  }

  /** The three stores say the same about a task. */
  predicate StoresAgree(sys: System, id: TaskId) {
    && id in sys.sched.tasks && id in sys.dag.nodes && id in sys.states
    && (sys.sched.tasks[id].status == TaskCompleted <==> sys.dag.nodes[id].status == NodeCompleted)
    && (sys.sched.tasks[id].status == TaskCompleted <==> sys.states[id] == Completed)
    && (sys.sched.tasks[id].status == TaskFailed ==>
          sys.dag.nodes[id].status == NodeFailed && sys.states[id] in {Failed, BlockedHitl})
  }

  /** The state machine says COMPLETED, the scheduler does not. */
  predicate RunsAhead(sys: System, id: TaskId) {
    && id in sys.states && sys.states[id] == Completed
    && !(id in sys.sched.tasks && sys.sched.tasks[id].status == TaskCompleted)
  }

  /** After an execution that raised nothing the stores agree, unless the state machine said
      COMPLETED before, or says so because the save of an accepted run raised, and no repair
      followed. */
  lemma StoresAgreeAfterExecutionIff(sys: System, id: TaskId, input: ExecInput, cfg: Config)
    requires !sys.raised && id in sys.dag.nodes && id in sys.sched.tasks && id in sys.states
    requires !ExecutionRaises(sys.states[id], id, input, cfg)
    ensures StoresAgree(Executed(sys, id, input, cfg), id) <==>
      || EndsDone(sys.states[id], id, input, cfg)
      || !(sys.states[id] == Completed || Accepts(sys.states[id], input.run, cfg.maxRetries))
  {
    hide *;
    TaskExecutes(sys, id, input, cfg);
    AgreementOf(sys, Executed(sys, id, input, cfg), id, input, cfg);
  }

  lemma AgreementOf(sys: System, r: System, id: TaskId, input: ExecInput, cfg: Config)
    requires id in sys.dag.nodes && id in sys.sched.tasks && id in sys.states
    requires var done := EndsDone(sys.states[id], id, input, cfg);
      && r.sched == (if done then Finished(sys.sched, id) else Dropped(sys.sched, id))
      && r.dag == SetStatus(sys.dag, id, if done then NodeCompleted else NodeFailed)
      && r.states == sys.states[id := EndState(sys.states[id], id, input, cfg)]
    ensures StoresAgree(r, id) <==>
      || EndsDone(sys.states[id], id, input, cfg)
      || !(sys.states[id] == Completed || Accepts(sys.states[id], input.run, cfg.maxRetries))
  {
    hide SandboxAccepts, Repairs;
  }

  // ---------- Dispatching ----------

  /** Scheduler and graph know the same tasks, and the state machine knows them too. */
  ghost predicate SameTasks(sys: System) {
    sys.sched.tasks.Keys == sys.dag.nodes.Keys <= sys.states.Keys
  }

  ghost predicate DependenciesKnown(d: Dag) {
    forall id, dep :: id in d.nodes && dep in d.nodes[id].dependencies ==> dep in d.nodes
  }

  lemma {:induction false} MarkReadyAllIs(states: States, ids: seq<TaskId>)
    requires forall x :: x in ids ==> x in states
    ensures MarkReadyAll(states, ids).Keys == states.Keys
    ensures forall x :: x in states ==>
      MarkReadyAll(states, ids)[x] == if x in ids && states[x] == Pending then Ready else states[x]
  {
    if ids != [] {
      var n := |ids| - 1;
      assert ids == ids[..n] + [ids[n]];
      MarkReadyAllIs(states, ids[..n]);
    }
  }

  /** The scheduler's part of a dispatch. */
  ghost function PassedSched(sys: System, now: Clock): Sched {
    Pass(Cleared(sys.sched, ReadyNodes(sys.dag)), now)
  }

  /** How the scheduler's record of a task changes from the start of an iteration to the sync. */
  lemma DispatchedRecord(sys: System, now: Clock, id: TaskId)
    requires Consistent(sys.sched) && id in sys.sched.tasks
    ensures var t, r := sys.sched.tasks[id], PassedSched(sys, now);
      && id in r.tasks
      && r.tasks[id].dependencies == t.dependencies
      && r.tasks[id].maxRetryAttempts == t.maxRetryAttempts
      && (t.status != TaskPending ==> r.tasks[id] == t)
      && (t.status == TaskPending ==> r.tasks[id].status != TaskCompleted)
      && (t.status == TaskPending && r.tasks[id].status == TaskRunning ==> ConflictFree(sys.sched.tasks, id))
      && (IsDone(r.tasks, id) <==> IsDone(sys.sched.tasks, id))
  {
    var ready := ReadyNodes(sys.dag);
    var s := Cleared(sys.sched, ready);
    assert PassedSched(sys, now) == Pass(s, now);
    hide *;
    ClearedRecord(sys.sched, ready, id);
    ClearedConsistent(sys.sched, ready);
    PassSteps(s, now);
    SteppedRecord(s.tasks, Pass(s, now).tasks, id, now);
    SameDone(sys.sched.tasks[id], s.tasks[id], sys.sched.tasks, s.tasks, id);
  }

  lemma ClearedRecord(s: Sched, ids: seq<TaskId>, id: TaskId)
    requires id in s.tasks
    ensures var t, c := s.tasks[id], Cleared(s, ids).tasks;
      && id in c && c[id].dependencies == t.dependencies && c[id].maxRetryAttempts == t.maxRetryAttempts
      && c[id].status == t.status && (t.status != TaskPending ==> c[id] == t)
      && (ConflictFree(c, id) ==> ConflictFree(s.tasks, id))
  {
    assert forall y :: IsDone(Cleared(s, ids).tasks, y) ==> IsDone(s.tasks, y);
  }

  lemma SameDone(t: Task, c: Task, tasks: map<TaskId, Task>, cleared: map<TaskId, Task>, id: TaskId)
    requires id in tasks && id in cleared && tasks[id] == t && cleared[id] == c && c.status == t.status
    ensures IsDone(cleared, id) <==> IsDone(tasks, id)
  {
  }

  lemma SteppedRecord(tasks: map<TaskId, Task>, tasks': map<TaskId, Task>, id: TaskId, now: Clock)
    requires id in tasks && id in tasks' && PassStep(tasks, tasks', id, now)
    ensures var t, r := tasks[id], tasks'[id];
      && r.dependencies == t.dependencies && r.maxRetryAttempts == t.maxRetryAttempts
      && (t.status != TaskPending ==> r == t)
      && (t.status == TaskPending ==> r.status != TaskCompleted)
      && (t.status == TaskPending && r.status == TaskRunning ==> ConflictFree(tasks, id))
      && (IsDone(tasks', id) <==> IsDone(tasks, id))
  {
    hide ConflictFree;
  }

  lemma DispatchedConflictFree(sys: System, now: Clock, id: TaskId)
    requires Consistent(sys.sched) && id in sys.sched.tasks
    ensures id in PassedSched(sys, now).tasks
    ensures ConflictFree(sys.sched.tasks, id) ==> ConflictFree(PassedSched(sys, now).tasks, id)
  {
    DispatchedRecord(sys, now, id);
    forall dep | dep in sys.sched.tasks[id].dependencies && IsDone(sys.sched.tasks, dep)
      ensures IsDone(PassedSched(sys, now).tasks, dep)
    {
      DispatchedRecord(sys, now, dep);
    }
  }

  /** What a dispatch leaves of the stores as a whole. */
  lemma DispatchShape(sys: System, now: Clock)
    requires Consistent(sys.sched) && WellFormed(sys.dag) && SameTasks(sys)
    ensures var r := Dispatched(sys, now);
      && r.sched == PassedSched(sys, now) && Consistent(r.sched) && r.sched.cap == sys.sched.cap
      && SameTasks(r) && r.dag.nodes.Keys == sys.dag.nodes.Keys && r.states.Keys == sys.states.Keys
      && r.dag.order == sys.dag.order && r.dag.graph == sys.dag.graph
      && r.log == sys.log && r.calls == sys.calls
  {
    var ready := ReadyNodes(sys.dag);
    MarkReadyAllIs(sys.states, ready);
    ClearedConsistent(sys.sched, ready);
    PassKeepsConsistent(Cleared(sys.sched, ready), now);
    PassSteps(Cleared(sys.sched, ready), now);
    hide Consistent, Pass;
  }

  /** Marking a list makes exactly its pending and unknown tasks READY and leaves all else alone. */
  lemma {:induction false} MarkReadyMeans(states: States, ids: seq<TaskId>, x: TaskId)
    ensures Lookup(MarkReadyAll(states, ids), x) ==
      if x in ids && (x !in states || states[x] == Pending) then Some(Ready) else Lookup(states, x)
  {
    if ids != [] {
      var n := |ids| - 1;
      assert ids == ids[..n] + [ids[n]];
      MarkReadyMeans(states, ids[..n], x);
      MarkReadyMeans(states, ids[..n], ids[n]);
    }
  }

  /** Synchronising makes exactly the tasks that failed in the scheduler FAILED: in the graph unless
      the node is completed, in the state machine unless that says COMPLETED or BLOCKED_HITL. */
  lemma SyncedMeans(sys: System, x: TaskId)
    ensures var r, failed := Synced(sys, sys.sched.tasks.Keys), HasFailed(sys.sched.tasks, x);
      && r.sched == sys.sched && r.dag.order == sys.dag.order && r.dag.graph == sys.dag.graph
      && Lookup(r.states, x) == (if !failed then Lookup(sys.states, x)
                                 else if x in sys.states && sys.states[x] in {Completed, BlockedHitl}
                                 then Lookup(sys.states, x) else Some(Failed))
      && Lookup(r.dag.nodes, x) == (if !failed || x !in sys.dag.nodes || sys.dag.nodes[x].status == NodeCompleted
                                    then Lookup(sys.dag.nodes, x)
                                    else Some(sys.dag.nodes[x].(status := NodeFailed)))
  {
  }

  function Marked(state: TaskState, ready: bool): TaskState {
    if ready && state == Pending then Ready else state
  }

  function SyncedState(state: TaskState, failed: bool): TaskState {
    if failed && state !in {Completed, BlockedHitl, Failed} then Failed else state
  }

  /** What a dispatch leaves of one task in the DAG and in the state machine. */
  lemma DispatchedStores(sys: System, now: Clock, id: TaskId)
    requires Consistent(sys.sched) && WellFormed(sys.dag) && SameTasks(sys) && id in sys.dag.nodes
    ensures var r := Dispatched(sys, now);
      var failed := HasFailed(PassedSched(sys, now).tasks, id);
      && id in r.dag.nodes && id in r.states
      && r.dag.nodes[id] == (if failed then FailedNode(sys.dag.nodes[id]) else sys.dag.nodes[id])
      && r.states[id] == SyncedState(Marked(sys.states[id], id in ReadyNodes(sys.dag)), failed)
  {
    var ready := ReadyNodes(sys.dag);
    DispatchShape(sys, now);
    MarkReadyAllIs(sys.states, ready);
    var started := sys.(states := MarkReadyAll(sys.states, ready), sched := PassedSched(sys, now));
    assert Dispatched(sys, now) == Synced(started, started.sched.tasks.Keys);
    hide *;
    SyncedAt(started, id);
    assert id in sys.states;
  }

  lemma SyncedAt(sys: System, id: TaskId)
    requires SameTasks(sys) && id in sys.dag.nodes
    ensures var r, failed := Synced(sys, sys.sched.tasks.Keys), HasFailed(sys.sched.tasks, id);
      && id in r.dag.nodes && id in r.states
      && r.dag.nodes[id] == (if failed then FailedNode(sys.dag.nodes[id]) else sys.dag.nodes[id])
      && r.states[id] == SyncedState(sys.states[id], failed)
  {
  }

  // ---------- Registering ----------

  /** The record of a registered task: its own, or the default one of its node. */
  function RegisteredTask(sys: System, id: TaskId): Task
    requires id in sys.sched.tasks || id in sys.dag.nodes
  {
    if id in sys.sched.tasks then sys.sched.tasks[id]
    else NewTask(sys.dag.nodes[id].priority, sys.dag.nodes[id].dependencies, DEFAULT_MAX_RETRY_ATTEMPTS)
  }

  ghost predicate RegisteredTasks(sys: System, ids: seq<TaskId>, tasks: map<TaskId, Task>)
    requires forall x :: x in ids ==> x in sys.dag.nodes
  {
    && (forall x :: x in tasks <==> x in sys.sched.tasks || x in ids)
    && (forall x :: x in tasks ==> tasks[x] == RegisteredTask(sys, x))
  }

  ghost predicate RegisteredStates(known: States, ids: seq<TaskId>, states: States) {
    && (forall x :: x in states <==> x in known || x in ids)
    && (forall x :: x in states ==> states[x] == if x in known then known[x] else Pending)
  }

  /** The system after registering some tasks. */
  ghost predicate RegisteredAs(sys: System, ids: seq<TaskId>, r: System)
    requires forall x :: x in ids ==> x in sys.dag.nodes
  {
    && Consistent(r.sched) && r.sched.cap == sys.sched.cap && r.sched.running == sys.sched.running
    && r.log == sys.log && r.calls == sys.calls
    && RegisteredTasks(sys, ids, r.sched.tasks) && RegisteredStates(sys.states, ids, r.states)
  }

  lemma TasksOneMore(sys: System, ids: seq<TaskId>, tasks: map<TaskId, Task>, id: TaskId, task: Task)
    requires forall x :: x in ids + [id] ==> x in sys.dag.nodes
    requires RegisteredTasks(sys, ids, tasks) && (id !in sys.sched.tasks ==> task == RegisteredTask(sys, id))
    ensures RegisteredTasks(sys, ids + [id], if id in tasks then tasks else tasks[id := task])
  {
    assert forall x :: x in ids + [id] <==> x in ids || x == id;
    hide RegisteredTask;
  }

  lemma StatesOneMore(known: States, ids: seq<TaskId>, states: States, id: TaskId)
    requires RegisteredStates(known, ids, states)
    ensures RegisteredStates(known, ids + [id], Ensured(states, id))
  {
    assert forall x :: x in ids + [id] <==> x in ids || x == id;
  }

  lemma RegisterOneMore(sys: System, ids: seq<TaskId>, before: System, id: TaskId)
    requires forall x :: x in ids + [id] ==> x in sys.dag.nodes
    requires forall x :: x in ids ==> x in sys.dag.nodes
    requires RegisteredAs(sys, ids, before) && before.dag == sys.dag && id in sys.dag.nodes
    ensures RegisteredAs(sys, ids + [id], RegisterOne(before, id))
  {
    var node := sys.dag.nodes[id];
    var task := NewTask(node.priority, node.dependencies, DEFAULT_MAX_RETRY_ATTEMPTS);
    AddedConsistent(before.sched, id, task);
    TasksOneMore(sys, ids, before.sched.tasks, id, task);
    StatesOneMore(sys.states, ids, before.states, id);
    hide Consistent, RegisteredTasks, RegisteredStates, NewTask, Ensured;
  }

  lemma {:induction false} RegisterAllIs(sys: System, ids: seq<TaskId>)
    requires Consistent(sys.sched) && forall x :: x in ids ==> x in sys.dag.nodes
    ensures RegisteredAs(sys, ids, RegisterAll(sys, ids))
  {
    hide Consistent, RegisterOne;
    if ids != [] {
      var n := |ids| - 1;
      assert ids == ids[..n] + [ids[n]];
      RegisterAllIs(sys, ids[..n]);
      RegisterOneMore(sys, ids[..n], RegisterAll(sys, ids[..n]), ids[n]);
    }
  }
}
