/** Inputs at which a run does not do what it promises: small workflows, run from the start. */
module WorkflowWitnesses {
  import opened Wrappers
  import opened TaskKeys
  import opened Graphs
  import opened Dags
  import opened Scheduling
  import opened StateMachines
  import opened TaskExecution
  import opened Recovery
  import opened Workflow
  import opened WorkflowSteps
  import opened WorkflowSafety
  import opened WorkflowProgress
  import opened WorkflowFates
  import opened WorkflowCompletion
  import opened WorkflowGaps
  import opened WorkflowResumption

  // ---------- Worlds ----------

  /** The same answers to every execution. */
  ghost function Always(input: ExecInput): Env {
    Env(i => AT_ONCE, (i, ids) => ListingOf(ids), (i, id) => input)
  }

  const NEW_NODE := DagNode([], 0, NodePending)

  /** A workflow of one task, of which the state machine may remember a state. */
  ghost function OneTask(id: TaskId, states: States): System {
    System(Dags.AfterCalls([AddNode(id, NEW_NODE)]), Scheduling.AfterCalls(1, []), states, map[], [], {}, false)
  }

  const PLAIN := Config(3, 10, false, false)

  const RECOVERING := Config(3, 10, true, true)

  function Answers(run: RunInput): ExecInput {
    ExecInput(run, TimeoutFailure, "workflow", "code", RecoveryInput([], false, i => "", NoCheckpoint, run, None))
  }

  lemma PlainConfig()
    ensures PLAIN.maxIterations >= 1 && !PLAIN.recovery && !Legal(Implementing, Implementing)
  {
  }

  lemma OneMoreCall(ops: seq<DagOp>, op: DagOp)
    ensures Dags.AfterCalls(ops + [op]) == Dags.Apply(Dags.AfterCalls(ops), op)
  {
    assert (ops + [op])[..|ops|] == ops;
  }

  lemma OneNode(id: TaskId)
    ensures Dags.AfterCalls([AddNode(id, NEW_NODE)]) == Dag([id], map[id := NEW_NODE], map[id := []])
  {
    OneMoreCall([], AddNode(id, NEW_NODE));
    assert [] + [AddNode(id, NEW_NODE)] == [AddNode(id, NEW_NODE)];
    assert Dags.AfterCalls([]) == EMPTY_DAG;
    hide Dags.AfterCalls;
    assert [] + [id] == [id];
  }

  /** It is a start for every theorem about runs. */
  lemma OneTaskIsClean(id: TaskId, states: States)
    ensures var sys := OneTask(id, states);
      && CleanStart(sys) && Mirrored(sys.dag) && sys.sched.cap == 1 && FreshTasks(sys, 0)
      && sys.dag.order == [id] && sys.dag.nodes == map[id := NEW_NODE] && sys.sched.tasks == map[]
  {
    var sys := OneTask(id, states);
    OneNode(id);
    assert Scheduling.AfterCalls(1, []) == EmptySched(1);
    assert WellFormed(sys.dag) && Consistent(sys.sched);
    hide WellFormed, Consistent, Dags.AfterCalls, Scheduling.AfterCalls;
    assert CleanTask(sys, id);
  }

  // ---------- The one task is executed ----------

  lemma OnlyListing(s: seq<TaskId>, id: TaskId)
    requires Lists(s, {id})
    ensures s == [id]
  {
    assert id in s;
    if |s| > 1 {
      assert s[0] in s && s[1] in s && s[0] != s[1];
    }
  }

  lemma OneTaskIsRegistered(id: TaskId, states: States, cfg: Config)
    ensures var sys := OneTask(id, states);
      var r := RegisterAll(sys, sys.dag.order);
      && Inv(r, cfg) && Mirrored(r.dag) && !r.raised && r.sched.cap == 1 && r.dag.nodes.Keys == {id}
      && r.sched.running == {} && Live(r.dag, {id}) && IsPending(r.sched.tasks, id)
  {
    var sys := OneTask(id, states);
    OneTaskIsClean(id, states);
    hide *;
    StartIsRegistered(sys, cfg, 0, 0);
    PartsOfInv(RegisterAll(sys, sys.dag.order), cfg);
    OneIsPending(sys, RegisterAll(sys, sys.dag.order), id);
  }

  /** The first iteration starts the task. */
  lemma FirstDispatch(r: System, id: TaskId, env: Env, cfg: Config)
    requires Inv(r, cfg) && Mirrored(r.dag) && !r.raised && r.sched.cap == 1 && r.dag.nodes.Keys == {id}
    requires r.sched.running == {} && Live(r.dag, {id}) && IsPending(r.sched.tasks, id) && ValidEnv(env)
    ensures var d := Dispatched(r, env.clock(0));
      && !LookupFails(r.dag) && Inv(d, cfg) && !d.raised && d.sched.running == {id} && d.dag.nodes.Keys == {id}
      && Listed(r, 0, env) == [id]
  {
    hide *;
    var d := Dispatched(r, env.clock(0));
    PartsOfInv(r, cfg);
    KnownMeansFound(r.dag);
    SomeTaskStarts(r, {id}, cfg, env.clock(0), id);
    DispatchKeepsInv(r, env.clock(0), cfg);
    DispatchShape(r, env.clock(0));
    RunningAreNodes(d, cfg);
    OneRuns(d, id);
    ListedAsOrdered(r, env);
    OnlyListing(Listed(r, 0, env), id);
  }

  lemma OneIsPending(sys: System, r: System, id: TaskId)
    requires sys.dag.nodes == map[id := NEW_NODE] && CleanStart(sys) && Registered(sys, r, 0, 0)
    requires r.dag == sys.dag && Consistent(r.sched)
    ensures IsPending(r.sched.tasks, id) && r.sched.running == {} && Live(r.dag, {id})
  {
    assert CleanTask(sys, id);
    assert forall x :: x in r.sched.tasks ==> x == id;
    hide Patient;
  }

  lemma RunningAreNodes(d: System, cfg: Config)
    requires Inv(d, cfg)
    ensures d.sched.running <= d.dag.nodes.Keys
  {
    forall x | x in d.sched.running ensures x in d.dag.nodes {
      RunningIsKnown(d, cfg, x);
    }
  }

  lemma OneRuns(d: System, id: TaskId)
    requires d.sched.running <= d.dag.nodes.Keys == {id} && d.sched.running != {}
    ensures d.sched.running == {id}
  {
  }

  lemma ListedAsOrdered(r: System, env: Env)
    requires ValidEnv(env)
    ensures Lists(Listed(r, 0, env), Dispatched(r, env.clock(0)).sched.running)
  {
    hide Dispatched;
  }

  lemma FirstIterationIsAll(r: System, id: TaskId, env: Env, cfg: Config)
    requires Inv(r, cfg) && Mirrored(r.dag) && !r.raised && r.sched.cap == 1 && r.dag.nodes.Keys == {id}
    requires r.sched.running == {} && Live(r.dag, {id}) && IsPending(r.sched.tasks, id) && ValidEnv(env)
    requires cfg.maxIterations >= 1
    ensures id in Looped(r, 0, 0, env, cfg).log
  {
    hide *;
    var d := Dispatched(r, env.clock(0));
    var e := Executed(d, id, env.input(0, id), cfg);
    FirstDispatch(r, id, env, cfg);
    OneExecution(d, id, env, cfg);
    OneExecutionEnds(d, id, env.input(0, id), cfg);
    LoopEndsAtOnce(r, d, e, [id], env, cfg);
  }

  /** The run is that one execution. */
  lemma OneTaskRuns(id: TaskId, states: States, env: Env, cfg: Config)
    requires ValidEnv(env) && cfg.maxIterations >= 1
    ensures id in Run(OneTask(id, states), env, cfg).log
  {
    var sys := OneTask(id, states);
    hide *;
    OneTaskIsRegistered(id, states, cfg);
    FirstIterationIsAll(RegisterAll(sys, sys.dag.order), id, env, cfg);
    RunIsLoop(sys, env, cfg);
  }

  lemma OneExecution(d: System, id: TaskId, env: Env, cfg: Config)
    ensures ExecutedAll(d, [id], 0, env, cfg) == Executed(d, id, env.input(0, id), cfg)
  {
    assert [id][..0] == [] && ExecutedAll(d, [], 0, env, cfg) == d;
    hide Executed;
  }

  /** A run whose first iteration ends every task, or raises, ends with it. */
  lemma LoopEndsAtOnce(first: System, d: System, e: System, ids: seq<TaskId>, env: Env, cfg: Config)
    requires cfg.maxIterations >= 1 && !LookupFails(first.dag)
    requires d == Dispatched(first, env.clock(0)) && d.sched.running != {} && Listed(first, 0, env) == ids
    requires e == ExecutedAll(d, ids, 0, env, cfg) && (e.raised || AllTerminal(e.sched.tasks))
    ensures Looped(first, 0, 0, env, cfg) == e
  {
    hide Dispatched, ExecutedAll, LookupFails, AllTerminal, Listed;
  }

  lemma RunIsLoop(sys: System, env: Env, cfg: Config)
    ensures Run(sys, env, cfg) == Looped(RegisterAll(sys, sys.dag.order), 0, 0, env, cfg)
  {
    hide Looped, RegisterAll;
  }

  lemma OneExecutionEnds(d: System, id: TaskId, input: ExecInput, cfg: Config)
    requires Inv(d, cfg) && !d.raised && d.sched.running == {id} && d.dag.nodes.Keys == {id}
    ensures var e := Executed(d, id, input, cfg);
      id in e.log && (e.raised || AllTerminal(e.sched.tasks))
  {
    hide *;
    var e := Executed(d, id, input, cfg);
    RunningIsKnown(d, cfg, id);
    RunningTask(d, cfg, id);
    PartsOfInv(d, cfg);
    if ExecutionRaises(d.states[id], id, input, cfg) {
      TaskRaises(d, id, input, cfg);
    } else {
      TaskExecutes(d, id, input, cfg);
      OneIsTerminal(d, id, EndsDone(d.states[id], id, input, cfg));
    }
    LoggedLast(d, e, id, cfg, Legal(d.states[id], Implementing));
  }

  lemma OneIsTerminal(d: System, id: TaskId, done: bool)
    requires SameTasks(d) && d.dag.nodes.Keys == {id}
    ensures AllTerminal((if done then Finished(d.sched, id) else Dropped(d.sched, id)).tasks)
  {
  }

  lemma LoggedLast(d: System, e: System, id: TaskId, cfg: Config, legal: bool)
    requires Logged(d, e, id, cfg, legal)
    ensures id in e.log
  {
    assert e.log[|d.log|] == id;
  }

  /** What its run leaves, whatever state it was found in and whatever the answers are. */
  lemma OneTaskFate(id: TaskId, states: States, input: ExecInput, cfg: Config)
    requires cfg.maxIterations >= 1
    ensures var start, r := if id in states then states[id] else Pending, Run(OneTask(id, states), Always(input), cfg);
      && id in r.sched.tasks && id in r.states && ExecutedAs(r, id, start, input, cfg)
      && (StoresAgree(r, id) <==> !RunsAhead(r, id))
      && (!Legal(start, Implementing) ==> CallsOf(r.calls, id) == 0)
  {
    var sys, env := OneTask(id, states), Always(input);
    var r := Run(sys, env, cfg);
    OneTaskIsClean(id, states);
    assert ValidEnv(env) && forall i: nat :: env.input(i, id) == input;
    assert !sys.raised && sys.restored == {} && StartState(sys, id) == if id in states then states[id] else Pending;
    hide *;
    OneTaskRuns(id, states, env, cfg);
    RunKeepsFate(sys, env, cfg, id);
    FateOfExecuted(r, id, StartState(sys, id), env, cfg, input);
    var n := RunEndsAtIteration(sys, env, cfg);
    EveryPointKeepsInv(sys, n, 0, env, cfg);
    RunKeepsGraph(sys, env, cfg);
    SameNodes(sys.dag, r.dag, id);
    InvMeansStoresAgreeIff(r, cfg, id);
  }

  lemma FateOfExecuted(r: System, id: TaskId, start: TaskState, env: Env, cfg: Config, input: ExecInput)
    requires Fate(r, id, start, env, cfg) && id in r.log && id !in r.restored
    requires forall i: nat :: env.input(i, id) == input
    ensures id in r.sched.tasks && id in r.states && ExecutedAs(r, id, start, input, cfg)
    ensures !Legal(start, Implementing) ==> CallsOf(r.calls, id) == 0
  {
  }

  // ---------- Broken promises ----------

  lemma AcceptedAtOnce(run: RunInput, maxRetries: int)
    requires maxRetries >= 0 && !run.load.LoadRaises? && run.sandbox(0) == Accepted
    ensures SandboxAccepts(run, maxRetries)
  {
  }

  lemma UnsavedFate(r: System, id: TaskId, input: ExecInput, cfg: Config)
    requires id in r.sched.tasks && id in r.states && ExecutedAs(r, id, Pending, input, cfg)
    requires SandboxAccepts(input.run, cfg.maxRetries) && input.run.saveError.Some? && !cfg.recovery
    ensures r.sched.tasks[id].status == TaskFailed && r.states[id] == Completed && RunsAhead(r, id)
  {
    hide SandboxAccepts;
  }

  /** An accepted run whose checkpoint is not saved leaves the stores apart: COMPLETED in the
      state machine, failed in the scheduler and in the graph. */
  lemma UnsavedRunSplitsStores(id: TaskId)
    ensures var r := Run(OneTask(id, map[]), Always(Answers(ACCEPTED.(saveError := Some("disk full")))), PLAIN);
      && id in r.sched.tasks && r.sched.tasks[id].status == TaskFailed
      && id in r.states && r.states[id] == Completed && !StoresAgree(r, id)
  {
    var input := Answers(ACCEPTED.(saveError := Some("disk full")));
    var r := Run(OneTask(id, map[]), Always(input), PLAIN);
    OneTaskFate(id, map[], input, PLAIN);
    assert input.run == ACCEPTED.(saveError := Some("disk full")) && PLAIN.maxRetries == 3 && !PLAIN.recovery;
    AcceptedAtOnce(input.run, 3);
    hide *;
    UnsavedFate(r, id, input, PLAIN);
  }

  /** A checkpoint store whose error has no text: the recovery context cannot be built, and the
      run raises with the task running. */
  lemma BlankErrorRaises(id: TaskId)
    ensures var r := Run(OneTask(id, map[]), Always(Answers(ACCEPTED.(load := LoadRaises("")))), RECOVERING);
      && r.raised && id in r.sched.tasks && r.sched.tasks[id].status == TaskRunning
      && id in r.states && r.states[id] == Failed
  {
    var input := Answers(ACCEPTED.(load := LoadRaises("")));
    var r := Run(OneTask(id, map[]), Always(input), RECOVERING);
    OneTaskFate(id, map[], input, RECOVERING);
    assert input.run == RunInput(LoadRaises(""), n => Accepted, None) && RECOVERING.recovery;
    hide *;
    RaisedFate(r, id, input, RECOVERING);
  }

  lemma RaisedFate(r: System, id: TaskId, input: ExecInput, cfg: Config)
    requires id in r.sched.tasks && id in r.states && ExecutedAs(r, id, Pending, input, cfg)
    requires input.run.load == LoadRaises("") && input.run.saveError.None? && cfg.recovery
    ensures r.raised && r.sched.tasks[id].status == TaskRunning && r.states[id] == Failed
  {
  }

  /** The calls of a process that was stopped while the sandbox ran the task; the next one
      starts from the same repository. */
  function Crashed(id: TaskId): seq<StateOp> {
    [Ensure(id, Pending), Move(id, Ready, "Dependencies satisfied"), Move(id, Implementing, ""), Restart]
  }

  /** What the next process finds. */
  ghost function Found(id: TaskId): States {
    Current(StateMachines.AfterCalls(true, Crashed(id)))
  }

  lemma MoveStep(ops: seq<StateOp>, id: TaskId, source: TaskState, target: TaskState, reason: string)
    requires StateOf(StateMachines.AfterCalls(true, ops), id) == Some(source) && Legal(source, target)
    ensures StateOf(StateMachines.AfterCalls(true, ops + [Move(id, target, reason)]), id) == Some(target)
  {
    StateMachines.AfterOneMore(true, ops, Move(id, target, reason));
    MovedAnswers(StateMachines.AfterCalls(true, ops), id, target, reason, id);
    hide StateMachines.AfterCalls, Moved, Current, WellKept, Legal;
  }

  lemma EnsureStep(id: TaskId)
    ensures StateOf(StateMachines.AfterCalls(true, [Ensure(id, Pending)]), id) == Some(Pending)
  {
    EnsuredOnce(id);
    hide StateMachines.AfterCalls;
  }

  lemma RestartStep(ops: seq<StateOp>, id: TaskId)
    ensures StateOf(StateMachines.AfterCalls(true, ops + [Restart]), id)
      == StateOf(StateMachines.AfterCalls(true, ops), id)
  {
    StateMachines.AfterOneMore(true, ops, Restart);
    FreshAnswersTheSame(StateMachines.AfterCalls(true, ops), id);
    hide StateMachines.AfterCalls, WellKept, StateOf, Fresh;
  }

  lemma FoundImplementing(id: TaskId)
    ensures id in Found(id) && Found(id)[id] == Implementing
  {
    var first, third := Ensure(id, Pending), Move(id, Implementing, "");
    var second := Move(id, Ready, "Dependencies satisfied");
    assert Crashed(id) == [first, second, third, Restart];
    assert Legal(Pending, Ready) && Legal(Ready, Implementing);
    assert forall m :: StateOf(m, id).Some? ==> id in Current(m) && StateOf(m, id) == Some(Current(m)[id]);
    assert Found(id) == Current(StateMachines.AfterCalls(true, Crashed(id)));
    hide *;
    assert [first] + [second] == [first, second] && [first, second] + [third] == [first, second, third];
    assert [first, second, third] + [Restart] == [first, second, third, Restart];
    EnsureStep(id);
    MoveStep([first], id, Pending, Ready, "Dependencies satisfied");
    MoveStep([first, second], id, Ready, Implementing, "");
    RestartStep([first, second, third], id);
  }

  lemma RegisterSingle(sys: System, id: TaskId)
    ensures RegisterAll(sys, [id]) == RegisterOne(sys, id)
  {
    hide RegisterOne;
    assert [id][..0] == [] && RegisterAll(sys, []) == sys;
  }

  const NONE_SAVED: Checkpoints := _ => NoCheckpoint

  /** A resume with nothing to restore is a run. */
  lemma NothingToRestore(id: TaskId, states: States, env: Env, cfg: Config)
    ensures var sys := OneTask(id, states);
      var resumption := RestoreAll(RegisterAll(sys, [id]), [id], NONE_SAVED);
      resumption.ok && Run(resumption.sys, env, cfg) == Run(sys, env, cfg)
  {
    var sys := OneTask(id, states);
    var r := RegisterAll(sys, [id]);
    OneTaskIsClean(id, states);
    RegisterSingle(sys, id);
    RegisterSingle(r, id);
    hide OneTask, CleanStart, Mirrored, Looped, RegisterAll;
    assert [id][..0] == [];
  }

  /** A task that was being implemented when the process stopped is never run again: resumed
      with a sandbox that accepts everything it fails without a sandbox call, because
      IMPLEMENTING may not follow IMPLEMENTING. */
  lemma InterruptedTaskFails(id: TaskId)
    ensures var resumption := RestoreAll(RegisterAll(OneTask(id, Found(id)), [id]), [id], NONE_SAVED);
      var r := Run(resumption.sys, Always(Answers(ACCEPTED)), PLAIN);
      && resumption.ok && !Succeeds(r.sched.tasks) && CallsOf(r.calls, id) == 0
      && id in r.sched.tasks && r.sched.tasks[id].status == TaskFailed && id in r.states && r.states[id] == Failed
  {
    var input := Answers(ACCEPTED);
    var r := Run(OneTask(id, Found(id)), Always(input), PLAIN);
    hide *;
    PlainConfig();
    FoundImplementing(id);
    NothingToRestore(id, Found(id), Always(input), PLAIN);
    OneTaskFate(id, Found(id), input, PLAIN);
    InterruptedFate(r, id, input, PLAIN);
    FailedMeansNoSuccess(r.sched.tasks, id);
  }

  lemma InterruptedFate(r: System, id: TaskId, input: ExecInput, cfg: Config)
    requires id in r.sched.tasks && id in r.states && ExecutedAs(r, id, Implementing, input, cfg) && !cfg.recovery
    ensures r.sched.tasks[id].status == TaskFailed && r.states[id] == Failed
  {
    hide SandboxAccepts;
  }

  lemma FailedMeansNoSuccess(tasks: map<TaskId, Task>, id: TaskId)
    requires id in tasks && tasks[id].status == TaskFailed
    ensures !Succeeds(tasks)
  {
    assert id in WithRunStatus(tasks, TaskFailed);
  }

  /** A task that is COMPLETED without a checkpoint, as after a crash before the save, fails in
      the scheduler while the state machine keeps calling it COMPLETED. */
  lemma CompletedWithoutCheckpointFails(id: TaskId)
    ensures var resumption := RestoreAll(RegisterAll(OneTask(id, map[id := Completed]), [id]), [id], NONE_SAVED);
      var r := Run(resumption.sys, Always(Answers(ACCEPTED)), PLAIN);
      && resumption.ok && id in r.sched.tasks && r.sched.tasks[id].status == TaskFailed
      && id in r.states && r.states[id] == Completed && !StoresAgree(r, id)
  {
    var input := Answers(ACCEPTED);
    var r := Run(OneTask(id, map[id := Completed]), Always(input), PLAIN);
    hide *;
    PlainConfig();
    NothingToRestore(id, map[id := Completed], Always(input), PLAIN);
    OneTaskFate(id, map[id := Completed], input, PLAIN);
    CompletedFate(r, id, input, PLAIN);
  }

  lemma CompletedFate(r: System, id: TaskId, input: ExecInput, cfg: Config)
    requires id in r.sched.tasks && id in r.states && ExecutedAs(r, id, Completed, input, cfg) && !cfg.recovery
    ensures r.sched.tasks[id].status == TaskFailed && r.states[id] == Completed && RunsAhead(r, id)
  {
    hide SandboxAccepts;
  }

  const COMPLETED_CHECKPOINT := Load.Found(ExecutionContext("", ContextCompleted, 0, false, "", 0))

  const ALL_SAVED: Checkpoints := _ => COMPLETED_CHECKPOINT

  lemma BlockedIsStuck(sys: System, id: TaskId)
    requires sys.sched.tasks == map[] && sys.states == map[id := BlockedHitl] && sys.dag.nodes == map[id := NEW_NODE]
    ensures !RestoreAll(RegisterOne(sys, id), [id], ALL_SAVED).ok
  {
    var r := RegisterOne(sys, id);
    assert [id][..0] == [] && RestoreAll(r, [], ALL_SAVED) == Resumption(r, true);
    assert Stuck(r, id, COMPLETED_CHECKPOINT);
    RestoreOneFrame(r, id, COMPLETED_CHECKPOINT);
    hide RegisterOne, RestoreOne, Stuck;
  }

  /** A completed checkpoint of a task that was handed to a human: `resume_workflow` raises. */
  lemma BlockedTaskWithCheckpointRaises(id: TaskId)
    ensures !RestoreAll(RegisterAll(OneTask(id, map[id := BlockedHitl]), [id]), [id], ALL_SAVED).ok
  {
    var sys := OneTask(id, map[id := BlockedHitl]);
    OneTaskIsClean(id, map[id := BlockedHitl]);
    assert sys.states == map[id := BlockedHitl];
    hide *;
    RegisterSingle(sys, id);
    BlockedIsStuck(sys, id);
  }

  // ---------- A checkpoint without those of its dependencies ----------

  function Calls(c: TaskId, b: TaskId, a: TaskId): seq<DagOp> {
    [AddNode(c, NEW_NODE), AddNode(b, NEW_NODE), AddEdge(c, b), AddNode(a, NEW_NODE), AddEdge(b, a)]
  }

  /** Three tasks, each of which depends on the one before it. */
  ghost function ThreeTasks(c: TaskId, b: TaskId, a: TaskId): System {
    System(Dags.AfterCalls(Calls(c, b, a)), Scheduling.AfterCalls(1, []), map[], map[], [], {}, false)
  }

  function DependsOn(id: TaskId): DagNode {
    DagNode([id], 0, NodePending)
  }

  /** Three nodes in a row. */
  function Row(c: TaskId, b: TaskId, a: TaskId): Dag {
    Dag([c, b, a], map[c := NEW_NODE, b := DependsOn(c), a := DependsOn(b)], map[c := [b], b := [a], a := []])
  }

  /** Only `b` has a completed checkpoint. */
  function SavedOnly(b: TaskId): Checkpoints {
    x => if x == b then COMPLETED_CHECKPOINT else NoCheckpoint
  }

  lemma SinkReachesNoOther(g: Graph, sink: TaskId, a: TaskId)
    requires sink in g && g[sink] == [] && a != sink
    ensures !Reaches(g, sink, a)
  {
    forall p | IsPath(g, p) && p[0] == sink ensures p[|p| - 1] != a {
      if |p| > 1 {
        assert HasEdge(g, p[0], p[1]);
      }
    }
  }

  lemma LinkedBehind(loose: Dag, b: TaskId, a: TaskId)
    requires WellFormed(loose) && b in loose.nodes && a in loose.nodes && a != b
    requires loose.nodes[a] == NEW_NODE && loose.graph[a] == [] && a !in loose.graph[b]
    ensures Dags.Apply(loose, AddEdge(b, a))
      == loose.(nodes := loose.nodes[a := DependsOn(b)], graph := loose.graph[b := loose.graph[b] + [a]])
  {
    SinkReachesNoOther(loose.graph, a, b);
    hide WellFormed, Reaches;
    assert [] + [b] == [b];
  }

  lemma LooseNode(d: Dag, b: TaskId, a: TaskId)
    requires WellFormed(d) && b in d.nodes && a !in d.nodes
    ensures b in d.graph && a !in d.graph[b]
    ensures Dags.Apply(d, AddNode(a, NEW_NODE)) == Dag(d.order + [a], d.nodes[a := NEW_NODE], d.graph[a := []])
  {
    hide Acyclic;
  }

  /** A node added behind another one. */
  lemma Chained(ops: seq<DagOp>, d: Dag, b: TaskId, a: TaskId)
    requires Dags.AfterCalls(ops) == d && b in d.nodes && a !in d.nodes
    ensures b in d.graph
    ensures Dags.AfterCalls(ops + [AddNode(a, NEW_NODE)] + [AddEdge(b, a)])
      == Dag(d.order + [a], d.nodes[a := DependsOn(b)], d.graph[a := []][b := d.graph[b] + [a]])
  {
    var loose := Dag(d.order + [a], d.nodes[a := NEW_NODE], d.graph[a := []]);
    hide *;
    LooseNode(d, b, a);
    OneMoreCall(ops, AddNode(a, NEW_NODE));
    OneMoreCall(ops + [AddNode(a, NEW_NODE)], AddEdge(b, a));
    LinkedBehind(loose, b, a);
    assert loose.nodes[a := DependsOn(b)] == d.nodes[a := DependsOn(b)];
  }

  function Pair(c: TaskId, b: TaskId): Dag {
    Dag([c, b], map[c := NEW_NODE, b := DependsOn(c)], map[c := [b], b := []])
  }

  lemma PairOfCalls(c: TaskId, b: TaskId)
    requires c != b
    ensures Dags.AfterCalls([AddNode(c, NEW_NODE)] + [AddNode(b, NEW_NODE)] + [AddEdge(c, b)]) == Pair(c, b)
  {
    hide *;
    OneNode(c);
    Chained([AddNode(c, NEW_NODE)], Dag([c], map[c := NEW_NODE], map[c := []]), c, b);
    PairBehindOne(c, b);
  }

  lemma PairBehindOne(c: TaskId, b: TaskId)
    requires c != b
    ensures var d := Dag([c], map[c := NEW_NODE], map[c := []]);
      Dag(d.order + [b], d.nodes[b := DependsOn(c)], d.graph[b := []][c := d.graph[c] + [b]]) == Pair(c, b)
  {
    assert [c] + [b] == [c, b] && [] + [b] == [b];
  }

  lemma RowBehindPair(c: TaskId, b: TaskId, a: TaskId)
    requires c != b && b != a && a != c
    ensures var d := Pair(c, b);
      Dag(d.order + [a], d.nodes[a := DependsOn(b)], d.graph[a := []][b := d.graph[b] + [a]]) == Row(c, b, a)
  {
    assert [c, b] + [a] == [c, b, a] && [] + [a] == [a];
  }

  lemma RowOfCalls(c: TaskId, b: TaskId, a: TaskId)
    requires c != b && b != a && a != c
    ensures Dags.AfterCalls(Calls(c, b, a)) == Row(c, b, a)
  {
    var second := [AddNode(c, NEW_NODE)] + [AddNode(b, NEW_NODE)] + [AddEdge(c, b)];
    var d := Pair(c, b);
    assert second + [AddNode(a, NEW_NODE)] + [AddEdge(b, a)] == Calls(c, b, a);
    assert b in d.nodes && a !in d.nodes && b in d.graph;
    hide *;
    PairOfCalls(c, b);
    Chained(second, d, b, a);
    RowBehindPair(c, b, a);
  }

  lemma RowIsMirrored(c: TaskId, b: TaskId, a: TaskId)
    requires c != b && b != a && a != c
    ensures Mirrored(Row(c, b, a)) && DependenciesKnown(Row(c, b, a)) && Row(c, b, a).nodes.Keys == {c, b, a}
  {
  }

  lemma ThreeTasksAreClean(c: TaskId, b: TaskId, a: TaskId)
    requires c != b && b != a && a != c
    ensures var sys := ThreeTasks(c, b, a);
      && CleanStart(sys) && Mirrored(sys.dag) && sys.sched.cap == 1 && FreshTasks(sys, 1)
      && sys.restored == {} && sys.states == map[] && sys.dag == Row(c, b, a)
  {
    var sys := ThreeTasks(c, b, a);
    RowOfCalls(c, b, a);
    RowIsMirrored(c, b, a);
    assert sys.sched == Scheduling.AfterCalls(1, []) == EmptySched(1) && sys.sched.tasks == map[];
    assert WellFormed(sys.dag) && Consistent(sys.sched) && sys.dag == Row(c, b, a);
    hide WellFormed, Consistent, Dags.AfterCalls, Scheduling.AfterCalls, Mirrored, DependenciesKnown, EmptySched;
    assert CleanTask(sys, c) && CleanTask(sys, b) && CleanTask(sys, a);
  }

  lemma NextOnLead(sys: System, p: seq<TaskId>, id: TaskId)
    requires LeadsDown(sys, p, id)
    ensures id in sys.dag.nodes && |p| > 1 && p[1] in sys.dag.nodes[id].dependencies && p[1] !in sys.restored
  {
    assert p[0] in p;
  }

  /** No chain of tasks that are not restored leads down from `a`, and none from `c`. */
  lemma NothingBelow(sys: System, c: TaskId, b: TaskId, a: TaskId, p: seq<TaskId>)
    requires c in sys.dag.nodes && a in sys.dag.nodes && b in sys.restored
    requires sys.dag.nodes[a].dependencies == [b] && sys.dag.nodes[c].dependencies == []
    ensures !LeadsDown(sys, p, a) && !LeadsDown(sys, p, c)
  {
    hide LeadsDown;
    if LeadsDown(sys, p, a) {
      NextOnLead(sys, p, a);
    } else if LeadsDown(sys, p, c) {
      NextOnLead(sys, p, c);
    }
  }

  lemma NothingNeeded(sys: System, env: Env, cfg: Config, c: TaskId, b: TaskId, a: TaskId)
    requires c in sys.dag.nodes && a in sys.dag.nodes && b in sys.restored
    requires sys.dag.nodes[a].dependencies == [b] && sys.dag.nodes[c].dependencies == []
    ensures NeedsMet(sys, env, cfg, a) && NeedsMet(sys, env, cfg, c)
  {
    hide LeadsDown, AlwaysEndsDone, StartState;
    forall p ensures !LeadsDown(sys, p, a) && !LeadsDown(sys, p, c) {
      NothingBelow(sys, c, b, a, p);
    }
  }

  /** Where `b` was restored and `c` was not, `a` runs and completes though `c` fails. */
  lemma OrderBroken(sys: System, c: TaskId, b: TaskId, a: TaskId)
    requires CleanStart(sys) && Mirrored(sys.dag) && sys.sched.cap >= 1 && FreshTasks(sys, 1)
    requires c != b && b != a && a != c && "" !in {c, b, a} && sys.dag.nodes.Keys == {c, b, a}
    requires sys.dag.nodes[a].dependencies == [b] && sys.dag.nodes[c].dependencies == []
    requires b in sys.restored && a !in sys.restored && c !in sys.restored && StartState(sys, a) == Pending
    ensures var r := Run(sys, AllBut(c), Patiently(sys));
      a in r.log && IsDone(r.sched.tasks, a) && HasFailed(r.sched.tasks, c)
  {
    var env, cfg := AllBut(c), Patiently(sys);
    hide *;
    NothingNeeded(sys, env, cfg, c, b, a);
    OutsideIsBounded(sys, c);
    PartsOfBounded(sys, env, cfg, 0, 1, 0);
    ExecutedAndCompletedExactly(sys, env, cfg, 0, 1, a);
    ExecutedAndCompletedExactly(sys, env, cfg, 0, 1, c);
    KindCompletes(sys, c, Pending, a);
    AlwaysMeansNow(Pending, a, env, cfg);
    UnkindFails(sys, c, StartState(sys, c), 0);
    RunIsSnapshot(sys, env, cfg, 0, 1);
    LoggedHasEnded(sys, Run(sys, env, cfg), env, cfg, c);
    NotDoneFailed(Run(sys, env, cfg).sched.tasks, c);
  }

  lemma AlwaysMeansNow(state: TaskState, id: TaskId, env: Env, cfg: Config)
    requires AlwaysEndsDone(state, id, env, cfg)
    ensures EndsDone(state, id, env.input(0, id), cfg)
  {
    hide EndsDone;
  }

  lemma NotDoneFailed(tasks: map<TaskId, Task>, id: TaskId)
    requires id in tasks && tasks[id].status in {TaskCompleted, TaskFailed} && !IsDone(tasks, id)
    ensures HasFailed(tasks, id)
  {
  }

  /** Registering leaves every task as fresh as it was. */
  lemma RegisteredIsFresh(sys: System, limit: nat)
    requires CleanStart(sys) && FreshTasks(sys, limit)
    ensures FreshTasks(RegisterAll(sys, sys.dag.order), limit)
  {
    var r := RegisterAll(sys, sys.dag.order);
    RegistrationShape(sys);
    hide CleanStart, RegisterAll, Consistent;
    forall id | id in r.sched.tasks && r.sched.tasks[id].status == TaskPending
      ensures r.sched.tasks[id].retryAttempts == 0 && r.sched.tasks[id].nextRetryAt == None
      ensures r.sched.tasks[id].maxRetryAttempts >= limit
    {
      RegisteredRecord(sys, id);
    }
  }

  lemma OrderLists(sys: System, r: System)
    requires CleanStart(sys) && SameTasks(r) && r.dag == sys.dag
    ensures Lists(sys.dag.order, r.sched.tasks.Keys)
  {
  }

  lemma NoStates(sys: System)
    requires sys.states == map[]
    ensures forall id :: id !in sys.states && StartState(sys, id) == Pending
  {
  }

  /** A clean start of tasks in PENDING may be resumed once it is registered. */
  lemma PendingMayResume(sys: System, loads: Checkpoints, limit: nat)
    requires CleanStart(sys) && sys.restored == {} && sys.states == map[] && FreshTasks(sys, limit)
    ensures var r := RegisterAll(sys, sys.dag.order);
      && ResumeStart(r, loads) && Lists(sys.dag.order, r.sched.tasks.Keys) && FreshTasks(r, limit)
      && r.dag == sys.dag && r.sched.cap == sys.sched.cap
      && forall id :: id in sys.dag.nodes ==> id in r.states && r.states[id] == Pending
  {
    var r := RegisterAll(sys, sys.dag.order);
    hide *;
    RegistrationShape(sys);
    OrderLists(sys, r);
    NoStates(sys);
    RegisteredMayResume(sys, loads);
    RegisteredIsFresh(sys, limit);
    RegistrationKeepsCap(sys);
    forall id | id in sys.dag.nodes ensures id in r.states && r.states[id] == Pending {
      RegisteredRecord(sys, id);
    }
  }

  /** The three tasks as registered. */
  lemma ThreeMayResume(c: TaskId, b: TaskId, a: TaskId)
    requires c != b && b != a && a != c
    ensures var sys := ThreeTasks(c, b, a);
      var r := RegisterAll(sys, [c, b, a]);
      && ResumeStart(r, SavedOnly(b)) && Lists([c, b, a], r.sched.tasks.Keys) && FreshTasks(r, 1)
      && r.dag == Row(c, b, a) && Mirrored(r.dag) && r.sched.cap == 1 && a in r.states && r.states[a] == Pending
  {
    assert Row(c, b, a).order == [c, b, a];
    hide *;
    ThreeTasksAreClean(c, b, a);
    RowIsMirrored(c, b, a);
    PendingMayResume(ThreeTasks(c, b, a), SavedOnly(b), 1);
  }

  /** The dependencies of the three tasks after restoring, and which of them was restored. */
  lemma RestoredRow(d: Dag, restored: set<TaskId>, c: TaskId, b: TaskId, a: TaskId)
    requires c != b && b != a && a != c && SameGraph(Row(c, b, a), d)
    requires forall id :: id in {c, b, a} ==> (id in restored <==> Checkpointed(SavedOnly(b)(id)))
    ensures d.nodes.Keys == {c, b, a} && d.nodes[a].dependencies == [b] && d.nodes[b].dependencies == [c]
    ensures d.nodes[c].dependencies == [] && b in restored && a !in restored && c !in restored
    ensures !Checkpointed(SavedOnly(b)(a)) && IsDependencyChain(d, [a, b, c])
  {
  }

  /** A checkpoint of a task without one of its dependency: `c` is rejected and fails, and `a`,
      which depends on it by way of the restored `b`, is executed and completed all the same. */
  lemma CheckpointBreaksOrder(c: TaskId, b: TaskId, a: TaskId)
    requires c != b && b != a && a != c && "" !in {c, b, a}
    ensures var resumption := RestoreAll(RegisterAll(ThreeTasks(c, b, a), [c, b, a]), [c, b, a], SavedOnly(b));
      var r := Run(resumption.sys, AllBut(c), Patiently(resumption.sys));
      && resumption.ok && IsDependencyChain(resumption.sys.dag, [a, b, c])
      && a in r.log && IsDone(r.sched.tasks, a) && HasFailed(r.sched.tasks, c)
  {
    hide *;
    var ids, loads := [c, b, a], SavedOnly(b);
    var registered := RegisterAll(ThreeTasks(c, b, a), ids);
    var resumed := RestoreAll(registered, ids, loads).sys;
    ThreeMayResume(c, b, a);
    RowIsMirrored(c, b, a);
    ResumedFrame(registered, ids, loads);
    ResumedIsReady(registered, ids, loads);
    ResumedTasksAreFresh(registered, ids, loads, 1);
    RestoredRow(resumed.dag, resumed.restored, c, b, a);
    ResumedStates(registered, ids, loads, a);
    OrderBroken(resumed, c, b, a);
  }
}
