/** One run of a workflow as a function of what the outside answers:
    agentManager/runtime/workflow_coordinator.py on values. */
module Workflow {
  import opened Wrappers
  import opened Sequences
  import opened TaskKeys
  import opened Dags
  import opened Scheduling
  import opened StateMachines
  import opened TaskExecution
  import opened Recovery

  // ---------- System, configuration and inputs ----------

  /** The three stores, and a record of the run: sandbox calls per task, the tasks handed to
      the executor, in order, the tasks restored from checkpoints before the run, and whether
      an exception has ended it. */
  datatype System = System(
    dag: Dag, sched: Sched, states: States, calls: map<TaskId, nat>, log: seq<TaskId>,
    restored: set<TaskId>, raised: bool)

  datatype Config = Config(
    maxRetries: int, maxIterations: int, recovery: bool, allowDefectRepair: bool)

  /** What one execution of a task meets: sandbox and checkpoint store, the class of the error,
      the workflow id and the source code in the node's metadata, and what a recovery meets. */
  datatype ExecInput = ExecInput(
    run: RunInput, failure: FailureType, workflowId: string, code: string, recovery: RecoveryInput)

  /** Per iteration: the clock, the order in which the running set is listed, and the
      answers each executed task gets. */
  datatype Env = Env(
    clock: nat -> Clock, order: (nat, set<TaskId>) -> seq<TaskId>, input: (nat, TaskId) -> ExecInput)

  ghost predicate Lists(s: seq<TaskId>, elements: set<TaskId>) {
    Distinct(s) && forall x :: x in s <==> x in elements
  }

  ghost predicate ValidEnv(env: Env) {
    forall i: nat, ids: set<TaskId> :: Lists(env.order(i, ids), ids)
  }

  // ---------- The steps of one iteration ----------

  /** `_register_missing_tasks`, for one node. */
  function RegisterOne(sys: System, id: TaskId): System {
    if id !in sys.dag.nodes then sys else
    var node := sys.dag.nodes[id];
    sys.(sched := Added(sys.sched, id, NewTask(node.priority, node.dependencies, DEFAULT_MAX_RETRY_ATTEMPTS)),
         states := Ensured(sys.states, id))
  }

  function RegisterAll(sys: System, ids: seq<TaskId>): (r: System)
    ensures r.dag == sys.dag && r.restored == sys.restored && r.raised == sys.raised
  {
    if ids == [] then sys else RegisterOne(RegisterAll(sys, ids[..|ids| - 1]), ids[|ids| - 1])
  }

  function MarkReadyOne(states: States, id: TaskId): States {
    var s := Ensured(states, id);
    if s[id] == Pending then s[id := Ready] else s
  }

  function MarkReadyAll(states: States, ids: seq<TaskId>): States {
    if ids == [] then states
    else MarkReadyOne(MarkReadyAll(states, ids[..|ids| - 1]), ids[|ids| - 1])
  }

  predicate HasFailed(tasks: map<TaskId, Task>, id: TaskId) {
    id in tasks && tasks[id].status == TaskFailed
  }

  /** `_set_failed_state` */
  function SetFailedState(states: States, id: TaskId): States {
    var s := Ensured(states, id);
    if s[id] in {Completed, BlockedHitl, Failed} then s else s[id := Failed]
  }

  function FailedNode(node: DagNode): DagNode {
    if node.status in {NodeCompleted, NodeFailed} then node else node.(status := NodeFailed)
  }

  /** `_sync_scheduler_failures`, for one task. */
  function SyncOne(sys: System, id: TaskId): System {
    if !HasFailed(sys.sched.tasks, id) then sys
    else
      sys.(dag := if id in sys.dag.nodes
                  then sys.dag.(nodes := sys.dag.nodes[id := FailedNode(sys.dag.nodes[id])]) else sys.dag,
           states := SetFailedState(sys.states, id))
  }

  /** `_sync_scheduler_failures`, for a set of tasks in any order. */
  function SyncedNodes(nodes: map<TaskId, DagNode>, tasks: map<TaskId, Task>, ids: set<TaskId>)
    : map<TaskId, DagNode>
  {
    map id | id in nodes :: if id in ids && HasFailed(tasks, id) then FailedNode(nodes[id]) else nodes[id]
  }

  function SyncedStates(states: States, tasks: map<TaskId, Task>, ids: set<TaskId>): States {
    map id | id in states.Keys + (set x | x in ids && HasFailed(tasks, x)) ::
      if id in ids && HasFailed(tasks, id) then SetFailedState(states, id)[id] else states[id]
  }

  function Synced(sys: System, ids: set<TaskId>): System {
    sys.(dag := sys.dag.(nodes := SyncedNodes(sys.dag.nodes, sys.sched.tasks, ids)),
         states := SyncedStates(sys.states, sys.sched.tasks, ids))
  }

  lemma SyncNone(sys: System)
    ensures Synced(sys, {}) == sys
  {
    assert Synced(sys, {}).dag.nodes == sys.dag.nodes && Synced(sys, {}).states == sys.states;
  }

  lemma SyncOneMore(sys: System, ids: set<TaskId>, id: TaskId)
    requires id !in ids
    ensures SyncOne(Synced(sys, ids), id) == Synced(sys, ids + {id})
  {
    SyncNodesOneMore(sys.dag.nodes, sys.sched.tasks, ids, id);
    SyncStatesOneMore(sys.states, sys.sched.tasks, ids, id);
    hide SyncedNodes, SyncedStates, FailedNode, SetFailedState, HasFailed;
  }

  lemma SyncNodesOneMore(nodes: map<TaskId, DagNode>, tasks: map<TaskId, Task>, ids: set<TaskId>, id: TaskId)
    requires id !in ids
    ensures var synced := SyncedNodes(nodes, tasks, ids);
      && (id in synced <==> id in nodes)
      && SyncedNodes(nodes, tasks, ids + {id})
         == if HasFailed(tasks, id) && id in nodes then synced[id := FailedNode(synced[id])] else synced
  {
  }

  lemma SyncStatesOneMore(states: States, tasks: map<TaskId, Task>, ids: set<TaskId>, id: TaskId)
    requires id !in ids
    ensures var synced := SyncedStates(states, tasks, ids);
      SyncedStates(states, tasks, ids + {id}) == if HasFailed(tasks, id) then SetFailedState(synced, id) else synced
  {
  }

  /** An iteration up to the point where failures have been synchronised. */
  ghost function Dispatched(sys: System, now: Clock): (r: System)
    ensures r.restored == sys.restored && r.raised == sys.raised
  {
    var ready := ReadyNodes(sys.dag);
    var started := sys.(states := MarkReadyAll(sys.states, ready), sched := Pass(Cleared(sys.sched, ready), now));
    Synced(started, started.sched.tasks.Keys)
  }

  // ---------- Executing one task ----------

  /** The recovery context the coordinator builds from an error. */
  function ContextFor(id: TaskId, input: ExecInput, cfg: Config): RecoveryContext {
    var strategy :=
      if input.failure == RuntimeFailure && input.recovery.pipeline.Some? && cfg.allowDefectRepair
      then DefectRepair else SelectStrategy(input.failure);
    RecoveryContext(id, input.failure, Some(strategy), 0, "", "")
  }

  /** `_recover_failed_task` */
  function RecoveryOf(states: States, id: TaskId, input: ExecInput, cfg: Config): Outcome {
    if !cfg.recovery then Outcome(states, false)
    else Recovered(states, ContextFor(id, input, cfg), Some(input.code), input.recovery, cfg.maxRetries)
  }

  /** Sandbox calls made by a recovery: those of a retry. */
  function RecoveryCalls(states: States, id: TaskId, input: ExecInput, cfg: Config): nat {
    if cfg.recovery && StrategyOf(ContextFor(id, input, cfg)) == Retry
    then RunOf(states, id, input.recovery.run, cfg.maxRetries).calls else 0
  }

  function CallsOf(calls: map<TaskId, nat>, id: TaskId): nat {
    if id in calls then calls[id] else 0
  }

  function WithStatus(d: Dag, id: TaskId, status: NodeStatus): Dag {
    if id in d.nodes then SetStatus(d, id, status) else d
  }

  datatype Verdict = TaskDone | TaskAgain | TaskLost

  /** What the coordinator concludes from the run and the recovery. */
  function VerdictOf(ran: RunOutcome, recovered: Outcome, id: TaskId): Verdict {
    if ran.succeeded then TaskDone
    else if recovered.success && id in recovered.states && recovered.states[id] == Completed then TaskDone
    else if recovered.success && id in recovered.states && recovered.states[id] == Ready then TaskAgain
    else TaskLost
  }

  /** `RecoveryContext.__post_init__` does not raise. */
  predicate ContextBuilds(id: TaskId, workflowId: string, error: string) {
    id != "" && workflowId != "" && error != ""
  }

  /** The recovery context is built outside the `try` around the recovery. */
  predicate Raises(states: States, id: TaskId, input: ExecInput, cfg: Config) {
    && !RunOf(states, id, input.run, cfg.maxRetries).succeeded && cfg.recovery
    && !ContextBuilds(id, input.workflowId, ErrorOf(states, id, input.run, cfg.maxRetries))
  }

  /** The exception leaves the node RUNNING and the task running in the scheduler. */
  function Interrupted(sys: System, id: TaskId, ran: RunOutcome): System {
    sys.(dag := WithStatus(sys.dag, id, NodeRunning), states := ran.states,
         calls := sys.calls[id := CallsOf(sys.calls, id) + ran.calls], log := sys.log + [id], raised := true)
  }

  /** The stores after a verdict. */
  ghost function Settled(sys: System, recovered: Outcome, verdict: Verdict, id: TaskId): System {
    match verdict
    case TaskDone =>
      sys.(sched := Finished(sys.sched, id), dag := WithStatus(sys.dag, id, NodeCompleted), states := recovered.states)
    case TaskAgain =>
      sys.(sched := Requeued(sys.sched, id), dag := WithStatus(sys.dag, id, NodePending), states := recovered.states)
    case TaskLost =>
      sys.(sched := Dropped(sys.sched, id), dag := WithStatus(sys.dag, id, NodeFailed),
           states := SetFailedState(recovered.states, id))
  }

  /** `_execute_scheduled_task`; nothing is executed once an exception has ended the run. */
  ghost function Executed(sys: System, id: TaskId, input: ExecInput, cfg: Config): (r: System)
    ensures r.restored == sys.restored && (sys.raised ==> r == sys)
  {
    if sys.raised then sys
    else if id !in sys.dag.nodes then sys.(sched := Dropped(sys.sched, id))
    else
      var ran := RunOf(sys.states, id, input.run, cfg.maxRetries);
      if Raises(sys.states, id, input, cfg) then Interrupted(sys, id, ran)
      else
        var recovered := if ran.succeeded then Outcome(ran.states, true) else RecoveryOf(ran.states, id, input, cfg);
        var more := if ran.succeeded then 0 else RecoveryCalls(ran.states, id, input, cfg);
        Settled(sys, recovered, VerdictOf(ran, recovered, id), id)
        .(calls := sys.calls[id := CallsOf(sys.calls, id) + ran.calls + more], log := sys.log + [id])
  }

  ghost function ExecutedAll(sys: System, ids: seq<TaskId>, i: nat, env: Env, cfg: Config): (r: System)
    ensures r.restored == sys.restored && (sys.raised ==> r == sys)
  {
    if ids == [] then sys
    else
      var id := ids[|ids| - 1];
      Executed(ExecutedAll(sys, ids[..|ids| - 1], i, env, cfg), id, env.input(i, id), cfg)
  }

  // ---------- The loop ----------

  /** `get_ready_nodes` raises. */
  ghost predicate LookupFails(d: Dag) {
    exists id :: Dangling(d, id)
  }

  function FirstFew(ids: seq<TaskId>, k: nat): (r: seq<TaskId>)
    ensures r <= ids
  {
    if k <= |ids| then ids[..k] else ids
  }

  /** The tasks an iteration executes, in the order in which the running set is listed. */
  ghost function Listed(sys: System, i: nat, env: Env): seq<TaskId> {
    env.order(i, Dispatched(sys, env.clock(i)).sched.running)
  }

  /** An iteration up to the point where `k` of its tasks have been executed. */
  ghost function Partly(sys: System, i: nat, k: nat, env: Env, cfg: Config): (r: System)
    ensures r.restored == sys.restored
  {
    if sys.raised then sys
    else if LookupFails(sys.dag) then sys.(raised := true)
    else ExecutedAll(Dispatched(sys, env.clock(i)), FirstFew(Listed(sys, i, env), k), i, env, cfg)
  }

  ghost function Iterated(sys: System, i: nat, env: Env, cfg: Config): (r: System)
    ensures r.restored == sys.restored
  {
    Partly(sys, i, |Listed(sys, i, env)|, env, cfg)
  }

  predicate AllTerminal(tasks: map<TaskId, Task>) {
    forall id :: id in tasks ==> tasks[id].status in {TaskCompleted, TaskFailed}
  }

  /** The main loop from iteration `i` on. */
  ghost function Looped(sys: System, i: nat, idle: nat, env: Env, cfg: Config): (r: System)
    ensures r.restored == sys.restored
    decreases cfg.maxIterations - i
  {
    if i >= cfg.maxIterations then sys
    else if LookupFails(sys.dag) then sys.(raised := true)
    else
      var d := Dispatched(sys, env.clock(i));
      if d.sched.running == {} then
        if AllTerminal(d.sched.tasks) || idle + 1 > 2 then d
        else Looped(d, i + 1, idle + 1, env, cfg)
      else
        var e := ExecutedAll(d, Listed(sys, i, env), i, env, cfg);
        if e.raised || AllTerminal(e.sched.tasks) then e else Looped(e, i + 1, 0, env, cfg)
  }

  /** `run_workflow` */
  ghost function Run(sys: System, env: Env, cfg: Config): (r: System)
    ensures r.restored == sys.restored
  {
    Looped(RegisterAll(sys, sys.dag.order), 0, 0, env, cfg)
  }

  function WithRunStatus(tasks: map<TaskId, Task>, status: RunStatus): set<TaskId> {
    set id | id in tasks && tasks[id].status == status
  }

  /** `WorkflowRunResult.success` */
  predicate Succeeds(tasks: map<TaskId, Task>) {
    && WithRunStatus(tasks, TaskFailed) == {}
    && |WithRunStatus(tasks, TaskCompleted)| == |tasks|
  }
}
