/** Resuming a workflow from checkpoints: `resume_workflow` of
    agentManager/runtime/workflow_coordinator.py on values. */
module WorkflowResumption {
  import opened Wrappers
  import opened Sequences
  import opened TaskKeys
  import opened Graphs
  import opened Dags
  import opened Scheduling
  import opened StateMachines
  import opened TaskExecution
  import opened Workflow
  import opened WorkflowSteps
  import opened WorkflowSafety
  import opened WorkflowProgress
  import opened WorkflowFates
  import opened WorkflowCompletion

  type Checkpoints = TaskId -> Load

  /** The loaded context says that the task completed. */
  predicate Checkpointed(load: Load) {
    load.Found? && load.context.status == ContextCompleted
  }

  /** `ok` is false where a transition raises. */
  datatype Resumption = Resumption(sys: System, ok: bool)

  predicate Restorable(sys: System, id: TaskId, load: Load) {
    id in sys.sched.tasks && sys.sched.tasks[id].status in {TaskPending, TaskRunning} && Checkpointed(load)
  }

  /** The loop body of `_restore_completed_tasks_from_checkpoints`. */
  function RestoreOne(sys: System, id: TaskId, load: Load): Resumption {
    if !Restorable(sys, id, load) then Resumption(sys, true)
    else
      var s := sys.(dag := WithStatus(sys.dag, id, NodeCompleted), sched := Finished(sys.sched, id),
                    restored := sys.restored + {id});
      if id in s.states && s.states[id] == Completed then Resumption(s, true)
      else Resumption(s.(states := Step(s.states, id, Completed)), CanStep(s.states, id, Completed))
  }

  function RestoreAll(sys: System, ids: seq<TaskId>, loads: Checkpoints): Resumption {
    if ids == [] then Resumption(sys, true)
    else
      var before, id := RestoreAll(sys, ids[..|ids| - 1], loads), ids[|ids| - 1];
      if !before.ok then before else RestoreOne(before.sys, id, loads(id))
  }

  /** Restoring this task raises: it was handed to a human, or is unknown. */
  predicate Stuck(sys: System, id: TaskId, load: Load) {
    Restorable(sys, id, load) && !(id in sys.states && sys.states[id] != BlockedHitl)
  }

  /** The stores of one task after the loop. */
  ghost predicate RestoredAs(sys: System, r: System, id: TaskId, hit: bool) {
    && Lookup(r.sched.tasks, id) == CompletedRecord(Lookup(sys.sched.tasks, id), hit)
    && Lookup(r.dag.nodes, id) == CompletedNode(Lookup(sys.dag.nodes, id), hit)
    && Lookup(r.states, id) == CompletedState(Lookup(sys.states, id), hit)
    && (id in r.restored <==> id in sys.restored || hit)
  }

  function CompletedRecord(t: Option<Task>, hit: bool): Option<Task> {
    if hit && t.Some? then Some(t.value.(status := TaskCompleted)) else t
  }

  function CompletedNode(node: Option<DagNode>, hit: bool): Option<DagNode> {
    if hit && node.Some? then Some(node.value.(status := NodeCompleted)) else node
  }

  function CompletedState(state: Option<TaskState>, hit: bool): Option<TaskState> {
    if hit && state.Some? then Some(Completed) else state
  }

  /** What never changes. */
  ghost predicate SameFrame(sys: System, r: System) {
    && r.log == sys.log && r.calls == sys.calls && r.raised == sys.raised && r.sched.cap == sys.sched.cap
    && r.dag.order == sys.dag.order && r.dag.graph == sys.dag.graph
    && r.sched.tasks.Keys == sys.sched.tasks.Keys && r.states.Keys == sys.states.Keys
    && r.dag.nodes.Keys == sys.dag.nodes.Keys
  }

  lemma RestoreOneFrame(sys: System, id: TaskId, load: Load)
    ensures var r := RestoreOne(sys, id, load);
      SameFrame(sys, r.sys) && (r.ok <==> !Stuck(sys, id, load))
  {
  }

  lemma RestoreOneIs(sys: System, id: TaskId, load: Load, x: TaskId)
    ensures var r := RestoreOne(sys, id, load);
      r.ok ==> RestoredAs(sys, r.sys, x, x == id && Restorable(sys, id, load))
  {
  }

  lemma RestoreOneConsistent(sys: System, id: TaskId, load: Load)
    requires Consistent(sys.sched)
    ensures Consistent(RestoreOne(sys, id, load).sys.sched)
  {
    FinishingKeepsConsistent(sys.sched, id);
    hide Consistent, Finished, WithStatus;
  }

  /** Only its own entry in the scheduler and the state machine decides whether a task is stuck. */
  lemma SameRecordSameFate(sys: System, r: System, id: TaskId, load: Load)
    requires RestoredAs(sys, r, id, false)
    ensures Restorable(r, id, load) <==> Restorable(sys, id, load)
    ensures Stuck(r, id, load) <==> Stuck(sys, id, load)
  {
    hide Checkpointed;
  }

  lemma RestoredTwice(a: System, b: System, c: System, x: TaskId, first: bool, second: bool)
    requires RestoredAs(a, b, x, first) && RestoredAs(b, c, x, second)
    ensures RestoredAs(a, c, x, first || second)
  {
  }

  lemma FrameTwice(a: System, b: System, c: System)
    requires SameFrame(a, b) && SameFrame(b, c)
    ensures SameFrame(a, c)
  {
  }

  lemma {:induction false} RestoreAllFrame(sys: System, ids: seq<TaskId>, loads: Checkpoints)
    ensures SameFrame(sys, RestoreAll(sys, ids, loads).sys)
    ensures Consistent(sys.sched) ==> Consistent(RestoreAll(sys, ids, loads).sys.sched)
  {
    hide Consistent, RestoreOne, SameFrame;
    FrameOfItself(sys);
    if ids != [] {
      var n := |ids| - 1;
      var before := RestoreAll(sys, ids[..n], loads);
      RestoreAllFrame(sys, ids[..n], loads);
      RestoreOneFrame(before.sys, ids[n], loads(ids[n]));
      FrameTwice(sys, before.sys, RestoreOne(before.sys, ids[n], loads(ids[n])).sys);
      if Consistent(before.sys.sched) {
        RestoreOneConsistent(before.sys, ids[n], loads(ids[n]));
      }
    }
  }

  lemma FrameOfItself(sys: System)
    ensures SameFrame(sys, sys)
  {
  }

  lemma {:induction false} RestoreAllIs(sys: System, ids: seq<TaskId>, loads: Checkpoints, x: TaskId)
    requires Distinct(ids)
    ensures var r := RestoreAll(sys, ids, loads);
      && (r.ok <==> forall id :: id in ids ==> !Stuck(sys, id, loads(id)))
      && (r.ok ==> RestoredAs(sys, r.sys, x, x in ids && Restorable(sys, x, loads(x))))
  {
    hide RestoreOne, RestoredAs, Stuck, Restorable;
    if ids == [] {
      RestoredAsBefore(sys, x);
    } else {
      var n := |ids| - 1;
      var last := ids[n];
      var before := RestoreAll(sys, ids[..n], loads);
      assert ids == ids[..n] + [last] && last !in ids[..n];
      assert forall id :: id in ids <==> id in ids[..n] || id == last;
      RestoreAllIs(sys, ids[..n], loads, last);
      RestoreAllIs(sys, ids[..n], loads, x);
      if before.ok {
        SameRecordSameFate(sys, before.sys, last, loads(last));
        RestoreOneFrame(before.sys, last, loads(last));
        RestoreOneIs(before.sys, last, loads(last), x);
        if !Stuck(sys, last, loads(last)) {
          RestoredTwice(sys, before.sys, RestoreOne(before.sys, last, loads(last)).sys, x,
                        x in ids[..n] && Restorable(sys, x, loads(x)), x == last && Restorable(sys, last, loads(last)));
        }
      }
    }
  }

  lemma RestoredAsBefore(sys: System, x: TaskId)
    ensures RestoredAs(sys, sys, x, false)
  {
  }

  /** Restoring raises exactly when a task that has a completed checkpoint, and that the
      scheduler still has to run, was handed to a human or is unknown to the state machine. */
  lemma RestoringRaisesIff(sys: System, ids: seq<TaskId>, loads: Checkpoints)
    requires Lists(ids, sys.sched.tasks.Keys)
    ensures !RestoreAll(sys, ids, loads).ok <==>
      exists id ::
        && id in sys.sched.tasks && sys.sched.tasks[id].status in {TaskPending, TaskRunning}
        && loads(id).Found? && loads(id).context.status == ContextCompleted
        && !(id in sys.states && sys.states[id] != BlockedHitl)
  {
    RestoreAllIs(sys, ids, loads, "");
    if id :| Stuck(sys, id, loads(id)) {
      assert id in ids;
    }
  }

  /** What restoring leaves where it does not raise: exactly the tasks that the scheduler has yet to
      finish and that have a completed checkpoint are completed in all stores. */
  lemma RestoringLeaves(sys: System, ids: seq<TaskId>, loads: Checkpoints, x: TaskId)
    requires Lists(ids, sys.sched.tasks.Keys) && RestoreAll(sys, ids, loads).ok
    ensures var r := RestoreAll(sys, ids, loads).sys;
      var hit := && x in sys.sched.tasks && sys.sched.tasks[x].status in {TaskPending, TaskRunning}
                 && loads(x).Found? && loads(x).context.status == ContextCompleted;
      && (x in r.restored <==> x in sys.restored || hit)
      && Lookup(r.sched.tasks, x) == (if hit then Some(sys.sched.tasks[x].(status := TaskCompleted))
                                      else Lookup(sys.sched.tasks, x))
      && Lookup(r.dag.nodes, x) == (if hit && x in sys.dag.nodes
                                    then Some(sys.dag.nodes[x].(status := NodeCompleted)) else Lookup(sys.dag.nodes, x))
      && Lookup(r.states, x) == (if hit then Some(Completed) else Lookup(sys.states, x))
      && (hit ==> x in sys.states && sys.states[x] != BlockedHitl)
  {
    RestoreAllIs(sys, ids, loads, x);
    assert x in sys.sched.tasks ==> x in ids;
    assert x in ids ==> !Stuck(sys, x, loads(x));
    hide RestoreAll;
  }

  // ---------- A resumed run ----------

  /** Registered and not yet run in this process; the state machine may remember anything, but
      not BLOCKED_HITL of a task with a completed checkpoint. */
  ghost predicate ResumeStart(sys: System, loads: Checkpoints) {
    && WellFormed(sys.dag) && DependenciesKnown(sys.dag) && Consistent(sys.sched) && SameTasks(sys)
    && sys.log == [] && sys.calls == map[] && sys.restored == {} && !sys.raised
    && forall id :: id in sys.dag.nodes ==> WaitsForResume(sys, loads, id)
  }

  ghost predicate WaitsForResume(sys: System, loads: Checkpoints, id: TaskId)
    requires SameTasks(sys) && id in sys.dag.nodes
  {
    && sys.dag.nodes[id].status == NodePending
    && sys.sched.tasks[id].status == TaskPending
    && sys.sched.tasks[id].dependencies == sys.dag.nodes[id].dependencies
    && (Checkpointed(loads(id)) ==> sys.states[id] != BlockedHitl)
  }

  /** A clean start is ready to be resumed once it is registered, if no task with a completed
      checkpoint is in BLOCKED_HITL. */
  lemma RegisteredMayResume(sys: System, loads: Checkpoints)
    requires CleanStart(sys) && sys.restored == {}
    requires forall id :: id in sys.dag.nodes && Checkpointed(loads(id)) ==> StartState(sys, id) != BlockedHitl
    ensures ResumeStart(RegisterAll(sys, sys.dag.order), loads)
  {
    var r := RegisterAll(sys, sys.dag.order);
    RegistrationShape(sys);
    NotRaisedAtStart(sys);
    hide RegisterAll, Consistent, Checkpointed;
    forall id | id in sys.dag.nodes ensures SameTasks(r) && WaitsForResume(r, loads, id) {
      RegisteredRecord(sys, id);
    }
  }

  ghost predicate ClosedAt(d: Dag, loads: Checkpoints, id: TaskId)
    requires id in d.nodes
  {
    Checkpointed(loads(id)) ==> forall dep :: dep in d.nodes[id].dependencies ==> Checkpointed(loads(dep))
  }

  /** A completed checkpoint comes with one for each dependency. */
  ghost predicate ClosedCheckpoints(d: Dag, loads: Checkpoints) {
    forall id :: id in d.nodes ==> ClosedAt(d, loads, id)
  }

  /** The stores of a task when a restoration that did not raise is over. */
  lemma ResumedTask(sys: System, ids: seq<TaskId>, loads: Checkpoints, id: TaskId)
    requires ResumeStart(sys, loads) && Lists(ids, sys.sched.tasks.Keys) && id in sys.dag.nodes
    ensures RestoreAll(sys, ids, loads).ok
    ensures RestoredAs(sys, RestoreAll(sys, ids, loads).sys, id, Checkpointed(loads(id)))
  {
    assert SameTasks(sys) && WaitsForResume(sys, loads, id);
    forall x | x in ids ensures !Stuck(sys, x, loads(x)) {
      assert WaitsForResume(sys, loads, x);
    }
    hide Consistent, RestoreAll, WellFormed, DependenciesKnown, ResumeStart, RestoredAs, Checkpointed, Stuck;
    RestoreAllIs(sys, ids, loads, id);
  }

  lemma ResumedFrame(sys: System, ids: seq<TaskId>, loads: Checkpoints)
    requires ResumeStart(sys, loads) && Lists(ids, sys.sched.tasks.Keys)
    ensures var r := RestoreAll(sys, ids, loads);
      r.ok && SameFrame(sys, r.sys) && Consistent(r.sys.sched) && SameGraph(sys.dag, r.sys.dag)
  {
    var r := RestoreAll(sys, ids, loads);
    RestoreAllFrame(sys, ids, loads);
    RestoreAllIs(sys, ids, loads, "");
    assert Consistent(sys.sched);
    forall x | x in ids ensures !Stuck(sys, x, loads(x)) {
      assert WaitsForResume(sys, loads, x);
    }
    hide Consistent, RestoreAll, ResumeStart, Stuck, WellFormed, Checkpointed;
    forall x | x in sys.dag.nodes ensures r.sys.dag.nodes[x].dependencies == sys.dag.nodes[x].dependencies {
      ResumedTask(sys, ids, loads, x);
    }
  }

  lemma ResumedTaskIsClean(sys: System, r: System, loads: Checkpoints, id: TaskId)
    requires SameTasks(sys) && SameFrame(sys, r) && id in sys.dag.nodes && WaitsForResume(sys, loads, id)
    requires sys.restored == {} && RestoredAs(sys, r, id, Checkpointed(loads(id)))
    ensures CleanTask(r, id) || RestoredTask(r, id)
  {
    assert Lookup(sys.dag.nodes, id) == Some(sys.dag.nodes[id]);
    hide Checkpointed;
  }

  /** Restoring succeeds, and gives a clean start for the run, whichever checkpoints there are. */
  lemma ResumedStartIsClean(sys: System, ids: seq<TaskId>, loads: Checkpoints)
    requires ResumeStart(sys, loads) && Lists(ids, sys.sched.tasks.Keys)
    ensures RestoreAll(sys, ids, loads).ok
    ensures CleanStart(RestoreAll(sys, ids, loads).sys)
  {
    var r := RestoreAll(sys, ids, loads).sys;
    ResumedFrame(sys, ids, loads);
    StartFacts(sys, loads);
    hide RestoreAll, Consistent, WellFormed, CleanTask, RestoredTask, Checkpointed, ResumeStart, RestoredAs,
      WaitsForResume;
    SameShapeKeepsDag(sys.dag, r.dag);
    forall id | id in sys.dag.nodes ensures CleanTask(r, id) || RestoredTask(r, id) {
      ResumedTask(sys, ids, loads, id);
      ResumedTaskIsClean(sys, r, loads, id);
    }
  }

  /** The restored tasks are closed under dependencies exactly when every completed checkpoint
      comes with one for each dependency. */
  lemma RestoredAreClosedIff(sys: System, ids: seq<TaskId>, loads: Checkpoints)
    requires ResumeStart(sys, loads) && Lists(ids, sys.sched.tasks.Keys)
    ensures var resumed := RestoreAll(sys, ids, loads).sys;
      ClosedRestoration(resumed.dag, resumed.restored) <==> ClosedCheckpoints(sys.dag, loads)
  {
    var resumed := RestoreAll(sys, ids, loads).sys;
    StartFacts(sys, loads);
    hide *;
    ResumedFrame(sys, ids, loads);
    forall id | id in sys.dag.nodes ensures id in resumed.restored <==> Checkpointed(loads(id)) {
      ResumedMembership(sys, ids, loads, id);
    }
    SameClosure(sys.dag, resumed.dag, resumed.restored, loads);
  }

  lemma SameClosure(d: Dag, d': Dag, restored: set<TaskId>, loads: Checkpoints)
    requires SameGraph(d, d') && DependenciesKnown(d)
    requires forall id :: id in d.nodes ==> (id in restored <==> Checkpointed(loads(id)))
    ensures ClosedRestoration(d', restored) <==> ClosedCheckpoints(d, loads)
  {
    hide Checkpointed;
    if ClosedCheckpoints(d, loads) {
      forall id, dep | id in d'.nodes && id in restored && dep in d'.nodes[id].dependencies ensures dep in restored {
        assert ClosedAt(d, loads, id);
      }
    }
  }

  lemma StartFacts(sys: System, loads: Checkpoints)
    requires ResumeStart(sys, loads)
    ensures WellFormed(sys.dag) && DependenciesKnown(sys.dag) && SameTasks(sys)
    ensures sys.log == [] && sys.calls == map[] && sys.restored == {} && !sys.raised
    ensures forall id :: id in sys.dag.nodes ==> WaitsForResume(sys, loads, id)
  {
  }

  lemma ResumedMembership(sys: System, ids: seq<TaskId>, loads: Checkpoints, id: TaskId)
    requires ResumeStart(sys, loads) && Lists(ids, sys.sched.tasks.Keys) && id in sys.dag.nodes
    ensures id in RestoreAll(sys, ids, loads).sys.restored <==> Checkpointed(loads(id))
  {
    ResumedTask(sys, ids, loads, id);
    assert sys.restored == {};
    hide RestoreAll, Checkpointed, Consistent, WellFormed;
  }

  lemma UnrestoredIsOld(sys: System, r: System, id: TaskId, hit: bool)
    requires RestoredAs(sys, r, id, hit) && id in sys.sched.tasks && id in sys.states
    requires id in r.sched.tasks && id in r.states
    ensures r.sched.tasks[id].status == TaskPending ==> r.sched.tasks[id] == sys.sched.tasks[id]
    ensures !hit ==> r.states[id] == sys.states[id]
  {
  }

  lemma ResumedRecord(sys: System, ids: seq<TaskId>, loads: Checkpoints, id: TaskId)
    requires ResumeStart(sys, loads) && Lists(ids, sys.sched.tasks.Keys) && id in sys.dag.nodes
    ensures var r := RestoreAll(sys, ids, loads).sys;
      && id in sys.sched.tasks && id in sys.states && id in r.sched.tasks && id in r.states
      && (r.sched.tasks[id].status == TaskPending ==> r.sched.tasks[id] == sys.sched.tasks[id])
      && (!Checkpointed(loads(id)) ==> r.states[id] == sys.states[id])
  {
    var r := RestoreAll(sys, ids, loads).sys;
    ResumedFrame(sys, ids, loads);
    assert SameTasks(sys) && r.sched.tasks.Keys == sys.sched.tasks.Keys && r.states.Keys == sys.states.Keys;
    hide *;
    ResumedTask(sys, ids, loads, id);
    UnrestoredIsOld(sys, r, id, Checkpointed(loads(id)));
  }

  lemma ResumedTasksAreFresh(sys: System, ids: seq<TaskId>, loads: Checkpoints, limit: nat)
    requires ResumeStart(sys, loads) && Lists(ids, sys.sched.tasks.Keys) && FreshTasks(sys, limit)
    ensures FreshTasks(RestoreAll(sys, ids, loads).sys, limit)
  {
    var r := RestoreAll(sys, ids, loads).sys;
    ResumedFrame(sys, ids, loads);
    assert r.sched.tasks.Keys == sys.sched.tasks.Keys == sys.dag.nodes.Keys == r.dag.nodes.Keys;
    hide *;
    forall id | id in r.sched.tasks
      ensures r.sched.tasks[id].status == TaskPending ==> r.sched.tasks[id] == sys.sched.tasks[id]
    {
      ResumedRecord(sys, ids, loads, id);
    }
    StillFresh(sys, r, limit);
  }

  lemma StillFresh(sys: System, r: System, limit: nat)
    requires FreshTasks(sys, limit) && r.sched.tasks.Keys == sys.sched.tasks.Keys == r.dag.nodes.Keys
    requires forall id :: id in r.sched.tasks && r.sched.tasks[id].status == TaskPending ==>
      r.sched.tasks[id] == sys.sched.tasks[id]
    ensures FreshTasks(r, limit)
  {
  }

  lemma ResumedIsReady(sys: System, ids: seq<TaskId>, loads: Checkpoints)
    requires ResumeStart(sys, loads) && Lists(ids, sys.sched.tasks.Keys)
    requires Mirrored(sys.dag)
    ensures var resumed := RestoreAll(sys, ids, loads).sys;
      && CleanStart(resumed) && Mirrored(resumed.dag)
      && resumed.sched.cap == sys.sched.cap && resumed.dag.graph == sys.dag.graph
      && resumed.dag.nodes.Keys == sys.dag.nodes.Keys == sys.dag.graph.Keys
      && forall id :: id in sys.dag.nodes ==> (id in resumed.restored <==> Checkpointed(loads(id)))
  {
    var resumed := RestoreAll(sys, ids, loads).sys;
    StartFacts(sys, loads);
    GraphOfWellFormed(sys.dag);
    hide *;
    ResumedStartIsClean(sys, ids, loads);
    ResumedFrame(sys, ids, loads);
    FrameFacts(sys, resumed);
    SameGraphKeepsMirrored(sys.dag, resumed.dag);
    forall id | id in sys.dag.nodes ensures id in resumed.restored <==> Checkpointed(loads(id)) {
      ResumedMembership(sys, ids, loads, id);
    }
  }

  lemma ResumedStates(sys: System, ids: seq<TaskId>, loads: Checkpoints, id: TaskId)
    requires ResumeStart(sys, loads) && Lists(ids, sys.sched.tasks.Keys) && id in sys.dag.nodes
    requires !Checkpointed(loads(id))
    ensures id in sys.states && StartState(RestoreAll(sys, ids, loads).sys, id) == sys.states[id]
  {
    ResumedRecord(sys, ids, loads, id);
    hide RestoreAll, ResumeStart, Checkpointed;
  }

  /** A task found in `state` can be completed by a willing sandbox, or is by a repair. */
  predicate Completable(state: TaskState, id: TaskId, input: ExecInput, cfg: Config) {
    Legal(state, Implementing) || (state != BlockedHitl && Repairs(state, id, input, cfg))
  }

  /** The sandbox accepts every task in time and its checkpoint is saved; repairs do not depend
      on the iteration. */
  ghost predicate Willing(env: Env, cfg: Config) {
    && (forall i: nat, id ::
          SandboxAccepts(env.input(i, id).run, cfg.maxRetries) && env.input(i, id).run.saveError.None?)
    && forall i: nat, id, state ::
         Repairs(state, id, env.input(i, id), cfg) == Repairs(state, id, env.input(0, id), cfg)
  }

  lemma WillingMeansSteady(sys: System, env: Env, cfg: Config)
    requires Willing(env, cfg)
    ensures Steady(sys, env, cfg)
    ensures forall state, i: nat, id {:trigger EndsDone(state, id, env.input(i, id), cfg)} ::
      EndsDone(state, id, env.input(i, id), cfg) <==> Completable(state, id, env.input(0, id), cfg)
  {
    hide SandboxAccepts, Repairs;
  }

  /** A workflow resumed under a willing sandbox, whatever states an interrupted run has left
      behind, succeeds exactly when every task without a completed checkpoint is in a state from
      which IMPLEMENTING is legal, or is completed by a repair and not in BLOCKED_HITL. */
  lemma ResumedWorkflowSucceedsIff(sys: System, ids: seq<TaskId>, loads: Checkpoints, env: Env, cfg: Config,
                                   start: Time, limit: nat)
    requires ResumeStart(sys, loads) && Lists(ids, sys.sched.tasks.Keys)
    requires Mirrored(sys.dag) && sys.sched.cap >= 1 && FreshTasks(sys, limit)
    requires Prompt(env, start, limit) && Willing(env, cfg)
    requires cfg.maxIterations >= |set id | id in sys.dag.nodes && !Checkpointed(loads(id))|
    ensures Succeeds(Run(RestoreAll(sys, ids, loads).sys, env, cfg).sched.tasks) <==>
      forall id :: id in sys.dag.nodes && id in sys.states && !Checkpointed(loads(id)) ==>
        Completable(sys.states[id], id, env.input(0, id), cfg)
  {
    var resumed := RestoreAll(sys, ids, loads).sys;
    hide *;
    ResumedIsReady(sys, ids, loads);
    ResumedTasksAreFresh(sys, ids, loads, limit);
    var left := set id | id in sys.dag.nodes && !Checkpointed(loads(id));
    assert resumed.dag.nodes.Keys - resumed.restored == left;
    WillingMeansSteady(resumed, env, cfg);
    RunSucceedsIff(resumed, env, cfg, start, limit);
    forall id | id in left
      ensures id in sys.states && (EndsDone(StartState(resumed, id), id, env.input(0, id), cfg) <==>
        Completable(sys.states[id], id, env.input(0, id), cfg))
    {
      ResumedStates(sys, ids, loads, id);
    }
  }

  /** When it succeeds, it has executed exactly the tasks without a completed checkpoint, in a
      topological order, and completed every task in all stores. */
  lemma ResumedWorkflowCompletes(sys: System, ids: seq<TaskId>, loads: Checkpoints, env: Env, cfg: Config)
    requires ResumeStart(sys, loads) && Lists(ids, sys.sched.tasks.Keys)
    requires Mirrored(sys.dag) && ValidEnv(env)
    requires Succeeds(Run(RestoreAll(sys, ids, loads).sys, env, cfg).sched.tasks)
    ensures var resumed := RestoreAll(sys, ids, loads).sys;
      var r := Run(resumed, env, cfg);
      && AllDone(r) && IsTopologicalOrder(sys.dag.graph, r.log, resumed.restored)
      && forall id :: id in sys.dag.nodes ==> (id in r.log <==> !Checkpointed(loads(id)))
  {
    var resumed := RestoreAll(sys, ids, loads).sys;
    hide *;
    ResumedIsReady(sys, ids, loads);
    SuccessMeansTopologicalOrder(resumed, env, cfg);
    TopologicalMembers(sys.dag.graph, Run(resumed, env, cfg).log, resumed.restored);
  }

  lemma GraphOfWellFormed(d: Dag)
    requires WellFormed(d)
    ensures d.graph.Keys == d.nodes.Keys
  {
  }

  lemma FrameFacts(sys: System, r: System)
    requires SameFrame(sys, r)
    ensures r.sched.cap == sys.sched.cap && r.dag.graph == sys.dag.graph && r.dag.nodes.Keys == sys.dag.nodes.Keys
  {
  }

  lemma TopologicalMembers(g: Graph, order: seq<TaskId>, restored: set<TaskId>)
    requires IsTopologicalOrder(g, order, restored)
    ensures forall x :: x in order <==> x in g && x !in restored
  {
  }
}
