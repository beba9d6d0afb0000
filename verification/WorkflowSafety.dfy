/** What holds of every run from a clean start, whatever sandbox, clock, checkpoint store
    and recovery answer. */
module WorkflowSafety {
  import opened Sequences
  import opened TaskKeys
  import opened Graphs
  import opened Dags
  import opened Scheduling
  import opened StateMachines
  import opened TaskExecution
  import opened Workflow
  import opened WorkflowSteps

  // ---------- The invariant of a run ----------

  /** Executed in this run, or restored as completed before it. */
  predicate HasRun(sys: System, id: TaskId) {
    id in sys.log || id in sys.restored
  }

  /** What scheduler, graph and log say about one task, and how the state machine follows. Only
      an exception leaves an executed task running. */
  ghost predicate Coherent(sys: System, id: TaskId)
    requires id in sys.dag.nodes && id in sys.sched.tasks && id in sys.states
  {
    var t, node, state := sys.sched.tasks[id], sys.dag.nodes[id].status, sys.states[id];
    && t.dependencies == sys.dag.nodes[id].dependencies
    && (match t.status
        case TaskPending => node == NodePending && !HasRun(sys, id)
        case TaskRunning =>
          || (node == NodePending && !HasRun(sys, id))
          || (sys.raised && node == NodeRunning && id in sys.log)
        case TaskCompleted => node == NodeCompleted && state == Completed && HasRun(sys, id)
        case TaskFailed => node == NodeFailed && state in {Failed, BlockedHitl, Completed} && id !in sys.restored)
    && (t.status == TaskRunning || id in sys.log ==> ConflictFree(sys.sched.tasks, id))
    && !(id in sys.log && id in sys.restored)
  }

  /** A task occurs once in the log, behind all its dependencies that were not restored. */
  ghost predicate LogInOrder(log: seq<TaskId>, restored: set<TaskId>, nodes: map<TaskId, DagNode>) {
    && Distinct(log)
    && forall i :: 0 <= i < |log| ==> DependenciesBefore(log, restored, nodes, i)
  }

  ghost predicate DependenciesBefore(log: seq<TaskId>, restored: set<TaskId>, nodes: map<TaskId, DagNode>, i: int)
    requires 0 <= i < |log|
  {
    log[i] in nodes && forall dep :: dep in nodes[log[i]].dependencies ==> dep in log[..i] || dep in restored
  }

  ghost predicate CallsBounded(sys: System, cfg: Config) {
    forall id :: CallsOf(sys.calls, id) <= if id in sys.log then Budget(cfg.maxRetries) else 0
  }

  ghost predicate Inv(sys: System, cfg: Config) {
    && WellFormed(sys.dag) && DependenciesKnown(sys.dag)
    && Consistent(sys.sched) && SameTasks(sys)
    && (forall id :: id in sys.dag.nodes ==> Coherent(sys, id))
    && LogInOrder(sys.log, sys.restored, sys.dag.nodes)
    && CallsBounded(sys, cfg)
  }

  // ---------- Executing a running task keeps the invariant ----------

  ghost predicate IsRunning(sys: System, id: TaskId) {
    id in sys.sched.tasks && sys.sched.tasks[id].status == TaskRunning
  }

  lemma FinishingKeepsConsistent(s: Sched, id: TaskId)
    requires Consistent(s)
    ensures Consistent(Finished(s, id)) && Consistent(Dropped(s, id))
  {
    hide Consistent;
    ApplyKeepsConsistent(s, MarkCompleted(id));
    ApplyKeepsConsistent(s, MarkFailed(id));
  }

  /** What an execution, raising or not, leaves of the stores of the executed task. */
  ghost predicate ExecutedStores(sys: System, r: System, id: TaskId)
    requires id in sys.dag.nodes
  {
    && id in r.states && r.states == sys.states[id := r.states[id]]
    && r.log == sys.log + [id] && r.restored == sys.restored
    && if r.raised
       then r.sched == sys.sched && r.dag == SetStatus(sys.dag, id, NodeRunning)
       else
         || (&& r.sched == Finished(sys.sched, id) && r.dag == SetStatus(sys.dag, id, NodeCompleted)
             && r.states[id] == Completed)
         || (&& r.sched == Dropped(sys.sched, id) && r.dag == SetStatus(sys.dag, id, NodeFailed)
             && r.states[id] in {Failed, BlockedHitl, Completed})
  }

  lemma ExecutionLeaves(sys: System, id: TaskId, input: ExecInput, cfg: Config)
    requires !sys.raised && id in sys.dag.nodes && id in sys.states
    ensures var r := Executed(sys, id, input, cfg);
      ExecutedStores(sys, r, id) && Logged(sys, r, id, cfg, Legal(sys.states[id], Implementing))
  {
    if ExecutionRaises(sys.states[id], id, input, cfg) {
      TaskRaises(sys, id, input, cfg);
    } else {
      TaskExecutes(sys, id, input, cfg);
    }
    hide Executed, SandboxAccepts, Repairs, ExecutionRaises, Finished, Dropped, SetStatus, Logged;
  }

  lemma ExecutionKeepsCoherent(sys: System, r: System, id: TaskId, x: TaskId)
    requires SameTasks(sys) && x in sys.dag.nodes && Coherent(sys, x) && !sys.raised
    requires id in sys.dag.nodes && Coherent(sys, id) && IsRunning(sys, id)
    requires ExecutedStores(sys, r, id)
    ensures SameTasks(r) && Coherent(r, x)
  {
    if ConflictFree(sys.sched.tasks, x) {
      DoneStays(sys.sched.tasks, r.sched.tasks, id, x);
    }
    assert x in r.log <==> x in sys.log || x == id;
    hide ConflictFree, Coherent;
    if x != id {
      SameRecordStaysCoherent(sys, r, x);
    } else {
      OwnRecordIsCoherent(sys, r, id);
    }
  }

  lemma OwnRecordIsCoherent(sys: System, r: System, id: TaskId)
    requires SameTasks(sys) && id in sys.dag.nodes && Coherent(sys, id) && IsRunning(sys, id) && !sys.raised
    requires ExecutedStores(sys, r, id) && id in r.log && id in r.sched.tasks && ConflictFree(r.sched.tasks, id)
    ensures SameTasks(r) && Coherent(r, id)
  {
    hide ConflictFree;
  }

  lemma SameRecordStaysCoherent(sys: System, r: System, x: TaskId)
    requires SameTasks(sys) && x in sys.dag.nodes && Coherent(sys, x) && SameTasks(r)
    requires x in r.dag.nodes && r.sched.tasks[x] == sys.sched.tasks[x] && r.dag.nodes[x] == sys.dag.nodes[x]
    requires r.states[x] == sys.states[x] && (x in r.log <==> x in sys.log) && r.restored == sys.restored
    requires !sys.raised && (ConflictFree(sys.sched.tasks, x) ==> ConflictFree(r.sched.tasks, x))
    ensures Coherent(r, x)
  {
    hide ConflictFree;
  }

  /** Finishing or failing a running task undoes no dependency. */
  lemma DoneStays(tasks: map<TaskId, Task>, tasks': map<TaskId, Task>, id: TaskId, x: TaskId)
    requires x in tasks && ConflictFree(tasks, x) && id in tasks && tasks[id].status == TaskRunning
    requires tasks'.Keys == tasks.Keys && tasks'[x].dependencies == tasks[x].dependencies
    requires forall y :: y in tasks && y != id ==> tasks'[y] == tasks[y]
    ensures ConflictFree(tasks', x)
  {
    assert forall y :: IsDone(tasks, y) ==> IsDone(tasks', y);
  }

  lemma LogGrowsInOrder(log: seq<TaskId>, restored: set<TaskId>, nodes: map<TaskId, DagNode>, id: TaskId)
    requires LogInOrder(log, restored, nodes) && id in nodes && id !in log
    requires forall dep :: dep in nodes[id].dependencies ==> dep in log || dep in restored
    ensures LogInOrder(log + [id], restored, nodes)
  {
    var log' := log + [id];
    forall i | 0 <= i < |log'| ensures DependenciesBefore(log', restored, nodes, i) {
      if i < |log| {
        assert DependenciesBefore(log, restored, nodes, i) && log'[..i] == log[..i];
      } else {
        assert log'[..i] == log;
      }
    }
  }

  lemma SameDependenciesKeepLog(log: seq<TaskId>, restored: set<TaskId>,
                                nodes: map<TaskId, DagNode>, nodes': map<TaskId, DagNode>)
    requires LogInOrder(log, restored, nodes) && nodes'.Keys == nodes.Keys
    requires forall x :: x in nodes ==> nodes'[x].dependencies == nodes[x].dependencies
    ensures LogInOrder(log, restored, nodes')
  {
    forall i | 0 <= i < |log| ensures DependenciesBefore(log, restored, nodes', i) {
      assert DependenciesBefore(log, restored, nodes, i);
    }
  }

  lemma DependenciesAreLogged(sys: System, id: TaskId)
    requires SameTasks(sys) && id in sys.dag.nodes && ConflictFree(sys.sched.tasks, id)
    requires forall x :: x in sys.dag.nodes ==> Coherent(sys, x)
    ensures forall dep :: dep in sys.dag.nodes[id].dependencies ==> HasRun(sys, dep)
  {
    assert Coherent(sys, id);
    forall dep | dep in sys.dag.nodes[id].dependencies ensures HasRun(sys, dep) {
      assert IsDone(sys.sched.tasks, dep) && Coherent(sys, dep);
    }
  }

  lemma CallsStayBounded(sys: System, r: System, id: TaskId, cfg: Config, legal: bool)
    requires CallsBounded(sys, cfg) && id !in sys.log && Logged(sys, r, id, cfg, legal)
    ensures CallsBounded(r, cfg)
  {
    forall x ensures CallsOf(r.calls, x) <= if x in r.log then Budget(cfg.maxRetries) else 0 {
      assert x in r.log <==> x in sys.log || x == id;
      assert CallsOf(sys.calls, x) <= if x in sys.log then Budget(cfg.maxRetries) else 0;
    }
  }

  lemma ExecutionKeepsLog(sys: System, r: System, id: TaskId)
    requires WellFormed(sys.dag) && DependenciesKnown(sys.dag) && SameTasks(sys)
    requires LogInOrder(sys.log, sys.restored, sys.dag.nodes) && id in sys.dag.nodes && id !in sys.log
    requires (forall x :: x in sys.dag.nodes ==> Coherent(sys, x)) && ConflictFree(sys.sched.tasks, id)
    requires ExecutedStores(sys, r, id)
    ensures LogInOrder(r.log, r.restored, r.dag.nodes) && WellFormed(r.dag) && DependenciesKnown(r.dag)
  {
    ExecutedShape(sys, r, id);
    DependenciesAreLogged(sys, id);
    assert forall x :: HasRun(sys, x) ==> x in sys.log || x in sys.restored;
    hide *;
    LogGrowsInOrder(sys.log, sys.restored, sys.dag.nodes, id);
    SameDependenciesKeepLog(r.log, sys.restored, sys.dag.nodes, r.dag.nodes);
    SameShapeKeepsDag(sys.dag, r.dag);
  }

  lemma ExecutedShape(sys: System, r: System, id: TaskId)
    requires id in sys.dag.nodes && ExecutedStores(sys, r, id)
    ensures r.log == sys.log + [id] && r.restored == sys.restored
    ensures r.dag.order == sys.dag.order && r.dag.graph == sys.dag.graph && r.dag.nodes.Keys == sys.dag.nodes.Keys
    ensures forall x :: x in sys.dag.nodes ==> r.dag.nodes[x].dependencies == sys.dag.nodes[x].dependencies
  {
    hide Finished, Dropped;
  }

  lemma ExecutionKeepsConsistent(sys: System, r: System, id: TaskId)
    requires Consistent(sys.sched) && id in sys.dag.nodes && ExecutedStores(sys, r, id)
    ensures Consistent(r.sched)
  {
    hide Consistent, Finished, Dropped, SetStatus;
    FinishingKeepsConsistent(sys.sched, id);
  }

  lemma ExecutedKeys(sys: System, r: System, id: TaskId)
    requires SameTasks(sys) && id in sys.dag.nodes && ExecutedStores(sys, r, id)
    ensures r.dag.nodes.Keys == sys.dag.nodes.Keys
  {
  }

  lemma ExecutionKeepsInv(sys: System, id: TaskId, input: ExecInput, cfg: Config)
    requires Inv(sys, cfg) && IsRunning(sys, id)
    ensures Inv(Executed(sys, id, input, cfg), cfg)
  {
    if !sys.raised {
      var r := Executed(sys, id, input, cfg);
      hide *;
      RunningTask(sys, cfg, id);
      PartsOfInv(sys, cfg);
      ExecutionLeaves(sys, id, input, cfg);
      CallsStayBounded(sys, r, id, cfg, Legal(sys.states[id], Implementing));
      ExecutionKeepsLog(sys, r, id);
      ExecutionKeepsConsistent(sys, r, id);
      ExecutionKeepsCoherent(sys, r, id, id);
      ExecutedKeys(sys, r, id);
      forall x | x in sys.dag.nodes ensures Coherent(r, x) {
        ExecutionKeepsCoherent(sys, r, id, x);
      }
      MakeInv(r, cfg);
    }
  }

  lemma PartsOfInv(sys: System, cfg: Config)
    requires Inv(sys, cfg)
    ensures WellFormed(sys.dag) && DependenciesKnown(sys.dag) && Consistent(sys.sched) && SameTasks(sys)
    ensures forall id :: id in sys.dag.nodes ==> Coherent(sys, id)
    ensures LogInOrder(sys.log, sys.restored, sys.dag.nodes) && CallsBounded(sys, cfg)
  {
  }

  lemma MakeInv(sys: System, cfg: Config)
    requires WellFormed(sys.dag) && DependenciesKnown(sys.dag) && Consistent(sys.sched) && SameTasks(sys)
    requires forall id :: id in sys.dag.nodes ==> Coherent(sys, id)
    requires LogInOrder(sys.log, sys.restored, sys.dag.nodes) && CallsBounded(sys, cfg)
    ensures Inv(sys, cfg)
  {
  }

  /** A task that runs and has not raised waits for its execution. */
  lemma RunningTask(sys: System, cfg: Config, id: TaskId)
    requires Inv(sys, cfg) && IsRunning(sys, id)
    ensures id in sys.dag.nodes && id in sys.sched.tasks && id in sys.states && ConflictFree(sys.sched.tasks, id)
    ensures !sys.raised ==> !HasRun(sys, id) && id !in sys.log
  {
    assert Coherent(sys, id);
  }

  // ---------- Dispatching keeps the invariant ----------

  /** The DAG calls a waiting task ready exactly when the scheduler finds no conflict. */
  lemma ReadyIffConflictFree(sys: System, id: TaskId)
    requires SameTasks(sys) && DependenciesKnown(sys.dag) && WellFormed(sys.dag)
    requires forall x :: x in sys.dag.nodes ==> Coherent(sys, x)
    requires id in sys.dag.nodes && sys.sched.tasks[id].status == TaskPending
    ensures id in ReadyNodes(sys.dag) <==> ConflictFree(sys.sched.tasks, id)
  {
    assert Coherent(sys, id);
    forall dep | dep in sys.dag.nodes[id].dependencies
      ensures IsCompleted(sys.dag, dep) <==> IsDone(sys.sched.tasks, dep)
    {
      assert Coherent(sys, dep);
    }
    assert id in sys.dag.order;
  }

  lemma SameShapeKeepsDag(d: Dag, d': Dag)
    requires WellFormed(d) && DependenciesKnown(d)
    requires d'.order == d.order && d'.graph == d.graph && d'.nodes.Keys == d.nodes.Keys
    requires forall x :: x in d.nodes ==> d'.nodes[x].dependencies == d.nodes[x].dependencies
    ensures WellFormed(d') && DependenciesKnown(d')
  {
    hide Acyclic, Closed;
  }

  /** The stores of one task before and after a dispatch. */
  lemma CoherentStep(sys: System, r: System, id: TaskId, ready: bool)
    requires SameTasks(sys) && SameTasks(r) && id in sys.dag.nodes && id in r.dag.nodes && Coherent(sys, id)
    requires r.log == sys.log && r.restored == sys.restored && r.raised == sys.raised
    requires var t, t' := sys.sched.tasks[id], r.sched.tasks[id];
      && t'.dependencies == t.dependencies
      && (t.status != TaskPending ==> t' == t)
      && (t.status == TaskPending ==> t'.status != TaskCompleted)
      && (t.status == TaskPending && t'.status == TaskRunning ==> ConflictFree(sys.sched.tasks, id))
    requires ConflictFree(sys.sched.tasks, id) ==> ConflictFree(r.sched.tasks, id)
    requires var failed := r.sched.tasks[id].status == TaskFailed;
      && r.dag.nodes[id] == (if failed then FailedNode(sys.dag.nodes[id]) else sys.dag.nodes[id])
      && r.states[id] == SyncedState(Marked(sys.states[id], ready), failed)
    ensures Coherent(r, id)
  {
    hide ConflictFree;
  }

  lemma DispatchKeepsCoherent(sys: System, now: Clock, cfg: Config, id: TaskId)
    requires Inv(sys, cfg) && id in sys.dag.nodes
    ensures var r := Dispatched(sys, now); SameTasks(r) && id in r.dag.nodes && Coherent(r, id)
    ensures Dispatched(sys, now).dag.nodes[id].dependencies == sys.dag.nodes[id].dependencies
  {
    DispatchShape(sys, now);
    DispatchedRecord(sys, now, id);
    DispatchedConflictFree(sys, now, id);
    DispatchedStores(sys, now, id);
    assert Coherent(sys, id);
    var r, ready := Dispatched(sys, now), id in ReadyNodes(sys.dag);
    hide Dispatched, PassedSched, ReadyNodes, Inv, Consistent, WellFormed, Coherent, ConflictFree, Marked, SyncedState;
    CoherentStep(sys, r, id, ready);
  }

  /** Same shape, same log, coherent tasks: the invariant carries over. */
  lemma InvCarriesOver(sys: System, r: System, cfg: Config)
    requires Inv(sys, cfg) && SameTasks(r) && Consistent(r.sched)
    requires r.dag.order == sys.dag.order && r.dag.graph == sys.dag.graph && r.dag.nodes.Keys == sys.dag.nodes.Keys
    requires r.log == sys.log && r.calls == sys.calls && r.restored == sys.restored
    requires forall x :: x in sys.dag.nodes ==>
      Coherent(r, x) && r.dag.nodes[x].dependencies == sys.dag.nodes[x].dependencies
    ensures Inv(r, cfg)
  {
    hide Coherent, LogInOrder, Consistent, WellFormed, DependenciesKnown, CallsOf, Budget;
    SameDependenciesKeepLog(sys.log, sys.restored, sys.dag.nodes, r.dag.nodes);
    SameShapeKeepsDag(sys.dag, r.dag);
  }

  lemma DispatchKeepsInv(sys: System, now: Clock, cfg: Config)
    requires Inv(sys, cfg)
    ensures Inv(Dispatched(sys, now), cfg)
  {
    var r := Dispatched(sys, now);
    DispatchShape(sys, now);
    forall id | id in sys.dag.nodes
      ensures SameTasks(r) && id in r.dag.nodes && Coherent(r, id)
      ensures r.dag.nodes[id].dependencies == sys.dag.nodes[id].dependencies
    {
      DispatchKeepsCoherent(sys, now, cfg, id);
    }
    hide *;
    InvCarriesOver(sys, r, cfg);
  }

  lemma KnownMeansFound(d: Dag)
    requires DependenciesKnown(d)
    ensures !LookupFails(d)
  {
    forall id ensures !Dangling(d, id) {
      if Dangling(d, id) {
        var k :| DanglingAt(d, d.nodes[id].dependencies, k);
        assert d.nodes[id].dependencies[k] in d.nodes[id].dependencies;
      }
    }
  }

  // ---------- From a clean start ----------

  /** A task that waits in scheduler and graph, whatever the state machine remembers of it. */
  ghost predicate CleanTask(sys: System, id: TaskId)
    requires id in sys.dag.nodes
  {
    && id !in sys.restored
    && sys.dag.nodes[id].status == NodePending
    && (id in sys.sched.tasks ==>
          && sys.sched.tasks[id].status == TaskPending
          && sys.sched.tasks[id].dependencies == sys.dag.nodes[id].dependencies)
  }

  /** A task restored as completed in all stores. */
  ghost predicate RestoredTask(sys: System, id: TaskId)
    requires id in sys.dag.nodes
  {
    && id in sys.restored
    && sys.dag.nodes[id].status == NodeCompleted
    && id in sys.states && sys.states[id] == Completed
    && id in sys.sched.tasks && sys.sched.tasks[id].status == TaskCompleted
    && sys.sched.tasks[id].dependencies == sys.dag.nodes[id].dependencies
  }

  /** Nothing has run yet: every node waits or is restored, what the scheduler knows has the
      node's dependencies, and every dependency is a node. */
  ghost predicate CleanStart(sys: System) {
    && WellFormed(sys.dag) && DependenciesKnown(sys.dag)
    && Consistent(sys.sched) && sys.sched.tasks.Keys <= sys.dag.nodes.Keys
    && (forall id :: id in sys.dag.nodes ==> CleanTask(sys, id) || RestoredTask(sys, id))
    && sys.log == [] && sys.calls == map[] && !sys.raised
  }

  lemma RegistrationShape(sys: System)
    requires CleanStart(sys)
    ensures var r := RegisterAll(sys, sys.dag.order);
      && SameTasks(r) && Consistent(r.sched) && r.log == [] && r.calls == map[]
      && r.dag == sys.dag && r.restored == sys.restored
  {
    RegisterAllIs(sys, sys.dag.order);
    var r := RegisterAll(sys, sys.dag.order);
    assert forall x :: x in sys.dag.order <==> x in sys.dag.nodes;
    hide Consistent, RegisterAll, CleanTask, RestoredTask, DependenciesKnown, WellFormed, RegisteredTask;
    assert r.sched.tasks.Keys == sys.dag.nodes.Keys;
  }

  /** The stores of a task that waits, or that was restored, once it is registered. */
  lemma CleanRecord(sys: System, r: System, id: TaskId)
    requires id in sys.dag.nodes && SameTasks(r) && r.dag == sys.dag && r.restored == sys.restored && r.log == []
    requires CleanTask(sys, id)
    requires r.sched.tasks[id] == RegisteredTask(sys, id)
    requires r.states[id] == if id in sys.states then sys.states[id] else Pending
    ensures Coherent(r, id)
  {
    hide ConflictFree;
  }

  lemma RestoredRecord(sys: System, r: System, id: TaskId)
    requires id in sys.dag.nodes && SameTasks(r) && r.dag == sys.dag && r.restored == sys.restored && r.log == []
    requires RestoredTask(sys, id)
    requires r.sched.tasks[id] == RegisteredTask(sys, id)
    requires r.states[id] == if id in sys.states then sys.states[id] else Pending
    ensures Coherent(r, id)
  {
    hide ConflictFree;
  }

  lemma RegisteredRecord(sys: System, id: TaskId)
    requires CleanStart(sys) && id in sys.dag.nodes
    ensures var r := RegisterAll(sys, sys.dag.order);
      && id in r.sched.tasks && id in r.states
      && r.sched.tasks[id] == RegisteredTask(sys, id)
      && r.states[id] == if id in sys.states then sys.states[id] else Pending
    ensures CleanTask(sys, id) || RestoredTask(sys, id)
  {
    RegisterAllIs(sys, sys.dag.order);
    RegistrationShape(sys);
    hide RegisterAll, Consistent, RegisteredTask, DependenciesKnown;
  }

  lemma CleanTaskIsCoherent(sys: System, id: TaskId)
    requires CleanStart(sys) && id in sys.dag.nodes
    ensures var r := RegisterAll(sys, sys.dag.order); SameTasks(r) && Coherent(r, id)
  {
    var r := RegisterAll(sys, sys.dag.order);
    RegistrationShape(sys);
    RegisteredRecord(sys, id);
    hide *;
    if CleanTask(sys, id) {
      CleanRecord(sys, r, id);
    } else {
      RestoredRecord(sys, r, id);
    }
  }

  lemma InvStarts(r: System, cfg: Config)
    requires WellFormed(r.dag) && DependenciesKnown(r.dag) && Consistent(r.sched) && SameTasks(r)
    requires r.log == [] && r.calls == map[]
    requires forall x :: x in r.dag.nodes ==> Coherent(r, x)
    ensures Inv(r, cfg)
  {
    hide WellFormed, DependenciesKnown, Consistent, Coherent;
  }

  lemma CleanStartKeepsInv(sys: System, cfg: Config)
    requires CleanStart(sys)
    ensures Inv(RegisterAll(sys, sys.dag.order), cfg)
  {
    var r := RegisterAll(sys, sys.dag.order);
    RegistrationShape(sys);
    forall id | id in sys.dag.nodes ensures SameTasks(r) && Coherent(r, id) {
      CleanTaskIsCoherent(sys, id);
    }
    assert WellFormed(sys.dag) && DependenciesKnown(sys.dag);
    hide *;
    InvStarts(r, cfg);
  }

  // ---------- Every point of a run ----------

  /** The system before iteration `n`. */
  ghost function AtIteration(sys: System, n: nat, env: Env, cfg: Config): System {
    if n == 0 then RegisterAll(sys, sys.dag.order)
    else Iterated(AtIteration(sys, n - 1, env, cfg), n - 1, env, cfg)
  }

  /** The system in iteration `n`, after failures are synchronised and `k` of its tasks, or all
      of them, have been executed. */
  ghost function PointAt(sys: System, n: nat, k: nat, env: Env, cfg: Config): System {
    Partly(AtIteration(sys, n, env, cfg), n, k, env, cfg)
  }

  /** Executing one running task leaves the records of every other task alone. */
  lemma ExecutionIsLocal(sys: System, id: TaskId, input: ExecInput, cfg: Config, x: TaskId)
    requires Inv(sys, cfg) && IsRunning(sys, id) && x != id
    ensures var r := Executed(sys, id, input, cfg);
      SameRecords(sys, r, x)
  {
    if !sys.raised {
      var r := Executed(sys, id, input, cfg);
      hide *;
      RunningTask(sys, cfg, id);
      ExecutionLeaves(sys, id, input, cfg);
      OtherRecords(sys, r, id, cfg, Legal(sys.states[id], Implementing), x);
    }
    hide Executed, Inv;
  }

  lemma OtherRecords(sys: System, r: System, id: TaskId, cfg: Config, legal: bool, x: TaskId)
    requires id in sys.dag.nodes && x != id && ExecutedStores(sys, r, id) && Logged(sys, r, id, cfg, legal)
    ensures SameRecords(sys, r, x)
  {
    hide SetStatus;
  }

  /** Scheduler, state machine and log say the same about `x` in both systems. */
  ghost predicate SameRecords(sys: System, r: System, x: TaskId) {
    && Lookup(r.sched.tasks, x) == Lookup(sys.sched.tasks, x) && Lookup(r.states, x) == Lookup(sys.states, x)
    && (x in r.log <==> x in sys.log) && CallsOf(r.calls, x) == CallsOf(sys.calls, x)
  }

  lemma {:induction false} ExecutedAllKeepsInv(sys: System, ids: seq<TaskId>, i: nat, env: Env, cfg: Config)
    requires Inv(sys, cfg) && Distinct(ids) && forall x :: x in ids ==> IsRunning(sys, x)
    ensures Inv(ExecutedAll(sys, ids, i, env, cfg), cfg)
    ensures forall x :: x !in ids ==> SameRecords(sys, ExecutedAll(sys, ids, i, env, cfg), x)
  {
    hide Inv, Executed, IsRunning, SameRecords;
    SameRecordsOfItself(sys);
    if ids != [] {
      var n := |ids| - 1;
      assert ids == ids[..n] + [ids[n]] && ids[n] in ids && ids[n] !in ids[..n];
      ExecutedAllKeepsInv(sys, ids[..n], i, env, cfg);
      var before, after := ExecutedAll(sys, ids[..n], i, env, cfg), ExecutedAll(sys, ids, i, env, cfg);
      StillRuns(sys, before, ids[n]);
      ExecutionKeepsInv(before, ids[n], env.input(i, ids[n]), cfg);
      forall x | x !in ids ensures SameRecords(sys, after, x) {
        ExecutionIsLocal(before, ids[n], env.input(i, ids[n]), cfg, x);
        assert x !in ids[..n];
        SameRecordsTwice(sys, before, after, x);
      }
    }
  }

  lemma SameRecordsOfItself(sys: System)
    ensures forall x :: SameRecords(sys, sys, x)
  {
  }

  lemma SameRecordsTwice(a: System, b: System, c: System, x: TaskId)
    requires SameRecords(a, b, x) && SameRecords(b, c, x)
    ensures SameRecords(a, c, x)
  {
  }

  lemma StillRuns(sys: System, sys': System, id: TaskId)
    requires IsRunning(sys, id) && SameRecords(sys, sys', id)
    ensures IsRunning(sys', id)
  {
  }

  lemma RunningIsKnown(sys: System, cfg: Config, id: TaskId)
    requires Inv(sys, cfg)
    ensures id in sys.sched.tasks ==> id in sys.dag.nodes
    ensures id in sys.sched.running <==> IsRunning(sys, id)
  {
  }

  /** The tasks of an iteration may be executed one after the other. */
  lemma FirstFewRun(sys: System, i: nat, k: nat, env: Env, cfg: Config)
    requires Inv(Dispatched(sys, env.clock(i)), cfg) && ValidEnv(env)
    ensures var d, ids := Dispatched(sys, env.clock(i)), FirstFew(Listed(sys, i, env), k);
      Distinct(ids) && forall x :: x in ids ==> IsRunning(d, x)
  {
    var d, all := Dispatched(sys, env.clock(i)), Listed(sys, i, env);
    assert Lists(all, d.sched.running);
    hide Inv, Dispatched, IsRunning;
    forall x | x in FirstFew(all, k) ensures IsRunning(d, x) {
      assert x in all;
      RunningIsKnown(d, cfg, x);
    }
  }

  /** The invariant within an iteration. */
  lemma PartlyKeepsInv(sys: System, i: nat, k: nat, env: Env, cfg: Config)
    requires Inv(sys, cfg) && ValidEnv(env)
    ensures Inv(Partly(sys, i, k, env, cfg), cfg)
  {
    if !sys.raised {
      KnownMeansFound(sys.dag);
      DispatchKeepsInv(sys, env.clock(i), cfg);
      hide Inv, Dispatched, Listed, ExecutedAll, IsRunning, DependenciesKnown, LookupFails;
      FirstFewRun(sys, i, k, env, cfg);
      ExecutedAllKeepsInv(Dispatched(sys, env.clock(i)), FirstFew(Listed(sys, i, env), k), i, env, cfg);
    }
  }

  /** The invariant at every point of every run from a clean start: before each iteration,
      after its failure synchronisation, and after each of its executions. */
  lemma {:induction false} EveryPointKeepsInv(sys: System, n: nat, k: nat, env: Env, cfg: Config)
    requires CleanStart(sys) && ValidEnv(env)
    ensures Inv(AtIteration(sys, n, env, cfg), cfg)
    ensures Inv(PointAt(sys, n, k, env, cfg), cfg)
  {
    hide Inv, Partly, RegisterAll, CleanStart;
    if n == 0 {
      CleanStartKeepsInv(sys, cfg);
    } else {
      var before := AtIteration(sys, n - 1, env, cfg);
      EveryPointKeepsInv(sys, n - 1, |Listed(before, n - 1, env)|, env, cfg);
    }
    PartlyKeepsInv(AtIteration(sys, n, env, cfg), n, k, env, cfg);
  }

  // ---------- The main loop passes through these points ----------

  lemma NothingListed(sys: System, i: nat, env: Env, cfg: Config)
    requires ValidEnv(env) && !sys.raised && !LookupFails(sys.dag)
    requires Dispatched(sys, env.clock(i)).sched.running == {}
    ensures Iterated(sys, i, env, cfg) == Dispatched(sys, env.clock(i))
  {
    var d, ids := Dispatched(sys, env.clock(i)), Listed(sys, i, env);
    assert Lists(ids, d.sched.running);
    hide Dispatched;
    if ids != [] {
      assert ids[0] in ids;
    }
  }

  lemma AllListed(sys: System, i: nat, env: Env, cfg: Config)
    requires !sys.raised && !LookupFails(sys.dag)
    ensures Iterated(sys, i, env, cfg) == ExecutedAll(Dispatched(sys, env.clock(i)), Listed(sys, i, env), i, env, cfg)
  {
    var ids := Listed(sys, i, env);
    assert ids[..|ids|] == ids;
    hide Dispatched, ExecutedAll;
  }

  lemma {:induction false} LoopEndsAtIteration(sys: System, i: nat, idle: nat, env: Env, cfg: Config) returns (n: nat)
    requires ValidEnv(env) && !AtIteration(sys, i, env, cfg).raised
    ensures i <= n && (n <= i || n <= cfg.maxIterations)
    ensures Looped(AtIteration(sys, i, env, cfg), i, idle, env, cfg) == AtIteration(sys, n, env, cfg)
    ensures forall m :: i <= m < n ==> !AtIteration(sys, m, env, cfg).raised
    decreases cfg.maxIterations - i
  {
    hide Dispatched, ExecutedAll, Iterated, Listed, LookupFails, AllTerminal;
    n := i;
    var s := AtIteration(sys, i, env, cfg);
    if i < cfg.maxIterations {
      var d, e := Dispatched(s, env.clock(i)), AtIteration(sys, i + 1, env, cfg);
      assert e == Iterated(s, i, env, cfg);
      n := i + 1;
      if LookupFails(s.dag) {
        RaisesAtOnce(s, i, env, cfg);
      } else if d.sched.running == {} {
        NothingListed(s, i, env, cfg);
        if !(AllTerminal(d.sched.tasks) || idle + 1 > 2) {
          n := LoopEndsAtIteration(sys, i + 1, idle + 1, env, cfg);
        }
      } else {
        AllListed(s, i, env, cfg);
        if !(e.raised || AllTerminal(e.sched.tasks)) {
          n := LoopEndsAtIteration(sys, i + 1, 0, env, cfg);
        }
      }
    }
  }

  lemma RaisesAtOnce(sys: System, i: nat, env: Env, cfg: Config)
    requires !sys.raised && LookupFails(sys.dag)
    ensures Iterated(sys, i, env, cfg) == sys.(raised := true)
  {
  }

  /** A run ends in the system before some iteration, within the bound: all that holds at every
      point of the iterations holds throughout the run and of its result. */
  lemma RunEndsAtIteration(sys: System, env: Env, cfg: Config) returns (n: nat)
    requires ValidEnv(env) && !sys.raised
    ensures n == 0 || n <= cfg.maxIterations
    ensures Run(sys, env, cfg) == AtIteration(sys, n, env, cfg)
    ensures forall m :: 0 <= m < n ==> !AtIteration(sys, m, env, cfg).raised
  {
    hide Looped, RegisterAll;
    n := LoopEndsAtIteration(sys, 0, 0, env, cfg);
  }

  /** Nothing runs in iteration `m`. */
  ghost predicate IdleAt(sys: System, m: nat, env: Env, cfg: Config) {
    Dispatched(AtIteration(sys, m, env, cfg), env.clock(m)).sched.running == {}
  }

  /** The loop is left before iteration `n`: at the bound, after an exception, when every task is
      completed or failed, or after three idle iterations in a row. */
  ghost predicate StopsBefore(sys: System, n: nat, env: Env, cfg: Config) {
    || n >= cfg.maxIterations
    || (n > 0 && (AtIteration(sys, n, env, cfg).raised || AllTerminal(AtIteration(sys, n, env, cfg).sched.tasks)))
    || (n >= 3 && IdleAt(sys, n - 1, env, cfg) && IdleAt(sys, n - 2, env, cfg) && IdleAt(sys, n - 3, env, cfg))
  }

  /** `idle` iterations in a row before iteration `i` were idle, and no more. */
  ghost predicate IdleFor(sys: System, i: nat, idle: nat, env: Env, cfg: Config) {
    && idle <= 2 && idle <= i
    && (forall j: nat :: i - idle <= j < i ==> IdleAt(sys, j, env, cfg))
    && (idle < i ==> !IdleAt(sys, i - idle - 1, env, cfg))
  }

  lemma IdleForLonger(sys: System, i: nat, idle: nat, env: Env, cfg: Config)
    requires IdleFor(sys, i, idle, env, cfg)
    ensures !(i >= 3 && IdleAt(sys, i - 1, env, cfg) && IdleAt(sys, i - 2, env, cfg) && IdleAt(sys, i - 3, env, cfg))
    ensures IdleAt(sys, i, env, cfg) && idle + 1 <= 2 ==> IdleFor(sys, i + 1, idle + 1, env, cfg)
    ensures IdleAt(sys, i, env, cfg) && idle + 1 > 2 ==>
      i + 1 >= 3 && IdleAt(sys, i - 1, env, cfg) && IdleAt(sys, i - 2, env, cfg)
    ensures !IdleAt(sys, i, env, cfg) ==> IdleFor(sys, i + 1, 0, env, cfg)
  {
    hide IdleAt;
    if idle > 2 - 1 {
      assert IdleAt(sys, i - 1, env, cfg) && IdleAt(sys, i - 2, env, cfg);
    }
  }

  /** One turn of the loop. */
  lemma LoopTurnIs(sys: System, i: nat, idle: nat, env: Env, cfg: Config)
    requires ValidEnv(env) && !AtIteration(sys, i, env, cfg).raised && i < cfg.maxIterations
    ensures var s, e := AtIteration(sys, i, env, cfg), AtIteration(sys, i + 1, env, cfg);
      var nothing := IdleAt(sys, i, env, cfg);
      Looped(s, i, idle, env, cfg) ==
        if e.raised || AllTerminal(e.sched.tasks) || (nothing && idle + 1 > 2) then e
        else Looped(e, i + 1, if nothing then idle + 1 else 0, env, cfg)
  {
    var s, e := AtIteration(sys, i, env, cfg), AtIteration(sys, i + 1, env, cfg);
    assert e == Iterated(s, i, env, cfg);
    hide Dispatched, ExecutedAll, Iterated, Listed, LookupFails, AllTerminal, AtIteration;
    if LookupFails(s.dag) {
      RaisesAtOnce(s, i, env, cfg);
    } else if Dispatched(s, env.clock(i)).sched.running == {} {
      NothingListed(s, i, env, cfg);
      NotRaisedByDispatch(s, env.clock(i));
    } else {
      AllListed(s, i, env, cfg);
    }
  }

  lemma StopsIff(sys: System, n: nat, env: Env, cfg: Config, idle: nat)
    requires IdleFor(sys, n, idle, env, cfg)
    ensures StopsBefore(sys, n, env, cfg) <==>
      || n >= cfg.maxIterations
      || (n > 0 && (AtIteration(sys, n, env, cfg).raised || AllTerminal(AtIteration(sys, n, env, cfg).sched.tasks)))
  {
    hide AtIteration, AllTerminal;
    IdleForLonger(sys, n, idle, env, cfg);
  }

  lemma StopsHere(sys: System, n: nat, env: Env, cfg: Config, idle: nat)
    requires n > 0 && IdleFor(sys, n - 1, idle, env, cfg)
    requires var e := AtIteration(sys, n, env, cfg);
      e.raised || AllTerminal(e.sched.tasks) || (IdleAt(sys, n - 1, env, cfg) && idle + 1 > 2)
    ensures StopsBefore(sys, n, env, cfg)
  {
    hide AtIteration, AllTerminal, IdleAt;
    IdleForLonger(sys, n - 1, idle, env, cfg);
  }

  lemma {:induction false} LoopStops(sys: System, i: nat, idle: nat, env: Env, cfg: Config) returns (n: nat)
    requires ValidEnv(env) && !AtIteration(sys, i, env, cfg).raised && IdleFor(sys, i, idle, env, cfg)
    requires i == 0 || !AllTerminal(AtIteration(sys, i, env, cfg).sched.tasks)
    ensures i <= n && StopsBefore(sys, n, env, cfg)
    ensures Looped(AtIteration(sys, i, env, cfg), i, idle, env, cfg) == AtIteration(sys, n, env, cfg)
    ensures forall m: nat :: i <= m < n ==> !StopsBefore(sys, m, env, cfg)
    decreases cfg.maxIterations - i
  {
    hide *;
    n := i;
    StopsIff(sys, i, env, cfg, idle);
    if i >= cfg.maxIterations {
      LoopIsOver(AtIteration(sys, i, env, cfg), i, idle, env, cfg);
    } else {
      var e, nothing := AtIteration(sys, i + 1, env, cfg), IdleAt(sys, i, env, cfg);
      LoopTurnIs(sys, i, idle, env, cfg);
      IdleForLonger(sys, i, idle, env, cfg);
      if e.raised || AllTerminal(e.sched.tasks) || (nothing && idle + 1 > 2) {
        n := i + 1;
        StopsHere(sys, n, env, cfg, idle);
      } else {
        n := LoopStops(sys, i + 1, if nothing then idle + 1 else 0, env, cfg);
      }
    }
  }

  lemma LoopIsOver(s: System, i: nat, idle: nat, env: Env, cfg: Config)
    requires i >= cfg.maxIterations
    ensures Looped(s, i, idle, env, cfg) == s
  {
  }

  lemma NotRaisedByDispatch(s: System, now: Clock)
    ensures Dispatched(s, now).raised == s.raised
  {
  }

  /** A run stops at the first chance: in the system before the first iteration at which the loop is
      left. */
  lemma RunStopsAtFirst(sys: System, env: Env, cfg: Config) returns (n: nat)
    requires ValidEnv(env) && !sys.raised
    ensures Run(sys, env, cfg) == AtIteration(sys, n, env, cfg)
    ensures StopsBefore(sys, n, env, cfg) && forall m: nat :: m < n ==> !StopsBefore(sys, m, env, cfg)
  {
    assert AtIteration(sys, 0, env, cfg) == RegisterAll(sys, sys.dag.order);
    assert IdleFor(sys, 0, 0, env, cfg);
    hide Looped, RegisterAll, StopsBefore, IdleFor, AllTerminal;
    n := LoopStops(sys, 0, 0, env, cfg);
  }

  // ---------- What the invariant says ----------

  /** The three stores agree about every task whose state does not run ahead. */
  lemma InvMeansStoresAgreeIff(sys: System, cfg: Config, id: TaskId)
    requires Inv(sys, cfg) && id in sys.dag.nodes
    ensures StoresAgree(sys, id) <==> !RunsAhead(sys, id)
  {
    assert Coherent(sys, id);
  }

  /** `p` leads from a task down a chain of dependencies. */
  ghost predicate IsDependencyChain(d: Dag, p: seq<TaskId>) {
    && |p| > 0 && (forall x :: x in p ==> x in d.nodes)
    && forall i :: 0 < i < |p| ==> p[i] in d.nodes[p[i - 1]].dependencies
  }

  /** No task on the way was restored; the last one may have been. */
  ghost predicate IsLiveChain(d: Dag, restored: set<TaskId>, p: seq<TaskId>) {
    IsDependencyChain(d, p) && forall i :: 0 <= i < |p| - 1 ==> p[i] !in restored
  }

  /** Everything below an executed or running task is completed, as far down as no restored task
      stands between. */
  lemma {:induction false} ChainBelowIsDone(sys: System, cfg: Config, p: seq<TaskId>)
    requires Inv(sys, cfg) && IsLiveChain(sys.dag, sys.restored, p)
    requires p[0] in sys.log || IsRunning(sys, p[0])
    ensures |p| > 1 ==> IsDone(sys.sched.tasks, p[|p| - 1]) && HasRun(sys, p[|p| - 1])
    decreases |p|
  {
    hide *;
    ChainIsNotEmpty(sys.dag, sys.restored, p);
    if |p| > 1 {
      TailOfChain(sys.dag, sys.restored, p);
      NextIsDone(sys, cfg, p[0], p[1]);
      if |p| > 2 {
        RunNotRestored(sys, p);
        ChainBelowIsDone(sys, cfg, p[1..]);
      }
    }
  }

  lemma RunNotRestored(sys: System, p: seq<TaskId>)
    requires IsLiveChain(sys.dag, sys.restored, p) && |p| > 2 && HasRun(sys, p[1])
    ensures p[1] in sys.log
  {
  }

  lemma ChainIsNotEmpty(d: Dag, restored: set<TaskId>, p: seq<TaskId>)
    requires IsLiveChain(d, restored, p)
    ensures |p| > 0
  {
  }

  lemma TailOfChain(d: Dag, restored: set<TaskId>, p: seq<TaskId>)
    requires IsLiveChain(d, restored, p) && |p| > 1
    ensures IsLiveChain(d, restored, p[1..]) && p[0] in d.nodes && p[1] in d.nodes[p[0]].dependencies
  {
    var q := p[1..];
    assert p[0] in p;
    forall x | x in q ensures x in d.nodes {
      assert x in p;
    }
    assert forall i :: 0 < i < |q| ==> q[i] == p[i + 1] && q[i - 1] == p[i];
    assert forall i :: 0 <= i < |q| - 1 ==> q[i] == p[i + 1];
  }

  lemma NextIsDone(sys: System, cfg: Config, id: TaskId, dep: TaskId)
    requires Inv(sys, cfg) && id in sys.dag.nodes && dep in sys.dag.nodes[id].dependencies
    requires id in sys.log || IsRunning(sys, id)
    ensures IsDone(sys.sched.tasks, dep) && HasRun(sys, dep)
  {
    assert Coherent(sys, id);
    assert IsDone(sys.sched.tasks, dep);
    assert Coherent(sys, dep);
  }

  /** The restored tasks are closed under dependencies. */
  ghost predicate ClosedRestoration(d: Dag, restored: set<TaskId>) {
    forall id, dep :: id in d.nodes && id in restored && dep in d.nodes[id].dependencies ==> dep in restored
  }

  /** Then every chain down to a task that was not restored is live. */
  lemma {:induction false} ClosedChainsAreLive(d: Dag, restored: set<TaskId>, p: seq<TaskId>)
    requires ClosedRestoration(d, restored) && IsDependencyChain(d, p) && p[|p| - 1] !in restored
    ensures IsLiveChain(d, restored, p)
    decreases |p|
  {
    forall i | 0 <= i < |p| - 1 ensures p[i] !in restored {
      RestoredBelow(d, restored, p, i, |p| - 1);
    }
  }

  lemma {:induction false} RestoredBelow(d: Dag, restored: set<TaskId>, p: seq<TaskId>, i: nat, j: nat)
    requires ClosedRestoration(d, restored) && IsDependencyChain(d, p) && i <= j < |p|
    ensures p[i] in restored ==> p[j] in restored
    decreases j - i
  {
    if i < j {
      assert p[i] in p && p[i + 1] in d.nodes[p[i]].dependencies;
      RestoredBelow(d, restored, p, i + 1, j);
    }
  }

  /** So where no task was restored without its dependencies, everything below an executed or
      running task is completed, through restored tasks too. */
  lemma ClosedChainBelowIsDone(sys: System, cfg: Config, p: seq<TaskId>)
    requires Inv(sys, cfg) && ClosedRestoration(sys.dag, sys.restored) && IsDependencyChain(sys.dag, p)
    requires p[0] in sys.log || IsRunning(sys, p[0])
    ensures |p| > 1 ==> IsDone(sys.sched.tasks, p[|p| - 1])
  {
    var last := p[|p| - 1];
    if last in sys.restored {
      assert last in p && Coherent(sys, last);
    } else {
      hide *;
      ClosedChainsAreLive(sys.dag, sys.restored, p);
      ChainBelowIsDone(sys, cfg, p);
    }
  }

  // ---------- The theorems ----------

  /** Dependency safety, at every point of every run from a clean start: tasks are executed
      at most once and behind all their dependencies, only tasks with completed dependencies
      run, a completed task has completed dependencies unless it was restored without one, the
      three stores agree about a task exactly if the state machine has not run ahead, and no
      task costs more than `max_retries` + 1 sandbox calls. */
  lemma DependencySafety(sys: System, n: nat, k: nat, env: Env, cfg: Config, id: TaskId)
    requires CleanStart(sys) && ValidEnv(env)
    ensures var s := PointAt(sys, n, k, env, cfg);
      && Safe(s, cfg)
      && (id in s.dag.nodes ==> SafeTask(s, cfg, id))
  {
    hide *;
    EveryPointKeepsInv(sys, n, k, env, cfg);
    InvIsSafe(PointAt(sys, n, k, env, cfg), cfg, id);
  }

  /** At most `max_retries` + 1 calls per task; each executed task behind its dependencies. */
  ghost predicate Safe(s: System, cfg: Config) {
    && Distinct(s.log)
    && (forall i :: 0 <= i < |s.log| ==> DependenciesBefore(s.log, s.restored, s.dag.nodes, i))
    && (forall x :: CallsOf(s.calls, x) <= Max(0, cfg.maxRetries + 1))
  }

  ghost predicate SafeTask(s: System, cfg: Config, id: TaskId)
    requires id in s.dag.nodes
  {
    && (StoresAgree(s, id) <==> !RunsAhead(s, id))
    && (id in s.restored ==> IsDone(s.sched.tasks, id) && id !in s.log && CallsOf(s.calls, id) == 0)
    && (id in s.log || IsRunning(s, id) || (IsDone(s.sched.tasks, id) && RestoredWhole(s, id)) ==>
          forall dep :: dep in s.dag.nodes[id].dependencies ==> IsDone(s.sched.tasks, dep))
  }

  /** Not restored without one of its dependencies. */
  ghost predicate RestoredWhole(s: System, id: TaskId)
    requires id in s.dag.nodes
  {
    id in s.restored ==> forall dep :: dep in s.dag.nodes[id].dependencies ==> dep in s.restored
  }

  lemma InvIsSafe(s: System, cfg: Config, id: TaskId)
    requires Inv(s, cfg)
    ensures Safe(s, cfg)
    ensures id in s.dag.nodes ==> SafeTask(s, cfg, id)
  {
    assert CallsBounded(s, cfg) ==> forall x :: CallsOf(s.calls, x) <= Max(0, cfg.maxRetries + 1);
    if id in s.dag.nodes {
      InvMeansStoresAgreeIff(s, cfg, id);
      assert Coherent(s, id);
      forall dep | dep in s.dag.nodes[id].dependencies && dep in s.restored ensures IsDone(s.sched.tasks, dep) {
        assert Coherent(s, dep);
      }
    }
  }

  /** So is the result of the run. */
  lemma RunIsSafe(sys: System, env: Env, cfg: Config, id: TaskId)
    requires CleanStart(sys) && ValidEnv(env)
    ensures Inv(Run(sys, env, cfg), cfg) && Safe(Run(sys, env, cfg), cfg)
    ensures id in Run(sys, env, cfg).dag.nodes ==> SafeTask(Run(sys, env, cfg), cfg, id)
  {
    NotRaisedAtStart(sys);
    hide *;
    var n := RunEndsAtIteration(sys, env, cfg);
    EveryPointKeepsInv(sys, n, 0, env, cfg);
    InvIsSafe(Run(sys, env, cfg), cfg, id);
  }

  lemma NotRaisedAtStart(sys: System)
    requires CleanStart(sys)
    ensures !sys.raised
  {
  }
}
