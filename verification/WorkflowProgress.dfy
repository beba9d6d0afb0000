/** What runs achieve: failures shut out all dependents for good, and success means that
    every task completed in dependency order. */
module WorkflowProgress {
  import opened Sequences
  import opened TaskKeys
  import opened Graphs
  import opened Dags
  import opened Scheduling
  import opened SchedulerPasses
  import opened StateMachines
  import opened TaskExecution
  import opened Workflow
  import opened WorkflowSteps
  import opened WorkflowSafety

  // ---------- The graph never changes in a run ----------

  ghost predicate SameGraph(d: Dag, d': Dag) {
    && d'.graph == d.graph && d'.nodes.Keys == d.nodes.Keys
    && forall x :: x in d.nodes ==> d'.nodes[x].dependencies == d.nodes[x].dependencies
  }

  lemma SameGraphTransitive(a: Dag, b: Dag, c: Dag)
    requires SameGraph(a, b) && SameGraph(b, c)
    ensures SameGraph(a, c)
  {
  }

  lemma SameGraphReflexive(d: Dag)
    ensures SameGraph(d, d)
  {
  }

  lemma DispatchKeepsGraph(sys: System, now: Clock)
    ensures SameGraph(sys.dag, Dispatched(sys, now).dag)
  {
    hide Pass, MarkReadyAll, Cleared, SyncedStates;
  }

  lemma ExecutionKeepsGraph(sys: System, id: TaskId, input: ExecInput, cfg: Config)
    ensures SameGraph(sys.dag, Executed(sys, id, input, cfg).dag)
  {
    hide RunOf, Raises, RecoveryOf, RecoveryCalls, VerdictOf, Finished, Dropped, Requeued, SetFailedState;
  }

  lemma {:induction false} ExecutedAllKeepsGraph(sys: System, ids: seq<TaskId>, i: nat, env: Env, cfg: Config)
    ensures SameGraph(sys.dag, ExecutedAll(sys, ids, i, env, cfg).dag)
  {
    hide Executed, SameGraph;
    SameGraphReflexive(sys.dag);
    if ids != [] {
      var n := |ids| - 1;
      var before := ExecutedAll(sys, ids[..n], i, env, cfg);
      ExecutedAllKeepsGraph(sys, ids[..n], i, env, cfg);
      ExecutionKeepsGraph(before, ids[n], env.input(i, ids[n]), cfg);
      SameGraphTransitive(sys.dag, before.dag, ExecutedAll(sys, ids, i, env, cfg).dag);
    }
  }

  lemma PartlyKeepsGraph(s: System, n: nat, k: nat, env: Env, cfg: Config)
    ensures SameGraph(s.dag, Partly(s, n, k, env, cfg).dag)
  {
    hide SameGraph, Dispatched, ExecutedAll, Listed, LookupFails;
    SameGraphReflexive(s.dag);
    var d := Dispatched(s, env.clock(n));
    DispatchKeepsGraph(s, env.clock(n));
    ExecutedAllKeepsGraph(d, FirstFew(Listed(s, n, env), k), n, env, cfg);
    SameGraphTransitive(s.dag, d.dag, ExecutedAll(d, FirstFew(Listed(s, n, env), k), n, env, cfg).dag);
  }

  lemma {:induction false} IterationsKeepGraph(sys: System, n: nat, env: Env, cfg: Config)
    ensures SameGraph(sys.dag, AtIteration(sys, n, env, cfg).dag)
  {
    hide *;
    if n == 0 {
      StartKeepsGraph(sys, env, cfg);
    } else {
      var before := AtIteration(sys, n - 1, env, cfg);
      IterationsKeepGraph(sys, n - 1, env, cfg);
      NextIteration(sys, n - 1, env, cfg);
      IterationKeepsGraph(before, n - 1, env, cfg);
      SameGraphTransitive(sys.dag, before.dag, AtIteration(sys, n, env, cfg).dag);
    }
  }

  lemma StartKeepsGraph(sys: System, env: Env, cfg: Config)
    ensures SameGraph(sys.dag, AtIteration(sys, 0, env, cfg).dag)
  {
    SameGraphReflexive(sys.dag);
  }

  lemma NextIteration(sys: System, m: nat, env: Env, cfg: Config)
    ensures AtIteration(sys, m + 1, env, cfg) == Iterated(AtIteration(sys, m, env, cfg), m, env, cfg)
  {
  }

  lemma IterationKeepsGraph(s: System, n: nat, env: Env, cfg: Config)
    ensures SameGraph(s.dag, Iterated(s, n, env, cfg).dag)
  {
    hide SameGraph, Partly;
    PartlyKeepsGraph(s, n, |Listed(s, n, env)|, env, cfg);
  }

  lemma RunKeepsGraph(sys: System, env: Env, cfg: Config)
    requires ValidEnv(env) && !sys.raised
    ensures SameGraph(sys.dag, Run(sys, env, cfg).dag)
  {
    hide *;
    var n := RunEndsAtIteration(sys, env, cfg);
    IterationsKeepGraph(sys, n, env, cfg);
  }

  // ---------- Failures shut out all dependents ----------

  lemma FailureSurvives(s: System, n: nat, k: nat, env: Env, cfg: Config, x: TaskId)
    requires Inv(s, cfg) && ValidEnv(env) && HasFailed(s.sched.tasks, x)
    ensures HasFailed(Partly(s, n, k, env, cfg).sched.tasks, x)
  {
    if !s.raised {
      var d, ids := Dispatched(s, env.clock(n)), FirstFew(Listed(s, n, env), k);
      KnownMeansFound(s.dag);
      FailureSurvivesDispatch(s, env.clock(n), cfg, x);
      DispatchKeepsInv(s, env.clock(n), cfg);
      assert Partly(s, n, k, env, cfg) == ExecutedAll(d, ids, n, env, cfg);
      assert HasFailed(d.sched.tasks, x) ==> !IsRunning(d, x);
      hide *;
      FirstFewRun(s, n, k, env, cfg);
      ExecutedAllKeepsInv(d, ids, n, env, cfg);
      assert x !in ids;
      SameRecordsKeepFailure(d, ExecutedAll(d, ids, n, env, cfg), x);
    }
  }

  lemma FailureSurvivesDispatch(s: System, now: Clock, cfg: Config, x: TaskId)
    requires Inv(s, cfg) && HasFailed(s.sched.tasks, x)
    ensures HasFailed(Dispatched(s, now).sched.tasks, x)
  {
    DispatchShape(s, now);
    DispatchedRecord(s, now, x);
    hide Dispatched, Inv, PassedSched;
  }

  lemma SameRecordsKeepFailure(sys: System, r: System, x: TaskId)
    requires HasFailed(sys.sched.tasks, x) && SameRecords(sys, r, x)
    ensures HasFailed(r.sched.tasks, x)
  {
  }

  lemma {:induction false} FailureStays(sys: System, m: nat, n: nat, env: Env, cfg: Config, x: TaskId)
    requires CleanStart(sys) && ValidEnv(env) && m <= n
    requires HasFailed(AtIteration(sys, m, env, cfg).sched.tasks, x)
    ensures HasFailed(AtIteration(sys, n, env, cfg).sched.tasks, x)
    decreases n - m
  {
    hide *;
    if m < n {
      var before := AtIteration(sys, n - 1, env, cfg);
      FailureStays(sys, m, n - 1, env, cfg, x);
      EveryPointKeepsInv(sys, n - 1, 0, env, cfg);
      FailureSurvives(before, n - 1, |Listed(before, n - 1, env)|, env, cfg, x);
      IteratedIsPartly(before, n - 1, env, cfg);
      NextIteration(sys, n - 1, env, cfg);
    }
  }

  /** A failed task stays failed at every later point of the run. */
  lemma FailureIsFinal(sys: System, m: nat, n: nat, k: nat, env: Env, cfg: Config, x: TaskId)
    requires CleanStart(sys) && ValidEnv(env) && m <= n
    requires HasFailed(AtIteration(sys, m, env, cfg).sched.tasks, x)
    ensures HasFailed(AtIteration(sys, n, env, cfg).sched.tasks, x)
    ensures HasFailed(PointAt(sys, n, k, env, cfg).sched.tasks, x)
  {
    hide *;
    FailureStays(sys, m, n, env, cfg, x);
    EveryPointKeepsInv(sys, n, k, env, cfg);
    FailureSurvives(AtIteration(sys, n, env, cfg), n, k, env, cfg, x);
    PointIsPartly(sys, n, k, env, cfg);
  }

  lemma PointIsPartly(sys: System, n: nat, k: nat, env: Env, cfg: Config)
    ensures PointAt(sys, n, k, env, cfg) == Partly(AtIteration(sys, n, env, cfg), n, k, env, cfg)
  {
  }

  lemma IteratedIsPartly(s: System, n: nat, env: Env, cfg: Config)
    ensures Iterated(s, n, env, cfg) == Partly(s, n, |Listed(s, n, env)|, env, cfg)
  {
  }

  /** Once a task has failed, nothing that depends on it, however indirectly, runs at that or
      any later point of the run, unless a restored task stands between. */
  lemma NoDependentOfFailedRuns(sys: System, m: nat, n: nat, k: nat, env: Env, cfg: Config, p: seq<TaskId>)
    requires CleanStart(sys) && ValidEnv(env) && m <= n
    requires IsLiveChain(sys.dag, sys.restored, p) && |p| > 1
    requires HasFailed(AtIteration(sys, m, env, cfg).sched.tasks, p[|p| - 1])
    ensures p[0] !in PointAt(sys, n, k, env, cfg).log && !IsRunning(PointAt(sys, n, k, env, cfg), p[0])
  {
    var s, q := AtIteration(sys, n, env, cfg), PointAt(sys, n, k, env, cfg);
    EveryPointKeepsInv(sys, n, k, env, cfg);
    FailureIsFinal(sys, m, n, k, env, cfg, p[|p| - 1]);
    IterationsKeepGraph(sys, n, env, cfg);
    PartlyKeepsGraph(s, n, k, env, cfg);
    IterationKeepsRestored(sys, n, env, cfg);
    hide CleanStart, AtIteration, Partly, ValidEnv, Inv;
    ChainInSameGraph(sys.dag, s.dag, sys.restored, p);
    ChainInSameGraph(s.dag, q.dag, sys.restored, p);
    if p[0] in q.log || IsRunning(q, p[0]) {
      ChainBelowIsDone(q, cfg, p);
    }
  }

  lemma {:induction false} IterationKeepsRestored(sys: System, n: nat, env: Env, cfg: Config)
    ensures AtIteration(sys, n, env, cfg).restored == sys.restored
  {
    hide Iterated, RegisterAll;
    if n > 0 {
      IterationKeepsRestored(sys, n - 1, env, cfg);
    }
  }

  lemma ChainInSameGraph(a: Dag, b: Dag, restored: set<TaskId>, p: seq<TaskId>)
    requires SameGraph(a, b) && IsLiveChain(a, restored, p)
    ensures IsLiveChain(b, restored, p)
  {
    forall i | 0 < i < |p| ensures p[i] in b.nodes[p[i - 1]].dependencies {
      assert p[i - 1] in p;
    }
  }

  /** In the result of a run: no dependent of a failed task was executed or is running, unless a
      restored task stands between. */
  lemma RunShutsOutDependents(sys: System, env: Env, cfg: Config, p: seq<TaskId>)
    requires CleanStart(sys) && ValidEnv(env) && IsLiveChain(sys.dag, sys.restored, p) && |p| > 1
    requires HasFailed(Run(sys, env, cfg).sched.tasks, p[|p| - 1])
    ensures p[0] !in Run(sys, env, cfg).log && !IsRunning(Run(sys, env, cfg), p[0])
  {
    var r := Run(sys, env, cfg);
    RunIsSafe(sys, env, cfg, p[0]);
    NotRaisedAtStart(sys);
    RunKeepsGraph(sys, env, cfg);
    hide CleanStart, Run, ValidEnv, Inv;
    ChainInSameGraph(sys.dag, r.dag, sys.restored, p);
    if p[0] in r.log || IsRunning(r, p[0]) {
      ChainBelowIsDone(r, cfg, p);
    }
  }

  // ---------- Failures reach their dependents ----------

  /** The ready tasks that come before `x` in the order of dispatch. */
  function ReadyAhead(s: System, x: TaskId): set<TaskId>
    requires x in s.sched.tasks
  {
    set y | y in ReadyNodes(s.dag) && IsPending(s.sched.tasks, y) && ComesBefore(s.sched.tasks, y, x)
  }

  lemma ClearedRecordIs(s: Sched, ids: seq<TaskId>, x: TaskId)
    ensures var c := Cleared(s, ids).tasks;
      && c.Keys == s.tasks.Keys
      && (x in s.tasks ==> c[x] == if x in ids && IsPending(s.tasks, x) then WithoutBackoff(s.tasks[x]) else s.tasks[x])
  {
  }

  lemma ClearedConflicts(s: Sched, ids: seq<TaskId>, x: TaskId)
    requires x in s.tasks
    ensures x in Cleared(s, ids).tasks && (ConflictFree(Cleared(s, ids).tasks, x) <==> ConflictFree(s.tasks, x))
  {
    assert forall dep :: IsDone(Cleared(s, ids).tasks, dep) <==> IsDone(s.tasks, dep);
  }

  lemma ClearedEligible(s: Sched, ids: seq<TaskId>, now: Clock, y: TaskId)
    requires y in s.tasks && (IsPending(s.tasks, y) ==> (y in ids <==> ConflictFree(s.tasks, y)))
    ensures y in Cleared(s, ids).tasks
    ensures Eligible(Cleared(s, ids).tasks, y, now) <==> y in ids && IsPending(s.tasks, y)
  {
    ClearedRecordIs(s, ids, y);
    ClearedConflicts(s, ids, y);
    hide Cleared, ConflictFree;
  }

  lemma WaitingIsReadyIff(s: System, cfg: Config, y: TaskId)
    requires Inv(s, cfg) && IsPending(s.sched.tasks, y)
    ensures y in ReadyNodes(s.dag) <==> ConflictFree(s.sched.tasks, y)
  {
    PartsOfInv(s, cfg);
    hide Inv, Consistent, WellFormed, ConflictFree, Coherent, ReadyNodes;
    ReadyIffConflictFree(s, y);
  }

  /** Once backoffs are cleared the eligible tasks are exactly the ready ones. */
  lemma ReachedIffReadyAhead(s: System, cfg: Config, now: Clock, x: TaskId)
    requires Inv(s, cfg) && x in s.sched.tasks
    ensures var c := Cleared(s.sched, ReadyNodes(s.dag));
      x in c.tasks && (Reached(c, now, x) <==> |ReadyAhead(s, x)| < s.sched.cap - |s.sched.running|)
  {
    hide Inv, ReadyNodes, ConflictFree;
    var ids := ReadyNodes(s.dag);
    forall y | IsPending(s.sched.tasks, y) ensures y in ids <==> ConflictFree(s.sched.tasks, y) {
      WaitingIsReadyIff(s, cfg, y);
    }
    hide *;
    SameAhead(s.sched, ids, now, x);
    ReadyAheadIs(s, x);
  }

  lemma ReadyAheadIs(s: System, x: TaskId)
    requires x in s.sched.tasks
    ensures ReadyAhead(s, x)
      == set y | y in ReadyNodes(s.dag) && IsPending(s.sched.tasks, y) && ComesBefore(s.sched.tasks, y, x)
  {
  }

  lemma SameAhead(s: Sched, ids: seq<TaskId>, now: Clock, x: TaskId)
    requires x in s.tasks && forall y :: IsPending(s.tasks, y) ==> (y in ids <==> ConflictFree(s.tasks, y))
    ensures var c := Cleared(s, ids);
      var ahead := set y | y in ids && IsPending(s.tasks, y) && ComesBefore(s.tasks, y, x);
      x in c.tasks && (Reached(c, now, x) <==> |ahead| < s.cap - |s.running|)
  {
    var c := Cleared(s, ids);
    assert c.cap == s.cap && c.running == s.running;
    ClearedRecordIs(s, ids, x);
    hide Cleared, Eligible, LexLess, ConflictFree;
    forall y | y in s.tasks
      ensures Eligible(c.tasks, y, now) <==> y in ids && IsPending(s.tasks, y)
      ensures ComesBefore(c.tasks, y, x) <==> ComesBefore(s.tasks, y, x)
    {
      ClearedEligible(s, ids, now, y);
      ClearedRecordIs(s, ids, y);
    }
    assert Ahead(c, now, x) == set y | y in ids && IsPending(s.tasks, y) && ComesBefore(s.tasks, y, x);
  }

  lemma ClearedLosesTheSame(s: Sched, ids: seq<TaskId>, r: map<TaskId, Task>, x: TaskId, dep: TaskId)
    requires x in s.tasks
    ensures x in Cleared(s, ids).tasks && (LostTo(Cleared(s, ids).tasks, r, x, dep) <==> LostTo(s.tasks, r, x, dep))
  {
    ClearedRecordIs(s, ids, x);
    ClearedRecordIs(s, ids, dep);
    hide Cleared, LexLess;
  }

  lemma ClearedFailsIff(s: Sched, ids: seq<TaskId>, now: Clock, x: TaskId)
    requires Consistent(s) && IsPending(s.tasks, x) && x !in ids && !ConflictFree(s.tasks, x)
    requires x in Cleared(s, ids).tasks && Reached(Cleared(s, ids), now, x)
    requires PastBackoff(s.tasks[x], now(x).checked)
    ensures var t, r := s.tasks[x], Pass(Cleared(s, ids), now).tasks;
      HasFailed(r, x) <==>
        t.retryAttempts >= t.maxRetryAttempts || exists dep :: dep in t.dependencies && LostTo(s.tasks, r, x, dep)
  {
    var c := Cleared(s, ids);
    var r := Pass(c, now).tasks;
    ClearedRecordIs(s, ids, x);
    ClearedConflicts(s, ids, x);
    ClearedConsistent(s, ids);
    hide Cleared, ConflictFree, Consistent, Pass, LostTo, Reached;
    forall dep ensures LostTo(c.tasks, r, x, dep) <==> LostTo(s.tasks, r, x, dep) {
      ClearedLosesTheSame(s, ids, r, x, dep);
    }
    BlockedTaskFailsIff(c, now, x);
  }

  /** When the dispatch of an iteration fails a waiting task whose dependencies are not all
      completed: past its backoff and with room behind the ready tasks before it, exactly if its
      attempts are used up or a dependency is lost to it, missing, failed or failed before its turn. */
  lemma DispatchFailsIff(s: System, cfg: Config, now: Clock, x: TaskId)
    requires Inv(s, cfg) && IsPending(s.sched.tasks, x) && !ConflictFree(s.sched.tasks, x)
    requires PastBackoff(s.sched.tasks[x], now(x).checked) && |ReadyAhead(s, x)| < s.sched.cap - |s.sched.running|
    ensures var t, r := s.sched.tasks[x], Dispatched(s, now).sched.tasks;
      HasFailed(r, x) <==>
        || t.retryAttempts >= t.maxRetryAttempts
        || exists dep :: dep in t.dependencies && LostTo(s.sched.tasks, r, x, dep)
  {
    assert x in s.sched.tasks;
    hide *;
    DispatchIsPass(s, now);
    PartsOfInv(s, cfg);
    WaitingIsReadyIff(s, cfg, x);
    ReachedIffReadyAhead(s, cfg, now, x);
    ClearedFailsIff(s.sched, ReadyNodes(s.dag), now, x);
  }

  lemma DispatchIsPass(s: System, now: Clock)
    ensures Dispatched(s, now).sched == Pass(Cleared(s.sched, ReadyNodes(s.dag)), now)
  {
    hide Pass, Cleared, ReadyNodes, MarkReadyAll, SyncedNodes, SyncedStates;
  }

  /** A task that depends on a failed one, is past its backoff and has room behind the ready tasks
      before it, fails in that iteration and stays failed: in the scheduler, in the graph, and in
      the state machine unless that says COMPLETED or BLOCKED_HITL. */
  lemma DependentsOfFailedFail(sys: System, m: nat, n: nat, k: nat, env: Env, cfg: Config, a: TaskId, x: TaskId)
    requires CleanStart(sys) && ValidEnv(env) && m < n && !AtIteration(sys, m, env, cfg).raised
    requires var s := AtIteration(sys, m, env, cfg);
      && HasFailed(s.sched.tasks, a) && IsPending(s.sched.tasks, x) && a in s.sched.tasks[x].dependencies
      && PastBackoff(s.sched.tasks[x], env.clock(m)(x).checked)
      && |ReadyAhead(s, x)| < s.sched.cap - |s.sched.running|
    ensures HasFailed(Dispatched(AtIteration(sys, m, env, cfg), env.clock(m)).sched.tasks, x)
    ensures HasFailed(AtIteration(sys, n, env, cfg).sched.tasks, x)
    ensures var q := PointAt(sys, n, k, env, cfg);
      && HasFailed(q.sched.tasks, x)
      && x in q.dag.nodes && q.dag.nodes[x].status == NodeFailed
      && x in q.states && q.states[x] in {Failed, BlockedHitl, Completed}
  {
    var s := AtIteration(sys, m, env, cfg);
    assert x in s.sched.tasks;
    hide *;
    var d := Dispatched(s, env.clock(m));
    EveryPointKeepsInv(sys, m, |Listed(s, m, env)|, env, cfg);
    FailedIsLost(s.sched.tasks, d.sched.tasks, x, a);
    DispatchFailsIff(s, cfg, env.clock(m), x);
    FailureSurvivesExecutions(s, m, env, cfg, x);
    NextIteration(sys, m, env, cfg);
    FailureIsFinal(sys, m + 1, n, k, env, cfg, x);
    EveryPointKeepsInv(sys, n, k, env, cfg);
    FailedInAllStores(PointAt(sys, n, k, env, cfg), cfg, x);
  }

  lemma FailedIsLost(tasks: map<TaskId, Task>, r: map<TaskId, Task>, x: TaskId, a: TaskId)
    requires HasFailed(tasks, a) && x in tasks && a in tasks[x].dependencies
    ensures LostTo(tasks, r, x, a) && !ConflictFree(tasks, x)
  {
    assert !IsDone(tasks, a);
  }

  lemma FailedInAllStores(s: System, cfg: Config, x: TaskId)
    requires Inv(s, cfg) && HasFailed(s.sched.tasks, x)
    ensures x in s.dag.nodes && s.dag.nodes[x].status == NodeFailed
    ensures x in s.states && s.states[x] in {Failed, BlockedHitl, Completed}
  {
    PartsOfInv(s, cfg);
    assert Coherent(s, x);
  }

  /** What a dispatch has failed is failed after the iteration. */
  lemma FailureSurvivesExecutions(s: System, n: nat, env: Env, cfg: Config, x: TaskId)
    requires Inv(s, cfg) && ValidEnv(env) && !s.raised && HasFailed(Dispatched(s, env.clock(n)).sched.tasks, x)
    ensures HasFailed(Iterated(s, n, env, cfg).sched.tasks, x)
  {
    var d, ids := Dispatched(s, env.clock(n)), Listed(s, n, env);
    KnownMeansFound(s.dag);
    assert !IsRunning(d, x);
    assert FirstFew(ids, |ids|) == ids;
    hide *;
    AllListed(s, n, env, cfg);
    DispatchKeepsInv(s, env.clock(n), cfg);
    FirstFewRun(s, n, |ids|, env, cfg);
    ExecutedAllKeepsInv(d, ids, n, env, cfg);
    assert x !in ids;
    SameRecordsKeepFailure(d, ExecutedAll(d, ids, n, env, cfg), x);
  }

  // ---------- What success means ----------

  ghost predicate PredecessorsBefore(g: Graph, order: seq<TaskId>, restored: set<TaskId>, i: int)
    requires 0 <= i < |order|
  {
    forall a :: HasEdge(g, a, order[i]) ==> a in order[..i] || a in restored
  }

  /** Every node that was not restored, once, behind all its predecessors that were not. */
  ghost predicate IsTopologicalOrder(g: Graph, order: seq<TaskId>, restored: set<TaskId>) {
    && Distinct(order) && (forall x :: x in order <==> x in g && x !in restored)
    && forall i :: 0 <= i < |order| ==> PredecessorsBefore(g, order, restored, i)
  }

  ghost predicate AllDone(sys: System) {
    && (forall id :: id in sys.dag.nodes ==>
          && id in sys.sched.tasks && sys.sched.tasks[id].status == TaskCompleted
          && sys.dag.nodes[id].status == NodeCompleted
          && id in sys.states && sys.states[id] == Completed)
  }

  lemma {:induction false} SubsetOfSameSize<T>(a: set<T>, b: set<T>)
    requires a <= b && |a| == |b|
    ensures a == b
  {
    if a != b {
      var x :| x in b && x !in a;
      SubsetIsSmaller(a, b - {x});
      assert |b - {x}| == |b| - 1;
    }
  }

  lemma SucceedsMeansAllCompleted(tasks: map<TaskId, Task>)
    ensures Succeeds(tasks) <==> forall id :: id in tasks ==> tasks[id].status == TaskCompleted
  {
    var done := WithRunStatus(tasks, TaskCompleted);
    assert done <= tasks.Keys;
    if Succeeds(tasks) {
      SubsetOfSameSize(done, tasks.Keys);
    }
    if forall id :: id in tasks ==> tasks[id].status == TaskCompleted {
      assert done == tasks.Keys;
      assert WithRunStatus(tasks, TaskFailed) == {};
    }
  }

  lemma CompletedTasksAreLogged(sys: System, cfg: Config)
    requires Inv(sys, cfg) && forall id :: id in sys.sched.tasks ==> sys.sched.tasks[id].status == TaskCompleted
    ensures AllDone(sys) && forall x :: x in sys.log <==> x in sys.dag.nodes && x !in sys.restored
  {
    forall id | id in sys.dag.nodes
      ensures sys.dag.nodes[id].status == NodeCompleted && sys.states[id] == Completed
      ensures id in sys.log <==> id !in sys.restored
    {
      assert Coherent(sys, id);
    }
    forall x | x in sys.log ensures x in sys.dag.nodes {
      var i :| 0 <= i < |sys.log| && sys.log[i] == x;
      assert DependenciesBefore(sys.log, sys.restored, sys.dag.nodes, i);
    }
  }

  lemma LogIsTopological(d: Dag, d': Dag, log: seq<TaskId>, restored: set<TaskId>)
    requires WellFormed(d) && Mirrored(d) && SameGraph(d, d') && LogInOrder(log, restored, d'.nodes)
    requires forall x :: x in log <==> x in d'.nodes && x !in restored
    ensures IsTopologicalOrder(d.graph, log, restored)
  {
    forall i | 0 <= i < |log| ensures PredecessorsBefore(d.graph, log, restored, i) {
      assert DependenciesBefore(log, restored, d'.nodes, i);
    }
  }

  /** Whatever the inputs: a run from a clean start that reports success has completed every
      node in all three stores, in an order that respects every edge. */
  lemma SuccessMeansTopologicalOrder(sys: System, env: Env, cfg: Config)
    requires CleanStart(sys) && Mirrored(sys.dag) && ValidEnv(env)
    ensures var r := Run(sys, env, cfg);
      Succeeds(r.sched.tasks) ==> AllDone(r) && IsTopologicalOrder(sys.dag.graph, r.log, sys.restored)
  {
    var r := Run(sys, env, cfg);
    RunIsSafe(sys, env, cfg, "");
    RunKeepsGraph(sys, env, cfg);
    assert WellFormed(sys.dag);
    hide Run, CleanStart, Mirrored, WellFormed, SameGraph, AllDone, Safe, SafeTask;
    SucceedsMeansAllCompleted(r.sched.tasks);
    if Succeeds(r.sched.tasks) {
      CompletedTasksAreLogged(r, cfg);
      LogIsTopological(sys.dag, r.dag, r.log, sys.restored);
    }
  }
}
