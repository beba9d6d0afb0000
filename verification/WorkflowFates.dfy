/** What becomes of each task in a run, from the state it was found in and the answers it got:
    which tasks complete, whose state runs ahead of the other stores, and which raise. */
module WorkflowFates {
  import opened Sequences
  import opened TaskKeys
  import opened Dags
  import opened Scheduling
  import opened StateMachines
  import opened Workflow
  import opened WorkflowSteps
  import opened WorkflowSafety
  import opened WorkflowProgress

  /** The state a run finds a task in. */
  function StartState(sys: System, id: TaskId): TaskState {
    if id in sys.states then sys.states[id] else Pending
  }

  // ---------- The fate of a task ----------

  /** The records after the task, found in `start`, was executed with `input`. */
  predicate ExecutedAs(s: System, id: TaskId, start: TaskState, input: ExecInput, cfg: Config)
    requires id in s.sched.tasks && id in s.states
  {
    var status, state := s.sched.tasks[id].status, s.states[id];
    if ExecutionRaises(start, id, input, cfg) then
      s.raised && status == TaskRunning && state == StateAfterRun(start, input, cfg)
    else
      && status == (if EndsDone(start, id, input, cfg) then TaskCompleted else TaskFailed)
      && state == EndState(start, id, input, cfg)
  }

  /** Restored before, executed with the answers of some iteration, or not executed: then it
      waits as it was found or marked ready, or failed without being executed. */
  ghost predicate Fate(s: System, id: TaskId, start: TaskState, env: Env, cfg: Config) {
    && id in s.sched.tasks && id in s.states
    && var status, state := s.sched.tasks[id].status, s.states[id];
    && (if id in s.restored then status == TaskCompleted && state == Completed
        else if id in s.log then exists i: nat :: ExecutedAs(s, id, start, env.input(i, id), cfg)
        else
          || (status in {TaskPending, TaskRunning} && state in {start, Marked(start, true)})
          || (status == TaskFailed && state == SyncedState(start, true)))
    && (!Legal(start, Implementing) ==> CallsOf(s.calls, id) == 0)
  }

  lemma FateStarts(sys: System, env: Env, cfg: Config, id: TaskId)
    requires CleanStart(sys) && id in sys.dag.nodes
    ensures Fate(RegisterAll(sys, sys.dag.order), id, StartState(sys, id), env, cfg)
  {
    RegisteredRecord(sys, id);
    RegistrationShape(sys);
    hide CleanStart, RegisterAll, ExecutedAs;
  }

  lemma DispatchKeepsFate(s: System, now: Clock, env: Env, cfg: Config, id: TaskId, start: TaskState)
    requires Inv(s, cfg) && Fate(s, id, start, env, cfg) && !s.raised
    ensures Fate(Dispatched(s, now), id, start, env, cfg)
  {
    PartsOfInv(s, cfg);
    assert Coherent(s, id);
    DispatchShape(s, now);
    DispatchedRecord(s, now, id);
    DispatchedStores(s, now, id);
    var r, ready := Dispatched(s, now), id in ReadyNodes(s.dag);
    assert r.sched.tasks[id].status == TaskFailed <==> HasFailed(PassedSched(s, now).tasks, id);
    hide Dispatched, Inv, PassedSched, ReadyNodes, WellFormed, Consistent, ConflictFree, SameTasks, DependenciesKnown;
    FateStep(s, r, id, start, ready, env, cfg);
  }

  lemma FateStep(s: System, r: System, id: TaskId, start: TaskState, ready: bool, env: Env, cfg: Config)
    requires Fate(s, id, start, env, cfg) && id in s.dag.nodes && Coherent(s, id)
    requires id in r.sched.tasks && id in r.states && r.log == s.log && r.calls == s.calls
    requires r.restored == s.restored && r.raised == s.raised
    requires var t, t' := s.sched.tasks[id], r.sched.tasks[id];
      && (t.status != TaskPending ==> t' == t)
      && (t.status == TaskPending ==> t'.status != TaskCompleted)
    requires r.states[id] == SyncedState(Marked(s.states[id], ready), r.sched.tasks[id].status == TaskFailed)
    requires !s.raised
    ensures Fate(r, id, start, env, cfg)
  {
    hide ConflictFree;
    if id in s.log && id !in s.restored {
      var i: nat :| ExecutedAs(s, id, start, env.input(i, id), cfg);
      assert ExecutedAs(r, id, start, env.input(i, id), cfg);
    }
  }

  /** Marking a task ready changes nothing about what its execution leads to. */
  lemma MarkedRunsAlike(start: TaskState, state: TaskState, id: TaskId, input: ExecInput, cfg: Config)
    requires state in {start, Marked(start, true)}
    ensures Legal(state, Implementing) == Legal(start, Implementing)
    ensures ExecutionRaises(state, id, input, cfg) == ExecutionRaises(start, id, input, cfg)
    ensures EndsDone(state, id, input, cfg) == EndsDone(start, id, input, cfg)
    ensures EndState(state, id, input, cfg) == EndState(start, id, input, cfg)
    ensures StateAfterRun(state, input, cfg) == StateAfterRun(start, input, cfg)
  {
    hide SandboxAccepts;
  }

  lemma ExecutionDecidesFate(s: System, id: TaskId, i: nat, env: Env, cfg: Config, start: TaskState)
    requires Inv(s, cfg) && IsRunning(s, id) && Fate(s, id, start, env, cfg) && !s.raised
    ensures Fate(Executed(s, id, env.input(i, id), cfg), id, start, env, cfg)
  {
    var input := env.input(i, id);
    hide *;
    RunningTask(s, cfg, id);
    WaitingState(s, id, start, env, cfg);
    MarkedRunsAlike(start, s.states[id], id, input, cfg);
    if ExecutionRaises(s.states[id], id, input, cfg) {
      TaskRaises(s, id, input, cfg);
    } else {
      TaskExecutes(s, id, input, cfg);
    }
    DecidedFate(s, Executed(s, id, input, cfg), id, i, env, cfg, start);
  }

  lemma WaitingState(s: System, id: TaskId, start: TaskState, env: Env, cfg: Config)
    requires Fate(s, id, start, env, cfg) && IsRunning(s, id) && id !in s.log
    ensures id in s.states && s.states[id] in {start, Marked(start, true)} && id !in s.restored
    ensures !Legal(start, Implementing) ==> CallsOf(s.calls, id) == 0
  {
  }

  lemma DecidedFate(s: System, r: System, id: TaskId, i: nat, env: Env, cfg: Config, start: TaskState)
    requires IsRunning(s, id) && id in s.dag.nodes && id in s.states && id !in s.restored && r.restored == s.restored
    requires !Legal(start, Implementing) ==> CallsOf(s.calls, id) == 0
    requires Logged(s, r, id, cfg, Legal(start, Implementing))
    requires var input := env.input(i, id);
      if ExecutionRaises(start, id, input, cfg) then
        r.raised && r.sched == s.sched && r.states == s.states[id := StateAfterRun(start, input, cfg)]
      else
        && r.sched == (if EndsDone(start, id, input, cfg) then Finished(s.sched, id) else Dropped(s.sched, id))
        && r.states == s.states[id := EndState(start, id, input, cfg)]
    ensures Fate(r, id, start, env, cfg)
  {
    hide ExecutionRaises, EndsDone, EndState, StateAfterRun;
    assert r.log[|s.log|] == id;
    assert ExecutedAs(r, id, start, env.input(i, id), cfg);
  }

  lemma SameRecordsSameFate(s: System, r: System, id: TaskId, start: TaskState, env: Env, cfg: Config)
    requires Fate(s, id, start, env, cfg) && SameRecords(s, r, id) && r.restored == s.restored
    requires s.raised ==> r.raised
    ensures Fate(r, id, start, env, cfg)
  {
    if id in s.log && id !in s.restored {
      var i: nat :| ExecutedAs(s, id, start, env.input(i, id), cfg);
      assert ExecutedAs(r, id, start, env.input(i, id), cfg);
    }
  }

  lemma {:induction false} ExecutedAllKeepsFate(s: System, ids: seq<TaskId>, i: nat, env: Env, cfg: Config,
                                                id: TaskId, start: TaskState)
    requires Inv(s, cfg) && Distinct(ids) && forall x :: x in ids ==> IsRunning(s, x)
    requires Fate(s, id, start, env, cfg)
    ensures Fate(ExecutedAll(s, ids, i, env, cfg), id, start, env, cfg)
  {
    hide Inv, Executed, IsRunning, SameRecords, Fate;
    if ids != [] {
      var n := |ids| - 1;
      assert ids == ids[..n] + [ids[n]] && ids[n] in ids && ids[n] !in ids[..n];
      var before := ExecutedAll(s, ids[..n], i, env, cfg);
      ExecutedAllKeepsInv(s, ids[..n], i, env, cfg);
      ExecutedAllKeepsFate(s, ids[..n], i, env, cfg, id, start);
      StillRuns(s, before, ids[n]);
      if !before.raised {
        if id == ids[n] {
          ExecutionDecidesFate(before, id, i, env, cfg, start);
        } else {
          ExecutionIsLocal(before, ids[n], env.input(i, ids[n]), cfg, id);
          SameRecordsSameFate(before, ExecutedAll(s, ids, i, env, cfg), id, start, env, cfg);
        }
      }
    }
  }

  lemma PartlyKeepsFate(s: System, n: nat, k: nat, env: Env, cfg: Config, id: TaskId, start: TaskState)
    requires Inv(s, cfg) && ValidEnv(env) && Fate(s, id, start, env, cfg)
    ensures Fate(Partly(s, n, k, env, cfg), id, start, env, cfg)
  {
    if !s.raised {
      KnownMeansFound(s.dag);
      hide Inv, Dispatched, ExecutedAll, Fate, Listed, LookupFails, DependenciesKnown;
      DispatchKeepsInv(s, env.clock(n), cfg);
      DispatchKeepsFate(s, env.clock(n), env, cfg, id, start);
      FirstFewRun(s, n, k, env, cfg);
      ExecutedAllKeepsFate(Dispatched(s, env.clock(n)), FirstFew(Listed(s, n, env), k), n, env, cfg, id, start);
    }
  }

  /** At every point of every run, a task's records are those of its fate. */
  lemma {:induction false} EveryPointKeepsFate(sys: System, n: nat, k: nat, env: Env, cfg: Config, id: TaskId)
    requires CleanStart(sys) && ValidEnv(env) && id in sys.dag.nodes
    ensures Fate(AtIteration(sys, n, env, cfg), id, StartState(sys, id), env, cfg)
    ensures Fate(PointAt(sys, n, k, env, cfg), id, StartState(sys, id), env, cfg)
  {
    hide *;
    if n == 0 {
      FateStarts(sys, env, cfg, id);
      StartsRegistered(sys, env, cfg);
    } else {
      var before := AtIteration(sys, n - 1, env, cfg);
      EveryPointKeepsFate(sys, n - 1, |Listed(before, n - 1, env)|, env, cfg, id);
      NextIteration(sys, n - 1, env, cfg);
      IteratedIsPartly(before, n - 1, env, cfg);
      PointIsPartly(sys, n - 1, |Listed(before, n - 1, env)|, env, cfg);
    }
    EveryPointKeepsInv(sys, n, k, env, cfg);
    PartlyKeepsFate(AtIteration(sys, n, env, cfg), n, k, env, cfg, id, StartState(sys, id));
    PointIsPartly(sys, n, k, env, cfg);
  }

  lemma StartsRegistered(sys: System, env: Env, cfg: Config)
    ensures AtIteration(sys, 0, env, cfg) == RegisterAll(sys, sys.dag.order)
  {
  }

  lemma RunKeepsFate(sys: System, env: Env, cfg: Config, id: TaskId)
    requires CleanStart(sys) && ValidEnv(env) && id in sys.dag.nodes
    ensures Fate(Run(sys, env, cfg), id, StartState(sys, id), env, cfg)
  {
    NotRaisedAtStart(sys);
    hide *;
    var n := RunEndsAtIteration(sys, env, cfg);
    EveryPointKeepsFate(sys, n, 0, env, cfg, id);
  }

  // ---------- When the stores agree ----------

  lemma FateAheadOnlyIf(s: System, id: TaskId, start: TaskState, env: Env, cfg: Config)
    requires Fate(s, id, start, env, cfg) && RunsAhead(s, id)
    ensures id !in s.restored
    ensures start == Completed
      || exists i: nat :: Accepts(start, env.input(i, id).run, cfg.maxRetries) && env.input(i, id).run.saveError.Some?
  {
    if id in s.log && start != Completed {
      var i: nat :| ExecutedAs(s, id, start, env.input(i, id), cfg);
      hide SandboxAccepts, Repairs;
      assert Accepts(start, env.input(i, id).run, cfg.maxRetries) && env.input(i, id).run.saveError.Some?;
    }
  }

  /** At every point of every run the three stores agree about a task that the state machine did
      not call COMPLETED from the start, or that was restored, if no save of an accepted run
      raises for it. */
  lemma StoresAgreeThroughout(sys: System, n: nat, k: nat, env: Env, cfg: Config, id: TaskId)
    requires CleanStart(sys) && ValidEnv(env) && id in sys.dag.nodes
    requires id in sys.restored || StartState(sys, id) != Completed
    requires forall i: nat :: Accepts(StartState(sys, id), env.input(i, id).run, cfg.maxRetries) ==>
      env.input(i, id).run.saveError.None?
    ensures StoresAgree(PointAt(sys, n, k, env, cfg), id)
  {
    hide *;
    var s := PointAt(sys, n, k, env, cfg);
    EveryPointKeepsFate(sys, n, k, env, cfg, id);
    EveryPointKeepsInv(sys, n, k, env, cfg);
    IterationsKeepGraph(sys, n, env, cfg);
    PartlyKeepsGraph(AtIteration(sys, n, env, cfg), n, k, env, cfg);
    SameNodes(sys.dag, AtIteration(sys, n, env, cfg).dag, id);
    PointIsPartly(sys, n, k, env, cfg);
    SameNodes(AtIteration(sys, n, env, cfg).dag, s.dag, id);
    IterationKeepsRestored(sys, n, env, cfg);
    InvMeansStoresAgreeIff(s, cfg, id);
    if RunsAhead(s, id) {
      FateAheadOnlyIf(s, id, StartState(sys, id), env, cfg);
    }
  }

  // ---------- Which tasks complete ----------

  /** A run that reports success has, for every task that was not restored, met answers with
      which it ends done from the state it was found in. */
  lemma SuccessNeedsEveryTaskDone(sys: System, env: Env, cfg: Config, id: TaskId)
    requires CleanStart(sys) && ValidEnv(env) && id in sys.dag.nodes && id !in sys.restored
    requires Succeeds(Run(sys, env, cfg).sched.tasks)
    ensures exists i: nat :: EndsDone(StartState(sys, id), id, env.input(i, id), cfg)
  {
    var r := Run(sys, env, cfg);
    RunKeepsFate(sys, env, cfg, id);
    hide CleanStart, Run, EndsDone, EndState, ExecutionRaises;
    SucceedsMeansAllCompleted(r.sched.tasks);
    var i: nat :| ExecutedAs(r, id, StartState(sys, id), env.input(i, id), cfg);
    assert EndsDone(StartState(sys, id), id, env.input(i, id), cfg);
  }

  /** A task from whose state IMPLEMENTING is illegal never reaches the sandbox; if no repair
      ever completes it either, or it is in BLOCKED_HITL, the run does not succeed. */
  lemma InterruptedTaskNeverRuns(sys: System, env: Env, cfg: Config, id: TaskId)
    requires CleanStart(sys) && ValidEnv(env) && id in sys.dag.nodes && id !in sys.restored
    requires !Legal(StartState(sys, id), Implementing)
    ensures CallsOf(Run(sys, env, cfg).calls, id) == 0
    ensures StartState(sys, id) == BlockedHitl
            || (forall i: nat :: !Repairs(StartState(sys, id), id, env.input(i, id), cfg)) ==>
      !Succeeds(Run(sys, env, cfg).sched.tasks)
  {
    RunKeepsFate(sys, env, cfg, id);
    if Succeeds(Run(sys, env, cfg).sched.tasks) {
      SuccessNeedsEveryTaskDone(sys, env, cfg, id);
      var i: nat :| EndsDone(StartState(sys, id), id, env.input(i, id), cfg);
      hide CleanStart, Run, Repairs, SandboxAccepts;
      assert Repairs(StartState(sys, id), id, env.input(i, id), cfg) && StartState(sys, id) != BlockedHitl;
    }
  }

  // ---------- When a run raises ----------

  lemma {:induction false} ExecutedAllRaisesIff(s: System, ids: seq<TaskId>, i: nat, env: Env, cfg: Config)
    requires Inv(s, cfg) && Distinct(ids) && forall x :: x in ids ==> IsRunning(s, x)
    requires !s.raised && forall x :: x in ids ==> x in s.states
    ensures ExecutedAll(s, ids, i, env, cfg).raised
      <==> exists x :: x in ids && ExecutionRaises(s.states[x], x, env.input(i, x), cfg)
  {
    hide Inv, Executed, IsRunning, SameRecords, ExecutionRaises;
    if ids != [] {
      var n := |ids| - 1;
      var last := ids[n];
      assert ids == ids[..n] + [last] && last in ids && last !in ids[..n];
      assert forall x :: x in ids <==> x in ids[..n] || x == last;
      var before := ExecutedAll(s, ids[..n], i, env, cfg);
      ExecutedAllKeepsInv(s, ids[..n], i, env, cfg);
      ExecutedAllRaisesIff(s, ids[..n], i, env, cfg);
      if !before.raised {
        StillRuns(s, before, last);
        OneRaisesIff(s, before, last, env.input(i, last), cfg);
      }
    }
  }

  lemma OneRaisesIff(s: System, before: System, id: TaskId, input: ExecInput, cfg: Config)
    requires Inv(before, cfg) && IsRunning(before, id) && !before.raised
    requires id in s.states && SameRecords(s, before, id)
    ensures Executed(before, id, input, cfg).raised <==> ExecutionRaises(s.states[id], id, input, cfg)
  {
    RunningTask(before, cfg, id);
    assert before.states[id] == s.states[id];
    hide Inv, Executed, ExecutionRaises;
    if ExecutionRaises(s.states[id], id, input, cfg) {
      TaskRaises(before, id, input, cfg);
    } else {
      TaskExecutes(before, id, input, cfg);
    }
  }

  /** Iteration `i` executes the task, its run fails, and no recovery context can be built. */
  ghost predicate RaisesIn(s: System, i: nat, env: Env, cfg: Config, id: TaskId) {
    var d := Dispatched(s, env.clock(i));
    id in Listed(s, i, env) && id in d.states && ExecutionRaises(d.states[id], id, env.input(i, id), cfg)
  }

  lemma IterationRaisesIff(s: System, i: nat, env: Env, cfg: Config)
    requires Inv(s, cfg) && ValidEnv(env) && !s.raised
    ensures Iterated(s, i, env, cfg).raised <==> exists id :: RaisesIn(s, i, env, cfg, id)
  {
    var d, ids := Dispatched(s, env.clock(i)), Listed(s, i, env);
    KnownMeansFound(s.dag);
    AllListed(s, i, env, cfg);
    DispatchKeepsInv(s, env.clock(i), cfg);
    assert FirstFew(ids, |ids|) == ids;
    FirstFewRun(s, i, |ids|, env, cfg);
    forall x | x in ids ensures x in d.states {
      RunningTask(d, cfg, x);
    }
    hide Inv, Dispatched, Iterated, ExecutedAll, IsRunning, ExecutionRaises;
    ExecutedAllRaisesIff(d, ids, i, env, cfg);
    if x :| x in ids && ExecutionRaises(d.states[x], x, env.input(i, x), cfg) {
      assert RaisesIn(s, i, env, cfg, x);
    }
  }

  /** In iteration `m` of the run a task is executed whose run fails, with recovery on and an
      error from which no recovery context can be built. */
  ghost predicate RaisesAt(sys: System, m: nat, env: Env, cfg: Config) {
    exists id :: id in Listed(AtIteration(sys, m, env, cfg), m, env)
      && ExecutionRaises(StartState(sys, id), id, env.input(m, id), cfg)
  }

  /** A task that an iteration executes is as it was found, or marked ready. */
  lemma ListedState(sys: System, m: nat, env: Env, cfg: Config, id: TaskId)
    requires CleanStart(sys) && ValidEnv(env) && !AtIteration(sys, m, env, cfg).raised
    requires id in Listed(AtIteration(sys, m, env, cfg), m, env)
    ensures var d, start := Dispatched(AtIteration(sys, m, env, cfg), env.clock(m)), StartState(sys, id);
      && id in sys.dag.nodes && id !in sys.restored
      && id in d.states && d.states[id] in {start, Marked(start, true)}
  {
    hide *;
    var s := AtIteration(sys, m, env, cfg);
    ListedAreNodes(sys, m, env, cfg, id);
    EveryPointKeepsInv(sys, m, 0, env, cfg);
    EveryPointKeepsFate(sys, m, 0, env, cfg, id);
    DispatchKeepsFate(s, env.clock(m), env, cfg, id, StartState(sys, id));
    DispatchKeepsInv(s, env.clock(m), cfg);
    ListedRuns(s, m, env, cfg, id);
    DispatchRaisesNothing(s, env.clock(m));
    RunningTask(Dispatched(s, env.clock(m)), cfg, id);
    WaitingState(Dispatched(s, env.clock(m)), id, StartState(sys, id), env, cfg);
    IterationKeepsRestored(sys, m, env, cfg);
  }

  lemma DispatchRaisesNothing(s: System, now: Clock)
    ensures Dispatched(s, now).raised == s.raised && Dispatched(s, now).restored == s.restored
  {
  }

  lemma RaisesAtIff(sys: System, m: nat, env: Env, cfg: Config)
    requires CleanStart(sys) && ValidEnv(env) && !AtIteration(sys, m, env, cfg).raised
    ensures RaisesAt(sys, m, env, cfg) <==> exists id :: RaisesIn(AtIteration(sys, m, env, cfg), m, env, cfg, id)
  {
    var s := AtIteration(sys, m, env, cfg);
    hide CleanStart, Dispatched, Listed, ExecutionRaises, AtIteration, StartState;
    forall id | id in Listed(s, m, env)
      ensures ExecutionRaises(StartState(sys, id), id, env.input(m, id), cfg) <==> RaisesIn(s, m, env, cfg, id)
    {
      ListedState(sys, m, env, cfg, id);
      MarkedRunsAlike(StartState(sys, id), Dispatched(s, env.clock(m)).states[id], id, env.input(m, id), cfg);
    }
  }

  lemma NextHasRaisedIff(sys: System, m: nat, env: Env, cfg: Config)
    requires CleanStart(sys) && ValidEnv(env) && !AtIteration(sys, m, env, cfg).raised
    ensures AtIteration(sys, m + 1, env, cfg).raised <==> RaisesAt(sys, m, env, cfg)
  {
    hide *;
    EveryPointKeepsInv(sys, m, 0, env, cfg);
    NextIteration(sys, m, env, cfg);
    IterationRaisesIff(AtIteration(sys, m, env, cfg), m, env, cfg);
    RaisesAtIff(sys, m, env, cfg);
  }

  /** A run of `n` iterations raises exactly when in one of them, which is then its last, the run
      of a task fails with recovery on and an error from which no recovery context can be built:
      its text, the workflow id or the task id is empty. */
  lemma RunRaisesIff(sys: System, env: Env, cfg: Config) returns (n: nat)
    requires CleanStart(sys) && ValidEnv(env)
    ensures n == 0 || n <= cfg.maxIterations
    ensures Run(sys, env, cfg) == AtIteration(sys, n, env, cfg)
    ensures Run(sys, env, cfg).raised <==> exists m: nat :: m < n && RaisesAt(sys, m, env, cfg)
    ensures forall m: nat :: m + 1 < n ==> !RaisesAt(sys, m, env, cfg)
  {
    hide *;
    NotRaisedAtStart(sys);
    n := RunEndsAtIteration(sys, env, cfg);
    StartHasNotRaised(sys, env, cfg);
    forall m: nat | m + 1 < n ensures !RaisesAt(sys, m, env, cfg) {
      NextHasRaisedIff(sys, m, env, cfg);
    }
    if n > 0 {
      NextHasRaisedIff(sys, n - 1, env, cfg);
    }
  }

  lemma StartHasNotRaised(sys: System, env: Env, cfg: Config)
    requires CleanStart(sys)
    ensures !AtIteration(sys, 0, env, cfg).raised
  {
  }

  /** No execution of a task that was not restored raises, whenever it happens. */
  ghost predicate NeverRaises(sys: System, env: Env, cfg: Config) {
    forall i: nat, id :: id in sys.dag.nodes && id !in sys.restored ==>
      !ExecutionRaises(StartState(sys, id), id, env.input(i, id), cfg)
  }

  lemma NoneRaisesNow(sys: System, m: nat, env: Env, cfg: Config)
    requires CleanStart(sys) && ValidEnv(env) && NeverRaises(sys, env, cfg) && !AtIteration(sys, m, env, cfg).raised
    ensures !RaisesAt(sys, m, env, cfg)
  {
    hide CleanStart, AtIteration, ExecutionRaises, Listed, StartState, Dispatched, Marked, ValidEnv;
    forall id | id in Listed(AtIteration(sys, m, env, cfg), m, env)
      ensures !ExecutionRaises(StartState(sys, id), id, env.input(m, id), cfg)
    {
      ListedState(sys, m, env, cfg, id);
    }
  }

  lemma {:induction false} NeverRaised(sys: System, n: nat, env: Env, cfg: Config)
    requires CleanStart(sys) && ValidEnv(env) && NeverRaises(sys, env, cfg)
    ensures !AtIteration(sys, n, env, cfg).raised
  {
    hide *;
    if n == 0 {
      StartHasNotRaised(sys, env, cfg);
    } else {
      NeverRaised(sys, n - 1, env, cfg);
      NoneRaisesNow(sys, n - 1, env, cfg);
      NextHasRaisedIff(sys, n - 1, env, cfg);
    }
  }

  /** Then no run raises. */
  lemma RunDoesNotRaise(sys: System, env: Env, cfg: Config)
    requires CleanStart(sys) && ValidEnv(env) && NeverRaises(sys, env, cfg)
    ensures !Run(sys, env, cfg).raised
  {
    hide *;
    NotRaisedAtStart(sys);
    var n := RunEndsAtIteration(sys, env, cfg);
    NeverRaised(sys, n, env, cfg);
  }

  lemma ListedAreNodes(sys: System, m: nat, env: Env, cfg: Config, id: TaskId)
    requires CleanStart(sys) && ValidEnv(env) && id in Listed(AtIteration(sys, m, env, cfg), m, env)
    ensures id in sys.dag.nodes
  {
    hide *;
    var s := AtIteration(sys, m, env, cfg);
    EveryPointKeepsInv(sys, m, 0, env, cfg);
    IterationsKeepGraph(sys, m, env, cfg);
    DispatchKeepsInv(s, env.clock(m), cfg);
    DispatchKeepsGraph(s, env.clock(m));
    ListedRuns(s, m, env, cfg, id);
    RunningTask(Dispatched(s, env.clock(m)), cfg, id);
    SameNodes(sys.dag, s.dag, id);
    SameNodes(s.dag, Dispatched(s, env.clock(m)).dag, id);
  }

  lemma ListedRuns(s: System, i: nat, env: Env, cfg: Config, id: TaskId)
    requires Inv(Dispatched(s, env.clock(i)), cfg) && ValidEnv(env) && id in Listed(s, i, env)
    ensures IsRunning(Dispatched(s, env.clock(i)), id)
  {
    var ids := Listed(s, i, env);
    hide Inv, Listed, IsRunning, Dispatched;
    FirstFewRun(s, i, |ids|, env, cfg);
    assert ids[..|ids|] == ids;
  }

  lemma SameNodes(d: Dag, d': Dag, id: TaskId)
    requires SameGraph(d, d')
    ensures id in d.nodes <==> id in d'.nodes
  {
  }
}
