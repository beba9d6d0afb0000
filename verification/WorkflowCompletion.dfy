/** Which tasks a run executes and which it completes, given time and capacity: those of which
    everything below ends done. */
module WorkflowCompletion {
  import opened Wrappers
  import opened TaskKeys
  import opened Dags
  import opened Scheduling
  import opened SchedulerPasses
  import opened StateMachines
  import opened Workflow
  import opened WorkflowSteps
  import opened WorkflowSafety
  import opened WorkflowProgress
  import opened WorkflowFates

  // ---------- What a task needs ----------

  /** Whatever the iteration in which it is executed, the task ends done. */
  ghost predicate AlwaysEndsDone(state: TaskState, id: TaskId, env: Env, cfg: Config) {
    forall i: nat :: EndsDone(state, id, env.input(i, id), cfg)
  }

  /** Down a live chain from `id` stands a task that was not restored. */
  ghost predicate LeadsDown(sys: System, p: seq<TaskId>, id: TaskId) {
    IsLiveChain(sys.dag, sys.restored, p) && |p| > 1 && p[0] == id && p[|p| - 1] !in sys.restored
  }

  /** Everything below the task ends done, as far down as no restored task stands between. */
  ghost predicate NeedsMet(sys: System, env: Env, cfg: Config, id: TaskId) {
    forall p :: LeadsDown(sys, p, id) ==> AlwaysEndsDone(StartState(sys, p[|p| - 1]), p[|p| - 1], env, cfg)
  }

  /** `id` needs only restored tasks, and tasks of `todo` that end done. */
  ghost predicate NeedsOnly(sys: System, todo: set<TaskId>, env: Env, cfg: Config, id: TaskId)
    requires id in sys.dag.nodes
  {
    forall dep :: dep in sys.dag.nodes[id].dependencies ==>
      dep in sys.restored || (dep in todo && AlwaysEndsDone(StartState(sys, dep), dep, env, cfg))
  }

  /** Tasks that are to be executed. */
  ghost predicate ToDo(sys: System, todo: set<TaskId>, env: Env, cfg: Config) {
    forall x :: x in todo ==> x in sys.dag.nodes && x !in sys.restored && NeedsOnly(sys, todo, env, cfg, x)
  }

  ghost function Needed(sys: System, env: Env, cfg: Config): set<TaskId> {
    set id | id in sys.dag.nodes && id !in sys.restored && NeedsMet(sys, env, cfg, id)
  }

  lemma OneBelow(sys: System, id: TaskId, dep: TaskId)
    requires DependenciesKnown(sys.dag) && id in sys.dag.nodes && id !in sys.restored
    requires dep in sys.dag.nodes[id].dependencies && dep !in sys.restored
    ensures LeadsDown(sys, [id, dep], id)
  {
    assert [id, dep][0] == id && [id, dep][1] == dep;
  }

  lemma LongerChain(sys: System, id: TaskId, q: seq<TaskId>, dep: TaskId)
    requires id in sys.dag.nodes && id !in sys.restored && dep in sys.dag.nodes[id].dependencies
    requires LeadsDown(sys, q, dep)
    ensures LeadsDown(sys, [id] + q, id)
  {
    var p := [id] + q;
    forall x | x in p ensures x in sys.dag.nodes {
      assert x == id || x in q;
    }
    forall i | 0 < i < |p| ensures p[i] in sys.dag.nodes[p[i - 1]].dependencies {
      assert p[i] == q[i - 1] && (i > 1 ==> p[i - 1] == q[i - 2]);
      assert i > 1 ==> q[i - 2] in q;
    }
    assert forall i :: 0 < i < |p| - 1 ==> p[i] == q[i - 1];
  }

  lemma NeededIsToDo(sys: System, env: Env, cfg: Config)
    requires DependenciesKnown(sys.dag)
    ensures ToDo(sys, Needed(sys, env, cfg), env, cfg)
  {
    hide IsLiveChain, AlwaysEndsDone, DependenciesKnown;
    var todo := Needed(sys, env, cfg);
    forall x, dep | x in todo && dep in sys.dag.nodes[x].dependencies && dep !in sys.restored
      ensures dep in todo && AlwaysEndsDone(StartState(sys, dep), dep, env, cfg)
    {
      OneBelow(sys, x, dep);
      KnownDependency(sys, x, dep);
      assert [x, dep][1] == dep;
      forall q | LeadsDown(sys, q, dep)
        ensures AlwaysEndsDone(StartState(sys, q[|q| - 1]), q[|q| - 1], env, cfg)
      {
        LongerChain(sys, x, q, dep);
        LastOfLonger(sys, x, q, dep);
      }
    }
  }

  lemma KnownDependency(sys: System, x: TaskId, dep: TaskId)
    requires DependenciesKnown(sys.dag) && x in sys.dag.nodes && dep in sys.dag.nodes[x].dependencies
    ensures dep in sys.dag.nodes
  {
  }

  lemma LastOfLonger(sys: System, x: TaskId, q: seq<TaskId>, dep: TaskId)
    requires LeadsDown(sys, q, dep)
    ensures |q| > 0 && var p := [x] + q; p[|p| - 1] == q[|q| - 1]
  {
  }

  // ---------- Bounds ----------

  /** A task that waits untouched, or was put off some times since `start`, one backoff each,
      and is not failed before its conflicts exceed `limit`. */
  predicate Patient(t: Task, start: Time, limit: nat) {
    && t.maxRetryAttempts >= limit
    && ((t.retryAttempts == 0 && t.nextRetryAt == None)
        || (t.retryAttempts >= 1 && t.nextRetryAt.Some?
            && t.nextRetryAt.value >= start + t.retryAttempts * BACKOFF))
  }

  /** Passes take place within `limit` backoffs of clock time, and the clock does not run back between
      the check of a backoff and a new one. */
  ghost predicate InTime(now: Clock, start: Time, limit: nat) {
    forall x :: start <= now(x).checked < start + limit * BACKOFF && now(x).checked <= now(x).putOff
  }

  ghost predicate Prompt(env: Env, start: Time, limit: nat) {
    ValidEnv(env) && forall i: nat :: InTime(env.clock(i), start, limit)
  }

  function PendingTasks(tasks: map<TaskId, Task>): set<TaskId> {
    set id | id in tasks && tasks[id].status == TaskPending
  }

  /** What waits in the scheduler already is as `add_task` leaves it, with at least `limit`
      retries; tasks that the run registers itself get the default. */
  predicate FreshTasks(sys: System, limit: nat) {
    && (forall id :: id in sys.sched.tasks && sys.sched.tasks[id].status == TaskPending ==>
          && sys.sched.tasks[id].retryAttempts == 0 && sys.sched.tasks[id].nextRetryAt == None
          && sys.sched.tasks[id].maxRetryAttempts >= limit)
    && (limit <= DEFAULT_MAX_RETRY_ATTEMPTS || sys.dag.nodes.Keys <= sys.sched.tasks.Keys)
  }

  /** Room for one task, dependency lists that mirror the edges, less clock time than `limit`
      backoffs, and no execution that raises. */
  ghost predicate Bounded(sys: System, env: Env, cfg: Config, start: Time, limit: nat) {
    && CleanStart(sys) && Mirrored(sys.dag) && sys.sched.cap >= 1 && FreshTasks(sys, limit)
    && Prompt(env, start, limit) && NeverRaises(sys, env, cfg)
  }

  lemma PartsOfBounded(sys: System, env: Env, cfg: Config, start: Time, limit: nat, i: nat)
    requires Bounded(sys, env, cfg, start, limit)
    ensures CleanStart(sys) && Mirrored(sys.dag) && sys.sched.cap >= 1 && FreshTasks(sys, limit)
    ensures ValidEnv(env) && InTime(env.clock(i), start, limit) && NeverRaises(sys, env, cfg)
    ensures DependenciesKnown(sys.dag) && WellFormed(sys.dag)
  {
  }

  // ---------- The system before an iteration ----------

  /** What is known of it without regard to time. */
  ghost predicate Snapshot(sys: System, s: System, env: Env, cfg: Config) {
    && Inv(s, cfg) && Mirrored(s.dag) && !s.raised && s.sched.cap >= 1
    && s.restored == sys.restored && SameGraph(sys.dag, s.dag) && !LookupFails(s.dag)
    && forall id :: id in sys.dag.nodes ==> Fate(s, id, StartState(sys, id), env, cfg)
  }

  lemma ExecutionKeepsCap(s: System, id: TaskId, input: ExecInput, cfg: Config)
    ensures var r := Executed(s, id, input, cfg);
      && r.sched.cap == s.sched.cap && s.log <= r.log
      && (!s.raised && id in s.dag.nodes ==> id in r.log)
  {
    var r := Executed(s, id, input, cfg);
    if !s.raised && id in s.dag.nodes {
      ExecutedIsSettled(s, id, input, cfg);
      assert (s.log + [id])[|s.log|] == id;
    }
    hide RecoveryOf, RecoveryCalls, VerdictOf, WithStatus, Raises, SetFailedState;
  }

  /** What an iteration executes is logged, unless it raises. */
  lemma {:induction false} ExecutedAllLogs(s: System, ids: seq<TaskId>, i: nat, env: Env, cfg: Config)
    requires forall x :: x in ids ==> x in s.dag.nodes
    ensures var r := ExecutedAll(s, ids, i, env, cfg);
      && r.sched.cap == s.sched.cap && (forall x :: x in s.log ==> x in r.log)
      && (!r.raised ==> forall x :: x in ids ==> x in r.log)
  {
    hide Executed, SameGraph;
    if ids != [] {
      var n := |ids| - 1;
      assert ids == ids[..n] + [ids[n]] && ids[n] in ids;
      var before := ExecutedAll(s, ids[..n], i, env, cfg);
      ExecutedAllLogs(s, ids[..n], i, env, cfg);
      ExecutedAllKeepsGraph(s, ids[..n], i, env, cfg);
      SameNodes(s.dag, before.dag, ids[n]);
      ExecutionKeepsCap(before, ids[n], env.input(i, ids[n]), cfg);
    }
  }

  /** What an iteration that does not raise does to logs and records. */
  ghost predicate Iterates(s: System, d: System, e: System, running: set<TaskId>) {
    && e.sched.cap == d.sched.cap && d.log == s.log
    && (forall x :: x in s.log || x in running ==> x in e.log)
    && (forall x :: x !in running ==> SameRecords(d, e, x))
  }

  lemma IterationShape(s: System, i: nat, env: Env, cfg: Config)
    requires Inv(s, cfg) && !s.raised && !LookupFails(s.dag) && ValidEnv(env) && !Iterated(s, i, env, cfg).raised
    ensures var d, e := Dispatched(s, env.clock(i)), Iterated(s, i, env, cfg);
      && Inv(d, cfg) && d.sched == PassedSched(s, env.clock(i)) && d.sched.cap == s.sched.cap
      && Iterates(s, d, e, d.sched.running)
  {
    var d, ids := Dispatched(s, env.clock(i)), Listed(s, i, env);
    hide *;
    PartsOfInv(s, cfg);
    DispatchShape(s, env.clock(i));
    DispatchKeepsInv(s, env.clock(i), cfg);
    AllListed(s, i, env, cfg);
    ListedAll(s, i, env);
    FirstFewRun(s, i, |ids|, env, cfg);
    RunningNodes(d, ids, cfg);
    ExecutedAllLogs(d, ids, i, env, cfg);
    ExecutedAllKeepsInv(d, ids, i, env, cfg);
    MakeIterates(s, d, Iterated(s, i, env, cfg), ids);
  }

  lemma ListedAll(s: System, i: nat, env: Env)
    requires ValidEnv(env)
    ensures var d, ids := Dispatched(s, env.clock(i)), Listed(s, i, env);
      FirstFew(ids, |ids|) == ids && forall x :: x in ids <==> x in d.sched.running
  {
    hide Dispatched;
    var ids := Listed(s, i, env);
    assert ids[..|ids|] == ids && Lists(ids, Dispatched(s, env.clock(i)).sched.running);
  }

  lemma RunningNodes(d: System, ids: seq<TaskId>, cfg: Config)
    requires Inv(d, cfg) && forall x :: x in ids ==> IsRunning(d, x)
    ensures forall x :: x in ids ==> x in d.dag.nodes
  {
    forall x | x in ids ensures x in d.dag.nodes {
      RunningTask(d, cfg, x);
    }
  }

  lemma MakeIterates(s: System, d: System, e: System, ids: seq<TaskId>)
    requires e.sched.cap == d.sched.cap && d.log == s.log && forall x :: x in ids <==> x in d.sched.running
    requires (forall x :: x in d.log ==> x in e.log) && (forall x :: x in ids ==> x in e.log)
    requires forall x :: x !in ids ==> SameRecords(d, e, x)
    ensures Iterates(s, d, e, d.sched.running)
  {
    hide SameRecords;
  }

  lemma {:induction false} IterationIsSnapshot(sys: System, n: nat, env: Env, cfg: Config, start: Time, limit: nat)
    requires Bounded(sys, env, cfg, start, limit)
    ensures Snapshot(sys, AtIteration(sys, n, env, cfg), env, cfg)
  {
    hide *;
    var s := AtIteration(sys, n, env, cfg);
    PartsOfBounded(sys, env, cfg, start, limit, 0);
    EveryPointKeepsInv(sys, n, 0, env, cfg);
    PartsOfInv(s, cfg);
    KnownMeansFound(s.dag);
    NeverRaised(sys, n, env, cfg);
    IterationKeepsRestored(sys, n, env, cfg);
    IterationsKeepGraph(sys, n, env, cfg);
    SameGraphKeepsMirrored(sys.dag, s.dag);
    forall id | id in sys.dag.nodes ensures Fate(s, id, StartState(sys, id), env, cfg) {
      EveryPointKeepsFate(sys, n, 0, env, cfg, id);
    }
    if n == 0 {
      StartIsRegistered(sys, cfg, start, limit);
      StartsRegistered(sys, env, cfg);
    } else {
      var before := AtIteration(sys, n - 1, env, cfg);
      IterationIsSnapshot(sys, n - 1, env, cfg, start, limit);
      PartsOfSnapshot(sys, before, env, cfg);
      NextIteration(sys, n - 1, env, cfg);
      IterationShape(before, n - 1, env, cfg);
      CapOf(before, Dispatched(before, env.clock(n - 1)), s);
    }
    MakeSnapshot(sys, s, env, cfg);
  }

  lemma CapOf(s: System, d: System, e: System)
    requires Iterates(s, d, e, d.sched.running) && d.sched.cap == s.sched.cap
    ensures e.sched.cap == s.sched.cap
  {
  }

  lemma PartsOfSnapshot(sys: System, s: System, env: Env, cfg: Config)
    requires Snapshot(sys, s, env, cfg)
    ensures Inv(s, cfg) && Mirrored(s.dag) && !s.raised && s.sched.cap >= 1
    ensures s.restored == sys.restored && SameGraph(sys.dag, s.dag) && !LookupFails(s.dag)
    ensures forall id :: id in sys.dag.nodes ==> Fate(s, id, StartState(sys, id), env, cfg)
  {
  }

  lemma MakeSnapshot(sys: System, s: System, env: Env, cfg: Config)
    requires Inv(s, cfg) && Mirrored(s.dag) && !s.raised && s.sched.cap >= 1
    requires s.restored == sys.restored && SameGraph(sys.dag, s.dag) && !LookupFails(s.dag)
    requires forall id :: id in sys.dag.nodes ==> Fate(s, id, StartState(sys, id), env, cfg)
    ensures Snapshot(sys, s, env, cfg)
  {
  }

  lemma SameGraphKeepsMirrored(d: Dag, d': Dag)
    requires Mirrored(d) && SameGraph(d, d')
    ensures Mirrored(d')
  {
  }

  /** A task that was executed has ended, completed if it ends done, and only then. */
  lemma LoggedHasEnded(sys: System, s: System, env: Env, cfg: Config, id: TaskId)
    requires Snapshot(sys, s, env, cfg) && NeverRaises(sys, env, cfg) && id in sys.dag.nodes && id in s.log
    ensures id !in sys.restored && id in s.sched.tasks && s.sched.tasks[id].status in {TaskCompleted, TaskFailed}
    ensures AlwaysEndsDone(StartState(sys, id), id, env, cfg) ==> s.sched.tasks[id].status == TaskCompleted
    ensures s.sched.tasks[id].status == TaskCompleted ==>
      exists i: nat :: EndsDone(StartState(sys, id), id, env.input(i, id), cfg)
  {
    hide *;
    PartsOfSnapshot(sys, s, env, cfg);
    PartsOfInv(s, cfg);
    SameNodes(sys.dag, s.dag, id);
    NotBothRestored(s, id);
    EndedByFate(sys, s, env, cfg, id);
  }

  lemma NotBothRestored(s: System, id: TaskId)
    requires SameTasks(s) && id in s.dag.nodes && Coherent(s, id) && id in s.log
    ensures id !in s.restored
  {
  }

  lemma EndedByFate(sys: System, s: System, env: Env, cfg: Config, id: TaskId)
    requires Fate(s, id, StartState(sys, id), env, cfg) && id in s.log && id !in s.restored
    requires NeverRaises(sys, env, cfg) && id in sys.dag.nodes && s.restored == sys.restored
    ensures id in s.sched.tasks && s.sched.tasks[id].status in {TaskCompleted, TaskFailed}
    ensures AlwaysEndsDone(StartState(sys, id), id, env, cfg) ==> s.sched.tasks[id].status == TaskCompleted
    ensures s.sched.tasks[id].status == TaskCompleted ==>
      exists i: nat :: EndsDone(StartState(sys, id), id, env.input(i, id), cfg)
  {
    hide ExecutionRaises, EndsDone, EndState, StartState;
    var i: nat :| ExecutedAs(s, id, StartState(sys, id), env.input(i, id), cfg);
    assert !ExecutionRaises(StartState(sys, id), id, env.input(i, id), cfg);
  }

  lemma RestoredIsDone(sys: System, s: System, env: Env, cfg: Config, id: TaskId)
    requires Snapshot(sys, s, env, cfg) && id in sys.dag.nodes && id in sys.restored
    ensures IsDone(s.sched.tasks, id)
  {
    assert Fate(s, id, StartState(sys, id), env, cfg);
  }

  lemma PendingTask(sys: System, s: System, env: Env, cfg: Config, id: TaskId)
    requires Snapshot(sys, s, env, cfg) && IsPending(s.sched.tasks, id)
    ensures id in sys.dag.nodes && id in s.dag.nodes && id !in sys.restored && id !in s.log
    ensures s.sched.tasks[id].dependencies == sys.dag.nodes[id].dependencies == s.dag.nodes[id].dependencies
  {
    PartsOfSnapshot(sys, s, env, cfg);
    PartsOfInv(s, cfg);
    assert Coherent(s, id);
  }

  // ---------- Waiting for its turn ----------

  /** Executed, or pending and patient. */
  predicate Waits(s: System, id: TaskId, start: Time, limit: nat) {
    id in s.log || (IsPending(s.sched.tasks, id) && Patient(s.sched.tasks[id], start, limit))
  }

  ghost predicate OnTrack(s: System, todo: set<TaskId>, start: Time, limit: nat) {
    s.sched.running == {} && forall x :: x in todo ==> Waits(s, x, start, limit)
  }

  /** What is to be done and has not failed, with what was restored. */
  ghost function Alive(s: System, todo: set<TaskId>): set<TaskId> {
    set x | x in s.sched.tasks && s.sched.tasks[x].status != TaskFailed && (x in s.restored || x in todo)
  }

  /** The dependencies of what is to be done are alive. */
  lemma NeedsAreAlive(sys: System, s: System, todo: set<TaskId>, env: Env, cfg: Config, start: Time, limit: nat,
                      x: TaskId, dep: TaskId)
    requires Snapshot(sys, s, env, cfg) && NeverRaises(sys, env, cfg) && ToDo(sys, todo, env, cfg)
    requires OnTrack(s, todo, start, limit) && DependenciesKnown(sys.dag)
    requires x in todo && x in sys.dag.nodes && dep in sys.dag.nodes[x].dependencies
    ensures dep in Alive(s, todo)
  {
    KnownDependency(sys, x, dep);
    assert NeedsOnly(sys, todo, env, cfg, x) && s.restored == sys.restored;
    hide Snapshot, DependenciesKnown, AlwaysEndsDone, NeverRaises, Patient;
    if dep in sys.restored {
      RestoredIsDone(sys, s, env, cfg, dep);
    } else if dep in s.log {
      LoggedHasEnded(sys, s, env, cfg, dep);
    } else {
      assert Waits(s, dep, start, limit);
    }
  }

  lemma PendingNeedsAreAlive(sys: System, s: System, todo: set<TaskId>, env: Env, cfg: Config, start: Time, limit: nat,
                             x: TaskId)
    requires Snapshot(sys, s, env, cfg) && NeverRaises(sys, env, cfg) && ToDo(sys, todo, env, cfg)
    requires OnTrack(s, todo, start, limit) && DependenciesKnown(sys.dag)
    requires x in Alive(s, todo) && IsPending(s.sched.tasks, x)
    ensures x in todo && Waits(s, x, start, limit) && x !in s.log
    ensures forall dep :: dep in s.sched.tasks[x].dependencies ==> dep in Alive(s, todo)
  {
    PendingTask(sys, s, env, cfg, x);
    assert s.restored == sys.restored && x in todo;
    hide Snapshot, DependenciesKnown, NeverRaises, Alive;
    forall dep | dep in s.sched.tasks[x].dependencies ensures dep in Alive(s, todo) {
      NeedsAreAlive(sys, s, todo, env, cfg, start, limit, x, dep);
    }
  }

  lemma ClearedTask(s: Sched, ids: seq<TaskId>, x: TaskId)
    requires x in s.tasks
    ensures x in Cleared(s, ids).tasks
    ensures var t, t' := s.tasks[x], Cleared(s, ids).tasks[x];
      && t' == (if x in ids && t.status == TaskPending then WithoutBackoff(t) else t)
  {
  }

  /** The arithmetic of patience: a conflict past its backoff is not one too many. */
  lemma PatientHasAttempts(t: Task, start: Time, limit: nat, now: Clock, x: TaskId)
    requires Patient(t, start, limit) && InTime(now, start, limit) && PastBackoff(t, now(x).checked)
    ensures t.retryAttempts < t.maxRetryAttempts
  {
  }

  /** Clearing leaves a task healthy that has not failed and, while it waits, is patient. */
  lemma ClearedTaskIsHealthy(s: Sched, ids: seq<TaskId>, alive: set<TaskId>, start: Time, limit: nat, now: Clock,
                             x: TaskId)
    requires x in s.tasks && s.tasks[x].status != TaskFailed && InTime(now, start, limit)
    requires IsPending(s.tasks, x) ==>
      Patient(s.tasks[x], start, limit) && forall dep :: dep in s.tasks[x].dependencies ==> dep in alive
    ensures x in Cleared(s, ids).tasks && HealthyTask(Cleared(s, ids), alive, now, x)
  {
    var c := Cleared(s, ids);
    ClearedTask(s, ids, x);
    hide Cleared, Patient, InTime;
    if IsPending(s.tasks, x) {
      ClearedIsPatient(s.tasks[x], c.tasks[x], start, limit);
      if PastBackoff(c.tasks[x], now(x).checked) {
        PatientHasAttempts(c.tasks[x], start, limit, now, x);
      }
    }
  }

  lemma AliveTask(s: System, todo: set<TaskId>, start: Time, limit: nat, x: TaskId)
    requires x in Alive(s, todo)
    ensures x in s.sched.tasks && s.sched.tasks[x].status != TaskFailed
    ensures Waits(s, x, start, limit) && x !in s.log && IsPending(s.sched.tasks, x) ==>
      Patient(s.sched.tasks[x], start, limit)
  {
    hide Patient;
  }

  lemma ClearedIsHealthy(sys: System, s: System, todo: set<TaskId>, env: Env, cfg: Config, start: Time, limit: nat,
                         ids: seq<TaskId>, now: Clock)
    requires Snapshot(sys, s, env, cfg) && NeverRaises(sys, env, cfg) && ToDo(sys, todo, env, cfg)
    requires OnTrack(s, todo, start, limit) && DependenciesKnown(sys.dag) && InTime(now, start, limit)
    ensures Healthy(Cleared(s.sched, ids), Alive(s, todo), now)
  {
    hide *;
    var c, alive := Cleared(s.sched, ids), Alive(s, todo);
    forall x | x in alive ensures x in c.tasks && HealthyTask(c, alive, now, x) {
      AliveTask(s, todo, start, limit, x);
      if IsPending(s.sched.tasks, x) {
        PendingNeedsAreAlive(sys, s, todo, env, cfg, start, limit, x);
      }
      ClearedTaskIsHealthy(s.sched, ids, alive, start, limit, now, x);
    }
    MakeHealthy(c, alive, now);
  }

  lemma MakeHealthy(s: Sched, tasks: set<TaskId>, now: Clock)
    requires forall x :: x in tasks ==> x in s.tasks && HealthyTask(s, tasks, now, x)
    ensures Healthy(s, tasks, now)
  {
    hide HealthyTask;
  }

  lemma ClearedIsPatient(t: Task, c: Task, start: Time, limit: nat)
    requires Patient(t, start, limit) && (c == t || c == WithoutBackoff(t))
    ensures Patient(c, start, limit)
  {
  }

  /** After a pass a healthy pending task has started, or is as patient as before. */
  lemma PassOfPatient(s: Sched, tasks: set<TaskId>, start: Time, limit: nat, now: Clock, x: TaskId)
    requires Consistent(s) && Healthy(s, tasks, now) && x in tasks && InTime(now, start, limit)
    requires IsPending(s.tasks, x) && Patient(s.tasks[x], start, limit)
    ensures var r := Pass(s, now).tasks;
      && x in r && r[x].status in {TaskPending, TaskRunning}
      && (r[x].status == TaskPending ==> Patient(r[x], start, limit))
  {
    HealthyPassFailsNone(s, tasks, now, x);
    PassSteps(s, now);
    assert PassStep(s.tasks, Pass(s, now).tasks, x, now);
    hide Pass, Consistent, Healthy;
  }

  /** What a dispatch does to a task that is to be done. */
  lemma TodoAfterDispatch(sys: System, s: System, todo: set<TaskId>, env: Env, cfg: Config, start: Time, limit: nat,
                          now: Clock, x: TaskId)
    requires Snapshot(sys, s, env, cfg) && NeverRaises(sys, env, cfg) && ToDo(sys, todo, env, cfg)
    requires OnTrack(s, todo, start, limit) && DependenciesKnown(sys.dag) && InTime(now, start, limit)
    requires x in todo && x !in s.log
    ensures var r := PassedSched(s, now).tasks;
      && x in r && r[x].status in {TaskPending, TaskRunning}
      && (r[x].status == TaskPending ==> Patient(r[x], start, limit))
  {
    var ids := ReadyNodes(s.dag);
    var c := Cleared(s.sched, ids);
    assert PassedSched(s, now) == Pass(c, now) && Waits(s, x, start, limit);
    assert x in Alive(s, todo);
    hide *;
    PartsOfSnapshot(sys, s, env, cfg);
    PartsOfInv(s, cfg);
    ClearedConsistent(s.sched, ids);
    ClearedIsHealthy(sys, s, todo, env, cfg, start, limit, ids, now);
    ClearedWaits(s, ids, x, start, limit);
    PassOfPatient(c, Alive(s, todo), start, limit, now, x);
  }

  lemma ClearedWaits(s: System, ids: seq<TaskId>, x: TaskId, start: Time, limit: nat)
    requires Waits(s, x, start, limit) && x !in s.log
    ensures var c := Cleared(s.sched, ids).tasks; IsPending(c, x) && Patient(c[x], start, limit)
  {
    ClearedTask(s.sched, ids, x);
    ClearedIsPatient(s.sched.tasks[x], Cleared(s.sched, ids).tasks[x], start, limit);
    hide Patient, Cleared;
  }

  // ---------- Some task starts ----------

  lemma AliveIsLive(sys: System, s: System, todo: set<TaskId>, env: Env, cfg: Config, start: Time, limit: nat)
    requires Snapshot(sys, s, env, cfg) && NeverRaises(sys, env, cfg) && ToDo(sys, todo, env, cfg)
    requires OnTrack(s, todo, start, limit) && DependenciesKnown(sys.dag)
    ensures Live(s.dag, Alive(s, todo))
  {
    PartsOfSnapshot(sys, s, env, cfg);
    PartsOfInv(s, cfg);
    NoneRuns(s.sched);
    forall x | x in Alive(s, todo)
      ensures x in s.dag.nodes && s.dag.nodes[x].status in {NodePending, NodeCompleted}
      ensures s.dag.nodes[x].status == NodePending ==>
        forall dep :: dep in s.dag.nodes[x].dependencies ==> dep in Alive(s, todo)
    {
      assert Coherent(s, x) && s.sched.tasks[x].status != TaskRunning;
      hide Snapshot, DependenciesKnown, NeverRaises, Inv, ToDo, Consistent, Fate, WellFormed, Mirrored;
      if s.sched.tasks[x].status == TaskPending {
        PendingNeedsAreAlive(sys, s, todo, env, cfg, start, limit, x);
      }
    }
  }

  lemma NoneRuns(s: Sched)
    requires Consistent(s) && s.running == {}
    ensures forall x :: x in s.tasks ==> s.tasks[x].status != TaskRunning
  {
  }

  lemma ReadyIsEligible(s: Sched, ids: seq<TaskId>, x: TaskId, now: Clock)
    requires IsPending(s.tasks, x) && ConflictFree(s.tasks, x) && x in ids
    ensures x in EligibleTasks(Cleared(s, ids), now)
  {
    assert forall y :: IsDone(s.tasks, y) ==> IsDone(Cleared(s, ids).tasks, y);
  }

  lemma EligibleMeansStart(s: Sched, now: Clock, x: TaskId)
    requires Consistent(s) && s.running == {} && s.cap >= 1 && x in EligibleTasks(s, now)
    ensures Pass(s, now).running != {}
  {
    PassSortsAndTakes(s, now);
    assert |EligibleTasks(s, now)| != 0;
    hide Pass, Consistent, EligibleTasks;
  }

  lemma ReadyIsPending(s: System, cfg: Config, x: TaskId)
    requires Inv(s, cfg) && s.sched.running == {} && x in ReadyNodes(s.dag)
    ensures IsPending(s.sched.tasks, x) && ConflictFree(s.sched.tasks, x)
  {
    NoneRuns(s.sched);
    ReadyNode(s.dag, x);
    assert Coherent(s, x);
    PartsOfInv(s, cfg);
    hide Inv, ReadyNodes, Consistent, ConflictFree;
    ReadyIffConflictFree(s, x);
  }

  lemma ReadyNode(d: Dag, x: TaskId)
    requires WellFormed(d) && x in ReadyNodes(d)
    ensures x in d.nodes && d.nodes[x].status == NodePending
  {
  }

  /** While a task waits among pending and completed ones, an iteration starts some task. */
  lemma SomeTaskStarts(s: System, alive: set<TaskId>, cfg: Config, now: Clock, pending: TaskId)
    requires Inv(s, cfg) && Mirrored(s.dag) && Live(s.dag, alive) && s.sched.running == {} && s.sched.cap >= 1
    requires pending in alive && IsPending(s.sched.tasks, pending)
    ensures PassedSched(s, now).running != {}
  {
    var ids := ReadyNodes(s.dag);
    var c := Cleared(s.sched, ids);
    assert c.running == {} && c.cap >= 1 && PassedSched(s, now) == Pass(c, now);
    hide *;
    PartsOfInv(s, cfg);
    PendingNode(s, pending);
    ClearedConsistent(s.sched, ids);
    var x := NoDeadlock(s.dag, alive, pending);
    ReadyIsPending(s, cfg, x);
    ReadyIsEligible(s.sched, ids, x, now);
    EligibleMeansStart(c, now, x);
  }

  lemma PendingNode(s: System, x: TaskId)
    requires SameTasks(s) && (forall y :: y in s.dag.nodes ==> Coherent(s, y)) && IsPending(s.sched.tasks, x)
    ensures x in s.dag.nodes && s.dag.nodes[x].status == NodePending
  {
    assert Coherent(s, x);
  }

  // ---------- One iteration ----------

  /** The tasks of an iteration have ended after it, and none has come back. */
  lemma IterationEnds(sys: System, s: System, d: System, e: System, env: Env, cfg: Config, now: Clock, x: TaskId)
    requires Snapshot(sys, s, env, cfg) && Snapshot(sys, e, env, cfg) && NeverRaises(sys, env, cfg)
    requires Inv(d, cfg) && d.sched == PassedSched(s, now) && Iterates(s, d, e, d.sched.running)
    requires s.sched.running == {} && x in e.sched.tasks
    ensures e.sched.tasks[x].status != TaskRunning
    ensures e.sched.tasks[x].status == TaskPending ==>
      && x !in d.sched.running && IsPending(s.sched.tasks, x)
      && x in d.sched.tasks && e.sched.tasks[x] == d.sched.tasks[x]
  {
    hide *;
    PartsOfSnapshot(sys, s, env, cfg);
    PartsOfInv(s, cfg);
    PartsOfSnapshot(sys, e, env, cfg);
    PartsOfInv(e, cfg);
    PartsOfInv(d, cfg);
    NodesOfSnapshot(sys, e, x);
    if x in d.sched.running {
      IsLogged(s, d, e, x);
      LoggedHasEnded(sys, e, env, cfg, x);
    } else {
      NodesOfSnapshot(sys, s, x);
      DispatchedRecord(s, now, x);
      RecordKept(s, d, e, x);
    }
  }

  lemma NodesOfSnapshot(sys: System, s: System, x: TaskId)
    requires SameTasks(s) && SameGraph(sys.dag, s.dag)
    ensures x in s.sched.tasks <==> x in sys.dag.nodes
  {
  }

  lemma IsLogged(s: System, d: System, e: System, x: TaskId)
    requires Iterates(s, d, e, d.sched.running) && x in d.sched.running
    ensures x in e.log
  {
  }

  lemma RecordKept(s: System, d: System, e: System, x: TaskId)
    requires Iterates(s, d, e, d.sched.running) && x !in d.sched.running && Consistent(d.sched) && Consistent(s.sched)
    requires x in s.sched.tasks && x in d.sched.tasks && x in e.sched.tasks && s.sched.running == {}
    requires s.sched.tasks[x].status != TaskPending ==> d.sched.tasks[x] == s.sched.tasks[x]
    ensures e.sched.tasks[x] == d.sched.tasks[x] && d.sched.tasks[x].status != TaskRunning
    ensures d.sched.tasks[x].status == TaskPending ==> IsPending(s.sched.tasks, x)
  {
    assert SameRecords(d, e, x);
    assert Lookup(e.sched.tasks, x) == Lookup(d.sched.tasks, x);
  }

  /** A task that is to be done still waits after an iteration, or has been executed. */
  lemma TodoAfterIteration(sys: System, s: System, d: System, e: System, todo: set<TaskId>, env: Env, cfg: Config,
                           start: Time, limit: nat, now: Clock, x: TaskId)
    requires Snapshot(sys, s, env, cfg) && NeverRaises(sys, env, cfg) && ToDo(sys, todo, env, cfg)
    requires OnTrack(s, todo, start, limit) && DependenciesKnown(sys.dag) && InTime(now, start, limit)
    requires Inv(d, cfg) && d.sched == PassedSched(s, now) && Iterates(s, d, e, d.sched.running) && x in todo
    ensures Waits(e, x, start, limit)
  {
    if x !in s.log {
      hide *;
      TodoAfterDispatch(sys, s, todo, env, cfg, start, limit, now, x);
      PartsOfInv(d, cfg);
      StillWaits(s, d, e, start, limit, x);
    }
  }

  lemma StillWaits(s: System, d: System, e: System, start: Time, limit: nat, x: TaskId)
    requires Iterates(s, d, e, d.sched.running) && Consistent(d.sched)
    requires x in d.sched.tasks && d.sched.tasks[x].status in {TaskPending, TaskRunning}
    requires d.sched.tasks[x].status == TaskPending ==> Patient(d.sched.tasks[x], start, limit)
    ensures Waits(e, x, start, limit)
  {
    hide Patient;
    if d.sched.tasks[x].status == TaskPending {
      assert SameRecords(d, e, x);
      assert Lookup(e.sched.tasks, x) == Lookup(d.sched.tasks, x);
    }
  }

  /** While a task to do is pending, an iteration starts at least one task, and ends all it
      starts: what is to be done stays on track, and fewer tasks are pending. */
  lemma IterationMakesProgress(sys: System, n: nat, todo: set<TaskId>, env: Env, cfg: Config, start: Time, limit: nat,
                               pending: TaskId)
    requires Bounded(sys, env, cfg, start, limit) && ToDo(sys, todo, env, cfg)
    requires OnTrack(AtIteration(sys, n, env, cfg), todo, start, limit)
    requires pending in todo && pending !in AtIteration(sys, n, env, cfg).log
    ensures var s, e := AtIteration(sys, n, env, cfg), AtIteration(sys, n + 1, env, cfg);
      && Dispatched(s, env.clock(n)).sched.running != {}
      && OnTrack(e, todo, start, limit)
      && PendingTasks(e.sched.tasks) < PendingTasks(s.sched.tasks)
  {
    hide *;
    var s, e := AtIteration(sys, n, env, cfg), AtIteration(sys, n + 1, env, cfg);
    var d := Dispatched(s, env.clock(n));
    PartsOfBounded(sys, env, cfg, start, limit, n);
    IterationIsSnapshot(sys, n, env, cfg, start, limit);
    IterationIsSnapshot(sys, n + 1, env, cfg, start, limit);
    PartsOfSnapshot(sys, s, env, cfg);
    PartsOfSnapshot(sys, e, env, cfg);
    NextIteration(sys, n, env, cfg);
    IterationShape(s, n, env, cfg);
    PartsOfOnTrack(s, todo, start, limit);
    AliveIsLive(sys, s, todo, env, cfg, start, limit);
    WaitingIsAlive(s, todo, start, limit, pending);
    SomeTaskStarts(s, Alive(s, todo), cfg, env.clock(n), pending);
    forall x | x in e.sched.tasks
      ensures e.sched.tasks[x].status != TaskRunning
      ensures e.sched.tasks[x].status == TaskPending ==> x !in d.sched.running && IsPending(s.sched.tasks, x)
    {
      IterationEnds(sys, s, d, e, env, cfg, env.clock(n), x);
    }
    forall x | x in todo ensures Waits(e, x, start, limit) {
      TodoAfterIteration(sys, s, d, e, todo, env, cfg, start, limit, env.clock(n), x);
    }
    PartsOfInv(e, cfg);
    MakeOnTrack(e, todo, start, limit);
    StartedWasPending(s, env.clock(n), cfg);
    FewerPending(s.sched.tasks, e.sched.tasks, d.sched.running);
  }

  lemma PartsOfOnTrack(s: System, todo: set<TaskId>, start: Time, limit: nat)
    requires OnTrack(s, todo, start, limit)
    ensures s.sched.running == {} && forall x :: x in todo ==> Waits(s, x, start, limit)
  {
  }

  lemma WaitingIsAlive(s: System, todo: set<TaskId>, start: Time, limit: nat, x: TaskId)
    requires x in todo && Waits(s, x, start, limit) && x !in s.log
    ensures x in Alive(s, todo) && IsPending(s.sched.tasks, x)
  {
  }

  lemma MakeOnTrack(e: System, todo: set<TaskId>, start: Time, limit: nat)
    requires Consistent(e.sched) && forall x :: x in e.sched.tasks ==> e.sched.tasks[x].status != TaskRunning
    requires forall x :: x in todo ==> Waits(e, x, start, limit)
    ensures OnTrack(e, todo, start, limit)
  {
    hide Waits;
  }

  /** Where nothing ran before a dispatch, what runs after it was pending. */
  lemma StartedWasPending(s: System, now: Clock, cfg: Config)
    requires Inv(s, cfg) && s.sched.running == {}
    ensures forall x :: x in Dispatched(s, now).sched.running ==> IsPending(s.sched.tasks, x)
  {
    var d := Dispatched(s, now);
    PartsOfInv(s, cfg);
    DispatchShape(s, now);
    NoneRuns(s.sched);
    forall x | x in d.sched.running ensures IsPending(s.sched.tasks, x) {
      RunsInDispatch(s, d, x);
      DispatchedRecord(s, now, x);
    }
  }

  lemma RunsInDispatch(s: System, d: System, x: TaskId)
    requires SameTasks(s) && SameTasks(d) && d.dag.nodes.Keys == s.dag.nodes.Keys && Consistent(d.sched)
    requires x in d.sched.running
    ensures x in s.sched.tasks && x in d.sched.tasks && d.sched.tasks[x].status == TaskRunning
  {
  }

  lemma FewerPending(before: map<TaskId, Task>, after: map<TaskId, Task>, running: set<TaskId>)
    requires running != {} && forall x :: x in running ==> IsPending(before, x)
    requires forall x :: x in after && after[x].status == TaskPending ==> x !in running && IsPending(before, x)
    ensures PendingTasks(after) < PendingTasks(before)
  {
    var some :| some in running;
    assert some in PendingTasks(before) && some !in PendingTasks(after);
  }

  // ---------- The whole run ----------

  lemma {:induction false} LogsGrow(sys: System, m: nat, n: nat, env: Env, cfg: Config, start: Time, limit: nat,
                                    x: TaskId)
    requires Bounded(sys, env, cfg, start, limit) && m <= n && x in AtIteration(sys, m, env, cfg).log
    ensures x in AtIteration(sys, n, env, cfg).log
    decreases n - m
  {
    hide *;
    if m < n {
      var s := AtIteration(sys, n - 1, env, cfg);
      LogsGrow(sys, m, n - 1, env, cfg, start, limit, x);
      PartsOfBounded(sys, env, cfg, start, limit, n);
      IterationIsSnapshot(sys, n - 1, env, cfg, start, limit);
      IterationIsSnapshot(sys, n, env, cfg, start, limit);
      PartsOfSnapshot(sys, s, env, cfg);
      PartsOfSnapshot(sys, AtIteration(sys, n, env, cfg), env, cfg);
      NextIteration(sys, n - 1, env, cfg);
      IterationShape(s, n - 1, env, cfg);
      LogKept(s, Dispatched(s, env.clock(n - 1)), AtIteration(sys, n, env, cfg), x);
    }
  }

  lemma LogKept(s: System, d: System, e: System, x: TaskId)
    requires Iterates(s, d, e, d.sched.running) && x in s.log
    ensures x in e.log
  {
  }

  lemma BusyLoopTurn(sys: System, i: nat, idle: nat, env: Env, cfg: Config)
    requires i < cfg.maxIterations && Dispatched(sys, env.clock(i)).sched.running != {}
    requires !sys.raised && !LookupFails(sys.dag) && !Iterated(sys, i, env, cfg).raised
    ensures var e := Iterated(sys, i, env, cfg);
      Looped(sys, i, idle, env, cfg) == if AllTerminal(e.sched.tasks) then e else Looped(e, i + 1, 0, env, cfg)
  {
    AllListed(sys, i, env, cfg);
    hide Dispatched, Iterated, AllTerminal, Listed;
  }

  lemma StrictSubsetIsSmaller<T>(a: set<T>, b: set<T>)
    requires a < b
    ensures |a| < |b|
  {
    var x :| x in b && x !in a;
    SubsetIsSmaller(a, b - {x});
    assert |b - {x}| == |b| - 1;
  }

  /** With an iteration per pending task left, the loop executes all that is to be done. */
  lemma {:induction false} LoopExecutesAll(sys: System, todo: set<TaskId>, i: nat, idle: nat, env: Env, cfg: Config,
                                           start: Time, limit: nat)
    requires Bounded(sys, env, cfg, start, limit) && ToDo(sys, todo, env, cfg)
    requires OnTrack(AtIteration(sys, i, env, cfg), todo, start, limit)
    requires i + |PendingTasks(AtIteration(sys, i, env, cfg).sched.tasks)| <= cfg.maxIterations
    ensures forall x :: x in todo ==> x in Looped(AtIteration(sys, i, env, cfg), i, idle, env, cfg).log
    decreases cfg.maxIterations - i
  {
    hide *;
    var s, e := AtIteration(sys, i, env, cfg), AtIteration(sys, i + 1, env, cfg);
    PartsOfBounded(sys, env, cfg, start, limit, i);
    IterationIsSnapshot(sys, i, env, cfg, start, limit);
    PartsOfSnapshot(sys, s, env, cfg);
    if forall x :: x in todo ==> x in s.log {
      var n := LoopEndsAtIteration(sys, i, idle, env, cfg);
      forall x | x in todo ensures x in Looped(s, i, idle, env, cfg).log {
        LogsGrow(sys, i, n, env, cfg, start, limit, x);
      }
    } else {
      var pending :| pending in todo && pending !in s.log;
      IterationMakesProgress(sys, i, todo, env, cfg, start, limit, pending);
      StrictSubsetIsSmaller(PendingTasks(e.sched.tasks), PendingTasks(s.sched.tasks));
      IterationIsSnapshot(sys, i + 1, env, cfg, start, limit);
      PartsOfSnapshot(sys, e, env, cfg);
      NextIteration(sys, i, env, cfg);
      BusyLoopTurn(s, i, idle, env, cfg);
      if AllTerminal(e.sched.tasks) {
        TerminalHasRun(e, todo, start, limit);
      } else {
        LoopExecutesAll(sys, todo, i + 1, 0, env, cfg, start, limit);
      }
    }
  }

  lemma TerminalHasRun(e: System, todo: set<TaskId>, start: Time, limit: nat)
    requires OnTrack(e, todo, start, limit) && AllTerminal(e.sched.tasks)
    ensures forall x :: x in todo ==> x in e.log
  {
    forall x | x in todo ensures x in e.log {
      assert Waits(e, x, start, limit);
    }
  }

  lemma StartingTask(sys: System, start: Time, limit: nat, x: TaskId)
    requires CleanStart(sys) && FreshTasks(sys, limit) && x in sys.dag.nodes
    ensures var r := RegisterAll(sys, sys.dag.order);
      && x in r.sched.tasks && x in r.states && r.states[x] == StartState(sys, x)
      && r.sched.tasks[x].status == (if x in sys.restored then TaskCompleted else TaskPending)
      && (x !in sys.restored ==> Patient(r.sched.tasks[x], start, limit))
  {
    RegisteredRecord(sys, x);
    hide CleanStart, RegisterAll;
  }

  /** The stores once all nodes are registered. */
  ghost predicate Registered(sys: System, r: System, start: Time, limit: nat) {
    r.sched.tasks.Keys == sys.dag.nodes.Keys
    && forall x :: x in sys.dag.nodes ==>
      && x in r.states && r.states[x] == StartState(sys, x)
      && r.sched.tasks[x].status == (if x in sys.restored then TaskCompleted else TaskPending)
      && (x !in sys.restored ==> Patient(r.sched.tasks[x], start, limit))
  }

  lemma StartIsRegistered(sys: System, cfg: Config, start: Time, limit: nat)
    requires CleanStart(sys) && FreshTasks(sys, limit)
    ensures var r := RegisterAll(sys, sys.dag.order);
      && Inv(r, cfg) && r.dag == sys.dag && r.restored == sys.restored && !r.raised && r.sched.cap == sys.sched.cap
      && Registered(sys, r, start, limit)
  {
    var r := RegisterAll(sys, sys.dag.order);
    CleanStartKeepsInv(sys, cfg);
    RegistrationShape(sys);
    RegistrationKeepsCap(sys);
    NotRaisedAtStart(sys);
    assert r.sched.tasks.Keys == sys.dag.nodes.Keys;
    hide *;
    forall x | x in sys.dag.nodes
      ensures x in r.sched.tasks && x in r.states && r.states[x] == StartState(sys, x)
      ensures r.sched.tasks[x].status == (if x in sys.restored then TaskCompleted else TaskPending)
      ensures x !in sys.restored ==> Patient(r.sched.tasks[x], start, limit)
    {
      StartingTask(sys, start, limit, x);
    }
    MakeRegistered(sys, r, start, limit);
  }

  lemma MakeRegistered(sys: System, r: System, start: Time, limit: nat)
    requires r.sched.tasks.Keys == sys.dag.nodes.Keys
    requires forall x :: x in sys.dag.nodes ==>
      && x in r.states && r.states[x] == StartState(sys, x)
      && r.sched.tasks[x].status == (if x in sys.restored then TaskCompleted else TaskPending)
      && (x !in sys.restored ==> Patient(r.sched.tasks[x], start, limit))
    ensures Registered(sys, r, start, limit)
  {
    hide Patient, StartState;
  }

  lemma RegistrationKeepsCap(sys: System)
    requires CleanStart(sys)
    ensures RegisterAll(sys, sys.dag.order).sched.cap == sys.sched.cap
  {
    RegisterAllIs(sys, sys.dag.order);
  }

  lemma RegisteredIsOnTrack(sys: System, r: System, todo: set<TaskId>, start: Time, limit: nat)
    requires Registered(sys, r, start, limit) && Consistent(r.sched)
    requires forall x :: x in todo ==> x in sys.dag.nodes && x !in sys.restored
    ensures OnTrack(r, todo, start, limit)
    ensures PendingTasks(r.sched.tasks) == sys.dag.nodes.Keys - sys.restored
  {
    hide Patient, StartState;
    assert forall x :: x in r.sched.tasks ==> r.sched.tasks[x].status != TaskRunning;
  }

  lemma ToDoAreNodes(sys: System, todo: set<TaskId>, env: Env, cfg: Config)
    requires ToDo(sys, todo, env, cfg)
    ensures forall x :: x in todo ==> x in sys.dag.nodes && x !in sys.restored
  {
  }

  /** A run within the bounds executes all that is to be done. */
  lemma RunExecutesAll(sys: System, todo: set<TaskId>, env: Env, cfg: Config, start: Time, limit: nat)
    requires Bounded(sys, env, cfg, start, limit) && ToDo(sys, todo, env, cfg)
    requires cfg.maxIterations >= |sys.dag.nodes.Keys - sys.restored|
    ensures forall x :: x in todo ==> x in Run(sys, env, cfg).log
  {
    assert Run(sys, env, cfg) == Looped(RegisterAll(sys, sys.dag.order), 0, 0, env, cfg);
    hide *;
    var r := RegisterAll(sys, sys.dag.order);
    PartsOfBounded(sys, env, cfg, start, limit, 0);
    StartIsRegistered(sys, cfg, start, limit);
    PartsOfInv(r, cfg);
    StartsRegistered(sys, env, cfg);
    ToDoAreNodes(sys, todo, env, cfg);
    RegisteredIsOnTrack(sys, r, todo, start, limit);
    LoopExecutesAll(sys, todo, 0, 0, env, cfg, start, limit);
  }

  /** Neither the repair of a task nor the acceptance of its run depends on the iteration. */
  ghost predicate Steady(sys: System, env: Env, cfg: Config) {
    forall id, i: nat :: id in sys.dag.nodes && id !in sys.restored ==>
      EndsDone(StartState(sys, id), id, env.input(i, id), cfg)
      == EndsDone(StartState(sys, id), id, env.input(0, id), cfg)
  }

  lemma SteadyEnds(sys: System, env: Env, cfg: Config, id: TaskId, i: nat)
    requires Steady(sys, env, cfg) && id in sys.dag.nodes && id !in sys.restored
    ensures EndsDone(StartState(sys, id), id, env.input(i, id), cfg)
      <==> AlwaysEndsDone(StartState(sys, id), id, env, cfg)
  {
    hide EndsDone, StartState;
    forall j: nat
      ensures EndsDone(StartState(sys, id), id, env.input(j, id), cfg)
        == EndsDone(StartState(sys, id), id, env.input(0, id), cfg)
    {
    }
  }

  lemma RunIsSnapshot(sys: System, env: Env, cfg: Config, start: Time, limit: nat)
    requires Bounded(sys, env, cfg, start, limit)
    ensures Snapshot(sys, Run(sys, env, cfg), env, cfg)
  {
    hide *;
    PartsOfBounded(sys, env, cfg, start, limit, 0);
    NotRaisedAtStart(sys);
    var n := RunEndsAtIteration(sys, env, cfg);
    IterationIsSnapshot(sys, n, env, cfg, start, limit);
  }

  /** Whatever is executed had its needs met. */
  lemma ExecutedHadNeedsMet(sys: System, env: Env, cfg: Config, start: Time, limit: nat, id: TaskId)
    requires Bounded(sys, env, cfg, start, limit) && Steady(sys, env, cfg) && id in sys.dag.nodes
    requires id in Run(sys, env, cfg).log
    ensures NeedsMet(sys, env, cfg, id)
  {
    forall p | LeadsDown(sys, p, id)
      ensures AlwaysEndsDone(StartState(sys, p[|p| - 1]), p[|p| - 1], env, cfg)
    {
      LastEndsDone(sys, env, cfg, start, limit, p, id);
    }
  }

  lemma LastEndsDone(sys: System, env: Env, cfg: Config, start: Time, limit: nat, p: seq<TaskId>, id: TaskId)
    requires Bounded(sys, env, cfg, start, limit) && Steady(sys, env, cfg)
    requires id in Run(sys, env, cfg).log && LeadsDown(sys, p, id)
    ensures |p| > 0 && AlwaysEndsDone(StartState(sys, p[|p| - 1]), p[|p| - 1], env, cfg)
  {
    hide *;
    var r := Run(sys, env, cfg);
    PartsOfLead(sys, p, id);
    PartsOfBounded(sys, env, cfg, start, limit, 0);
    RunIsSnapshot(sys, env, cfg, start, limit);
    PartsOfSnapshot(sys, r, env, cfg);
    ChainInSameGraph(sys.dag, r.dag, sys.restored, p);
    ChainBelowIsDone(r, cfg, p);
    var last := p[|p| - 1];
    DoneWasLogged(r, last);
    LoggedHasEnded(sys, r, env, cfg, last);
    var i: nat :| EndsDone(StartState(sys, last), last, env.input(i, last), cfg);
    SteadyEnds(sys, env, cfg, last, i);
  }

  lemma PartsOfLead(sys: System, p: seq<TaskId>, id: TaskId)
    requires LeadsDown(sys, p, id)
    ensures IsLiveChain(sys.dag, sys.restored, p) && |p| > 1 && p[0] == id && p[|p| - 1] !in sys.restored
    ensures p[|p| - 1] in sys.dag.nodes
  {
    assert p[|p| - 1] in p;
  }

  lemma DoneWasLogged(r: System, x: TaskId)
    requires IsDone(r.sched.tasks, x) && HasRun(r, x) && x !in r.restored
    ensures x in r.log && x in r.sched.tasks && r.sched.tasks[x].status == TaskCompleted
  {
  }

  /** What a run within the bounds executes and completes, whatever fails in it: it executes
      exactly the tasks not restored of which everything below ends done, as far down as no
      restored task stands between, and of those it completes exactly the ones that end done. */
  lemma ExecutedAndCompletedExactly(sys: System, env: Env, cfg: Config, start: Time, limit: nat, id: TaskId)
    requires Bounded(sys, env, cfg, start, limit) && Steady(sys, env, cfg) && id in sys.dag.nodes
    requires cfg.maxIterations >= |sys.dag.nodes.Keys - sys.restored|
    ensures var r := Run(sys, env, cfg);
      && (id in r.log <==> id !in sys.restored && NeedsMet(sys, env, cfg, id))
      && (IsDone(r.sched.tasks, id) <==>
            id in sys.restored
            || (NeedsMet(sys, env, cfg, id) && EndsDone(StartState(sys, id), id, env.input(0, id), cfg)))
  {
    hide *;
    var r := Run(sys, env, cfg);
    PartsOfBounded(sys, env, cfg, start, limit, 0);
    RunIsSnapshot(sys, env, cfg, start, limit);
    PartsOfSnapshot(sys, r, env, cfg);
    if id in sys.restored {
      RestoredIsDone(sys, r, env, cfg, id);
      RestoredNotLogged(sys, r, env, cfg, id);
    } else {
      if NeedsMet(sys, env, cfg, id) {
        NeededIsToDo(sys, env, cfg);
        IsNeeded(sys, env, cfg, id);
        RunExecutesAll(sys, Needed(sys, env, cfg), env, cfg, start, limit);
      }
      if id in r.log {
        ExecutedHadNeedsMet(sys, env, cfg, start, limit, id);
        LoggedHasEnded(sys, r, env, cfg, id);
        SteadyEnds(sys, env, cfg, id, 0);
        forall i: nat
          ensures EndsDone(StartState(sys, id), id, env.input(i, id), cfg)
            <==> EndsDone(StartState(sys, id), id, env.input(0, id), cfg)
        {
          SteadyEnds(sys, env, cfg, id, i);
        }
      }
      DoneMeansCompleted(sys, r, env, cfg, id);
    }
  }

  lemma IsNeeded(sys: System, env: Env, cfg: Config, id: TaskId)
    requires id in sys.dag.nodes && id !in sys.restored && NeedsMet(sys, env, cfg, id)
    ensures id in Needed(sys, env, cfg)
  {
    hide NeedsMet;
  }

  lemma RestoredNotLogged(sys: System, r: System, env: Env, cfg: Config, id: TaskId)
    requires Snapshot(sys, r, env, cfg) && id in sys.restored && id in sys.dag.nodes
    ensures id !in r.log
  {
    PartsOfSnapshot(sys, r, env, cfg);
    PartsOfInv(r, cfg);
    assert Coherent(r, id);
  }

  lemma DoneMeansCompleted(sys: System, r: System, env: Env, cfg: Config, id: TaskId)
    requires Snapshot(sys, r, env, cfg) && id in sys.dag.nodes && id !in sys.restored
    ensures id in r.sched.tasks && (IsDone(r.sched.tasks, id) <==> r.sched.tasks[id].status == TaskCompleted)
    ensures IsDone(r.sched.tasks, id) ==> id in r.log
  {
    PartsOfSnapshot(sys, r, env, cfg);
    PartsOfInv(r, cfg);
    assert Coherent(r, id);
  }

  // ---------- Success ----------

  /** Every task that was not restored ends done from the state it was found in. */
  ghost predicate AllEndDone(sys: System, env: Env, cfg: Config) {
    forall id :: id in sys.dag.nodes && id !in sys.restored ==> AlwaysEndsDone(StartState(sys, id), id, env, cfg)
  }

  lemma AllEndDoneNeverRaises(sys: System, env: Env, cfg: Config)
    requires AllEndDone(sys, env, cfg)
    ensures NeverRaises(sys, env, cfg)
  {
    hide StartState, Builds, SandboxAccepts;
    forall i: nat, id | id in sys.dag.nodes && id !in sys.restored
      ensures !ExecutionRaises(StartState(sys, id), id, env.input(i, id), cfg)
    {
      assert EndsDone(StartState(sys, id), id, env.input(i, id), cfg);
    }
  }

  lemma AllIsToDo(sys: System, env: Env, cfg: Config)
    requires AllEndDone(sys, env, cfg) && DependenciesKnown(sys.dag)
    ensures ToDo(sys, sys.dag.nodes.Keys - sys.restored, env, cfg)
  {
    hide AlwaysEndsDone, StartState;
  }

  lemma EndsDoneAt(sys: System, env: Env, cfg: Config, id: TaskId)
    requires AllEndDone(sys, env, cfg) && id in sys.dag.nodes && id !in sys.restored
    ensures AlwaysEndsDone(StartState(sys, id), id, env, cfg)
  {
    hide AlwaysEndsDone;
  }

  lemma RunCompletesAll(sys: System, env: Env, cfg: Config, start: Time, limit: nat)
    requires Bounded(sys, env, cfg, start, limit) && AllEndDone(sys, env, cfg)
    requires cfg.maxIterations >= |sys.dag.nodes.Keys - sys.restored|
    ensures var r := Run(sys, env, cfg);
      forall id :: id in r.sched.tasks ==> r.sched.tasks[id].status == TaskCompleted
  {
    hide *;
    var r := Run(sys, env, cfg);
    PartsOfBounded(sys, env, cfg, start, limit, 0);
    RunIsSnapshot(sys, env, cfg, start, limit);
    PartsOfSnapshot(sys, r, env, cfg);
    PartsOfInv(r, cfg);
    AllIsToDo(sys, env, cfg);
    RunExecutesAll(sys, sys.dag.nodes.Keys - sys.restored, env, cfg, start, limit);
    forall id | id in r.sched.tasks ensures r.sched.tasks[id].status == TaskCompleted {
      NodesOfSnapshot(sys, r, id);
      if id in sys.restored {
        RestoredIsDone(sys, r, env, cfg, id);
        DoneStatus(r.sched.tasks, id);
      } else {
        LoggedHasEnded(sys, r, env, cfg, id);
        EndsDoneAt(sys, env, cfg, id);
      }
    }
  }

  lemma DoneStatus(tasks: map<TaskId, Task>, id: TaskId)
    requires IsDone(tasks, id)
    ensures id in tasks && tasks[id].status == TaskCompleted
  {
  }

  /** Whole-run success: an acyclic workflow whose dependency lists mirror its edges, started
      clean or resumed with room for one task and an iteration per task that is left, in less
      clock time than the least retry limit times the backoff, in which every task that is left
      ends done from the state it was found in, ends with every task completed in all three
      stores, reports success, raises nothing, and has executed exactly the tasks that were
      left, in a topological order. */
  lemma AcyclicWorkflowCompletes(sys: System, env: Env, cfg: Config, start: Time, limit: nat)
    requires CleanStart(sys) && Mirrored(sys.dag) && sys.sched.cap >= 1 && FreshTasks(sys, limit)
    requires Prompt(env, start, limit) && AllEndDone(sys, env, cfg)
    requires cfg.maxIterations >= |sys.dag.nodes.Keys - sys.restored|
    ensures var r := Run(sys, env, cfg);
      && Succeeds(r.sched.tasks) && AllDone(r) && !r.raised
      && IsTopologicalOrder(sys.dag.graph, r.log, sys.restored)
  {
    hide *;
    AllEndDoneNeverRaises(sys, env, cfg);
    MakeBounded(sys, env, cfg, start, limit);
    PartsOfBounded(sys, env, cfg, start, limit, 0);
    RunCompletesAll(sys, env, cfg, start, limit);
    SucceedsMeansAllCompleted(Run(sys, env, cfg).sched.tasks);
    SuccessMeansTopologicalOrder(sys, env, cfg);
    RunDoesNotRaise(sys, env, cfg);
  }

  lemma MakeBounded(sys: System, env: Env, cfg: Config, start: Time, limit: nat)
    requires CleanStart(sys) && Mirrored(sys.dag) && sys.sched.cap >= 1 && FreshTasks(sys, limit)
    requires Prompt(env, start, limit) && NeverRaises(sys, env, cfg)
    ensures Bounded(sys, env, cfg, start, limit)
  {
  }

  /** Exactly when a run succeeds, whatever states the tasks are found in: when every task that
      was not restored ends done from its state, that is, if the sandbox accepts it and it may
      be implemented, or else if a repair completes it and it is not in BLOCKED_HITL. */
  lemma RunSucceedsIff(sys: System, env: Env, cfg: Config, start: Time, limit: nat)
    requires CleanStart(sys) && Mirrored(sys.dag) && sys.sched.cap >= 1 && FreshTasks(sys, limit)
    requires Prompt(env, start, limit) && Steady(sys, env, cfg)
    requires cfg.maxIterations >= |sys.dag.nodes.Keys - sys.restored|
    ensures Succeeds(Run(sys, env, cfg).sched.tasks) <==>
      forall id :: id in sys.dag.nodes && id !in sys.restored ==>
        EndsDone(StartState(sys, id), id, env.input(0, id), cfg)
  {
    var r := Run(sys, env, cfg);
    hide Run, CleanStart, EndsDone, StartState, Mirrored;
    if Succeeds(r.sched.tasks) {
      forall id | id in sys.dag.nodes && id !in sys.restored
        ensures EndsDone(StartState(sys, id), id, env.input(0, id), cfg)
      {
        SuccessNeedsEveryTaskDone(sys, env, cfg, id);
      }
    }
    if forall id :: id in sys.dag.nodes && id !in sys.restored ==>
        EndsDone(StartState(sys, id), id, env.input(0, id), cfg)
    {
      assert AllEndDone(sys, env, cfg);
      AcyclicWorkflowCompletes(sys, env, cfg, start, limit);
    }
  }
}
