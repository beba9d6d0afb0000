/** What a task restored without its dependencies breaks: exactly when a task may be executed
    although another one, however far below it, has not completed. */
module WorkflowGaps {
  import opened Wrappers
  import opened TaskKeys
  import opened Dags
  import opened Scheduling
  import opened StateMachines
  import opened TaskExecution
  import opened Recovery
  import opened Workflow
  import opened WorkflowSteps
  import opened WorkflowSafety
  import opened WorkflowProgress
  import opened WorkflowFates
  import opened WorkflowCompletion

  /** In this run `a` is executed, and `x` does not complete. */
  ghost predicate RunsWithout(sys: System, env: Env, cfg: Config, a: TaskId, x: TaskId) {
    ValidEnv(env) && a in Run(sys, env, cfg).log && !IsDone(Run(sys, env, cfg).sched.tasks, x)
  }

  /** Down a live chain from `a` stands `x`, or a task in a state in which nothing completes it. */
  ghost predicate WaitsFor(sys: System, p: seq<TaskId>, a: TaskId, x: TaskId) {
    LeadsDown(sys, p, a) && (p[|p| - 1] == x || StartState(sys, p[|p| - 1]) == BlockedHitl)
  }

  // ---------- Nothing is executed before what it waits for ----------

  /** No execution that returns completes a task found in BLOCKED_HITL. */
  lemma BlockedNeverCompletes(r: System, id: TaskId, env: Env, cfg: Config)
    requires Fate(r, id, BlockedHitl, env, cfg) && id in r.log && id !in r.restored
    ensures !IsDone(r.sched.tasks, id)
  {
    hide SandboxAccepts, Repairs;
    var i: nat :| ExecutedAs(r, id, BlockedHitl, env.input(i, id), cfg);
  }

  lemma WaitingIsNotExecuted(sys: System, env: Env, cfg: Config, p: seq<TaskId>, a: TaskId, x: TaskId)
    requires CleanStart(sys) && ValidEnv(env) && WaitsFor(sys, p, a, x)
    ensures !RunsWithout(sys, env, cfg, a, x)
  {
    var r := Run(sys, env, cfg);
    if RunsWithout(sys, env, cfg, a, x) {
      var last := p[|p| - 1];
      NotRaisedAtStart(sys);
      hide *;
      PartsOfWait(sys, env, cfg, p, a, x);
      RunIsSafe(sys, env, cfg, a);
      RunKeepsGraph(sys, env, cfg);
      ChainInSameGraph(sys.dag, r.dag, sys.restored, p);
      ChainBelowIsDone(r, cfg, p);
      DoneWasLogged(r, last);
      RunKeepsFate(sys, env, cfg, last);
      BlockedNeverCompletes(r, last, env, cfg);
    }
  }

  lemma PartsOfWait(sys: System, env: Env, cfg: Config, p: seq<TaskId>, a: TaskId, x: TaskId)
    requires RunsWithout(sys, env, cfg, a, x) && WaitsFor(sys, p, a, x)
    ensures IsLiveChain(sys.dag, sys.restored, p) && |p| > 1 && p[0] == a && p[|p| - 1] !in sys.restored
    ensures p[|p| - 1] in sys.dag.nodes
    ensures p[|p| - 1] == x || StartState(sys, p[|p| - 1]) == BlockedHitl
    ensures a in Run(sys, env, cfg).log && !IsDone(Run(sys, env, cfg).sched.tasks, x)
  {
    PartsOfLead(sys, p, a);
    hide Run, StartState;
  }

  // ---------- Everything else may be ----------

  ghost function ListingOf(ids: set<TaskId>): (s: seq<TaskId>)
    ensures Lists(s, ids)
    decreases |ids|
  {
    if ids == {} then []
    else
      var id :| id in ids;
      ListingOf(ids - {id}) + [id]
  }

  const ACCEPTED := RunInput(NoCheckpoint, n => Accepted, None)

  const REJECTED := RunInput(NoCheckpoint, n => Rejected, None)

  /** Accepted at the first attempt, or else repaired. */
  const KIND := ExecInput(ACCEPTED, RuntimeFailure, "workflow", "code",
                          RecoveryInput([], false, i => "", NoCheckpoint, ACCEPTED, Some(RepairSuccess)))

  /** Rejected, and not repaired. */
  const UNKIND := ExecInput(REJECTED, TimeoutFailure, "workflow", "code",
                            RecoveryInput([], false, i => "", NoCheckpoint, REJECTED, None))

  /** A clock that stands still. */
  const AT_ONCE: Clock := x => Reading(0, 0, 0)

  /** Kind to every task but one. */
  ghost function AllBut(x: TaskId): Env {
    Env(i => AT_ONCE, (i, ids) => ListingOf(ids), (i, id) => if id == x then UNKIND else KIND)
  }

  function Patiently(sys: System): Config {
    Config(0, |sys.dag.nodes.Keys - sys.restored|, true, true)
  }

  lemma KindCompletes(sys: System, x: TaskId, state: TaskState, id: TaskId)
    requires id != "" && id != x && state != BlockedHitl
    ensures AlwaysEndsDone(state, id, AllBut(x), Patiently(sys))
  {
    var cfg := Patiently(sys);
    assert RepairOffered(KIND, cfg);
    assert Builds(state, id, KIND, cfg);
    forall i: nat ensures EndsDone(state, id, AllBut(x).input(i, id), cfg) {
      assert AllBut(x).input(i, id) == KIND;
      hide SandboxAccepts, RepairOffered, Builds;
    }
  }

  lemma UnkindFails(sys: System, x: TaskId, state: TaskState, i: nat)
    ensures !EndsDone(state, x, AllBut(x).input(i, x), Patiently(sys))
  {
    assert AllBut(x).input(i, x) == UNKIND;
  }

  /** With such answers no execution raises. */
  lemma NothingRaises(sys: System, x: TaskId)
    requires "" !in sys.dag.nodes
    ensures NeverRaises(sys, AllBut(x), Patiently(sys))
  {
    var env, cfg := AllBut(x), Patiently(sys);
    forall i: nat, id | id in sys.dag.nodes ensures Builds(StartState(sys, id), id, env.input(i, id), cfg) {
      assert env.input(i, id) in {KIND, UNKIND};
      hide StartState;
    }
    hide Builds, StartState, EndsDone;
  }

  lemma SameAnswersAlways(sys: System, x: TaskId)
    ensures Prompt(AllBut(x), 0, 1) && Steady(sys, AllBut(x), Patiently(sys))
    ensures Patiently(sys).maxIterations >= |sys.dag.nodes.Keys - sys.restored|
  {
    var env := AllBut(x);
    assert forall i: nat :: env.clock(i) == AT_ONCE;
    assert forall i: nat, id :: env.input(i, id) == env.input(0, id);
    hide EndsDone, StartState, ListingOf;
  }

  lemma OutsideIsBounded(sys: System, x: TaskId)
    requires CleanStart(sys) && Mirrored(sys.dag) && sys.sched.cap >= 1 && FreshTasks(sys, 1)
    requires "" !in sys.dag.nodes
    ensures Bounded(sys, AllBut(x), Patiently(sys), 0, 1) && Steady(sys, AllBut(x), Patiently(sys))
    ensures Patiently(sys).maxIterations >= |sys.dag.nodes.Keys - sys.restored|
  {
    hide *;
    SameAnswersAlways(sys, x);
    NothingRaises(sys, x);
    MakeBounded(sys, AllBut(x), Patiently(sys), 0, 1);
  }

  /** With `x` rejected and everything else completed wherever that is possible, `a` is
      executed. */
  lemma RunsWithoutIt(sys: System, a: TaskId, x: TaskId)
    requires CleanStart(sys) && Mirrored(sys.dag) && sys.sched.cap >= 1 && FreshTasks(sys, 1)
    requires "" !in sys.dag.nodes && a in sys.dag.nodes && x in sys.dag.nodes
    requires a !in sys.restored && x !in sys.restored && forall p :: !WaitsFor(sys, p, a, x)
    ensures RunsWithout(sys, AllBut(x), Patiently(sys), a, x)
  {
    var env, cfg := AllBut(x), Patiently(sys);
    forall p | LeadsDown(sys, p, a) ensures AlwaysEndsDone(StartState(sys, p[|p| - 1]), p[|p| - 1], env, cfg) {
      PartsOfLead(sys, p, a);
      assert !WaitsFor(sys, p, a, x);
      KindCompletes(sys, x, StartState(sys, p[|p| - 1]), p[|p| - 1]);
    }
    assert NeedsMet(sys, env, cfg, a);
    hide *;
    OutsideIsBounded(sys, x);
    PartsOfBounded(sys, env, cfg, 0, 1, 0);
    ExecutedAndCompletedExactly(sys, env, cfg, 0, 1, a);
    ExecutedAndCompletedExactly(sys, env, cfg, 0, 1, x);
    UnkindFails(sys, x, StartState(sys, x), 0);
    MakeRunsWithout(sys, env, cfg, a, x);
  }

  lemma MakeRunsWithout(sys: System, env: Env, cfg: Config, a: TaskId, x: TaskId)
    requires ValidEnv(env) && a in Run(sys, env, cfg).log && !IsDone(Run(sys, env, cfg).sched.tasks, x)
    ensures RunsWithout(sys, env, cfg, a, x)
  {
    hide Run;
  }

  /** Exactly when some run executes `a` without `x` ever completing: neither is restored, and
      no chain of tasks that are not restored leads from `a` down to `x`, or to a task in
      BLOCKED_HITL.  So a task may run without something it depends on only where every chain of
      dependencies between the two passes through a restored task. */
  lemma RunsWithoutIff(sys: System, a: TaskId, x: TaskId)
    requires CleanStart(sys) && Mirrored(sys.dag) && sys.sched.cap >= 1 && FreshTasks(sys, 1)
    requires "" !in sys.dag.nodes && a in sys.dag.nodes && x in sys.dag.nodes
    ensures (exists env, cfg :: RunsWithout(sys, env, cfg, a, x)) <==>
      a !in sys.restored && x !in sys.restored && forall p :: !WaitsFor(sys, p, a, x)
  {
    hide *;
    if env, cfg :| RunsWithout(sys, env, cfg, a, x) {
      NotRestored(sys, env, cfg, a, x);
      forall p ensures !WaitsFor(sys, p, a, x) {
        if WaitsFor(sys, p, a, x) {
          WaitingIsNotExecuted(sys, env, cfg, p, a, x);
        }
      }
    }
    if a !in sys.restored && x !in sys.restored && forall p :: !WaitsFor(sys, p, a, x) {
      RunsWithoutIt(sys, a, x);
    }
  }

  lemma NotRestored(sys: System, env: Env, cfg: Config, a: TaskId, x: TaskId)
    requires CleanStart(sys) && RunsWithout(sys, env, cfg, a, x) && a in sys.dag.nodes && x in sys.dag.nodes
    ensures a !in sys.restored && x !in sys.restored && ValidEnv(env)
  {
    var r := Run(sys, env, cfg);
    assert ValidEnv(env) && a in r.log && !IsDone(r.sched.tasks, x) && r.restored == sys.restored;
    hide *;
    RunKeepsFate(sys, env, cfg, x);
    RestoredFate(r, x, StartState(sys, x), env, cfg);
    RunIsSafe(sys, env, cfg, a);
    NotRaisedAtStart(sys);
    RunKeepsGraph(sys, env, cfg);
    SameNodes(sys.dag, r.dag, a);
    PartsOfInv(r, cfg);
    NotBothRestored(r, a);
  }

  lemma RestoredFate(r: System, x: TaskId, start: TaskState, env: Env, cfg: Config)
    requires Fate(r, x, start, env, cfg)
    ensures x in r.restored ==> IsDone(r.sched.tasks, x)
  {
  }
}
