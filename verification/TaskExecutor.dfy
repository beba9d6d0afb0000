/** One task's execution with retries: agentManager/runtime/task_executor.py.  What the
    sandbox and the checkpoint store answer is an input. */
module TaskExecution {
  import opened Wrappers
  import opened TaskKeys
  import opened StateMachines

  datatype ExecutionStatus = ContextPending | ContextImplementing | ContextVerifying | ContextCompleted | ContextFailed

  /** `interventions`: how often the task was handed to a human, as the metadata records. */
  datatype ExecutionContext = ExecutionContext(
    taskId: TaskId, status: ExecutionStatus, retryCount: int, error: bool, checkpointId: string, interventions: nat)

  /** One attempt: `execute` and then `verify`. */
  datatype Attempt = ExecuteRaises | VerifyRaises | Rejected | Accepted

  datatype Load = LoadRaises(error: string) | NoCheckpoint | Found(context: ExecutionContext)

  /** What the outside answers during one call of `run_task`; `saveError`: the text of the
      exception if saving the checkpoint raises. */
  datatype RunInput = RunInput(load: Load, sandbox: nat -> Attempt, saveError: Option<string>)

  function FreshContext(id: TaskId): ExecutionContext {
    ExecutionContext(id, ContextPending, 0, false, "", 0)
  }

  // ---------- Specification ----------

  /** States by task, and one attempted transition of a task. */
  type States = map<TaskId, TaskState>

  predicate CanStep(states: States, id: TaskId, target: TaskState) {
    id in states && Legal(states[id], target)
  }

  function Step(states: States, id: TaskId, target: TaskState): States {
    if CanStep(states, id, target) then states[id := target] else states
  }

  function Ensured(states: States, id: TaskId): States {
    if id in states then states else states[id := Pending]
  }

  /** The number of attempts the retry loop is allowed. */
  function Budget(maxRetries: int): nat {
    if maxRetries < 0 then 0 else maxRetries + 1
  }

  /** The first accepted attempt from `from` on and before `n`, or `n`. */
  function FirstAccepted(sandbox: nat -> Attempt, n: nat, from: nat): (k: nat)
    requires from <= n
    ensures from <= k <= n
    ensures forall j: nat :: from <= j < k ==> sandbox(j) != Accepted
    ensures k < n ==> sandbox(k) == Accepted
    decreases n - from
  {
    if from == n || sandbox(from) == Accepted then from else FirstAccepted(sandbox, n, from + 1)
  }

  /** `run_task`: the states after it, its sandbox calls, and whether it returned normally. */
  datatype RunOutcome = RunOutcome(states: States, calls: nat, succeeded: bool)

  function RunOf(states: States, id: TaskId, input: RunInput, maxRetries: int): (r: RunOutcome)
    ensures id in r.states
  {
    var ready := Ensured(states, id);
    var n := Budget(maxRetries);
    if input.load.LoadRaises? || !CanStep(ready, id, Implementing) then
      RunOutcome(Step(ready, id, Failed), 0, false)
    else
      var k := FirstAccepted(input.sandbox, n, 0);
      if k == n then RunOutcome(ready[id := Failed], n, false)
      else RunOutcome(ready[id := Completed], k + 1, input.saveError.None?)
  }

  /** Stands for the texts the code itself gives its exceptions, none of which is empty. */
  const OWN_TEXT := "Task failed"

  /** The text of the exception of a run that raises. A run that has left the task in a terminal
      state raises for the transition to FAILED that it then tries; otherwise the save that
      follows may replace what went wrong before. */
  function ErrorOf(states: States, id: TaskId, input: RunInput, maxRetries: int): string {
    if Terminal(RunOf(states, id, input, maxRetries).states[id]) then OWN_TEXT
    else if input.saveError.Some? then input.saveError.value
    else if input.load.LoadRaises? then input.load.error
    else OWN_TEXT
  }

  /** One sandbox call per attempt up to the first that is accepted, and else `max_retries` + 1;
      none unless the task may be implemented and its checkpoint loads; and only a run that was
      accepted leaves the task completed. */
  lemma RunIsBounded(states: States, id: TaskId, input: RunInput, maxRetries: int)
    ensures var r := RunOf(states, id, input, maxRetries);
      && (maxRetries < 0 ==> r.calls == 0) && (maxRetries >= 0 ==> r.calls <= maxRetries + 1)
      && (!CanStep(Ensured(states, id), id, Implementing) || input.load.LoadRaises? ==> r.calls == 0)
      && (CanStep(Ensured(states, id), id, Implementing) && !input.load.LoadRaises? && maxRetries >= 0 ==>
            r.calls > 0 && (input.sandbox(r.calls - 1) == Accepted || r.calls == maxRetries + 1))
      && (r.succeeded <==> input.saveError.None? && r.calls > 0 && input.sandbox(r.calls - 1) == Accepted)
      && (r.succeeded ==> r.states[id] == Completed)
      && r.states == states[id := r.states[id]]
      && (forall j: nat :: j + 1 < r.calls ==> input.sandbox(j) != Accepted)
      && (!r.succeeded && !(id in states && Terminal(states[id])) ==>
            r.states[id] == if r.calls > 0 && input.sandbox(r.calls - 1) == Accepted then Completed else Failed)
  {
    assert !(id in states && Terminal(states[id])) ==> CanStep(Ensured(states, id), id, Failed);
  }

  /** The context a run starts from: that of the checkpoint if one was found. */
  function StartContext(load: Load, otherwise: ExecutionContext): ExecutionContext {
    if load.Found? then load.context else otherwise
  }

  /** The context a run leaves: it has counted the failed attempts, and says whether the run
      returned normally. */
  function ContextOfRun(states: States, id: TaskId, input: RunInput, maxRetries: int): (c: ExecutionContext)
    ensures c.status == if RunOf(states, id, input, maxRetries).succeeded then ContextCompleted else ContextFailed
  {
    var start := StartContext(input.load, FreshContext(id).(status := ContextImplementing));
    if input.load.LoadRaises? || !CanStep(Ensured(states, id), id, Implementing) then
      start.(status := ContextFailed, error := true)
    else
      var k := FirstAccepted(input.sandbox, Budget(maxRetries), 0);
      var tried := start.(retryCount := start.retryCount + k);
      if k < Budget(maxRetries) && input.saveError.None? then tried.(status := ContextCompleted)
      else tried.(status := ContextFailed, error := true)
  }

  /** What a run makes of the context it starts from: each failed attempt is counted, the error
      is set exactly where the run raises, and all else is kept. */
  lemma ContextOfRunMeans(states: States, id: TaskId, input: RunInput, maxRetries: int)
    ensures var start, c := StartContext(input.load, FreshContext(id)), ContextOfRun(states, id, input, maxRetries);
      var r := RunOf(states, id, input, maxRetries);
      && c.retryCount == start.retryCount + r.calls
                       - (if r.calls > 0 && input.sandbox(r.calls - 1) == Accepted then 1 else 0)
      && (c.error <==> !r.succeeded || start.error)
      && c.taskId == start.taskId && c.checkpointId == start.checkpointId && c.interventions == start.interventions
  {
  }

  /** The text of a run that raises: that of the save if the run got that far, else that of the
      load; where the task was in a terminal state, or is now, a text of the code's own. */
  lemma ErrorMeans(states: States, id: TaskId, input: RunInput, maxRetries: int)
    requires !RunOf(states, id, input, maxRetries).succeeded
    ensures var e, state := ErrorOf(states, id, input, maxRetries), RunOf(states, id, input, maxRetries).states[id];
      && (state == Failed && input.saveError.Some? ==> e == input.saveError.value)
      && (state == Failed && input.saveError.None? && input.load.LoadRaises? ==> e == input.load.error)
      && (!(state == Failed && (input.saveError.Some? || input.load.LoadRaises?)) ==> e == OWN_TEXT)
      && state in {Failed, Completed, BlockedHitl}
  {
  }

  // ---------- The executor ----------

  class TaskExecutor {
    const stateMachine: StateMachine
    const maxRetries: int
    var executionContexts: map<TaskId, ExecutionContext>
    /** Task objects seen, by the source code in their metadata. */
    var taskRegistry: map<TaskId, string>

    constructor (stateMachine: StateMachine, maxRetries: int)
      ensures this.stateMachine == stateMachine && this.maxRetries == maxRetries
      ensures executionContexts == map[] && taskRegistry == map[]
    {
      this.stateMachine, this.maxRetries := stateMachine, maxRetries;
      executionContexts, taskRegistry := map[], map[];
    }

    /** The retry loop of `_execute_with_retry`: it stops at the first accepted attempt, and
        counts every failed attempt in the context. */
    method AttemptAll(context: ExecutionContext, sandbox: nat -> Attempt)
      returns (accepted: bool, calls: nat, context': ExecutionContext)
      ensures var k := FirstAccepted(sandbox, Budget(maxRetries), 0);
        && accepted == (k < Budget(maxRetries))
        && calls == (if accepted then k + 1 else k)
        && context' == context.(retryCount := context.retryCount + k)
    {
      calls, context' := 0, context;
      var attempts := if maxRetries + 1 < 0 then 0 else maxRetries + 1;
      for attempt := 0 to attempts
        invariant calls == attempt && context' == context.(retryCount := context.retryCount + attempt)
        invariant FirstAccepted(sandbox, Budget(maxRetries), 0) == FirstAccepted(sandbox, Budget(maxRetries), attempt)
      {
        var outcome := sandbox(attempt);
        calls := calls + 1;
        if outcome == Accepted {
          return true, calls, context';
        }
        context' := context'.(retryCount := context'.retryCount + 1);
      }
      return false, calls, context';
    }

    /** `_execute_with_retry`: a task that may not be implemented is never sent to the
        sandbox; one that uses up its attempts is left in the verifying state. */
    method ExecuteWithRetry(id: TaskId, context: ExecutionContext, sandbox: nat -> Attempt)
      returns (accepted: bool, calls: nat, context': ExecutionContext)
      modifies stateMachine.Footprint()
      ensures var states := old(stateMachine.Known());
        var k := FirstAccepted(sandbox, Budget(maxRetries), 0);
        if !CanStep(states, id, Implementing) then
          !accepted && calls == 0 && context' == context && stateMachine.Known() == states
        else
          && accepted == (k < Budget(maxRetries))
          && calls == (if accepted then k + 1 else k)
          && context' == context.(retryCount := context.retryCount + k)
          && stateMachine.Known() == states[id := if accepted then Implementing else Verifying]
    {
      hide stateMachine.Known, Moved;
      var started := stateMachine.TransitionTo(id, Implementing, "Starting task execution");
      if started.Err? {
        return false, 0, context;
      }
      accepted, calls, context' := AttemptAll(context, sandbox);
      if !accepted {
        var _ := stateMachine.TransitionTo(id, Verifying, "Verification after retries");
      }
    }

    /** The body of the `try` in `_run_task_impl`. */
    method TryRun(id: TaskId, context: ExecutionContext, input: RunInput)
      returns (succeeded: bool, calls: nat, context': ExecutionContext, error: string)
      requires id in stateMachine.Known()
      modifies stateMachine.Footprint()
      ensures var states := old(stateMachine.Known());
        var k := FirstAccepted(input.sandbox, Budget(maxRetries), 0);
        if input.load.LoadRaises? || !CanStep(states, id, Implementing) then
          !succeeded && calls == 0 && stateMachine.Known() == states && context' == StartContext(input.load, context)
        else
          var start := StartContext(input.load, context);
          && context' == start.(retryCount := start.retryCount + k,
                                status := if k < Budget(maxRetries) then ContextCompleted else start.status)
          && (if k == Budget(maxRetries) then
                !succeeded && calls == k && stateMachine.Known() == states[id := Verifying]
              else
                succeeded == input.saveError.None? && calls == k + 1 && stateMachine.Known() == states[id := Completed])
      ensures !succeeded && stateMachine.Known()[id] != Completed ==>
        error == if input.load.LoadRaises? then input.load.error else OWN_TEXT
    {
      hide stateMachine.Known, Moved, FirstAccepted;
      context', error := context, "";
      if input.load.LoadRaises? {
        return false, 0, context', input.load.error;
      }
      if input.load.Found? {
        context' := input.load.context;
      }
      succeeded, calls, context' := ExecuteWithRetry(id, context', input.sandbox);
      if !succeeded {
        error := OWN_TEXT;
        return;
      }
      var _ := stateMachine.TransitionTo(id, Verifying, "Verifying execution result");
      context' := context'.(status := ContextCompleted);
      var _ := stateMachine.TransitionTo(id, Completed, "Task completed successfully");
      succeeded := input.saveError.None?;
      if !succeeded {
        error := input.saveError.value;
      }
    }

    method EnsureInitialized(id: TaskId)
      modifies stateMachine.Footprint()
      ensures stateMachine.Known() == Ensured(old(stateMachine.Known()), id)
    {
      hide stateMachine.Known;
      var state := stateMachine.GetState(id);
      if state.None? {
        var _ := stateMachine.Initialize(id, Pending);
      }
    }

    /** The state machine's part of `run_task` after the registry is updated. */
    method RunStates(id: TaskId, input: RunInput)
      returns (succeeded: bool, calls: nat, context: ExecutionContext, error: string)
      modifies stateMachine.Footprint()
      ensures RunOutcome(stateMachine.Known(), calls, succeeded)
        == RunOf(old(stateMachine.Known()), id, input, maxRetries)
      ensures context == ContextOfRun(old(stateMachine.Known()), id, input, maxRetries)
      ensures !succeeded ==> error == ErrorOf(old(stateMachine.Known()), id, input, maxRetries)
    {
      hide stateMachine.Known, Moved, FirstAccepted;
      EnsureInitialized(id);
      context := FreshContext(id).(status := ContextImplementing);
      succeeded, calls, context, error := TryRun(id, context, input);
      if !succeeded {
        context := context.(status := ContextFailed, error := true);
        var moved := stateMachine.TransitionTo(id, Failed, "Task failed");
        if moved.Err? {
          error := OWN_TEXT;
        } else if input.saveError.Some? {
          error := input.saveError.value;
        }
      }
    }

    /** `run_task`: `succeeded` is false where the source raises an exception with text `error`. */
    method RunTask(id: TaskId, code: string, input: RunInput) returns (succeeded: bool, calls: nat, error: string)
      modifies this, stateMachine.Footprint()
      ensures RunOutcome(stateMachine.Known(), calls, succeeded)
        == RunOf(old(stateMachine.Known()), id, input, maxRetries)
      ensures taskRegistry == old(taskRegistry)[id := code]
      ensures executionContexts == old(executionContexts)[
        id := ContextOfRun(old(stateMachine.Known()), id, input, maxRetries)]
      ensures !succeeded ==> error == ErrorOf(old(stateMachine.Known()), id, input, maxRetries)
    {
      hide stateMachine.Known, RunOf, ContextOfRun, ErrorOf;
      taskRegistry := taskRegistry[id := code];
      var context;
      succeeded, calls, context, error := RunStates(id, input);
      executionContexts := executionContexts[id := context];
    }
  }
}
