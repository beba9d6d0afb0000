/** Recovery of failed tasks: agentManager/recovery/recovery_engine.py.  Event log,
    checkpoint store, sandbox and repair pipeline answer through an input. */
module Recovery {
  import opened Wrappers
  import opened TaskKeys
  import opened StateMachines
  import opened TaskExecution

  const MAX_RETRY_ATTEMPTS := 3

  datatype FailureType = TimeoutFailure | NetworkFailure | SyntaxFailure | RuntimeFailure | UnknownFailure

  datatype Strategy = Retry | EventReplay | SnapshotRestore | DefectRepair | Hitl | Escalate

  /** Absent ids are empty strings. */
  datatype RecoveryContext = RecoveryContext(
    taskId: TaskId, failureType: FailureType, strategy: Option<Strategy>,
    retryCount: int, eventId: string, checkpointId: string)

  datatype EventKind = EventStarted | EventCompleted | EventFailed | EventBlocked | EventOther

  datatype Event = Event(eventId: string, kind: EventKind, taskId: string, retryCount: Option<int>)

  datatype RepairAnswer = PipelineRaises | RepairSuccess | RepairFailed | RepairEscalated

  /** `ids`: the ids of the events that the engine will publish. */
  datatype RecoveryInput = RecoveryInput(
    events: seq<Event>, eventsRaise: bool, ids: nat -> string, checkpoint: Load, run: RunInput,
    pipeline: Option<RepairAnswer>)

  function SelectStrategy(f: FailureType): Strategy {
    match f
    case TimeoutFailure => Retry
    case NetworkFailure => EventReplay
    case SyntaxFailure => Hitl
    case RuntimeFailure => SnapshotRestore
    case UnknownFailure => Escalate
  }

  function StrategyOf(ctx: RecoveryContext): Strategy {
    if ctx.strategy.Some? then ctx.strategy.value else SelectStrategy(ctx.failureType)
  }

  // ---------- Event replay ----------

  /** The state an event asks for. */
  function TargetOf(kind: EventKind): Option<TaskState> {
    match kind
    case EventStarted => Some(Implementing)
    case EventCompleted => Some(Completed)
    case EventFailed => Some(Failed)
    case EventBlocked => Some(BlockedHitl)
    case EventOther => None
  }

  /** One replayed event: an illegal step is skipped. */
  function ReplayOne(s: TaskState, kind: EventKind): TaskState {
    if TargetOf(kind).Some? && Legal(s, TargetOf(kind).value) then TargetOf(kind).value else s
  }

  function ReplayState(s: TaskState, kinds: seq<EventKind>): TaskState {
    if kinds == [] then s
    else ReplayOne(ReplayState(s, kinds[..|kinds| - 1]), kinds[|kinds| - 1])
  }

  predicate Decisive(kind: EventKind) {
    kind in {EventCompleted, EventBlocked}
  }

  ghost predicate FirstDecisiveAt(kinds: seq<EventKind>, i: int) {
    0 <= i < |kinds| && Decisive(kinds[i]) && forall j :: 0 <= j < i ==> !Decisive(kinds[j])
  }

  /** Without decisive events: any failure fails the task, else a start may implement it. */
  function Undecided(s: TaskState, kinds: seq<EventKind>): TaskState {
    if EventFailed in kinds then Failed
    else if EventStarted in kinds && Legal(s, Implementing) then Implementing
    else s
  }

  lemma {:induction false} TerminalStays(s: TaskState, kinds: seq<EventKind>)
    requires Terminal(s)
    ensures ReplayState(s, kinds) == s
  {
    if kinds != [] {
      TerminalStays(s, kinds[..|kinds| - 1]);
    }
  }

  ghost predicate NoneDecisive(kinds: seq<EventKind>) {
    forall i :: 0 <= i < |kinds| ==> !Decisive(kinds[i])
  }

  lemma {:induction false} ReplayUndecided(s: TaskState, kinds: seq<EventKind>)
    requires !Terminal(s) && NoneDecisive(kinds)
    ensures ReplayState(s, kinds) == Undecided(s, kinds)
  {
    if kinds != [] {
      var n := |kinds| - 1;
      ReplayUndecided(s, kinds[..n]);
      assert kinds == kinds[..n] + [kinds[n]];
      assert forall k :: k in kinds <==> k in kinds[..n] || k == kinds[n];
    }
  }

  lemma {:induction false} ReplayDecided(s: TaskState, kinds: seq<EventKind>, i: int)
    requires !Terminal(s) && FirstDecisiveAt(kinds, i)
    ensures ReplayState(s, kinds) == TargetOf(kinds[i]).value
  {
    var n := |kinds| - 1;
    var before := kinds[..n];
    if i < n {
      ReplayDecided(s, before, i);
    } else {
      ReplayUndecided(s, before);
    }
  }

  /** Replay in closed form: the first completed or blocked event decides, else any failed
      event gives FAILED, else the state moves at most to IMPLEMENTING. */
  lemma ReplayClosedForm(s: TaskState, kinds: seq<EventKind>)
    requires !Terminal(s)
    ensures forall i :: FirstDecisiveAt(kinds, i) ==> ReplayState(s, kinds) == TargetOf(kinds[i]).value
    ensures NoneDecisive(kinds) ==> ReplayState(s, kinds) == Undecided(s, kinds)
  {
    hide ReplayState, Undecided;
    forall i | FirstDecisiveAt(kinds, i) ensures ReplayState(s, kinds) == TargetOf(kinds[i]).value {
      ReplayDecided(s, kinds, i);
    }
    if NoneDecisive(kinds) {
      ReplayUndecided(s, kinds);
    }
  }

  lemma {:induction false} SomeFirstDecisive(kinds: seq<EventKind>)
    ensures NoneDecisive(kinds) || exists i :: FirstDecisiveAt(kinds, i)
  {
    if kinds != [] {
      var n := |kinds| - 1;
      SomeFirstDecisive(kinds[..n]);
      if i :| FirstDecisiveAt(kinds[..n], i) {
        assert FirstDecisiveAt(kinds, i);
      } else if Decisive(kinds[n]) {
        assert forall j :: 0 <= j < n ==> kinds[j] == kinds[..n][j];
        assert FirstDecisiveAt(kinds, n);
      } else {
        assert forall j :: 0 <= j < n ==> kinds[j] == kinds[..n][j];
      }
    }
  }

  /** Replaying the same events once more changes no state, from whatever state it started. */
  lemma ReplayIsIdempotent(s: TaskState, kinds: seq<EventKind>)
    ensures ReplayState(ReplayState(s, kinds), kinds) == ReplayState(s, kinds)
  {
    var r := ReplayState(s, kinds);
    if Terminal(s) {
      TerminalStays(s, kinds);
    } else {
      ReplayClosedForm(s, kinds);
      if Terminal(r) {
        TerminalStays(r, kinds);
      } else {
        ReplayClosedForm(r, kinds);
        SomeFirstDecisive(kinds);
        if i :| FirstDecisiveAt(kinds, i) {
          assert r == TargetOf(kinds[i]).value;
        }
      }
    }
  }

  // ---------- Specification of the strategies ----------

  /** States after a strategy, and what it reports. */
  datatype Outcome = Outcome(states: States, success: bool)

  /** `_safe_transition`: initialises an unknown task, then steps if that is legal. */
  function SafeStep(states: States, id: TaskId, target: TaskState): States {
    Step(Ensured(states, id), id, target)
  }

  function ReplayInto(states: States, id: TaskId, kind: EventKind): States {
    if TargetOf(kind).Some? then SafeStep(states, id, TargetOf(kind).value) else states
  }

  function ReplayAll(states: States, id: TaskId, kinds: seq<EventKind>): States {
    if kinds == [] then states
    else ReplayInto(ReplayAll(states, id, kinds[..|kinds| - 1]), id, kinds[|kinds| - 1])
  }

  lemma {:induction false} ReplayAllIsReplayState(states: States, id: TaskId, kinds: seq<EventKind>)
    requires id in states
    ensures ReplayAll(states, id, kinds) == states[id := ReplayState(states[id], kinds)]
  {
    if kinds != [] {
      ReplayAllIsReplayState(states, id, kinds[..|kinds| - 1]);
    }
  }

  predicate InScope(e: Event, id: TaskId) {
    e.taskId == "" || e.taskId == id
  }

  function ScopedKinds(events: seq<Event>, id: TaskId): seq<EventKind> {
    if events == [] then []
    else
      var n := |events| - 1;
      ScopedKinds(events[..n], id) + (if InScope(events[n], id) then [events[n].kind] else [])
  }

  /** The position of the event to start from, or the length of the log. */
  function StartOf(events: seq<Event>, eventId: string): (i: nat)
    ensures i <= |events|
    ensures i < |events| ==> events[i].eventId == eventId
    ensures forall j :: 0 <= j < i ==> events[j].eventId != eventId
  {
    if events == [] || events[0].eventId == eventId then 0
    else
      var i := 1 + StartOf(events[1..], eventId);
      assert forall j :: 0 < j < i ==> events[j] == events[1..][j - 1];
      i
  }

  /** The events a replay applies; none when the replay refuses. */
  function ReplayedKinds(ctx: RecoveryContext, input: RecoveryInput): seq<EventKind> {
    if ctx.eventId == "" || input.eventsRaise then []
    else ScopedKinds(input.events[StartOf(input.events, ctx.eventId)..], ctx.taskId)
  }

  predicate SnapshotMatches(ctx: RecoveryContext, load: Load) {
    && ctx.checkpointId != "" && load.Found?
    && load.context.taskId in {"", ctx.taskId}
    && load.context.checkpointId in {"", ctx.checkpointId}
  }

  function RetryOutcome(states: States, ctx: RecoveryContext, code: Option<string>, run: RunInput,
                        maxRetries: int): Outcome {
    if ctx.retryCount >= MAX_RETRY_ATTEMPTS then Outcome(states, false)
    else if code.Some? then
      var r := RunOf(states, ctx.taskId, run, maxRetries);
      Outcome(r.states, r.succeeded)
    else Outcome(states, true)
  }

  function RepairOutcome(states: States, id: TaskId, code: Option<string>, pipeline: Option<RepairAnswer>): Outcome {
    if pipeline.None? || code in {None, Some("")} then Outcome(states, false)
    else
      match pipeline.value
      case RepairSuccess => Outcome(SafeStep(states, id, Completed), true)
      case RepairEscalated => Outcome(SafeStep(states, id, BlockedHitl), false)
      case _ => Outcome(states, false)
  }

  /** `code`: the source code in the metadata of the registered task, if one is registered. */
  function Attempted(states: States, ctx: RecoveryContext, code: Option<string>, input: RecoveryInput,
                     maxRetries: int): Outcome
  {
    var id := ctx.taskId;
    match StrategyOf(ctx)
    case Retry => RetryOutcome(states, ctx, code, input.run, maxRetries)
    case EventReplay =>
      var kinds := ReplayedKinds(ctx, input);
      Outcome(ReplayAll(states, id, kinds), kinds != [])
    case SnapshotRestore => Outcome(states, SnapshotMatches(ctx, input.checkpoint))
    case DefectRepair => RepairOutcome(states, id, code, input.pipeline)
    case _ => Outcome(Step(states, id, BlockedHitl), CanStep(states, id, BlockedHitl))
  }

  /** `_mark_recovery_ready`: false where it raises. */
  function MarkedReady(states: States, id: TaskId): Outcome {
    if id in states && states[id] in {Completed, Ready, BlockedRepair} then Outcome(states, true)
    else if id in states && states[id] == Failed then Outcome(states[id := BlockedRepair], true)
    else Outcome(Step(states, id, Ready), CanStep(states, id, Ready))
  }

  /** What follows a strategy. */
  function Concluded(a: Outcome, ctx: RecoveryContext): Outcome {
    if !a.success then Outcome(Step(a.states, ctx.taskId, BlockedHitl), false)
    else if StrategyOf(ctx) in {Hitl, Escalate} then a
    else MarkedReady(a.states, ctx.taskId)
  }

  /** `execute_recovery` */
  function Recovered(states: States, ctx: RecoveryContext, code: Option<string>, input: RecoveryInput,
                     maxRetries: int): Outcome
  {
    Concluded(Attempted(states, ctx, code, input, maxRetries), ctx)
  }

  // ---------- What the engine publishes ----------

  /** A retry that is not refused counts itself. */
  function PublishedCount(ctx: RecoveryContext): int {
    if StrategyOf(ctx) == Retry && ctx.retryCount < MAX_RETRY_ATTEMPTS then ctx.retryCount + 1 else ctx.retryCount
  }

  function ResultEvent(ctx: RecoveryContext, eventId: string, success: bool): Event {
    Event(eventId, if success then EventCompleted else EventFailed, ctx.taskId, Some(PublishedCount(ctx)))
  }

  /** The transition that follows the strategy raises. */
  predicate ConclusionRaises(a: Outcome, ctx: RecoveryContext) {
    var id := ctx.taskId;
    if a.success then StrategyOf(ctx) !in {Hitl, Escalate} && !MarkedReady(a.states, id).success
    else !(id in a.states && a.states[id] == BlockedHitl) && !CanStep(a.states, id, BlockedHitl)
  }

  /** The result of the strategy is published before anything is concluded from it: a success
      as a completed task, whatever state the task is in. */
  function Published(states: States, ctx: RecoveryContext, code: Option<string>, input: RecoveryInput,
                     maxRetries: int): seq<Event>
  {
    var a := Attempted(states, ctx, code, input, maxRetries);
    [ResultEvent(ctx, input.ids(0), a.success)]
    + if ConclusionRaises(a, ctx) then [ResultEvent(ctx, input.ids(1), false)] else []
  }

  lemma {:induction false} ScopedKindsAppend(events: seq<Event>, more: seq<Event>, id: TaskId)
    ensures ScopedKinds(events + more, id) == ScopedKinds(events, id) + ScopedKinds(more, id)
  {
    hide InScope;
    if more == [] {
      assert events + more == events && ScopedKinds(events, id) + [] == ScopedKinds(events, id);
    } else {
      var n, all := |more| - 1, events + more;
      ScopedKindsAppend(events, more[..n], id);
      assert all[..|all| - 1] == events + more[..n] && all[|all| - 1] == more[n];
      var last := if InScope(more[n], id) then [more[n].kind] else [];
      assert ScopedKinds(all, id) == ScopedKinds(events + more[..n], id) + last;
    }
  }

  lemma {:induction false} SameStart(events: seq<Event>, more: seq<Event>, eventId: string)
    requires StartOf(events, eventId) < |events|
    ensures StartOf(events + more, eventId) == StartOf(events, eventId)
  {
    var i, j := StartOf(events, eventId), StartOf(events + more, eventId);
    assert (events + more)[i] == events[i];
    assert j < |events| ==> (events + more)[j] == events[j];
  }

  lemma {:induction false} KindsNeedEvents(ctx: RecoveryContext, input: RecoveryInput)
    requires ReplayedKinds(ctx, input) != []
    ensures ctx.eventId != "" && !input.eventsRaise && StartOf(input.events, ctx.eventId) < |input.events|
  {
    if StartOf(input.events, ctx.eventId) == |input.events| {
      assert input.events[|input.events|..] == [];
    }
  }

  /** A replay of the longer log begins with the events of the earlier replay. */
  lemma ReplayGrows(ctx: RecoveryContext, input: RecoveryInput, again: RecoveryInput, more: seq<Event>)
    requires ReplayedKinds(ctx, input) != [] && again.events == input.events + more && !again.eventsRaise
    ensures ReplayedKinds(ctx, again) == ReplayedKinds(ctx, input) + ScopedKinds(more, ctx.taskId)
  {
    KindsNeedEvents(ctx, input);
    SameStart(input.events, more, ctx.eventId);
    var start := StartOf(input.events, ctx.eventId);
    assert again.events[start..] == input.events[start..] + more;
    ScopedKindsAppend(input.events[start..], more, ctx.taskId);
  }

  /** What a replay applies: from the first event with the given id on, the events of this task or
      of no task, in order; nothing without such an event, or where the log cannot be read. */
  lemma ReplayedAre(ctx: RecoveryContext, input: RecoveryInput, start: nat, i: nat)
    ensures ctx.eventId == "" || input.eventsRaise ==> ReplayedKinds(ctx, input) == []
    ensures (forall e :: e in input.events ==> e.eventId != ctx.eventId) ==> ReplayedKinds(ctx, input) == []
    ensures ctx.eventId != "" && !input.eventsRaise && start < |input.events|
            && input.events[start].eventId == ctx.eventId
            && (forall j :: 0 <= j < start ==> input.events[j].eventId != ctx.eventId) ==>
      ReplayedKinds(ctx, input) == ScopedKinds(input.events[start..], ctx.taskId)
    ensures i < |input.events| ==>
      var e := input.events[i];
      ScopedKinds([e], ctx.taskId) == if e.taskId == "" || e.taskId == ctx.taskId then [e.kind] else []
  {
    var s := StartOf(input.events, ctx.eventId);
    if s == |input.events| {
      assert input.events[s..] == [];
    } else {
      assert input.events[s] in input.events;
    }
    if i < |input.events| {
      assert [input.events[i]][..0] == [];
    }
  }

  // ---------- What recovery can do to a failed task ----------

  lemma FailedRunStaysFailed(states: States, id: TaskId, input: RunInput, maxRetries: int)
    requires id in states && states[id] == Failed
    ensures RunOf(states, id, input, maxRetries) == RunOutcome(states, 0, false)
  {
    assert states[id := Failed] == states;
  }

  lemma ReplayOfFailed(states: States, id: TaskId, kinds: seq<EventKind>)
    requires id in states && states[id] == Failed
    ensures ReplayAll(states, id, kinds) == states[id := ReplayState(Failed, kinds)]
    ensures ReplayState(Failed, kinds) in {Completed, Failed, BlockedHitl}
    ensures ReplayState(Failed, kinds) == Completed
      <==> exists i :: FirstDecisiveAt(kinds, i) && kinds[i] == EventCompleted
  {
    ReplayAllIsReplayState(states, id, kinds);
    ReplayClosedForm(Failed, kinds);
    SomeFirstDecisive(kinds);
    if i :| FirstDecisiveAt(kinds, i) {
      assert forall j :: FirstDecisiveAt(kinds, j) ==> j == i;
    }
  }

  /** What the strategies leave behind before `execute_recovery` draws its conclusion. */
  lemma AttemptOnFailed(states: States, ctx: RecoveryContext, code: Option<string>, input: RecoveryInput,
                        maxRetries: int)
    requires ctx.taskId in states && states[ctx.taskId] == Failed
    ensures var a := Attempted(states, ctx, code, input, maxRetries);
      && ctx.taskId in a.states
      && a.states == states[ctx.taskId := a.states[ctx.taskId]]
      && a.states[ctx.taskId] in {Completed, Failed, BlockedHitl}
      && (!a.success ==> a.states[ctx.taskId] != Completed)
      && (StrategyOf(ctx) in {Hitl, Escalate} ==> a.states[ctx.taskId] == BlockedHitl)
  {
    FailedRunStaysFailed(states, ctx.taskId, input.run, maxRetries);
    ReplayOfFailed(states, ctx.taskId, ReplayedKinds(ctx, input));
    assert ReplayAll(states, ctx.taskId, []) == states;
    hide ReplayAll, ReplayState, RunOf, ReplayedKinds;
    assert states[ctx.taskId := Failed] == states;
  }

  /** Recovery of a FAILED task ends in COMPLETED, BLOCKED_REPAIR or BLOCKED_HITL, never
      READY; when it reports failure, in BLOCKED_HITL; and it touches no other task. */
  lemma RecoveryOutcome(states: States, ctx: RecoveryContext, code: Option<string>, input: RecoveryInput,
                        maxRetries: int)
    requires ctx.taskId in states && states[ctx.taskId] == Failed
    ensures var r := Recovered(states, ctx, code, input, maxRetries);
      && ctx.taskId in r.states
      && r.states[ctx.taskId] in {Completed, BlockedRepair, BlockedHitl}
      && (!r.success ==> r.states[ctx.taskId] == BlockedHitl)
      && r.states == states[ctx.taskId := r.states[ctx.taskId]]
  {
    hide Attempted;
    AttemptOnFailed(states, ctx, code, input, maxRetries);
  }

  /** What completes a FAILED task: a successful repair, or a replay that meets a completed event
      before any blocked one. */
  ghost predicate Rescues(ctx: RecoveryContext, code: Option<string>, input: RecoveryInput) {
    var kinds := ReplayedKinds(ctx, input);
    || (StrategyOf(ctx) == DefectRepair && input.pipeline == Some(RepairSuccess) && code !in {None, Some("")})
    || (StrategyOf(ctx) == EventReplay && exists i :: FirstDecisiveAt(kinds, i) && kinds[i] == EventCompleted)
  }

  lemma AttemptCompletesIff(states: States, ctx: RecoveryContext, code: Option<string>, input: RecoveryInput,
                            maxRetries: int)
    requires ctx.taskId in states && states[ctx.taskId] == Failed
    ensures var a := Attempted(states, ctx, code, input, maxRetries);
      ctx.taskId in a.states && (a.states[ctx.taskId] == Completed <==> Rescues(ctx, code, input))
  {
    FailedRunStaysFailed(states, ctx.taskId, input.run, maxRetries);
    ReplayOfFailed(states, ctx.taskId, ReplayedKinds(ctx, input));
    hide ReplayAll, ReplayState, RunOf, ReplayedKinds, FirstDecisiveAt, SnapshotMatches;
  }

  /** A FAILED task is completed by recovery exactly when a repair succeeds, or when a replay
      meets a completed event before any blocked one. */
  lemma RecoveryCompletesIff(states: States, ctx: RecoveryContext, code: Option<string>, input: RecoveryInput,
                             maxRetries: int)
    requires ctx.taskId in states && states[ctx.taskId] == Failed
    ensures var r := Recovered(states, ctx, code, input, maxRetries);
      ctx.taskId in r.states && (r.states[ctx.taskId] == Completed <==> Rescues(ctx, code, input))
  {
    AttemptOnFailed(states, ctx, code, input, maxRetries);
    AttemptCompletesIff(states, ctx, code, input, maxRetries);
    hide Attempted, Rescues;
  }

  /** The strategy is this one: asked for, or selected for this class of failure. */
  predicate Uses(ctx: RecoveryContext, strategy: Strategy, failure: FailureType) {
    ctx.strategy == Some(strategy) || (ctx.strategy.None? && ctx.failureType == failure)
  }

  /** Recovery of a FAILED task by replay: the first completed or blocked event decides; without
      one any event at all sends the task to repair, and none hands it to a human. */
  lemma FailedReplayIs(states: States, ctx: RecoveryContext, code: Option<string>, input: RecoveryInput,
                       maxRetries: int)
    requires ctx.taskId in states && states[ctx.taskId] == Failed && Uses(ctx, EventReplay, NetworkFailure)
    ensures var r, kinds := Recovered(states, ctx, code, input, maxRetries), ReplayedKinds(ctx, input);
      && (kinds == [] ==> r == Outcome(states[ctx.taskId := BlockedHitl], false))
      && (kinds != [] && NoneDecisive(kinds) ==> r == Outcome(states[ctx.taskId := BlockedRepair], true))
      && forall i :: FirstDecisiveAt(kinds, i) ==>
           r == if kinds[i] == EventCompleted then Outcome(states[ctx.taskId := Completed], true)
                else Outcome(states[ctx.taskId := BlockedHitl], false)
  {
    var kinds := ReplayedKinds(ctx, input);
    assert StrategyOf(ctx) == EventReplay;
    ReplayAllIsReplayState(states, ctx.taskId, kinds);
    ReplayClosedForm(Failed, kinds);
    DecisiveKinds(kinds);
    hide ReplayAll, ReplayState, ReplayedKinds, FirstDecisiveAt, StrategyOf;
  }

  /** By the other strategies: a retry is refused, or never runs the task because IMPLEMENTING may
      not follow FAILED; an unregistered task, a matching snapshot and a successful repair are the
      only successes but for the handover to a human. */
  lemma FailedRecoveryIs(states: States, ctx: RecoveryContext, code: Option<string>, input: RecoveryInput,
                         maxRetries: int)
    requires ctx.taskId in states && states[ctx.taskId] == Failed
    ensures var r := Recovered(states, ctx, code, input, maxRetries);
      var toHuman, toRepair := states[ctx.taskId := BlockedHitl], states[ctx.taskId := BlockedRepair];
      && (Uses(ctx, Retry, TimeoutFailure) ==>
            r == if ctx.retryCount < 3 && code.None? then Outcome(toRepair, true) else Outcome(toHuman, false))
      && (Uses(ctx, SnapshotRestore, RuntimeFailure) ==>
            r == if SnapshotMatches(ctx, input.checkpoint) then Outcome(toRepair, true) else Outcome(toHuman, false))
      && (Uses(ctx, Hitl, SyntaxFailure) || Uses(ctx, Escalate, UnknownFailure) ==> r == Outcome(toHuman, true))
      && (ctx.strategy == Some(DefectRepair) ==>
            r == if input.pipeline == Some(RepairSuccess) && code !in {None, Some("")}
                 then Outcome(states[ctx.taskId := Completed], true) else Outcome(toHuman, false))
  {
    FailedRunStaysFailed(states, ctx.taskId, input.run, maxRetries);
    hide ReplayAll, RunOf, ReplayedKinds, SnapshotMatches;
  }

  lemma DecisiveKinds(kinds: seq<EventKind>)
    ensures forall i :: FirstDecisiveAt(kinds, i) ==>
      0 <= i < |kinds| && kinds[i] in {EventCompleted, EventBlocked} && kinds != []
  {
  }

  /** What is published: the events of the task under their ids, with the retry count raised by
      a retry that was not refused; first the result of the strategy, then a failure exactly where
      the transition that follows it raises. */
  lemma PublishedAre(states: States, ctx: RecoveryContext, code: Option<string>, input: RecoveryInput, maxRetries: int)
    ensures var p := Published(states, ctx, code, input, maxRetries);
      var a := Attempted(states, ctx, code, input, maxRetries);
      var counted := Uses(ctx, Retry, TimeoutFailure) && ctx.retryCount < 3;
      && |p| == (if ConclusionRaises(a, ctx) then 2 else 1)
      && (forall i :: 0 <= i < |p| ==>
            && p[i].eventId == input.ids(i) && p[i].taskId == ctx.taskId
            && p[i].retryCount == Some(if counted then ctx.retryCount + 1 else ctx.retryCount))
      && p[0].kind == (if a.success then EventCompleted else EventFailed)
      && (|p| == 2 ==> p[1].kind == EventFailed)
  {
    hide Attempted, ConclusionRaises;
  }

  /** The last event of the scope that sets a status. */
  ghost predicate LastStatusAt(events: seq<Event>, id: TaskId, i: int) {
    && 0 <= i < |events| && SetsStatus(events[i], id)
    && forall j :: i < j < |events| ==> !SetsStatus(events[j], id)
  }

  predicate SetsStatus(e: Event, id: TaskId) {
    InScope(e, id) && e.kind in {EventStarted, EventCompleted, EventFailed}
  }

  function StatusSet(kind: EventKind): ExecutionStatus
    requires kind in {EventStarted, EventCompleted, EventFailed}
  {
    match kind
    case EventStarted => ContextImplementing
    case EventCompleted => ContextCompleted
    case EventFailed => ContextFailed
  }

  /** The context after a replay: the status of the last event that sets one, an error exactly if
      there was one or some event is a failure, and nothing else touched but the retry count. */
  lemma {:induction false} ContextAfterReplay(c: ExecutionContext, id: TaskId, events: seq<Event>)
    ensures var r := ContextAfterAll(c, id, events);
      && (forall i :: LastStatusAt(events, id, i) ==> r.status == StatusSet(events[i].kind))
      && ((forall e :: e in events ==> !SetsStatus(e, id)) ==> r == c)
      && (r.error <==> c.error || exists e :: e in events && InScope(e, id) && e.kind == EventFailed)
      && r.taskId == c.taskId && r.checkpointId == c.checkpointId && r.interventions == c.interventions
  {
    hide InScope;
    if events != [] {
      var n := |events| - 1;
      assert events == events[..n] + [events[n]];
      ContextAfterReplay(c, id, events[..n]);
      assert forall e :: e in events <==> e in events[..n] || e == events[n];
      if !SetsStatus(events[n], id) {
        forall i | LastStatusAt(events, id, i) ensures LastStatusAt(events[..n], id, i) {
        }
      }
    }
  }

  /** The last failure of the scope that carries a retry count sets it. */
  lemma {:induction false} CountAfterReplay(c: ExecutionContext, id: TaskId, events: seq<Event>, i: int)
    requires 0 <= i < |events| && SetsCount(events[i], id)
    requires forall j :: i < j < |events| ==> !SetsCount(events[j], id)
    ensures ContextAfterAll(c, id, events).retryCount == events[i].retryCount.value
  {
    var n := |events| - 1;
    if i < n {
      CountAfterReplay(c, id, events[..n], i);
    }
  }

  predicate SetsCount(e: Event, id: TaskId) {
    InScope(e, id) && e.kind == EventFailed && e.retryCount.Some?
  }

  lemma {:induction false} CountWithoutFailure(c: ExecutionContext, id: TaskId, events: seq<Event>)
    requires forall e :: e in events ==> !SetsCount(e, id)
    ensures ContextAfterAll(c, id, events).retryCount == c.retryCount
  {
    if events != [] {
      var n := |events| - 1;
      assert events == events[..n] + [events[n]] && events[n] in events;
      CountWithoutFailure(c, id, events[..n]);
    }
  }

  /** The context the coordinator builds carries no event id and no checkpoint id: then only
      a successful repair rescues a task, and every other strategy hands it to a human. */
  lemma CoordinatorRecovery(states: States, ctx: RecoveryContext, code: string, input: RecoveryInput, maxRetries: int)
    requires ctx.taskId in states && states[ctx.taskId] == Failed
    requires ctx.eventId == "" && ctx.checkpointId == ""
    ensures var r := Recovered(states, ctx, Some(code), input, maxRetries);
      && r.states == states[ctx.taskId := if RepairSucceeds(ctx, code, input) then Completed else BlockedHitl]
      && (RepairSucceeds(ctx, code, input) ==> r.success)
  {
    FailedRunStaysFailed(states, ctx.taskId, input.run, maxRetries);
  }

  predicate RepairSucceeds(ctx: RecoveryContext, code: string, input: RecoveryInput) {
    StrategyOf(ctx) == DefectRepair && input.pipeline == Some(RepairSuccess) && code != ""
  }

  /** The strategy succeeds for a task in a terminal state: a retry finds no registered task, a
      replay applies some event, a snapshot matches, or a repair succeeds. */
  predicate SucceedsAnyway(ctx: RecoveryContext, code: Option<string>, input: RecoveryInput) {
    match StrategyOf(ctx)
    case Retry => ctx.retryCount < MAX_RETRY_ATTEMPTS && code.None?
    case EventReplay => ReplayedKinds(ctx, input) != []
    case SnapshotRestore => SnapshotMatches(ctx, input.checkpoint)
    case DefectRepair => input.pipeline == Some(RepairSuccess) && code !in {None, Some("")}
    case _ => false
  }

  lemma AttemptOnTerminal(states: States, ctx: RecoveryContext, code: Option<string>, input: RecoveryInput,
                          maxRetries: int)
    requires ctx.taskId in states && Terminal(states[ctx.taskId])
    ensures Attempted(states, ctx, code, input, maxRetries) == Outcome(states, SucceedsAnyway(ctx, code, input))
  {
    var id := ctx.taskId;
    TerminalRunDoesNothing(states, id, input.run, maxRetries);
    ReplayAllIsReplayState(states, id, ReplayedKinds(ctx, input));
    TerminalStays(states[id], ReplayedKinds(ctx, input));
    assert states[id := states[id]] == states;
    hide RunOf, ReplayAll, ReplayState, ReplayedKinds, SnapshotMatches;
  }

  /** Recovery of a task that is already COMPLETED leaves it so, and reports success exactly
      where its strategy succeeds anyway. */
  lemma CompletedRecovery(states: States, ctx: RecoveryContext, code: Option<string>, input: RecoveryInput,
                          maxRetries: int)
    requires ctx.taskId in states && states[ctx.taskId] == Completed
    ensures Recovered(states, ctx, code, input, maxRetries) == Outcome(states, SucceedsAnyway(ctx, code, input))
  {
    AttemptOnTerminal(states, ctx, code, input, maxRetries);
    hide Attempted, ReplayedKinds;
  }

  /** Recovery of a task in BLOCKED_HITL changes nothing and reports failure, even where its
      strategy succeeds. */
  lemma BlockedRecovery(states: States, ctx: RecoveryContext, code: Option<string>, input: RecoveryInput,
                        maxRetries: int)
    requires ctx.taskId in states && states[ctx.taskId] == BlockedHitl
    ensures Recovered(states, ctx, code, input, maxRetries) == Outcome(states, false)
  {
    AttemptOnTerminal(states, ctx, code, input, maxRetries);
    hide Attempted, SucceedsAnyway;
  }

  /** A replay that ended in BLOCKED_REPAIR met no decisive event, and published a completed one. */
  lemma UndecidedReplay(states: States, ctx: RecoveryContext, code: Option<string>, input: RecoveryInput,
                        maxRetries: int)
    requires StrategyOf(ctx) == EventReplay && ctx.taskId in states && states[ctx.taskId] == Failed
    requires var r := Recovered(states, ctx, code, input, maxRetries).states;
      ctx.taskId in r && r[ctx.taskId] == BlockedRepair
    ensures ReplayedKinds(ctx, input) != [] && NoneDecisive(ReplayedKinds(ctx, input))
    ensures Published(states, ctx, code, input, maxRetries) == [ResultEvent(ctx, input.ids(0), true)]
  {
    var kinds := ReplayedKinds(ctx, input);
    ReplayOfFailed(states, ctx.taskId, kinds);
    ReplayClosedForm(Failed, kinds);
    SomeFirstDecisive(kinds);
    hide ReplayAll, ReplayState, ReplayedKinds, NoneDecisive, Undecided;
    if i :| FirstDecisiveAt(kinds, i) {
      assert Decisive(kinds[i]);
    }
  }

  /** From a state that is not terminal, a replay ends completed when the first decisive event
      it meets is a completed one. */
  lemma CompletingReplay(states: States, ctx: RecoveryContext, code: Option<string>, input: RecoveryInput,
                         maxRetries: int, before: seq<EventKind>)
    requires StrategyOf(ctx) == EventReplay && ctx.taskId in states && !Terminal(states[ctx.taskId])
    requires NoneDecisive(before) && ReplayedKinds(ctx, input) == before + [EventCompleted]
    ensures Recovered(states, ctx, code, input, maxRetries) == Outcome(states[ctx.taskId := Completed], true)
  {
    var kinds := ReplayedKinds(ctx, input);
    ReplayAllIsReplayState(states, ctx.taskId, kinds);
    assert FirstDecisiveAt(kinds, |before|);
    ReplayDecided(states[ctx.taskId], kinds, |before|);
    hide ReplayAll, ReplayState, ReplayedKinds, NoneDecisive;
  }

  /** A terminal state survives a replay. */
  lemma TerminalReplay(states: States, ctx: RecoveryContext, code: Option<string>, input: RecoveryInput,
                       maxRetries: int)
    requires StrategyOf(ctx) == EventReplay && ctx.taskId in states && Terminal(states[ctx.taskId])
    ensures Recovered(states, ctx, code, input, maxRetries).states == states
  {
    var kinds := ReplayedKinds(ctx, input);
    ReplayAllIsReplayState(states, ctx.taskId, kinds);
    TerminalStays(states[ctx.taskId], kinds);
    assert states[ctx.taskId := states[ctx.taskId]] == states;
    hide ReplayAll, ReplayState, ReplayedKinds;
  }

  /** Two event replays of a FAILED task in a row, from the same event: the second replays what
      the first has published, and so completes the task exactly if the first completed it or
      left it in BLOCKED_REPAIR, whether or not it ever ran. */
  lemma SecondReplayCompletesIff(states: States, ctx: RecoveryContext, code: Option<string>, input: RecoveryInput,
                                 again: RecoveryInput, maxRetries: int)
    requires StrategyOf(ctx) == EventReplay && ctx.taskId in states && states[ctx.taskId] == Failed
    requires again.events == input.events + Published(states, ctx, code, input, maxRetries) && !again.eventsRaise
    ensures var first := Recovered(states, ctx, code, input, maxRetries).states;
      var second := Recovered(first, ctx, code, again, maxRetries).states;
      && ctx.taskId in first && ctx.taskId in second
      && (second[ctx.taskId] == Completed <==> first[ctx.taskId] in {Completed, BlockedRepair})
  {
    var first := Recovered(states, ctx, code, input, maxRetries).states;
    hide Recovered, Published, Attempted, ReplayedKinds;
    RecoveryOutcome(states, ctx, code, input, maxRetries);
    if first[ctx.taskId] == BlockedRepair {
      UndecidedReplay(states, ctx, code, input, maxRetries);
      var result := ResultEvent(ctx, input.ids(0), true);
      ReplayGrows(ctx, input, again, [result]);
      assert ScopedKinds([result], ctx.taskId) == [EventCompleted] by {
        assert [result][..0] == [];
      }
      CompletingReplay(first, ctx, code, again, maxRetries, ReplayedKinds(ctx, input));
    } else {
      TerminalReplay(first, ctx, code, again, maxRetries);
    }
  }

  /** Such a task: its one event is a failure, and the second recovery calls it COMPLETED. */
  lemma FailedTaskCompletedByReplay(id: TaskId, eventId: string, input: RecoveryInput, again: RecoveryInput,
                                    maxRetries: int)
    requires eventId != "" && !input.eventsRaise && !again.eventsRaise
    requires input.events == [Event(eventId, EventFailed, id, None)]
    requires var ctx := RecoveryContext(id, NetworkFailure, None, 0, eventId, "");
      again.events == input.events + Published(map[id := Failed], ctx, None, input, maxRetries)
    ensures var ctx := RecoveryContext(id, NetworkFailure, None, 0, eventId, "");
      var first := Recovered(map[id := Failed], ctx, None, input, maxRetries).states;
      && first == map[id := BlockedRepair]
      && Recovered(first, ctx, None, again, maxRetries).states == map[id := Completed]
  {
    var states: States := map[id := Failed];
    var ctx := RecoveryContext(id, NetworkFailure, None, 0, eventId, "");
    var first := Recovered(states, ctx, None, input, maxRetries).states;
    OneFailureReplayed(id, eventId, input);
    ReplayAllIsReplayState(states, id, [EventFailed]);
    assert [EventFailed][..0] == [] && ReplayState(Failed, []) == Failed;
    assert ReplayState(Failed, [EventFailed]) == Failed;
    assert first == map[id := BlockedRepair];
    hide Recovered, Published, ReplayAll;
    SecondReplayCompletesIff(states, ctx, None, input, again, maxRetries);
    RecoveryTouchesOne(first, ctx, None, again, maxRetries);
  }

  lemma OneFailureReplayed(id: TaskId, eventId: string, input: RecoveryInput)
    requires eventId != "" && !input.eventsRaise && input.events == [Event(eventId, EventFailed, id, None)]
    ensures ReplayedKinds(RecoveryContext(id, NetworkFailure, None, 0, eventId, ""), input) == [EventFailed]
  {
    assert StartOf(input.events, eventId) == 0 && input.events[0..] == input.events;
    assert input.events[..0] == [] && ScopedKinds([], id) == [];
  }

  /** A replay touches no other task. */
  lemma RecoveryTouchesOne(states: States, ctx: RecoveryContext, code: Option<string>, input: RecoveryInput,
                           maxRetries: int)
    requires StrategyOf(ctx) == EventReplay && ctx.taskId in states
    ensures var r := Recovered(states, ctx, code, input, maxRetries).states;
      ctx.taskId in r && r == states[ctx.taskId := r[ctx.taskId]]
  {
    ReplayAllIsReplayState(states, ctx.taskId, ReplayedKinds(ctx, input));
    hide ReplayAll, ReplayState, ReplayedKinds;
    assert states[ctx.taskId := states[ctx.taskId]] == states;
  }

  lemma TerminalRunDoesNothing(states: States, id: TaskId, input: RunInput, maxRetries: int)
    requires id in states && Terminal(states[id])
    ensures RunOf(states, id, input, maxRetries) == RunOutcome(states, 0, false)
  {
  }

  lemma ReplayNone(states: States, id: TaskId)
    ensures ReplayAll(states, id, []) == states
  {
  }

  // ---------- The engine ----------

  /** What one event does to the execution context, legal for the state or not. */
  function ContextAfter(c: ExecutionContext, e: Event): ExecutionContext {
    match e.kind
    case EventStarted => c.(status := ContextImplementing)
    case EventCompleted => c.(status := ContextCompleted)
    case EventFailed =>
      c.(status := ContextFailed, error := true,
         retryCount := if e.retryCount.Some? then e.retryCount.value else c.retryCount)
    case _ => c
  }

  function ContextAfterAll(c: ExecutionContext, id: TaskId, events: seq<Event>): ExecutionContext {
    if events == [] then c
    else
      var n := |events| - 1;
      var before := ContextAfterAll(c, id, events[..n]);
      if InScope(events[n], id) then ContextAfter(before, events[n]) else before
  }

  type Contexts = map<TaskId, ExecutionContext>

  /** `_get_or_create_execution_context` */
  function ContextOf(contexts: Contexts, id: TaskId): ExecutionContext {
    if id in contexts then contexts[id] else FreshContext(id)
  }

  /** `_record_manual_intervention` */
  function Intervened(c: ExecutionContext): ExecutionContext {
    c.(interventions := c.interventions + 1)
  }

  /** The replay finds the event to start from. */
  predicate ReplayStarts(ctx: RecoveryContext, input: RecoveryInput) {
    ctx.eventId != "" && !input.eventsRaise && StartOf(input.events, ctx.eventId) < |input.events|
  }

  /** The execution contexts after a strategy: only that of the task may change. */
  function ContextsAfter(contexts: Contexts, states: States, ctx: RecoveryContext, code: Option<string>,
                         input: RecoveryInput, maxRetries: int): (r: Contexts)
    ensures forall x :: x != ctx.taskId ==> Lookup(r, x) == Lookup(contexts, x)
  {
    var id := ctx.taskId;
    var context := ContextOf(contexts, id);
    match StrategyOf(ctx)
    case Retry =>
      if ctx.retryCount >= MAX_RETRY_ATTEMPTS then contexts
      else contexts[id := if code.Some? then ContextOfRun(states, id, input.run, maxRetries) else context]
    case EventReplay =>
      if ReplayStarts(ctx, input)
      then contexts[id := ContextAfterAll(context, id, input.events[StartOf(input.events, ctx.eventId)..])]
      else contexts
    case SnapshotRestore =>
      if SnapshotMatches(ctx, input.checkpoint) then contexts[id := input.checkpoint.context] else contexts
    case DefectRepair =>
      contexts[id := if code in {None, Some("")} then context
                     else if input.pipeline == Some(RepairSuccess) then context.(status := ContextCompleted)
                     else if input.pipeline == Some(RepairEscalated) then Intervened(context) else context]
    case _ => contexts[id := Intervened(context)]
  }

  class RecoveryEngine {
    const taskExecutor: TaskExecutor
    /** Contexts of the recoveries tracked per task. */
    var recoveryHistory: map<TaskId, seq<RecoveryContext>>
    /** The events published, in order. */
    var published: seq<Event>

    constructor (taskExecutor: TaskExecutor)
      ensures this.taskExecutor == taskExecutor && recoveryHistory == map[] && published == []
    {
      this.taskExecutor := taskExecutor;
      recoveryHistory, published := map[], [];
    }

    ghost function States(): States
      reads taskExecutor.stateMachine, taskExecutor.stateMachine.repository
    {
      taskExecutor.stateMachine.Known()
    }

    /** `_safe_transition` */
    method SafeTransition(id: TaskId, target: TaskState)
      modifies taskExecutor.stateMachine.Footprint()
      ensures States() == SafeStep(old(States()), id, target)
      ensures var known := old(States());
        var state := if id in known then known[id] else Pending;
        States() == known[id := if Legal(state, target) then target else state]
    {
      hide StateMachines.StateMachine.Known, Moved;
      taskExecutor.EnsureInitialized(id);
      var _ := taskExecutor.stateMachine.TransitionTo(id, target, "Recovery");
    }

    method GetOrCreateContext(id: TaskId) returns (context: ExecutionContext)
      modifies taskExecutor`executionContexts
      ensures context == ContextOf(old(taskExecutor.executionContexts), id)
      ensures taskExecutor.executionContexts == old(taskExecutor.executionContexts)[id := context]
    {
      if id !in taskExecutor.executionContexts {
        taskExecutor.executionContexts := taskExecutor.executionContexts[id := FreshContext(id)];
      }
      context := taskExecutor.executionContexts[id];
      assert taskExecutor.executionContexts == taskExecutor.executionContexts[id := context];
    }

    /** `_apply_event_to_execution_context` */
    method ApplyEvent(id: TaskId, context: ExecutionContext, e: Event) returns (context': ExecutionContext)
      modifies taskExecutor.stateMachine.Footprint()
      ensures context' == ContextAfter(context, e)
      ensures States() == ReplayInto(old(States()), id, e.kind)
    {
      hide StateMachines.StateMachine.Known, SafeStep;
      context' := context;
      match e.kind {
        case EventStarted =>
          context' := context'.(status := ContextImplementing);
          SafeTransition(id, Implementing);
        case EventCompleted =>
          context' := context'.(status := ContextCompleted);
          SafeTransition(id, Completed);
        case EventFailed =>
          context' := context'.(status := ContextFailed, error := true);
          if e.retryCount.Some? {
            context' := context'.(retryCount := e.retryCount.value);
          }
          SafeTransition(id, Failed);
        case EventBlocked =>
          SafeTransition(id, BlockedHitl);
        case EventOther =>
      }
    }

    /** The replay loop over the events from the start event on. */
    method ReplayEvents(id: TaskId, context: ExecutionContext, events: seq<Event>)
      returns (context': ExecutionContext, replayed: nat)
      modifies taskExecutor.stateMachine.Footprint()
      ensures States() == ReplayAll(old(States()), id, ScopedKinds(events, id))
      ensures context' == ContextAfterAll(context, id, events)
      ensures replayed == |ScopedKinds(events, id)|
    {
      hide StateMachines.StateMachine.Known, ReplayInto, ContextAfter;
      context', replayed := context, 0;
      for i := 0 to |events|
        invariant States() == ReplayAll(old(States()), id, ScopedKinds(events[..i], id))
        invariant context' == ContextAfterAll(context, id, events[..i])
        invariant replayed == |ScopedKinds(events[..i], id)|
      {
        assert events[..i + 1][..i] == events[..i];
        ghost var kinds := ScopedKinds(events[..i], id);
        assert (kinds + [events[i].kind])[..|kinds|] == kinds && kinds + [] == kinds;
        assert ScopedKinds(events[..i + 1], id) == kinds + if InScope(events[i], id) then [events[i].kind] else [];
        if events[i].taskId == "" || events[i].taskId == id {
          context' := ApplyEvent(id, context', events[i]);
          replayed := replayed + 1;
        }
      }
      assert events[..|events|] == events;
    }

    method FindStart(events: seq<Event>, eventId: string) returns (start: nat)
      ensures start == StartOf(events, eventId)
    {
      start := 0;
      while start < |events| && events[start].eventId != eventId
        invariant start <= |events|
        invariant forall j :: 0 <= j < start ==> events[j].eventId != eventId
      {
        start := start + 1;
      }
      var s := StartOf(events, eventId);
      assert !(s < start) && !(start < s);
    }

    method ExecuteEventReplay(ctx: RecoveryContext, input: RecoveryInput) returns (success: bool)
      requires StrategyOf(ctx) == EventReplay
      modifies taskExecutor`executionContexts, taskExecutor.stateMachine.Footprint()
      ensures States() == ReplayAll(old(States()), ctx.taskId, ReplayedKinds(ctx, input))
      ensures success == (ReplayedKinds(ctx, input) != [])
      ensures ctx.eventId == "" || input.eventsRaise || (forall e :: e in input.events ==> e.eventId != ctx.eventId) ==>
        !success && taskExecutor.executionContexts == old(taskExecutor.executionContexts)
      ensures taskExecutor.executionContexts == ContextsAfter(
        old(taskExecutor.executionContexts), old(States()), ctx, None, input, taskExecutor.maxRetries)
    {
      hide StateMachines.StateMachine.Known, ReplayAll, StartOf, ContextAfterAll;
      assert ReplayAll(old(States()), ctx.taskId, []) == old(States()) by {
        ReplayNone(old(States()), ctx.taskId);
      }
      if ctx.eventId == "" || input.eventsRaise {
        return false;
      }
      var start := FindStart(input.events, ctx.eventId);
      if start == |input.events| {
        return false;
      }
      var context := GetOrCreateContext(ctx.taskId);
      var replayed;
      context, replayed := ReplayEvents(ctx.taskId, context, input.events[start..]);
      taskExecutor.executionContexts := taskExecutor.executionContexts[ctx.taskId := context];
      success := replayed > 0;
    }

    method ExecuteRetry(ctx: RecoveryContext, input: RecoveryInput) returns (success: bool)
      requires StrategyOf(ctx) == Retry
      modifies taskExecutor, taskExecutor.stateMachine.Footprint()
      ensures Outcome(States(), success) == RetryOutcome(
        old(States()), ctx, Lookup(old(taskExecutor.taskRegistry), ctx.taskId), input.run, taskExecutor.maxRetries)
      ensures taskExecutor.executionContexts == ContextsAfter(
        old(taskExecutor.executionContexts), old(States()), ctx, Lookup(old(taskExecutor.taskRegistry), ctx.taskId),
        input, taskExecutor.maxRetries)
      ensures ctx.retryCount >= 3 ==> !success && taskExecutor.executionContexts == old(taskExecutor.executionContexts)
      ensures ctx.retryCount < 3 && ctx.taskId !in old(taskExecutor.taskRegistry) ==>
        success && States() == old(States())
      ensures ctx.retryCount < 3 && ctx.taskId in old(taskExecutor.taskRegistry) ==>
        var r := RunOf(old(States()), ctx.taskId, input.run, taskExecutor.maxRetries);
        States() == r.states && success == r.succeeded
    {
      hide StateMachines.StateMachine.Known, RunOf, ContextOfRun;
      if ctx.retryCount >= MAX_RETRY_ATTEMPTS {
        return false;
      }
      var _ := GetOrCreateContext(ctx.taskId);
      if ctx.taskId in taskExecutor.taskRegistry {
        var calls, error;
        success, calls, error := taskExecutor.RunTask(ctx.taskId, taskExecutor.taskRegistry[ctx.taskId], input.run);
      } else {
        success := true;
      }
    }

    method ExecuteSnapshotRestore(ctx: RecoveryContext, checkpoint: Load) returns (success: bool)
      modifies taskExecutor`executionContexts
      ensures success == SnapshotMatches(ctx, checkpoint)
      ensures success <==>
        && ctx.checkpointId != "" && checkpoint.Found?
        && (checkpoint.context.taskId == "" || checkpoint.context.taskId == ctx.taskId)
        && (checkpoint.context.checkpointId == "" || checkpoint.context.checkpointId == ctx.checkpointId)
      ensures taskExecutor.executionContexts == if success
        then old(taskExecutor.executionContexts)[ctx.taskId := checkpoint.context]
        else old(taskExecutor.executionContexts)
    {
      if ctx.checkpointId == "" || !checkpoint.Found? {
        return false;
      }
      var found := checkpoint.context;
      if found.taskId != "" && found.taskId != ctx.taskId {
        return false;
      }
      if found.checkpointId != "" && found.checkpointId != ctx.checkpointId {
        return false;
      }
      taskExecutor.executionContexts := taskExecutor.executionContexts[ctx.taskId := found];
      return true;
    }

    method ExecuteDefectRepair(ctx: RecoveryContext, input: RecoveryInput) returns (success: bool)
      requires StrategyOf(ctx) == DefectRepair
      modifies taskExecutor`executionContexts, taskExecutor.stateMachine.Footprint()
      ensures Outcome(States(), success) == RepairOutcome(
        old(States()), ctx.taskId, Lookup(taskExecutor.taskRegistry, ctx.taskId), input.pipeline)
      ensures taskExecutor.executionContexts == ContextsAfter(
        old(taskExecutor.executionContexts), old(States()), ctx, Lookup(taskExecutor.taskRegistry, ctx.taskId),
        input, taskExecutor.maxRetries)
      ensures var contexts, code := old(taskExecutor.executionContexts), Lookup(taskExecutor.taskRegistry, ctx.taskId);
        var context := if ctx.taskId in contexts then contexts[ctx.taskId] else FreshContext(ctx.taskId);
        taskExecutor.executionContexts == contexts[ctx.taskId :=
          if code in {None, Some("")} then context
          else if input.pipeline == Some(RepairSuccess) then context.(status := ContextCompleted)
          else if input.pipeline == Some(RepairEscalated) then context.(interventions := context.interventions + 1)
          else context]
      ensures var known, code := old(States()), Lookup(taskExecutor.taskRegistry, ctx.taskId);
        var state := if ctx.taskId in known then known[ctx.taskId] else Pending;
        && (success <==> input.pipeline == Some(RepairSuccess) && code !in {None, Some("")})
        && (success ==> States() == known[ctx.taskId := if state == BlockedHitl then BlockedHitl else Completed])
        && (!success && (input.pipeline != Some(RepairEscalated) || code in {None, Some("")}) ==> States() == known)
        && (input.pipeline == Some(RepairEscalated) && code !in {None, Some("")} ==>
              States() == known[ctx.taskId := if state == Completed then Completed else BlockedHitl])
    {
      hide StateMachines.StateMachine.Known, SafeStep;
      var context := GetOrCreateContext(ctx.taskId);
      var registry := taskExecutor.taskRegistry;
      if input.pipeline.None? || ctx.taskId !in registry || registry[ctx.taskId] == "" {
        return false;
      }
      match input.pipeline.value {
        case RepairSuccess =>
          taskExecutor.executionContexts :=
            taskExecutor.executionContexts[ctx.taskId := context.(status := ContextCompleted)];
          SafeTransition(ctx.taskId, Completed);
          return true;
        case RepairEscalated =>
          RecordManualIntervention(ctx.taskId);
          SafeTransition(ctx.taskId, BlockedHitl);
          return false;
        case RepairFailed => return false;
        case PipelineRaises => return false;
      }
    }

    /** `_record_manual_intervention` */
    method RecordManualIntervention(id: TaskId)
      modifies taskExecutor`executionContexts
      ensures var contexts := old(taskExecutor.executionContexts);
        taskExecutor.executionContexts == contexts[id := Intervened(ContextOf(contexts, id))]
    {
      var context := GetOrCreateContext(id);
      taskExecutor.executionContexts :=
        taskExecutor.executionContexts[id := context.(interventions := context.interventions + 1)];
    }

    /** `_execute_hitl` and `_execute_escalate` */
    method HandToHuman(ctx: RecoveryContext) returns (success: bool)
      modifies taskExecutor`executionContexts, taskExecutor.stateMachine.Footprint()
      ensures Outcome(States(), success)
        == Outcome(Step(old(States()), ctx.taskId, BlockedHitl), old(CanStep(States(), ctx.taskId, BlockedHitl)))
      ensures var contexts := old(taskExecutor.executionContexts);
        taskExecutor.executionContexts == contexts[ctx.taskId := Intervened(ContextOf(contexts, ctx.taskId))]
      ensures ctx.taskId in taskExecutor.executionContexts
      ensures taskExecutor.executionContexts[ctx.taskId].interventions
        == 1 + if ctx.taskId in old(taskExecutor.executionContexts)
               then old(taskExecutor.executionContexts)[ctx.taskId].interventions else 0
    {
      hide StateMachines.StateMachine.Known, Moved;
      RecordManualIntervention(ctx.taskId);
      var r := taskExecutor.stateMachine.TransitionTo(ctx.taskId, BlockedHitl, "Awaiting human intervention");
      success := r.Ok?;
    }

    /** `_mark_recovery_ready`; false where it raises. */
    method MarkRecoveryReady(id: TaskId) returns (ok: bool)
      modifies taskExecutor.stateMachine.Footprint()
      ensures Outcome(States(), ok) == MarkedReady(old(States()), id)
      ensures var known := old(States());
        var state := Lookup(known, id);
        && (ok <==> state.Some? && state.value in {Completed, Ready, BlockedRepair, Failed, Pending})
        && States() == (if state == Some(Failed) then known[id := BlockedRepair]
                        else if state == Some(Pending) then known[id := Ready] else known)
    {
      hide StateMachines.StateMachine.Known, Moved;
      var state := taskExecutor.stateMachine.GetState(id);
      if state in {Some(Completed), Some(Ready), Some(BlockedRepair)} {
        return true;
      }
      if state == Some(Failed) {
        var _ := taskExecutor.stateMachine.TransitionTo(id, BlockedRepair, "Recovery succeeded");
        return true;
      }
      var r := taskExecutor.stateMachine.TransitionTo(id, Ready, "Recovery succeeded");
      return r.Ok?;
    }

    /** The dispatch on the strategy. */
    method Attempt(ctx: RecoveryContext, input: RecoveryInput) returns (success: bool)
      modifies taskExecutor, taskExecutor.stateMachine.Footprint()
      ensures Outcome(States(), success) == Attempted(
        old(States()), ctx, Lookup(old(taskExecutor.taskRegistry), ctx.taskId), input, taskExecutor.maxRetries)
      ensures taskExecutor.executionContexts == ContextsAfter(
        old(taskExecutor.executionContexts), old(States()), ctx, Lookup(old(taskExecutor.taskRegistry), ctx.taskId),
        input, taskExecutor.maxRetries)
    {
      hide StateMachines.StateMachine.Known, Step, CanStep, ReplayAll, ReplayedKinds, RetryOutcome, RepairOutcome,
        SnapshotMatches, ContextOfRun, ContextAfterAll;
      match StrategyOf(ctx) {
        case Retry => success := ExecuteRetry(ctx, input);
        case EventReplay => success := ExecuteEventReplay(ctx, input);
        case SnapshotRestore => success := ExecuteSnapshotRestore(ctx, input.checkpoint);
        case DefectRepair => success := ExecuteDefectRepair(ctx, input);
        case Hitl => success := HandToHuman(ctx);
        case Escalate => success := HandToHuman(ctx);
      }
    }

    /** The transition that follows the strategy; `ok` is false where it raises. */
    method Conclude(ctx: RecoveryContext, success: bool) returns (ok: bool)
      modifies taskExecutor.stateMachine.Footprint()
      ensures var a := Outcome(old(States()), success);
        Outcome(States(), success && ok) == Concluded(a, ctx) && (ok <==> !ConclusionRaises(a, ctx))
      ensures var known := old(States());
        var state := Lookup(known, ctx.taskId);
        !success ==>
          && (ok <==> state.Some? && state != Some(Completed))
          && States() == if ok then known[ctx.taskId := BlockedHitl] else known
      ensures success && StrategyOf(ctx) in {Hitl, Escalate} ==> ok && States() == old(States())
      ensures var state := Lookup(old(States()), ctx.taskId);
        success && StrategyOf(ctx) !in {Hitl, Escalate} ==>
          (ok <==> state.Some? && state.value in {Completed, Ready, BlockedRepair, Failed, Pending})
    {
      hide StateMachines.StateMachine.Known, MarkedReady, Moved;
      ok := true;
      if success {
        if StrategyOf(ctx) != Hitl && StrategyOf(ctx) != Escalate {
          ok := MarkRecoveryReady(ctx.taskId);
        }
      } else {
        var state := taskExecutor.stateMachine.GetState(ctx.taskId);
        if state != Some(BlockedHitl) {
          var r := taskExecutor.stateMachine.TransitionTo(ctx.taskId, BlockedHitl, "Recovery failed");
          ok := r.Ok?;
        }
      }
    }

    method ExecuteRecovery(ctx: RecoveryContext, input: RecoveryInput) returns (success: bool)
      modifies this, taskExecutor, taskExecutor.stateMachine.Footprint()
      ensures Outcome(States(), success) == Recovered(
        old(States()), ctx, Lookup(old(taskExecutor.taskRegistry), ctx.taskId), input, taskExecutor.maxRetries)
      ensures taskExecutor.executionContexts == ContextsAfter(
        old(taskExecutor.executionContexts), old(States()), ctx, Lookup(old(taskExecutor.taskRegistry), ctx.taskId),
        input, taskExecutor.maxRetries)
      ensures published == old(published) + Published(
        old(States()), ctx, Lookup(old(taskExecutor.taskRegistry), ctx.taskId), input, taskExecutor.maxRetries)
      ensures var before := old(recoveryHistory);
        recoveryHistory == before[ctx.taskId := (if ctx.taskId in before then before[ctx.taskId] else []) + [ctx]]
    {
      hide StateMachines.StateMachine.Known, Attempted, Concluded, ConclusionRaises, ContextsAfter, ResultEvent;
      recoveryHistory := recoveryHistory[ctx.taskId := Tracked(recoveryHistory, ctx.taskId) + [ctx]];
      success := Attempt(ctx, input);
      published := published + [ResultEvent(ctx, input.ids(0), success)];
      var ok := Conclude(ctx, success);
      if !ok {
        published := published + [ResultEvent(ctx, input.ids(1), false)];
      }
      success := success && ok;
    }
  }

  function Tracked(h: map<TaskId, seq<RecoveryContext>>, id: TaskId): seq<RecoveryContext> {
    if id in h then h[id] else []
  }
}
