/** The task state machine: agentManager/engine/state_manager.py, with its in-memory
    cache and an optional repository that outlives the machine. */
module StateMachines {
  import opened Wrappers
  import opened TaskKeys

  datatype TaskState =
    | Pending | Ready | Implementing | Verifying | Completed | Failed | BlockedRepair | BlockedHitl

  datatype Transition = Transition(taskId: TaskId, source: TaskState, target: TaskState, reason: string)

  datatype StateError =
    | AlreadyInitialized
    | NotInitialized
    | InvalidTransition(source: TaskState, target: TaskState)

  // ---------- The transition table ----------

  function ValidNext(s: TaskState): set<TaskState> {
    match s
    case Pending => {Ready, Implementing, BlockedRepair, Failed}
    case Ready => {Implementing, BlockedRepair, Failed}
    case Implementing => {Verifying, Failed, BlockedRepair}
    case Verifying => {Completed, Failed, BlockedRepair}
    case Completed => {}
    case Failed => {BlockedRepair, BlockedHitl}
    case BlockedRepair => {Implementing, BlockedHitl, Failed}
    case BlockedHitl => {}
  }

  predicate Terminal(s: TaskState) {
    s in {Completed, BlockedHitl}
  }

  /** Allowed from every state that is not terminal, whatever the table says. */
  predicate Emergency(source: TaskState, target: TaskState) {
    target in {BlockedHitl, Completed, Failed} && !Terminal(source)
  }

  predicate Legal(source: TaskState, target: TaskState) {
    Emergency(source, target) || target in ValidNext(source)
  }

  /** The same table by target: a task that is not in a terminal state may always end or fail; it
      enters repair from every other state, implementation only while it waits or from repair,
      and each of the other states from exactly one. */
  lemma LegalIff(source: TaskState, target: TaskState)
    ensures Legal(source, target) <==>
              && !Terminal(source)
              && match target
                 case Completed => true
                 case Failed => true
                 case BlockedHitl => true
                 case BlockedRepair => source != BlockedRepair
                 case Implementing => source in {Pending, Ready, BlockedRepair}
                 case Verifying => source == Implementing
                 case Ready => source == Pending
                 case Pending => false
  {
  }

  // ---------- Machine and repository as values ----------

  datatype Repo = Repo(states: map<TaskId, TaskState>, transitions: map<TaskId, seq<Transition>>)

  datatype Machine = Machine(
    states: map<TaskId, TaskState>, history: map<TaskId, seq<Transition>>, repo: Option<Repo>)

  function Lookup<V>(m: map<TaskId, V>, id: TaskId): Option<V> {
    if id in m then Some(m[id]) else None
  }

  function Stored(m: map<TaskId, seq<Transition>>, id: TaskId): seq<Transition> {
    if id in m then m[id] else []
  }

  /** The state of every known task, cached or only stored. */
  function Current(m: Machine): map<TaskId, TaskState> {
    (if m.repo.Some? then m.repo.value.states else map[]) + m.states
  }

  /** What `get_state` answers. */
  function StateOf(m: Machine, id: TaskId): Option<TaskState> {
    Lookup(Current(m), id)
  }

  /** What `get_history` answers. */
  function HistoryOf(m: Machine, id: TaskId): seq<Transition> {
    if Stored(m.history, id) != [] || m.repo.None? then Stored(m.history, id)
    else Stored(m.repo.value.transitions, id)
  }

  function CacheState(m: Machine, id: TaskId): (r: Machine)
    ensures Current(r) == Current(m)
  {
    if id in Current(m) then m.(states := m.states[id := Current(m)[id]]) else m
  }

  function CacheHistory(m: Machine, id: TaskId): Machine {
    if HistoryOf(m, id) != [] then m.(history := m.history[id := HistoryOf(m, id)]) else m
  }

  function Initialized(m: Machine, id: TaskId, state: TaskState): Machine {
    m.(states := m.states[id := state],
       history := m.history[id := []],
       repo := if m.repo.None? then None
               else Some(m.repo.value.(states := m.repo.value.states[id := state])))
  }

  /** The caches a transition fills before it is checked. */
  function Loaded(m: Machine, id: TaskId): Machine {
    var c := CacheState(m, id);
    if id !in c.states || id in c.history then c
    else c.(history := c.history[id := HistoryOf(c, id)])
  }

  function Recorded(m: Machine, t: Transition): Machine
    requires t.taskId in m.history
  {
    m.(states := m.states[t.taskId := t.target],
       history := m.history[t.taskId := m.history[t.taskId] + [t]],
       repo := if m.repo.None? then None
               else Some(Repo(m.repo.value.states[t.taskId := t.target],
                              m.repo.value.transitions[t.taskId := Stored(m.repo.value.transitions, t.taskId) + [t]])))
  }

  predicate CanMove(m: Machine, id: TaskId, target: TaskState) {
    id in Current(m) && Legal(Current(m)[id], target)
  }

  function Moved(m: Machine, id: TaskId, target: TaskState, reason: string): Machine {
    var c := Loaded(m, id);
    if CanMove(m, id, target)
    then Recorded(c, Transition(id, Current(m)[id], target, reason))
    else c
  }

  // ---------- Histories are legal chains ----------

  ghost predicate IsChain(id: TaskId, h: seq<Transition>) {
    && (forall i :: 0 <= i < |h| ==> h[i].taskId == id && Legal(h[i].source, h[i].target))
    && (forall i :: 0 < i < |h| ==> h[i - 1].target == h[i].source)
  }

  ghost predicate EndsIn(h: seq<Transition>, s: Option<TaskState>) {
    h != [] ==> s == Some(h[|h| - 1].target)
  }

  /** Cached answers are the stored ones, and every history is a legal chain to the current state. */
  ghost predicate WellKept(m: Machine) {
    && (forall id :: IsChain(id, HistoryOf(m, id)) && EndsIn(HistoryOf(m, id), StateOf(m, id)))
    && (m.repo.Some? ==>
          && (forall id :: id in m.states ==> Lookup(m.repo.value.states, id) == Some(m.states[id]))
          && (forall id :: id in m.history ==> m.history[id] == Stored(m.repo.value.transitions, id)))
    && (m.repo.None? ==> forall id :: id in m.states ==> id in m.history)
  }

  /** Only the last record of a chain may reach a terminal state. */
  lemma ChainEndsAtTerminal(id: TaskId, h: seq<Transition>, i: nat)
    requires IsChain(id, h) && i < |h| && Terminal(h[i].target)
    ensures i == |h| - 1
  {
    if i + 1 < |h| {
      assert h[i].target == h[i + 1].source && Legal(h[i + 1].source, h[i + 1].target);
    }
  }

  /** A task that has failed is implemented again only after it has been in repair. */
  lemma {:induction false} FailedRunsAgainAfterRepair(id: TaskId, h: seq<Transition>, i: nat, j: nat)
    requires IsChain(id, h) && i < j < |h| && h[i].target == Failed && h[j].target == Implementing
    ensures exists k :: i < k < j && h[k].target == BlockedRepair
    decreases j - i
  {
    assert h[i].target == h[i + 1].source && Legal(h[i + 1].source, h[i + 1].target);
    LegalIff(h[i + 1].source, h[i + 1].target);
    if Terminal(h[i + 1].target) {
      ChainEndsAtTerminal(id, h, i + 1);
    } else if h[i + 1].target == Failed {
      FailedRunsAgainAfterRepair(id, h, i + 1, j);
    }
  }

  lemma LoadedAnswersTheSame(m: Machine, id: TaskId)
    requires WellKept(m)
    ensures WellKept(Loaded(m, id))
    ensures Loaded(m, id).repo == m.repo
    ensures forall x :: StateOf(Loaded(m, id), x) == StateOf(m, x)
    ensures forall x :: HistoryOf(Loaded(m, id), x) == HistoryOf(m, x)
    ensures id in Current(m) ==> id in Loaded(m, id).history && Loaded(m, id).history[id] == HistoryOf(m, id)
  {
    var c := CacheState(m, id);
    assert forall x :: HistoryOf(c, x) == HistoryOf(m, x);
    var l := Loaded(m, id);
    assert Current(l) == Current(m);
    forall x ensures HistoryOf(l, x) == HistoryOf(m, x) {
    }
    forall x ensures IsChain(x, HistoryOf(l, x)) && EndsIn(HistoryOf(l, x), StateOf(l, x)) {
      assert IsChain(x, HistoryOf(m, x)) && EndsIn(HistoryOf(m, x), StateOf(m, x));
    }
  }

  lemma RecordedAnswers(l: Machine, t: Transition, x: TaskId)
    requires t.taskId in l.history
    ensures Current(Recorded(l, t)) == Current(l)[t.taskId := t.target]
    ensures HistoryOf(Recorded(l, t), x) == if x == t.taskId then l.history[x] + [t] else HistoryOf(l, x)
  {
  }

  /** What a transition records: one more link, or nothing when it is refused. */
  lemma MovedAnswers(m: Machine, id: TaskId, target: TaskState, reason: string, x: TaskId)
    requires WellKept(m)
    ensures HistoryOf(Moved(m, id, target, reason), x) ==
      if x == id && CanMove(m, id, target)
      then HistoryOf(m, x) + [Transition(id, Current(m)[id], target, reason)] else HistoryOf(m, x)
    ensures Current(Moved(m, id, target, reason)) ==
      if CanMove(m, id, target) then Current(m)[id := target] else Current(m)
  {
    hide WellKept, HistoryOf, Recorded, Current;
    LoadedAnswersTheSame(m, id);
    LoadedCurrent(m, id);
    if CanMove(m, id, target) {
      RecordedAnswers(Loaded(m, id), Transition(id, Current(m)[id], target, reason), x);
    }
  }

  lemma LoadedCurrent(m: Machine, id: TaskId)
    ensures Current(Loaded(m, id)) == Current(m)
  {
  }

  /** One more legal link keeps a chain a chain. */
  lemma ChainExtends(id: TaskId, h: seq<Transition>, s: TaskState, t: Transition)
    requires IsChain(id, h) && EndsIn(h, Some(s))
    requires t.taskId == id && t.source == s && Legal(s, t.target)
    ensures IsChain(id, h + [t]) && EndsIn(h + [t], Some(t.target))
  {
  }

  lemma RecordedInStep(l: Machine, t: Transition)
    requires WellKept(l) && t.taskId in l.history
    ensures var r := Recorded(l, t);
      && (r.repo.Some? ==>
            && (forall id :: id in r.states ==> Lookup(r.repo.value.states, id) == Some(r.states[id]))
            && (forall id :: id in r.history ==> r.history[id] == Stored(r.repo.value.transitions, id)))
      && (r.repo.None? ==> forall id :: id in r.states ==> id in r.history)
  {
  }

  lemma MovedWellKept(m: Machine, id: TaskId, target: TaskState, reason: string)
    requires WellKept(m)
    ensures WellKept(Moved(m, id, target, reason))
  {
    LoadedAnswersTheSame(m, id);
    hide HistoryOf, Recorded, Loaded, Current, IsChain, EndsIn, Legal;
    if CanMove(m, id, target) {
      var r := Moved(m, id, target, reason);
      RecordedInStep(Loaded(m, id), Transition(id, Current(m)[id], target, reason));
      forall x ensures IsChain(x, HistoryOf(r, x)) && EndsIn(HistoryOf(r, x), StateOf(r, x)) {
        MovedChain(m, id, target, reason, x);
      }
    }
  }

  lemma MovedChain(m: Machine, id: TaskId, target: TaskState, reason: string, x: TaskId)
    requires WellKept(m) && CanMove(m, id, target)
    ensures var r := Moved(m, id, target, reason);
      IsChain(x, HistoryOf(r, x)) && EndsIn(HistoryOf(r, x), StateOf(r, x))
  {
    assert IsChain(x, HistoryOf(m, x)) && EndsIn(HistoryOf(m, x), StateOf(m, x));
    hide WellKept, HistoryOf, Moved, Current, IsChain, EndsIn, Legal;
    MovedAnswers(m, id, target, reason, x);
    if x == id {
      ChainExtends(id, HistoryOf(m, x), Current(m)[id], Transition(id, Current(m)[id], target, reason));
    }
  }

  /** Initialising a task that is not cached keeps the books exactly when the repository
      has no transitions of it, which a caller sees from an empty `get_history`. */
  lemma InitializedWellKeptIff(m: Machine, id: TaskId, state: TaskState)
    requires WellKept(m) && id !in m.states
    ensures WellKept(Initialized(m, id, state)) <==> HistoryOf(m, id) == []
    ensures StateOf(m, id) == None ==> HistoryOf(m, id) == []
  {
    var r := Initialized(m, id, state);
    assert EndsIn(HistoryOf(m, id), StateOf(m, id));
    if HistoryOf(m, id) == [] {
      forall x ensures IsChain(x, HistoryOf(r, x)) && EndsIn(HistoryOf(r, x), StateOf(r, x)) {
        if x != id {
          assert IsChain(x, HistoryOf(m, x)) && EndsIn(HistoryOf(m, x), StateOf(m, x));
          assert StateOf(r, x) == StateOf(m, x) && HistoryOf(r, x) == HistoryOf(m, x);
        }
      }
    } else if m.repo.Some? {
      assert r.history[id] == [];
      assert id in m.history ==> m.history[id] == Stored(m.repo.value.transitions, id);
    }
  }

  // ---------- Runs, and restarts on the same repository ----------

  /** A new machine on the repository of an old one. */
  function Fresh(m: Machine): Machine {
    Machine(map[], map[], m.repo)
  }

  /** A machine that has forgotten its caches answers the same. */
  lemma FreshAnswersTheSame(m: Machine, id: TaskId)
    requires WellKept(m) && m.repo.Some?
    ensures StateOf(Fresh(m), id) == StateOf(m, id)
    ensures HistoryOf(Fresh(m), id) == HistoryOf(m, id)
  {
    assert id in m.states ==> Lookup(m.repo.value.states, id) == Some(m.states[id]);
  }

  lemma FreshWellKept(m: Machine)
    requires WellKept(m) && m.repo.Some?
    ensures WellKept(Fresh(m))
  {
    forall x ensures IsChain(x, HistoryOf(Fresh(m), x)) && EndsIn(HistoryOf(Fresh(m), x), StateOf(Fresh(m), x)) {
      FreshAnswersTheSame(m, x);
      assert IsChain(x, HistoryOf(m, x)) && EndsIn(HistoryOf(m, x), StateOf(m, x));
    }
  }

  datatype StateOp =
    | Ensure(id: TaskId, state: TaskState)
    | Move(id: TaskId, target: TaskState, reason: string)
    | ReadState(id: TaskId)
    | ReadHistory(id: TaskId)
    | Restart

  /** `Ensure` is the callers' idiom: initialise when `get_state` answers None. */
  function Apply(m: Machine, op: StateOp): Machine {
    match op
    case Ensure(id, state) => if StateOf(m, id) == None then Initialized(m, id, state) else CacheState(m, id)
    case Move(id, target, reason) => Moved(m, id, target, reason)
    case ReadState(id) => CacheState(m, id)
    case ReadHistory(id) => CacheHistory(m, id)
    case Restart => if m.repo.Some? then Fresh(m) else m
  }

  lemma CachedAnswersTheSame(m: Machine, id: TaskId)
    requires WellKept(m)
    ensures WellKept(CacheState(m, id)) && (m.repo.Some? ==> WellKept(CacheHistory(m, id)))
    ensures forall x :: HistoryOf(CacheState(m, id), x) == HistoryOf(m, x) == HistoryOf(CacheHistory(m, id), x)
    ensures Current(CacheState(m, id)) == Current(m) == Current(CacheHistory(m, id))
    ensures m.repo.None? ==> CacheHistory(m, id) == m
  {
    CachedHistories(m, id);
    var s, h := CacheState(m, id), CacheHistory(m, id);
    hide IsChain, EndsIn;
    forall x ensures IsChain(x, HistoryOf(s, x)) && EndsIn(HistoryOf(s, x), StateOf(s, x))
      ensures IsChain(x, HistoryOf(h, x)) && EndsIn(HistoryOf(h, x), StateOf(h, x))
    {
      assert IsChain(x, HistoryOf(m, x)) && EndsIn(HistoryOf(m, x), StateOf(m, x));
    }
  }

  lemma CachedHistories(m: Machine, id: TaskId)
    ensures forall x :: HistoryOf(CacheState(m, id), x) == HistoryOf(m, x) == HistoryOf(CacheHistory(m, id), x)
    ensures Current(CacheHistory(m, id)) == Current(m)
    ensures m.repo.None? ==> CacheHistory(m, id) == m
  {
    assert m.repo.None? && HistoryOf(m, id) != [] ==> m.history[id := HistoryOf(m, id)] == m.history;
  }

  lemma InitializedAnswers(m: Machine, id: TaskId, state: TaskState, x: TaskId)
    requires WellKept(m) && StateOf(m, id) == None
    ensures WellKept(Initialized(m, id, state))
    ensures HistoryOf(Initialized(m, id, state), x) == HistoryOf(m, x)
    ensures x != id ==> StateOf(Initialized(m, id, state), x) == StateOf(m, x)
  {
    InitializedWellKeptIff(m, id, state);
  }

  /** Every operation keeps the books, only appends to histories, and leaves terminal states alone. */
  lemma ApplyKeepsBooks(m: Machine, op: StateOp, x: TaskId)
    requires WellKept(m)
    ensures WellKept(Apply(m, op)) && Apply(m, op).repo.Some? == m.repo.Some?
    ensures HistoryOf(m, x) <= HistoryOf(Apply(m, op), x)
    ensures StateOf(m, x).Some? && Terminal(StateOf(m, x).value) ==> StateOf(Apply(m, op), x) == StateOf(m, x)
  {
    hide WellKept, HistoryOf, Current;
    match op
    case Ensure(id, state) =>
      if StateOf(m, id) == None {
        InitializedAnswers(m, id, state, x);
      } else {
        CachedAnswersTheSame(m, id);
      }
    case Move(id, target, reason) =>
      MovedWellKept(m, id, target, reason);
      MovedAnswers(m, id, target, reason, x);
    case ReadState(id) => CachedAnswersTheSame(m, id);
    case ReadHistory(id) => CachedAnswersTheSame(m, id);
    case Restart =>
      if m.repo.Some? {
        FreshWellKept(m);
        FreshAnswersTheSame(m, x);
      }
  }

  ghost function AfterCalls(durable: bool, ops: seq<StateOp>): (m: Machine)
    ensures WellKept(m) && m.repo.Some? == durable
  {
    if ops == [] then Machine(map[], map[], if durable then Some(Repo(map[], map[])) else None)
    else
      var before := AfterCalls(durable, ops[..|ops| - 1]);
      ApplyKeepsBooks(before, ops[|ops| - 1], "");
      Apply(before, ops[|ops| - 1])
  }

  lemma AfterOneMore(durable: bool, ops: seq<StateOp>, op: StateOp)
    ensures AfterCalls(durable, ops + [op]) == Apply(AfterCalls(durable, ops), op)
  {
    assert (ops + [op])[..|ops|] == ops;
  }

  /** A task that moved once, then a restart on the same repository. */
  lemma AfterRestart(id: TaskId, reason: string)
    ensures AfterCalls(true, [Ensure(id, Pending), Move(id, Ready, reason), Restart])
      == Machine(map[], map[], Some(Repo(map[id := Ready], map[id := [Transition(id, Pending, Ready, reason)]])))
  {
    hide AfterCalls, Moved, Fresh, WellKept;
    var first, second := Ensure(id, Pending), Move(id, Ready, reason);
    EnsuredOnce(id);
    AfterOneMore(true, [first], second);
    AfterOneMore(true, [first, second], Restart);
    assert [first] + [second] == [first, second] && [first, second] + [Restart] == [first, second, Restart];
    MovedOnce(AfterCalls(true, [first]), id, reason);
  }

  lemma EnsuredOnce(id: TaskId)
    ensures AfterCalls(true, [Ensure(id, Pending)])
      == Machine(map[id := Pending], map[id := []], Some(Repo(map[id := Pending], map[])))
  {
    var empty := Machine(map[], map[], Some(Repo(map[], map[])));
    assert AfterCalls(true, []) == empty && [] + [Ensure(id, Pending)] == [Ensure(id, Pending)];
    hide AfterCalls, WellKept;
    AfterOneMore(true, [], Ensure(id, Pending));
    assert Current(empty) == map[];
  }

  lemma MovedOnce(m: Machine, id: TaskId, reason: string)
    requires m == Machine(map[id := Pending], map[id := []], Some(Repo(map[id := Pending], map[])))
    ensures Moved(m, id, Ready, reason).repo.Some?
    ensures Fresh(Moved(m, id, Ready, reason)) ==
      Machine(map[], map[], Some(Repo(map[id := Ready], map[id := [Transition(id, Pending, Ready, reason)]])))
  {
    assert Current(m) == map[id := Pending] && HistoryOf(m, id) == [];
    var l, t := Loaded(m, id), Transition(id, Pending, Ready, reason);
    assert l.repo == m.repo && id in l.history;
    assert Legal(Pending, Ready) && Moved(m, id, Ready, reason) == Recorded(l, t);
    var repo := Recorded(l, t).repo.value;
    assert repo.states == map[id := Ready];
    assert Stored(m.repo.value.transitions, id) + [t] == [t];
    assert repo.transitions.Keys == {id} && repo.transitions[id] == [t];
  }

  /** `initialize` then succeeds, for the task is not cached: `get_state` answers PENDING and
      `get_history` a history that ends in READY. */
  lemma InitializedAfterRestart(id: TaskId, reason: string)
    ensures var m := AfterCalls(true, [Ensure(id, Pending), Move(id, Ready, reason), Restart]);
      var r := Initialized(m, id, Pending);
      && id !in m.states && StateOf(r, id) == Some(Pending)
      && HistoryOf(r, id) == [Transition(id, Pending, Ready, reason)] && !WellKept(r)
  {
    AfterRestart(id, reason);
    var m := AfterCalls(true, [Ensure(id, Pending), Move(id, Ready, reason), Restart]);
    hide AfterCalls, WellKept;
    assert HistoryOf(m, id) == [Transition(id, Pending, Ready, reason)];
    InitializedWellKeptIff(m, id, Pending);
  }

  lemma BooksMeaning(m: Machine, id: TaskId)
    requires WellKept(m)
    ensures var h := HistoryOf(m, id);
      && (forall i :: 0 <= i < |h| ==> h[i].taskId == id && Legal(h[i].source, h[i].target))
      && (forall i :: 0 < i < |h| ==> h[i - 1].target == h[i].source)
      && (forall i :: 0 <= i < |h| - 1 ==> !Terminal(h[i].target))
      && (h != [] ==> StateOf(m, id) == Some(h[|h| - 1].target))
  {
    var h := HistoryOf(m, id);
    assert IsChain(id, h) && EndsIn(h, StateOf(m, id));
    forall i | 0 <= i < |h| - 1 ensures !Terminal(h[i].target) {
      if Terminal(h[i].target) {
        ChainEndsAtTerminal(id, h, i);
      }
    }
  }

  /** After any sequence of calls and restarts, the history of a task is a chain of legal
      steps up to its current state, only its last step may reach a terminal state, and a
      new machine on the same repository gives the same answers. */
  lemma EveryRunKeepsLegalHistories(durable: bool, ops: seq<StateOp>, id: TaskId)
    ensures var m := AfterCalls(durable, ops);
      var h := HistoryOf(m, id);
      && (forall i :: 0 <= i < |h| ==> h[i].taskId == id && Legal(h[i].source, h[i].target))
      && (forall i :: 0 < i < |h| ==> h[i - 1].target == h[i].source)
      && (forall i :: 0 <= i < |h| - 1 ==> !Terminal(h[i].target))
      && (h != [] ==> StateOf(m, id) == Some(h[|h| - 1].target))
      && (durable ==> StateOf(Fresh(m), id) == StateOf(m, id) && HistoryOf(Fresh(m), id) == h)
  {
    hide *;
    var m := AfterCalls(durable, ops);
    BooksMeaning(m, id);
    if durable {
      FreshAnswersTheSame(m, id);
    }
  }

  // ---------- The machine ----------

  /** What is in the caches once a transition has filled them. */
  lemma LoadedCaches(m: Machine, id: TaskId)
    ensures var l := Loaded(m, id);
      && (id in l.states <==> id in Current(m))
      && (id in l.states ==> id in l.history && l.states[id] == Current(m)[id])
  {
  }

  lemma MoveIsRefused(m: Machine, id: TaskId, target: TaskState, reason: string)
    requires !CanMove(m, id, target)
    ensures Moved(m, id, target, reason) == Loaded(m, id)
    ensures Current(Moved(m, id, target, reason)) == Current(m)
    ensures id in Current(m) ==> !Legal(Current(m)[id], target)
  {
    LoadedCurrent(m, id);
    hide Loaded, Current, Legal;
  }

  lemma MoveIsRecorded(m: Machine, id: TaskId, target: TaskState, reason: string)
    requires CanMove(m, id, target)
    ensures id in Current(m) && Legal(Current(m)[id], target)
    ensures var t := Transition(id, Current(m)[id], target, reason);
      && id in Loaded(m, id).history && Moved(m, id, target, reason) == Recorded(Loaded(m, id), t)
    ensures Current(Moved(m, id, target, reason)) == Current(m)[id := target]
  {
    LoadedCaches(m, id);
    LoadedCurrent(m, id);
    RecordedAnswers(Loaded(m, id), Transition(id, Current(m)[id], target, reason), id);
    hide Loaded, Current, Legal, Recorded, HistoryOf;
  }

  lemma LegalMeans(source: TaskState, target: TaskState)
    ensures Legal(source, target) <==>
      || (target in {BlockedHitl, Completed, Failed} && source !in {Completed, BlockedHitl})
      || target in ValidNext(source)
  {
  }

  lemma InitializedCurrent(m: Machine, id: TaskId, state: TaskState)
    ensures Current(Initialized(m, id, state)) == Current(m)[id := state]
  {
  }

  /** The repository: one row per task state, transitions in order. */
  class StateRepository {
    var taskStates: map<TaskId, TaskState>
    var transitions: map<TaskId, seq<Transition>>

    constructor ()
      ensures taskStates == map[] && transitions == map[]
    {
      taskStates, transitions := map[], map[];
    }

    method SaveTaskState(id: TaskId, state: TaskState)
      modifies `taskStates
      ensures taskStates == old(taskStates)[id := state]
    {
      taskStates := taskStates[id := state];
    }

    method SaveTransition(t: Transition)
      modifies `transitions
      ensures transitions == old(transitions)[t.taskId := Stored(old(transitions), t.taskId) + [t]]
    {
      transitions := transitions[t.taskId := Stored(transitions, t.taskId) + [t]];
    }
  }

  class StateMachine {
    const repository: StateRepository?
    var states: map<TaskId, TaskState>
    var history: map<TaskId, seq<Transition>>

    ghost function View(): Machine
      reads this, repository
    {
      Machine(states, history,
              if repository == null then None else Some(Repo(repository.taskStates, repository.transitions)))
    }

    /** The state of every known task. */
    ghost function Known(): map<TaskId, TaskState>
      reads this, repository
    {
      Current(View())
    }

    /** The objects a call may change. */
    ghost function Footprint(): set<object> {
      if repository == null then {this} else {this, repository}
    }

    constructor (repository: StateRepository?)
      ensures this.repository == repository
      ensures states == map[] && history == map[]
    {
      this.repository := repository;
      states, history := map[], map[];
    }

    method Initialize(id: TaskId, state: TaskState) returns (r: Result<(), StateError>)
      modifies Footprint()
      ensures r == if id in old(states) then Err(AlreadyInitialized) else Ok(())
      ensures View() == if id in old(states) then old(View()) else Initialized(old(View()), id, state)
      ensures Known() == if id in old(states) then old(Known()) else old(Known())[id := state]
    {
      hide Current;
      if id in states {
        return Err(AlreadyInitialized);
      }
      InitializedCurrent(View(), id, state);
      states := states[id := state];
      history := history[id := []];
      if repository != null {
        repository.SaveTaskState(id, state);
      }
      return Ok(());
    }

    method GetState(id: TaskId) returns (state: Option<TaskState>)
      modifies this
      ensures state == StateOf(old(View()), id) == Lookup(old(Known()), id)
      ensures View() == CacheState(old(View()), id) && Known() == old(Known())
      ensures state.None? ==> id !in states
    {
      state := Lookup(states, id);
      if state.Some? || repository == null {
        assert state.Some? ==> states[id := states[id]] == states;
        return;
      }
      state := Lookup(repository.taskStates, id);
      if state.Some? {
        states := states[id := state.value];
      }
    }

    method GetHistory(id: TaskId) returns (h: seq<Transition>)
      modifies this
      ensures h == HistoryOf(old(View()), id)
      ensures View() == CacheHistory(old(View()), id)
    {
      h := Stored(history, id);
      if h != [] {
        assert history[id := history[id]] == history;
        return;
      }
      if repository == null {
        return [];
      }
      h := Stored(repository.transitions, id);
      if h != [] {
        history := history[id := h];
      }
    }

    /** The cache lookups before a transition is checked. */
    method Load(id: TaskId)
      modifies this
      ensures View() == Loaded(old(View()), id)
    {
      if id !in states {
        var _ := GetState(id);
      } else {
        assert states[id := states[id]] == states;
      }
      assert View() == CacheState(old(View()), id);
      if id in states && id !in history {
        var h := GetHistory(id);
        history := history[id := h];
      }
    }

    method Record(t: Transition)
      requires t.taskId in history
      modifies Footprint()
      ensures View() == Recorded(old(View()), t)
    {
      history := history[t.taskId := history[t.taskId] + [t]];
      states := states[t.taskId := t.target];
      if repository != null {
        repository.SaveTaskState(t.taskId, t.target);
        repository.SaveTransition(t);
      }
    }

    /** Refused exactly for an unknown task or an illegal step, and then no answer changes. */
    method TransitionTo(id: TaskId, target: TaskState, reason: string) returns (r: Result<(), StateError>)
      modifies Footprint()
      ensures View() == Moved(old(View()), id, target, reason)
      ensures r.Ok? <==> id in old(Known()) && Legal(old(Known())[id], target)
      ensures r == Err(NotInitialized) <==> id !in old(Known())
      ensures r.Err? && id in old(Known()) ==> r == Err(InvalidTransition(old(Known())[id], target))
      ensures Known() == if r.Ok? then old(Known())[id := target] else old(Known())
    {
      hide Moved, Current, Loaded, Recorded, Legal;
      ghost var before := View();
      LoadedCaches(before, id);
      Load(id);
      if id !in states {
        MoveIsRefused(before, id, target, reason);
        return Err(NotInitialized);
      }
      var current := states[id];
      var emergency := target in {BlockedHitl, Completed, Failed} && current !in {Completed, BlockedHitl};
      LegalMeans(current, target);
      if !emergency && target !in ValidNext(current) {
        MoveIsRefused(before, id, target, reason);
        return Err(InvalidTransition(current, target));
      }
      MoveIsRecorded(before, id, target, reason);
      Record(Transition(id, current, target, reason));
      return Ok(());
    }

    method IsTerminal(id: TaskId) returns (r: bool)
      modifies this
      ensures r <==> id in old(Known()) && forall target :: !Legal(old(Known())[id], target)
      ensures View() == CacheState(old(View()), id)
    {
      var state := GetState(id);
      r := state == Some(Completed) || state == Some(BlockedHitl);
      assert !r && state.Some? ==> Legal(state.value, Failed);
    }
  }
}
