/** What passes of the scheduler achieve: one pass starts the first eligible tasks in
    heap order, and repeated passes leave nothing deferred for ever. */
module SchedulerPasses {
  import opened Wrappers
  import opened TaskKeys
  import opened Scheduling

  // ---------- One pass sorts and takes ----------

  /** Pending, past its backoff and free of conflicts: may start. */
  predicate Eligible(tasks: map<TaskId, Task>, id: TaskId, now: Clock) {
    IsPending(tasks, id) && PastBackoff(tasks[id], now(id).checked) && ConflictFree(tasks, id)
  }

  function EligibleTasks(s: Sched, now: Clock): (r: set<TaskId>)
    ensures r <= s.tasks.Keys
  {
    set id | id in s.tasks && Eligible(s.tasks, id, now)
  }

  /** The eligible tasks that still wait in the queue. */
  function Candidates(s: Sched, now: Clock): (r: set<TaskId>)
    ensures r <= s.tasks.Keys
  {
    set id | id in s.tasks && Eligible(s.tasks, id, now) && KeyOf(s.tasks, id) in s.queue
  }

  /** The first `room` of a set of tasks in heap order: sort and take. */
  ghost function FirstOf(tasks: map<TaskId, Task>, ids: set<TaskId>, room: int): (r: set<TaskId>)
    requires ids <= tasks.Keys
    ensures r <= ids
    decreases ids
  {
    if room <= 0 || ids == {} then {}
    else
      var first := LeastOf(tasks, ids);
      {first} + FirstOf(tasks, ids - {first}, room - 1)
  }

  ghost function LeastOf(tasks: map<TaskId, Task>, ids: set<TaskId>): (first: TaskId)
    requires ids <= tasks.Keys && ids != {}
    ensures first in ids
    ensures forall b :: b in ids && b != first ==> Before(KeyOf(tasks, first), KeyOf(tasks, b))
  {
    BeforeIsTotalOrder();
    var keys: set<Key> := set id | id in ids :: KeyOf(tasks, id);
    var some :| some in ids;
    assert KeyOf(tasks, some) in multiset(keys);
    var first := Least(multiset(keys)).id;
    assert forall b :: b in ids ==> KeyOf(tasks, b) in multiset(keys);
    first
  }

  lemma LeastOfIsUnique(tasks: map<TaskId, Task>, ids: set<TaskId>, first: TaskId)
    requires ids <= tasks.Keys && first in ids
    requires forall b :: b in ids && b != first ==> Before(KeyOf(tasks, first), KeyOf(tasks, b))
    ensures first == LeastOf(tasks, ids)
  {
    BeforeIsTotalOrder();
  }

  /** Higher priority first, then the smaller id. */
  predicate ComesBefore(tasks: map<TaskId, Task>, a: TaskId, b: TaskId)
    requires a in tasks && b in tasks
  {
    tasks[a].priority > tasks[b].priority || (tasks[a].priority == tasks[b].priority && LexLess(a, b))
  }

  /** The order of the heap in raw terms. */
  lemma BeforeMeans(tasks: map<TaskId, Task>, a: TaskId, b: TaskId)
    requires a in tasks && b in tasks
    ensures Before(KeyOf(tasks, a), KeyOf(tasks, b)) <==> ComesBefore(tasks, a, b)
    ensures !(ComesBefore(tasks, a, b) && ComesBefore(tasks, b, a))
  {
    BeforeIsTotalOrder();
    hide LexLess;
    assert Before(KeyOf(tasks, b), KeyOf(tasks, a)) <==> ComesBefore(tasks, b, a);
  }

  lemma FirstOfNone(tasks: map<TaskId, Task>, ids: set<TaskId>, room: int)
    requires ids <= tasks.Keys && (room <= 0 || ids == {})
    ensures FirstOf(tasks, ids, room) == {}
  {
  }

  lemma FirstOfSome(tasks: map<TaskId, Task>, ids: set<TaskId>, room: int, id: TaskId)
    requires ids <= tasks.Keys && room > 0 && id in ids
    requires forall b :: b in ids && b != id ==> Before(KeyOf(tasks, id), KeyOf(tasks, b))
    ensures FirstOf(tasks, ids, room) == {id} + FirstOf(tasks, ids - {id}, room - 1)
  {
    LeastOfIsUnique(tasks, ids, id);
  }

  ghost predicate SameKeys(tasks: map<TaskId, Task>, tasks': map<TaskId, Task>) {
    tasks'.Keys == tasks.Keys && forall x :: x in tasks ==> KeyOf(tasks', x) == KeyOf(tasks, x)
  }

  lemma {:induction false} FirstOfSameKeys(tasks: map<TaskId, Task>, tasks': map<TaskId, Task>, ids: set<TaskId>,
                                           room: int)
    requires SameKeys(tasks, tasks') && ids <= tasks.Keys
    ensures FirstOf(tasks', ids, room) == FirstOf(tasks, ids, room)
    decreases ids
  {
    hide FirstOf, LeastOf, Before, KeyOf;
    if room <= 0 || ids == {} {
      FirstOfNone(tasks, ids, room);
      FirstOfNone(tasks', ids, room);
    } else {
      var first := LeastOf(tasks, ids);
      FirstOfSome(tasks, ids, room, first);
      FirstOfSome(tasks', ids, room, first);
      FirstOfSameKeys(tasks, tasks', ids - {first}, room - 1);
    }
  }

  /** What sort and take means: as many as fit, each before every one left out. */
  lemma {:induction false} FirstOfIsFirst(tasks: map<TaskId, Task>, ids: set<TaskId>, room: int, a: TaskId, b: TaskId)
    requires ids <= tasks.Keys
    ensures |FirstOf(tasks, ids, room)| == Min(Max(0, room), |ids|)
    ensures a in FirstOf(tasks, ids, room) && b in ids && b !in FirstOf(tasks, ids, room) ==>
      Before(KeyOf(tasks, a), KeyOf(tasks, b))
    decreases ids
  {
    hide FirstOf, LeastOf, Before, KeyOf;
    if room <= 0 || ids == {} {
      FirstOfNone(tasks, ids, room);
    } else {
      var first := LeastOf(tasks, ids);
      FirstOfSome(tasks, ids, room, first);
      FirstOfIsFirst(tasks, ids - {first}, room - 1, a, b);
      assert |ids - {first}| == |ids| - 1;
    }
  }

  lemma VisitLeavesOthers(s: Sched, id: TaskId, now: Clock, other: TaskId)
    requires other in s.tasks && other != id
    ensures var s' := Visit(s, id, now);
      && other in s'.tasks && s'.tasks[other] == s.tasks[other]
      && (Eligible(s'.tasks, other, now) <==> Eligible(s.tasks, other, now))
  {
    var s' := Visit(s, id, now);
    assert forall x :: IsDone(s'.tasks, x) <==> IsDone(s.tasks, x);
    assert ConflictFree(s'.tasks, other) <==> ConflictFree(s.tasks, other);
  }

  /** The state after popping and visiting `k`. */
  function Popped(s: Sched, k: Key, now: Clock): Sched {
    Visit(s.(queue := s.queue - multiset{k}), k.id, now)
  }

  /** `k` is the only entry of a task that is not running. */
  ghost predicate Waiting(s: Sched, k: Key) {
    && k in s.queue && k !in s.queue - multiset{k}
    && GoodEntry(s.tasks, k) && k.id !in s.running
    && forall b :: b in s.tasks && b != k.id && KeyOf(s.tasks, b) in s.queue ==> Before(k, KeyOf(s.tasks, b))
  }

  lemma LeastIsWaiting(s: Sched, deferred: multiset<Key>)
    requires ConsistentWith(s, deferred) && s.queue != multiset{}
    ensures Waiting(s, Least(s.queue))
  {
    var k := Least(s.queue);
    assert k in s.queue + deferred && (s.queue + deferred)[k] == 1;
    forall b | b in s.tasks && b != k.id && KeyOf(s.tasks, b) in s.queue ensures Before(k, KeyOf(s.tasks, b)) {
      BeforeIsTotalOrder();
      assert !Before(KeyOf(s.tasks, b), k);
    }
  }

  lemma OthersAfterPop(s: Sched, k: Key, now: Clock, x: TaskId)
    requires Waiting(s, k) && x in s.tasks && x != k.id
    ensures x in Candidates(Popped(s, k, now), now) <==> x in Candidates(s, now)
    ensures KeyOf(Popped(s, k, now).tasks, x) == KeyOf(s.tasks, x)
  {
    VisitLeavesOthers(s.(queue := s.queue - multiset{k}), k.id, now, x);
    assert KeyOf(s.tasks, x) != k;
  }

  lemma PopKeepsKeys(s: Sched, k: Key, now: Clock)
    requires Waiting(s, k)
    ensures SameKeys(s.tasks, Popped(s, k, now).tasks)
  {
    forall x | x in s.tasks ensures KeyOf(Popped(s, k, now).tasks, x) == KeyOf(s.tasks, x) {
      if x != k.id {
        OthersAfterPop(s, k, now, x);
      }
    }
  }

  lemma CandidatesAfterPop(s: Sched, k: Key, now: Clock)
    requires Waiting(s, k)
    ensures var s' := Popped(s, k, now);
      && Candidates(s', now) == Candidates(s, now) - {k.id}
      && s'.running == (if k.id in Candidates(s, now) then s.running + {k.id} else s.running)
  {
    var s' := Popped(s, k, now);
    PopKeepsKeys(s, k, now);
    forall x ensures x in Candidates(s', now) <==> x in Candidates(s, now) - {k.id} {
      if x in s.tasks && x != k.id {
        OthersAfterPop(s, k, now, x);
      } else if x == k.id {
        assert KeyOf(s'.tasks, x) == k && k !in s'.queue;
      }
    }
  }

  /** One turn of the loop: the entry it pops, and the state and deferrals after it. */
  lemma LoopTurn(s: Sched, deferred: multiset<Key>, now: Clock)
    returns (k: Key, s': Sched, deferred': multiset<Key>)
    requires ConsistentWith(s, deferred) && s.queue != multiset{} && |s.running| < s.cap
    ensures Waiting(s, k)
    ensures s' == Popped(s, k, now) && deferred' == deferred + Deferral(s.tasks, k.id, now)
    ensures ConsistentWith(s', deferred') && |s'.queue| < |s.queue|
    ensures PassLoop(s, deferred, now) == PassLoop(s', deferred', now)
  {
    k := Least(s.queue);
    s' := Popped(s, k, now);
    deferred' := deferred + Deferral(s.tasks, k.id, now);
    LeastIsWaiting(s, deferred);
    VisitKeepsConsistent(s, deferred, now);
  }

  lemma TurnTakes(s: Sched, deferred: multiset<Key>, now: Clock)
    returns (id: TaskId, s': Sched, deferred': multiset<Key>)
    requires ConsistentWith(s, deferred) && s.queue != multiset{} && |s.running| < s.cap
    ensures ConsistentWith(s', deferred') && |s'.queue| < |s.queue|
    ensures PassLoop(s, deferred, now) == PassLoop(s', deferred', now)
    ensures SameKeys(s.tasks, s'.tasks) && id in s.tasks && id !in s.running && s'.cap == s.cap
    ensures Candidates(s', now) == Candidates(s, now) - {id}
    ensures s'.running == (if id in Candidates(s, now) then s.running + {id} else s.running)
    ensures s'.cap - |s'.running| == s.cap - |s.running| - (if id in Candidates(s, now) then 1 else 0)
    ensures forall b :: b in Candidates(s, now) && b != id ==> Before(KeyOf(s.tasks, id), KeyOf(s.tasks, b))
  {
    hide *;
    var k;
    k, s', deferred' := LoopTurn(s, deferred, now);
    id := k.id;
    PopKeepsKeys(s, k, now);
    PopKeepsRest(s, k, now);
    CandidatesAfterPop(s, k, now);
    WaitingIsFirst(s, k, now);
  }

  lemma WaitingIsFirst(s: Sched, k: Key, now: Clock)
    requires Waiting(s, k)
    ensures k.id in s.tasks && k.id !in s.running
    ensures forall b :: b in Candidates(s, now) && b != k.id ==> Before(KeyOf(s.tasks, k.id), KeyOf(s.tasks, b))
  {
    hide Before, Eligible;
  }

  lemma LoopEnd(s: Sched, deferred: multiset<Key>, now: Clock)
    requires s.queue == multiset{} || |s.running| >= s.cap
    ensures PassLoop(s, deferred, now).running == s.running
    ensures s.queue == multiset{} ==> Candidates(s, now) == {}
  {
  }

  /** Popping the least waiting task: it is the first taken, or no candidate at all. */
  lemma FirstOfPopped(tasks: map<TaskId, Task>, candidates: set<TaskId>, room: int, id: TaskId,
                      running: set<TaskId>, running': set<TaskId>, rest: set<TaskId>)
    requires candidates <= tasks.Keys && id in tasks && room > 0
    requires forall b :: b in candidates && b != id ==> Before(KeyOf(tasks, id), KeyOf(tasks, b))
    requires running' == if id in candidates then running + {id} else running
    requires rest == FirstOf(tasks, candidates - {id}, if id in candidates then room - 1 else room)
    ensures running' + rest == running + FirstOf(tasks, candidates, room)
  {
    hide FirstOf, Before, KeyOf;
    if id in candidates {
      FirstOfSome(tasks, candidates, room, id);
      assert (running + {id}) + rest == running + ({id} + rest);
    } else {
      assert candidates - {id} == candidates;
    }
  }

  lemma {:induction false} LoopTakesFirst(s: Sched, deferred: multiset<Key>, now: Clock)
    requires ConsistentWith(s, deferred)
    ensures PassLoop(s, deferred, now).running
      == s.running + FirstOf(s.tasks, Candidates(s, now), s.cap - |s.running|)
    decreases |s.queue|
  {
    hide *;
    var candidates, room := Candidates(s, now), s.cap - |s.running|;
    if s.queue == multiset{} || |s.running| >= s.cap {
      LoopEnd(s, deferred, now);
      FirstOfNone(s.tasks, candidates, room);
    } else {
      var id, s', deferred' := TurnTakes(s, deferred, now);
      LoopTakesFirst(s', deferred', now);
      var room' := if id in candidates then room - 1 else room;
      FirstOfSameKeys(s.tasks, s'.tasks, candidates - {id}, room');
      FirstOfPopped(s.tasks, candidates, room, id, s.running, s'.running, FirstOf(s.tasks, candidates - {id}, room'));
    }
  }

  lemma EligibleAreQueued(s: Sched, now: Clock)
    requires Consistent(s)
    ensures Candidates(s, now) == EligibleTasks(s, now)
    ensures EligibleTasks(s, now) !! s.running
  {
  }

  lemma PassTakesFirst(s: Sched, now: Clock)
    requires Consistent(s)
    ensures Pass(s, now).running == s.running + FirstOf(s.tasks, EligibleTasks(s, now), s.cap - |s.running|)
  {
    assert s.queue + multiset{} == s.queue;
    LoopTakesFirst(s, multiset{}, now);
    EligibleAreQueued(s, now);
  }

  /** One pass refines "sort and take": of the tasks that are pending, past their backoff
      and conflict-free at entry, exactly the first ones by `(-priority, task_id)` start,
      as many as there is room for. */
  lemma PassSortsAndTakes(s: Sched, now: Clock)
    requires Consistent(s)
    ensures var eligible := EligibleTasks(s, now);
      var room := s.cap - |s.running|;
      var started := Pass(s, now).running - s.running;
      && s.running <= Pass(s, now).running
      && started == FirstOf(s.tasks, eligible, room)
      && |started| == Min(Max(0, room), |eligible|)
      && forall a, b :: a in started && b in eligible && b !in started ==> ComesBefore(s.tasks, a, b)
  {
    hide *;
    PassTakesFirst(s, now);
    EligibleAreQueued(s, now);
    var eligible, room := EligibleTasks(s, now), s.cap - |s.running|;
    var started := Pass(s, now).running - s.running;
    assert started == FirstOf(s.tasks, eligible, room);
    FirstOfIsFirst(s.tasks, eligible, room, "", "");
    forall a, b | a in started && b in eligible && b !in started
      ensures ComesBefore(s.tasks, a, b)
    {
      FirstOfIsFirst(s.tasks, eligible, room, a, b);
      BeforeMeans(s.tasks, a, b);
    }
  }

  // ---------- What a pass may do to one task ----------

  /** A conflict was counted against `t`. */
  ghost predicate CountedConflict(t: Task, t': Task, now: Reading) {
    && t'.retryAttempts == t.retryAttempts + 1
    && t'.priority == t.priority && t'.dependencies == t.dependencies && t'.maxRetryAttempts == t.maxRetryAttempts
    && (t'.status == TaskFailed
        || (&& t'.status == TaskPending && t'.nextRetryAt == Some(now.putOff + BACKOFF)
            && t'.retryAttempts <= t.maxRetryAttempts))
  }

  /** Unchanged, started if eligible, or put off or failed if pending and in conflict;
      it fails only for a lost dependency or too many conflicts. */
  ghost predicate PassStep(tasks: map<TaskId, Task>, tasks': map<TaskId, Task>, id: TaskId, now: Clock)
    requires id in tasks && id in tasks'
  {
    var t, t' := tasks[id], tasks'[id];
    || t' == t
    || (Eligible(tasks, id, now) && t' == Started(t))
    || (&& IsPending(tasks, id) && PastBackoff(t, now(id).checked) && !ConflictFree(tasks, id)
        && CountedConflict(t, t', now(id))
        && (t'.status == TaskFailed ==>
              t'.retryAttempts > t.maxRetryAttempts || HasLostDependency(tasks', t.dependencies)))
  }

  ghost predicate HasLostDependency(tasks: map<TaskId, Task>, dependencies: seq<TaskId>) {
    exists dep :: dep in dependencies && IsLost(tasks, dep)
  }

  lemma VisitIsStep(s: Sched, k: Key, now: Clock)
    requires Waiting(s, k)
    ensures PassStep(s.tasks, Popped(s, k, now).tasks, k.id, now)
    ensures IsPending(s.tasks, k.id) && PastBackoff(s.tasks[k.id], now(k.id).checked) ==>
      var t := Popped(s, k, now).tasks[k.id];
      t.status != TaskPending || t.retryAttempts == s.tasks[k.id].retryAttempts + 1
  {
    if IsPending(s.tasks, k.id) && PastBackoff(s.tasks[k.id], now(k.id).checked) && !ConflictFree(s.tasks, k.id) {
      var t := s.tasks[k.id];
      var tasks' := Popped(s, k, now).tasks;
      var lost := Lost(s.tasks, t.dependencies);
      if lost != [] {
        assert lost[0] in lost && lost[0] in t.dependencies;
        assert IsLost(tasks', lost[0]);
      }
    }
  }

  lemma VisitKeepsDone(s: Sched, id: TaskId, now: Clock, x: TaskId)
    ensures IsDone(Visit(s, id, now).tasks, x) <==> IsDone(s.tasks, x)
  {
  }

  /** The steps of the other turns, after a first turn that visited `k`. */
  lemma StepsComposeForOthers(s: Sched, k: Key, now: Clock, tasks': map<TaskId, Task>, x: TaskId)
    requires Waiting(s, k) && x in s.tasks && x in tasks' && x != k.id
    requires PassStep(Popped(s, k, now).tasks, tasks', x, now)
    ensures PassStep(s.tasks, tasks', x, now)
  {
    var popped := s.(queue := s.queue - multiset{k});
    VisitLeavesOthers(popped, k.id, now, x);
    forall y ensures IsDone(Popped(s, k, now).tasks, y) <==> IsDone(s.tasks, y) {
      VisitKeepsDone(popped, k.id, now, y);
    }
    assert ConflictFree(Popped(s, k, now).tasks, x) <==> ConflictFree(s.tasks, x);
  }

  lemma StepsComposeForVisited(s: Sched, k: Key, now: Clock, tasks': map<TaskId, Task>)
    requires Waiting(s, k) && tasks'.Keys == s.tasks.Keys
    requires var s1 := Popped(s, k, now);
      && (forall y :: y in s.tasks ==> PassStep(s1.tasks, tasks', y, now))
      && tasks'[k.id] == s1.tasks[k.id]
    ensures PassStep(s.tasks, tasks', k.id, now)
  {
    var s1 := Popped(s, k, now);
    VisitIsStep(s, k, now);
    if HasLostDependency(s1.tasks, s.tasks[k.id].dependencies) {
      var dep :| dep in s.tasks[k.id].dependencies && IsLost(s1.tasks, dep);
      assert dep in s.tasks ==> PassStep(s1.tasks, tasks', dep, now);
      assert IsLost(tasks', dep);
    }
  }

  lemma {:induction false} LoopSteps(s: Sched, deferred: multiset<Key>, now: Clock)
    requires ConsistentWith(s, deferred)
    ensures var r := PassLoop(s, deferred, now);
      && r.cap == s.cap && r.completed == s.completed && r.tasks.Keys == s.tasks.Keys
      && (forall x :: x in s.tasks ==> PassStep(s.tasks, r.tasks, x, now))
      && (forall x :: x in s.tasks && KeyOf(s.tasks, x) !in s.queue ==> r.tasks[x] == s.tasks[x])
    decreases |s.queue|
  {
    hide *;
    if s.queue == multiset{} || |s.running| >= s.cap {
      LoopEndSteps(s, deferred, now);
    } else {
      var k, s', deferred' := LoopTurn(s, deferred, now);
      var r := PassLoop(s', deferred', now);
      LoopSteps(s', deferred', now);
      PopKeepsRest(s, k, now);
      TurnThenSteps(s, k, now, r.tasks);
    }
  }

  lemma LoopEndSteps(s: Sched, deferred: multiset<Key>, now: Clock)
    requires s.queue == multiset{} || |s.running| >= s.cap
    ensures var r := PassLoop(s, deferred, now);
      && r.cap == s.cap && r.completed == s.completed && r.tasks == s.tasks
      && (forall x :: x in s.tasks ==> PassStep(s.tasks, r.tasks, x, now))
  {
  }

  lemma PopKeepsRest(s: Sched, k: Key, now: Clock)
    ensures Popped(s, k, now).cap == s.cap && Popped(s, k, now).completed == s.completed
    ensures Popped(s, k, now).tasks.Keys == s.tasks.Keys
  {
  }

  lemma TurnThenSteps(s: Sched, k: Key, now: Clock, tasks': map<TaskId, Task>)
    requires Waiting(s, k) && tasks'.Keys == s.tasks.Keys
    requires var s1 := Popped(s, k, now);
      && (forall x :: x in s.tasks ==> PassStep(s1.tasks, tasks', x, now))
      && (forall x :: x in s.tasks && KeyOf(s1.tasks, x) !in s1.queue ==> tasks'[x] == s1.tasks[x])
    ensures forall x :: x in s.tasks ==> PassStep(s.tasks, tasks', x, now)
    ensures forall x :: x in s.tasks && KeyOf(s.tasks, x) !in s.queue ==> tasks'[x] == s.tasks[x]
  {
    PopKeepsKeys(s, k, now);
    assert KeyOf(Popped(s, k, now).tasks, k.id) == k;
    forall x | x in s.tasks ensures PassStep(s.tasks, tasks', x, now) {
      if x == k.id {
        StepsComposeForVisited(s, k, now, tasks');
      } else {
        StepsComposeForOthers(s, k, now, tasks', x);
      }
    }
    forall x | x in s.tasks && KeyOf(s.tasks, x) !in s.queue ensures tasks'[x] == s.tasks[x] {
      VisitLeavesOthers(s.(queue := s.queue - multiset{k}), k.id, now, x);
    }
  }

  lemma PassSteps(s: Sched, now: Clock)
    requires Consistent(s)
    ensures var r := Pass(s, now);
      && r.cap == s.cap && r.completed == s.completed && r.tasks.Keys == s.tasks.Keys
      && forall x :: x in s.tasks ==> PassStep(s.tasks, r.tasks, x, now)
  {
    assert s.queue + multiset{} == s.queue;
    LoopSteps(s, multiset{}, now);
  }

  // ---------- A pass in closed form ----------

  /** The eligible tasks that come before `x`. */
  function Ahead(s: Sched, now: Clock, x: TaskId): set<TaskId>
    requires x in s.tasks
  {
    set y | y in s.tasks && Eligible(s.tasks, y, now) && ComesBefore(s.tasks, y, x)
  }

  /** Those of them that still wait in the queue. */
  function AheadInQueue(s: Sched, now: Clock, x: TaskId): set<TaskId>
    requires x in s.tasks
  {
    set y | y in Candidates(s, now) && ComesBefore(s.tasks, y, x)
  }

  /** The pass gets as far as `x`: the eligible tasks before it leave room. */
  predicate Reached(s: Sched, now: Clock, x: TaskId)
    requires x in s.tasks
  {
    |Ahead(s, now, x)| < s.cap - |s.running|
  }

  /** `dep` was lost to `x` in the pass from `tasks` to `after`: missing or failed before it, or
      failed by it before its turn. */
  predicate LostTo(tasks: map<TaskId, Task>, after: map<TaskId, Task>, x: TaskId, dep: TaskId)
    requires x in tasks
  {
    IsLost(tasks, dep) || (dep in after && after[dep].status == TaskFailed && ComesBefore(tasks, dep, x))
  }

  function AllLostTo(tasks: map<TaskId, Task>, after: map<TaskId, Task>, x: TaskId, dependencies: seq<TaskId>)
    : seq<TaskId>
    requires x in tasks
  {
    if dependencies == [] then []
    else
      var n := |dependencies| - 1;
      AllLostTo(tasks, after, x, dependencies[..n])
      + if LostTo(tasks, after, x, dependencies[n]) then [dependencies[n]] else []
  }

  /** What a pass leaves of a task whose turn comes. */
  ghost predicate TurnLeaves(tasks: map<TaskId, Task>, after: map<TaskId, Task>, x: TaskId, now: Clock)
    requires x in tasks && x in after
  {
    var t, t' := tasks[x], after[x];
    if !PastBackoff(t, now(x).checked) then t' == t
    else if ConflictFree(tasks, x) then t' == t.(status := TaskRunning, retryAttempts := 0, nextRetryAt := None)
    else
      var lost, attempt := AllLostTo(tasks, after, x, t.dependencies), t.retryAttempts + 1;
      var fails := lost != [] || attempt > t.maxRetryAttempts;
      var record := ConflictRecord(attempt, Unmet(tasks, t.dependencies), lost, now(x).recorded);
      t' == t.(status := if fails then TaskFailed else TaskPending,
               nextRetryAt := if fails then None else Some(now(x).putOff + BACKOFF),
               retryAttempts := attempt, conflictHistory := t.conflictHistory + [record])
  }

  lemma {:induction false} SameLost(tasks: map<TaskId, Task>, after: map<TaskId, Task>, x: TaskId,
                                    tasks': map<TaskId, Task>, dependencies: seq<TaskId>)
    requires x in tasks && x in tasks'
    requires forall dep :: dep in dependencies ==> (LostTo(tasks, after, x, dep) <==> LostTo(tasks', after, x, dep))
    ensures AllLostTo(tasks, after, x, dependencies) == AllLostTo(tasks', after, x, dependencies)
  {
    hide LostTo;
    if dependencies != [] {
      var n := |dependencies| - 1;
      assert dependencies == dependencies[..n] + [dependencies[n]];
      SameLost(tasks, after, x, tasks', dependencies[..n]);
    }
  }

  lemma {:induction false} LostAtOnce(tasks: map<TaskId, Task>, after: map<TaskId, Task>, x: TaskId,
                                      dependencies: seq<TaskId>)
    requires x in tasks
    requires forall dep :: dep in dependencies ==> (LostTo(tasks, after, x, dep) <==> IsLost(tasks, dep))
    ensures AllLostTo(tasks, after, x, dependencies) == Lost(tasks, dependencies)
  {
    hide LostTo, IsLost;
    if dependencies != [] {
      var n := |dependencies| - 1;
      assert dependencies == dependencies[..n] + [dependencies[n]];
      LostAtOnce(tasks, after, x, dependencies[..n]);
    }
  }

  lemma {:induction false} SameUnmet(tasks: map<TaskId, Task>, tasks': map<TaskId, Task>, dependencies: seq<TaskId>)
    requires forall y :: IsDone(tasks', y) <==> IsDone(tasks, y)
    ensures Unmet(tasks', dependencies) == Unmet(tasks, dependencies)
  {
    hide IsDone;
    if dependencies != [] {
      SameUnmet(tasks, tasks', dependencies[..|dependencies| - 1]);
    }
  }

  /** The turn of the least entry: nothing fails before it. */
  lemma FirstTurnLeaves(s: Sched, k: Key, now: Clock, after: map<TaskId, Task>)
    requires Waiting(s, k) && IsPending(s.tasks, k.id) && after.Keys == s.tasks.Keys
    requires after[k.id] == Popped(s, k, now).tasks[k.id]
    requires forall y :: y in s.tasks && y != k.id && KeyOf(s.tasks, y) !in s.queue ==> after[y] == s.tasks[y]
    ensures TurnLeaves(s.tasks, after, k.id, now)
  {
    var t := s.tasks[k.id];
    forall dep | dep in t.dependencies && dep in s.tasks
      ensures LostTo(s.tasks, after, k.id, dep) <==> IsLost(s.tasks, dep)
    {
      BeforeMeans(s.tasks, dep, k.id);
      BeforeMeans(s.tasks, k.id, dep);
    }
    hide LostTo, Before, LexLess, ComesBefore, KeyOf;
    LostAtOnce(s.tasks, after, k.id, t.dependencies);
  }

  /** A later turn sees what an earlier one has failed. */
  lemma LaterTurnLeaves(s: Sched, k: Key, now: Clock, after: map<TaskId, Task>, x: TaskId)
    requires Waiting(s, k) && x in s.tasks && x != k.id && KeyOf(s.tasks, x) in s.queue && after.Keys == s.tasks.Keys
    requires var s' := Popped(s, k, now);
      && x in s'.tasks && k.id in s'.tasks && after[k.id] == s'.tasks[k.id] && TurnLeaves(s'.tasks, after, x, now)
    ensures TurnLeaves(s.tasks, after, x, now)
  {
    var s' := Popped(s, k, now);
    var popped := s.(queue := s.queue - multiset{k});
    VisitLeavesOthers(popped, k.id, now, x);
    forall y ensures IsDone(s'.tasks, y) <==> IsDone(s.tasks, y) {
      VisitKeepsDone(popped, k.id, now, y);
    }
    forall dep | dep in s.tasks[x].dependencies
      ensures LostTo(s'.tasks, after, x, dep) <==> LostTo(s.tasks, after, x, dep)
    {
      SameLoss(s, k, now, after, x, dep);
    }
    assert ConflictFree(s'.tasks, x) <==> ConflictFree(s.tasks, x);
    hide LostTo, Popped, Waiting, IsDone, KeyOf;
    SameLost(s'.tasks, after, x, s.tasks, s.tasks[x].dependencies);
    SameUnmet(s.tasks, s'.tasks, s.tasks[x].dependencies);
  }

  lemma SameLoss(s: Sched, k: Key, now: Clock, after: map<TaskId, Task>, x: TaskId, dep: TaskId)
    requires Waiting(s, k) && x in s.tasks && x != k.id && KeyOf(s.tasks, x) in s.queue && after.Keys == s.tasks.Keys
    requires var s' := Popped(s, k, now); x in s'.tasks && k.id in s'.tasks && after[k.id] == s'.tasks[k.id]
    ensures x in Popped(s, k, now).tasks
    ensures LostTo(Popped(s, k, now).tasks, after, x, dep) <==> LostTo(s.tasks, after, x, dep)
  {
    PopKeepsKeys(s, k, now);
    BeforeMeans(s.tasks, k.id, x);
    if dep in s.tasks && dep != k.id {
      VisitLeavesOthers(s.(queue := s.queue - multiset{k}), k.id, now, dep);
    }
    VisitLeavesOthers(s.(queue := s.queue - multiset{k}), k.id, now, x);
    hide Before, LexLess, ConflictFree, Conflicted;
  }

  /** Popping an entry takes as much from the tasks ahead as from the room. */
  lemma AheadAfterPop(s: Sched, k: Key, now: Clock, x: TaskId)
    requires Waiting(s, k) && x in s.tasks && x != k.id && KeyOf(s.tasks, x) in s.queue
    ensures var s' := Popped(s, k, now);
      && x in s'.tasks && s'.cap == s.cap
      && (|AheadInQueue(s', now, x)| < s'.cap - |s'.running| <==> |AheadInQueue(s, now, x)| < s.cap - |s.running|)
  {
    var s' := Popped(s, k, now);
    PopKeepsKeys(s, k, now);
    PopKeepsRest(s, k, now);
    CandidatesAfterPop(s, k, now);
    BeforeMeans(s.tasks, k.id, x);
    assert Before(KeyOf(s.tasks, k.id), KeyOf(s.tasks, x)) && k.id !in s.running;
    hide Popped, Candidates, Before, LexLess, Waiting;
    assert AheadInQueue(s', now, x) == AheadInQueue(s, now, x) - {k.id};
    if k.id in Candidates(s, now) {
      assert |AheadInQueue(s', now, x)| == |AheadInQueue(s, now, x)| - 1;
    } else {
      assert AheadInQueue(s', now, x) == AheadInQueue(s, now, x);
    }
  }

  lemma {:induction false} LoopIs(s: Sched, deferred: multiset<Key>, now: Clock, x: TaskId)
    requires ConsistentWith(s, deferred) && x in s.tasks
    ensures var r := PassLoop(s, deferred, now).tasks;
      && x in r
      && (if IsPending(s.tasks, x) && KeyOf(s.tasks, x) in s.queue && |AheadInQueue(s, now, x)| < s.cap - |s.running|
          then TurnLeaves(s.tasks, r, x, now) else r[x] == s.tasks[x])
    decreases |s.queue|
  {
    LoopSteps(s, deferred, now);
    if s.queue != multiset{} && |s.running| < s.cap && IsPending(s.tasks, x) && KeyOf(s.tasks, x) in s.queue {
      hide *;
      var k, s', deferred' := LoopTurn(s, deferred, now);
      var r := PassLoop(s', deferred', now);
      LoopSteps(s', deferred', now);
      PopKeepsRest(s, k, now);
      PopKeepsKeys(s, k, now);
      OwnEntryGone(s, k, now);
      TurnThenSteps(s, k, now, r.tasks);
      if x == k.id {
        NoneAhead(s, k, now);
        FirstTurnLeaves(s, k, now, r.tasks);
      } else {
        AheadAfterPop(s, k, now, x);
        StillQueued(s, k, now, x);
        LoopIs(s', deferred', now, x);
        if |AheadInQueue(s, now, x)| < s.cap - |s.running| {
          LaterTurnLeaves(s, k, now, r.tasks, x);
        }
      }
    }
  }

  lemma OwnEntryGone(s: Sched, k: Key, now: Clock)
    requires Waiting(s, k)
    ensures var s' := Popped(s, k, now); k.id in s'.tasks && k.id in s.tasks && KeyOf(s'.tasks, k.id) !in s'.queue
  {
    PopKeepsKeys(s, k, now);
  }

  lemma NoneAhead(s: Sched, k: Key, now: Clock)
    requires Waiting(s, k)
    ensures k.id in s.tasks && AheadInQueue(s, now, k.id) == {}
  {
    forall y | y in Candidates(s, now) ensures !ComesBefore(s.tasks, y, k.id) {
      BeforeMeans(s.tasks, y, k.id);
      BeforeMeans(s.tasks, k.id, y);
    }
  }

  lemma StillQueued(s: Sched, k: Key, now: Clock, x: TaskId)
    requires Waiting(s, k) && x in s.tasks && x != k.id && KeyOf(s.tasks, x) in s.queue
    ensures var s' := Popped(s, k, now);
      && x in s'.tasks && s'.tasks[x] == s.tasks[x] && KeyOf(s'.tasks, x) in s'.queue
  {
    VisitLeavesOthers(s.(queue := s.queue - multiset{k}), k.id, now, x);
  }

  /** A pass in closed form: a pending task that it reaches is left alone during its backoff,
      started if it has no conflict, and else has the conflict recorded, and is failed exactly
      where its attempts are used up or a dependency is missing, has failed, or has been failed
      by this pass before its turn; every other task is left as it was. */
  lemma PassIs(s: Sched, now: Clock, x: TaskId)
    requires Consistent(s) && x in s.tasks
    ensures var r := Pass(s, now).tasks;
      && x in r
      && (if IsPending(s.tasks, x) && Reached(s, now, x) then TurnLeaves(s.tasks, r, x, now) else r[x] == s.tasks[x])
  {
    assert s.queue + multiset{} == s.queue;
    assert IsPending(s.tasks, x) ==> KeyOf(s.tasks, x) in s.queue;
    EligibleAreQueued(s, now);
    assert AheadInQueue(s, now, x) == Ahead(s, now, x);
    hide *;
    LoopIs(s, multiset{}, now, x);
    PassIsLoop(s, now);
    ReachedMeans(s, now, x);
  }

  lemma PassIsLoop(s: Sched, now: Clock)
    ensures Pass(s, now) == PassLoop(s, multiset{}, now)
  {
  }

  lemma ReachedMeans(s: Sched, now: Clock, x: TaskId)
    requires x in s.tasks
    ensures Reached(s, now, x) <==> |Ahead(s, now, x)| < s.cap - |s.running|
  {
  }

  // ---------- Nothing is deferred for ever ----------

  lemma {:induction false} SubsetIsSmaller<T>(a: set<T>, b: set<T>)
    requires a <= b
    ensures |a| <= |b|
  {
    if a != {} {
      var x :| x in a;
      SubsetIsSmaller(a - {x}, b - {x});
    }
  }

  /** With room for every task a pass reaches every pending one. */
  lemma RoomForAll(s: Sched, now: Clock, x: TaskId)
    requires Consistent(s) && |s.tasks| <= s.cap && IsPending(s.tasks, x)
    ensures Reached(s, now, x)
  {
    var ahead := Ahead(s, now, x);
    BeforeMeans(s.tasks, x, x);
    assert ahead !! s.running && ahead + s.running <= s.tasks.Keys - {x};
    SubsetIsSmaller(ahead + s.running, s.tasks.Keys - {x});
    assert |s.tasks.Keys - {x}| == |s.tasks| - 1;
  }

  ghost predicate AllPastBackoff(s: Sched, now: Clock) {
    forall x :: IsPending(s.tasks, x) ==> PastBackoff(s.tasks[x], now(x).checked)
  }

  /** A task still pending after such a pass has used one more of its attempts. */
  lemma PassUsesAnAttempt(s: Sched, now: Clock, x: TaskId)
    requires Consistent(s) && |s.tasks| <= s.cap && AllPastBackoff(s, now)
    requires IsPending(Pass(s, now).tasks, x)
    ensures IsPending(s.tasks, x)
    ensures Pass(s, now).tasks[x].retryAttempts == s.tasks[x].retryAttempts + 1
    ensures Pass(s, now).tasks[x].maxRetryAttempts == s.tasks[x].maxRetryAttempts
  {
    PassSteps(s, now);
    assert PassStep(s.tasks, Pass(s, now).tasks, x, now);
    hide Pass, Consistent, Reached;
    RoomForAll(s, now, x);
    PassIs(s, now, x);
  }

  /** A task in conflict, past its backoff and reached by the pass, fails exactly if its attempts
      are used up or a dependency is lost to it: missing or failed at entry, or failed by the same
      pass before its turn.  Else it is put off for one backoff; either way it has used one more
      attempt. */
  lemma BlockedTaskFailsIff(s: Sched, now: Clock, x: TaskId)
    requires Consistent(s) && IsPending(s.tasks, x) && Reached(s, now, x)
    requires PastBackoff(s.tasks[x], now(x).checked) && !ConflictFree(s.tasks, x)
    ensures var t, r := s.tasks[x], Pass(s, now).tasks;
      && x in r && r[x].retryAttempts == t.retryAttempts + 1
      && (r[x].status == TaskFailed <==>
            || t.retryAttempts >= t.maxRetryAttempts
            || exists dep :: dep in t.dependencies && LostTo(s.tasks, r, x, dep))
      && (r[x].status == TaskFailed ==> r[x].nextRetryAt == None)
      && (r[x].status != TaskFailed ==> r[x].status == TaskPending && r[x].nextRetryAt == Some(now(x).putOff + BACKOFF))
  {
    PassIs(s, now, x);
    AllLostAre(s.tasks, Pass(s, now).tasks, x, s.tasks[x].dependencies);
    hide Pass, Consistent, Reached, AllLostTo, LostTo, ConflictFree;
    var lost := AllLostTo(s.tasks, Pass(s, now).tasks, x, s.tasks[x].dependencies);
    assert lost != [] ==> lost[0] in lost;
  }

  lemma {:induction false} AllLostAre(tasks: map<TaskId, Task>, after: map<TaskId, Task>, x: TaskId,
                                      dependencies: seq<TaskId>)
    requires x in tasks
    ensures forall dep :: dep in AllLostTo(tasks, after, x, dependencies) <==>
      dep in dependencies && LostTo(tasks, after, x, dep)
  {
    hide LostTo;
    if dependencies != [] {
      var n := |dependencies| - 1;
      assert dependencies == dependencies[..n] + [dependencies[n]];
      AllLostAre(tasks, after, x, dependencies[..n]);
    }
  }

  /** The scheduler after one pass by each of the given clocks. */
  ghost function AfterPasses(s: Sched, clocks: seq<Clock>): Sched
    decreases |clocks|
  {
    if clocks == [] then s else AfterPasses(Pass(s, clocks[0]), clocks[1..])
  }

  /** Each pass finds every backoff expired. */
  ghost predicate BackoffsExpire(s: Sched, clocks: seq<Clock>)
    decreases |clocks|
  {
    clocks == [] || (AllPastBackoff(s, clocks[0]) && BackoffsExpire(Pass(s, clocks[0]), clocks[1..]))
  }

  lemma {:induction false} PassesUseAttempts(s: Sched, clocks: seq<Clock>, x: TaskId)
    requires Consistent(s) && |s.tasks| <= s.cap && BackoffsExpire(s, clocks)
    requires IsPending(AfterPasses(s, clocks).tasks, x)
    ensures IsPending(s.tasks, x)
    ensures s.tasks[x].retryAttempts + |clocks| <= Max(0, s.tasks[x].maxRetryAttempts)
    decreases |clocks|
  {
    if clocks != [] {
      var s' := Pass(s, clocks[0]);
      PassKeepsConsistent(s, clocks[0]);
      PassSteps(s, clocks[0]);
      PassesUseAttempts(s', clocks[1..], x);
      PassUsesAnAttempt(s, clocks[0], x);
    }
  }

  /** No endless deferral: with room for all tasks and nothing completed in between, one
      pass more than the largest retry limit leaves no task pending. */
  lemma NoEndlessDeferral(s: Sched, clocks: seq<Clock>, limit: nat, x: TaskId)
    requires Consistent(s) && |s.tasks| <= s.cap && BackoffsExpire(s, clocks)
    requires forall id :: id in s.tasks ==> s.tasks[id].maxRetryAttempts <= limit
    requires |clocks| > limit
    ensures !IsPending(AfterPasses(s, clocks).tasks, x)
  {
    if IsPending(AfterPasses(s, clocks).tasks, x) {
      PassesUseAttempts(s, clocks, x);
    }
  }

  /** Every task is put off, if it is, at least one backoff before the later clock is read for it. */
  ghost predicate MuchLater(now: Clock, later: Clock) {
    forall x :: now(x).checked <= later(x).checked && now(x).putOff + BACKOFF <= later(x).checked
  }

  lemma OneBackoffLater(s: Sched, now: Clock, later: Clock)
    requires Consistent(s) && AllPastBackoff(s, now) && MuchLater(now, later)
    ensures AllPastBackoff(Pass(s, now), later)
  {
    PassSteps(s, now);
    forall x | IsPending(Pass(s, now).tasks, x) ensures PastBackoff(Pass(s, now).tasks[x], later(x).checked) {
      assert PassStep(s.tasks, Pass(s, now).tasks, x, now);
    }
  }

  /** Clocks one backoff apart find every backoff expired. */
  lemma {:induction false} SpacedClocksExpireBackoffs(s: Sched, clocks: seq<Clock>)
    requires Consistent(s)
    requires clocks != [] ==> AllPastBackoff(s, clocks[0])
    requires forall i :: 0 < i < |clocks| ==> MuchLater(clocks[i - 1], clocks[i])
    ensures BackoffsExpire(s, clocks)
    decreases |clocks|
  {
    if |clocks| > 1 {
      var now := clocks[0];
      PassKeepsConsistent(s, now);
      OneBackoffLater(s, now, clocks[1]);
      hide Consistent;
      SpacedClocksExpireBackoffs(Pass(s, now), clocks[1..]);
    }
  }

  // ---------- Passes without failures ----------

  /** It has not failed, and while it is pending all its dependencies are in `tasks`, and a first
      conflict is allowed. */
  ghost predicate HealthyTask(s: Sched, tasks: set<TaskId>, now: Clock, x: TaskId)
    requires x in s.tasks
  {
    && s.tasks[x].status != TaskFailed
    && (IsPending(s.tasks, x) ==> forall dep :: dep in s.tasks[x].dependencies ==> dep in tasks)
    && (IsPending(s.tasks, x) && PastBackoff(s.tasks[x], now(x).checked) && KeyOf(s.tasks, x) in s.queue ==>
          s.tasks[x].retryAttempts < s.tasks[x].maxRetryAttempts)
  }

  ghost predicate Healthy(s: Sched, tasks: set<TaskId>, now: Clock) {
    forall x :: x in tasks ==> x in s.tasks && HealthyTask(s, tasks, now, x)
  }

  /** The popped task has lost no dependency, so it starts or is put off. */
  lemma PoppedStaysHealthy(s: Sched, tasks: set<TaskId>, k: Key, now: Clock)
    requires Waiting(s, k) && Healthy(s, tasks, now) && k.id in tasks
    ensures var s' := Popped(s, k, now); k.id in s'.tasks && HealthyTask(s', tasks, now, k.id)
  {
    var s' := Popped(s, k, now);
    PopKeepsKeys(s, k, now);
    assert HealthyTask(s, tasks, now, k.id);
    var lost := Lost(s.tasks, s.tasks[k.id].dependencies);
    if IsPending(s.tasks, k.id) && lost != [] {
      assert lost[0] in lost && lost[0] in tasks;
      assert HealthyTask(s, tasks, now, lost[0]);
    }
    assert KeyOf(s'.tasks, k.id) !in s'.queue;
  }

  lemma PopKeepsHealthy(s: Sched, tasks: set<TaskId>, k: Key, now: Clock)
    requires Waiting(s, k) && Healthy(s, tasks, now)
    ensures Healthy(Popped(s, k, now), tasks, now)
  {
    var s' := Popped(s, k, now);
    assert s'.queue <= s.queue;
    forall x | x in tasks ensures x in s'.tasks && HealthyTask(s', tasks, now, x) {
      if x == k.id {
        PoppedStaysHealthy(s, tasks, k, now);
      } else {
        VisitLeavesOthers(s.(queue := s.queue - multiset{k}), k.id, now, x);
        assert HealthyTask(s, tasks, now, x);
        hide Visit, Waiting;
      }
    }
  }

  lemma {:induction false} LoopKeepsHealthy(s: Sched, deferred: multiset<Key>, tasks: set<TaskId>, now: Clock,
                                            x: TaskId)
    requires ConsistentWith(s, deferred) && Healthy(s, tasks, now) && x in tasks
    ensures var r := PassLoop(s, deferred, now); x in r.tasks && r.tasks[x].status != TaskFailed
    decreases |s.queue|
  {
    if s.queue != multiset{} && |s.running| < s.cap {
      var k, s', deferred' := LoopTurn(s, deferred, now);
      PopKeepsHealthy(s, tasks, k, now);
      LoopKeepsHealthy(s', deferred', tasks, now, x);
    } else {
      assert HealthyTask(s, tasks, now, x);
    }
  }

  /** A pass fails no task among healthy ones, whatever the others are. */
  lemma HealthyPassFailsNone(s: Sched, tasks: set<TaskId>, now: Clock, x: TaskId)
    requires Consistent(s) && Healthy(s, tasks, now) && x in tasks
    ensures x in Pass(s, now).tasks && Pass(s, now).tasks[x].status != TaskFailed
  {
    assert s.queue + multiset{} == s.queue;
    LoopKeepsHealthy(s, multiset{}, tasks, now, x);
  }
}
