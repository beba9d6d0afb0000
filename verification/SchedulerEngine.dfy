/** Dispatch of pending tasks: agentManager/engine/scheduler.py, on values.
    Times are microseconds. */
module Scheduling {
  import opened Wrappers
  import opened Heapq
  import opened TaskKeys

  type Time = int

  /** What the loop of a pass reads off the clock for one task: where it checks the backoff, where
      it records a conflict, and where it puts the task off. */
  datatype Reading = Reading(checked: Time, recorded: Time, putOff: Time)

  /** The clock during one pass, in which no pending task is popped twice. */
  type Clock = TaskId -> Reading

  const BACKOFF: Time := 5_000_000
  const DEFAULT_MAX_RETRY_ATTEMPTS := 3

  datatype RunStatus = TaskPending | TaskRunning | TaskCompleted | TaskFailed

  datatype ConflictRecord = ConflictRecord(
    attempt: nat, conflicts: seq<TaskId>, permanent: seq<TaskId>, timestamp: Time)

  datatype Task = Task(
    priority: int, status: RunStatus, dependencies: seq<TaskId>, nextRetryAt: Option<Time>,
    retryAttempts: nat, maxRetryAttempts: int, conflictHistory: seq<ConflictRecord>)

  /** The scheduler's fields; of the heap only its contents matter. */
  datatype Sched = Sched(
    cap: int, tasks: map<TaskId, Task>, queue: multiset<Key>, running: set<TaskId>, completed: set<TaskId>)

  datatype SchedError = AlreadyScheduled | TaskNotFound

  function NewTask(priority: int, dependencies: seq<TaskId>, maxRetryAttempts: int): Task {
    Task(priority, TaskPending, dependencies, None, 0, maxRetryAttempts, [])
  }

  function KeyOf(tasks: map<TaskId, Task>, id: TaskId): Key
    requires id in tasks
  {
    Key(-tasks[id].priority, id)
  }

  predicate IsDone(tasks: map<TaskId, Task>, id: TaskId) {
    id in tasks && tasks[id].status == TaskCompleted
  }

  predicate IsLost(tasks: map<TaskId, Task>, id: TaskId) {
    id !in tasks || tasks[id].status == TaskFailed
  }

  /** Dependencies that are missing or not completed, in order. */
  function Unmet(tasks: map<TaskId, Task>, dependencies: seq<TaskId>): (r: seq<TaskId>)
    ensures forall x :: x in r <==> x in dependencies && !IsDone(tasks, x)
  {
    if dependencies == [] then []
    else
      var n := |dependencies| - 1;
      var rest := Unmet(tasks, dependencies[..n]);
      assert dependencies == dependencies[..n] + [dependencies[n]];
      if IsDone(tasks, dependencies[n]) then rest else rest + [dependencies[n]]
  }

  /** Dependencies that are missing or failed, in order. */
  function Lost(tasks: map<TaskId, Task>, dependencies: seq<TaskId>): (r: seq<TaskId>)
    ensures forall x :: x in r <==> x in dependencies && IsLost(tasks, x)
  {
    if dependencies == [] then []
    else
      var n := |dependencies| - 1;
      var rest := Lost(tasks, dependencies[..n]);
      assert dependencies == dependencies[..n] + [dependencies[n]];
      if IsLost(tasks, dependencies[n]) then rest + [dependencies[n]] else rest
  }

  lemma UnmetLastOne(tasks: map<TaskId, Task>, s: seq<TaskId>)
    requires s != []
    ensures var n := |s| - 1; Unmet(tasks, s) == Unmet(tasks, s[..n]) + (if IsDone(tasks, s[n]) then [] else [s[n]])
  {
  }

  /** The conflicts keep the order of the dependencies, repetitions included. */
  lemma {:induction false} UnmetSplits(tasks: map<TaskId, Task>, a: seq<TaskId>, b: seq<TaskId>)
    ensures Unmet(tasks, a + b) == Unmet(tasks, a) + Unmet(tasks, b)
  {
    if b == [] {
      assert a + b == a && Unmet(tasks, b) == [];
    } else {
      hide *;
      var n := |b| - 1;
      UnmetLastOne(tasks, a + b);
      UnmetLastOne(tasks, b);
      UnmetSplits(tasks, a, b[..n]);
      assert (a + b)[..|a + b| - 1] == a + b[..n] && (a + b)[|a + b| - 1] == b[n];
    }
  }

  lemma LostLastOne(tasks: map<TaskId, Task>, s: seq<TaskId>)
    requires s != []
    ensures var n := |s| - 1; Lost(tasks, s) == Lost(tasks, s[..n]) + (if IsLost(tasks, s[n]) then [s[n]] else [])
  {
  }

  /** So do the permanent ones. */
  lemma {:induction false} LostSplits(tasks: map<TaskId, Task>, a: seq<TaskId>, b: seq<TaskId>)
    ensures Lost(tasks, a + b) == Lost(tasks, a) + Lost(tasks, b)
  {
    if b == [] {
      assert a + b == a && Lost(tasks, b) == [];
    } else {
      hide *;
      var n := |b| - 1;
      LostLastOne(tasks, a + b);
      LostLastOne(tasks, b);
      LostSplits(tasks, a, b[..n]);
      assert (a + b)[..|a + b| - 1] == a + b[..n] && (a + b)[|a + b| - 1] == b[n];
    }
  }

  predicate ConflictFree(tasks: map<TaskId, Task>, id: TaskId)
    requires id in tasks
  {
    forall dep :: dep in tasks[id].dependencies ==> IsDone(tasks, dep)
  }

  predicate IsPending(tasks: map<TaskId, Task>, id: TaskId) {
    id in tasks && tasks[id].status == TaskPending
  }

  predicate PastBackoff(t: Task, now: Time) {
    t.nextRetryAt.None? || t.nextRetryAt.value <= now
  }

  // ---------- One pass ----------

  ghost function Least(q: multiset<Key>): (k: Key)
    requires q != multiset{}
    ensures k in q && forall j :: j in q ==> !Before(j, k)
  {
    BeforeIsTotalOrder();
    LeastEntry(q, Before)
  }

  lemma LeastIsUnique(q: multiset<Key>, k: Key)
    requires k in q && forall j :: j in q ==> !Before(j, k)
    ensures k == Least(q)
  {
    BeforeIsTotalOrder();
    assert !Before(k, Least(q)) && !Before(Least(q), k);
  }

  /** A conflicted task once its conflict is recorded: failed for good, or put off. */
  function Conflicted(tasks: map<TaskId, Task>, t: Task, now: Reading): Task {
    var lost := Lost(tasks, t.dependencies);
    var attempt := t.retryAttempts + 1;
    var record := ConflictRecord(attempt, Unmet(tasks, t.dependencies), lost, now.recorded);
    var t' := t.(retryAttempts := attempt, conflictHistory := t.conflictHistory + [record]);
    if lost != [] || attempt > t.maxRetryAttempts
    then t'.(status := TaskFailed, nextRetryAt := None)
    else t'.(nextRetryAt := Some(now.putOff + BACKOFF))
  }

  function Started(t: Task): Task {
    t.(retryAttempts := 0, nextRetryAt := None, status := TaskRunning)
  }

  /** The record of a popped pending task after the loop body. */
  function Visited(tasks: map<TaskId, Task>, id: TaskId, now: Clock): Task
    requires id in tasks
  {
    var t := tasks[id];
    if !PastBackoff(t, now(id).checked) then t
    else if ConflictFree(tasks, id) then Started(t)
    else Conflicted(tasks, t, now(id))
  }

  /** What the loop body does to a popped id. */
  function Visit(s: Sched, id: TaskId, now: Clock): Sched {
    if !IsPending(s.tasks, id) then s
    else
      var t := Visited(s.tasks, id, now);
      s.(tasks := s.tasks[id := t],
         running := if t.status == TaskRunning then s.running + {id} else s.running)
  }

  /** The entry it puts aside, to be queued again after the loop. */
  function Deferral(tasks: map<TaskId, Task>, id: TaskId, now: Clock): multiset<Key> {
    if IsPending(tasks, id) && Visited(tasks, id, now).status == TaskPending
    then multiset{KeyOf(tasks, id)} else multiset{}
  }

  ghost function PassLoop(s: Sched, deferred: multiset<Key>, now: Clock): Sched
    decreases |s.queue|
  {
    if s.queue == multiset{} || |s.running| >= s.cap then s.(queue := s.queue + deferred)
    else
      var k := Least(s.queue);
      var popped := s.(queue := s.queue - multiset{k});
      PassLoop(Visit(popped, k.id, now), deferred + Deferral(s.tasks, k.id, now), now)
  }

  /** `execute_scheduled_tasks` */
  ghost function Pass(s: Sched, now: Clock): Sched {
    PassLoop(s, multiset{}, now)
  }

  // ---------- The invariant of the scheduler ----------

  function Max(a: int, b: int): int {
    if a < b then b else a
  }

  function Min(a: int, b: int): int {
    if a < b then a else b
  }

  ghost predicate RunningMatches(cap: int, tasks: map<TaskId, Task>, running: set<TaskId>) {
    && (forall id :: id in running <==> id in tasks && tasks[id].status == TaskRunning)
    && |running| <= Max(0, cap)
  }

  predicate GoodEntry(tasks: map<TaskId, Task>, k: Key) {
    k.id in tasks && k == KeyOf(tasks, k.id) && tasks[k.id].status != TaskRunning
  }

  /** Each pending task has exactly one entry, no task has two, running tasks have none. */
  ghost predicate QueueMatches(tasks: map<TaskId, Task>, queue: multiset<Key>) {
    && (forall k :: k in queue ==> queue[k] == 1 && GoodEntry(tasks, k))
    && (forall id :: IsPending(tasks, id) ==> KeyOf(tasks, id) in queue)
  }

  ghost predicate AttemptsBounded(tasks: map<TaskId, Task>) {
    forall id :: IsPending(tasks, id) ==> tasks[id].retryAttempts <= Max(0, tasks[id].maxRetryAttempts)
  }

  ghost predicate Consistent(s: Sched) {
    && RunningMatches(s.cap, s.tasks, s.running)
    && QueueMatches(s.tasks, s.queue)
    && AttemptsBounded(s.tasks)
    && (forall id :: IsDone(s.tasks, id) ==> id in s.completed)
  }

  /** The state inside the loop: deferred entries are still the tasks' own. */
  ghost predicate ConsistentWith(s: Sched, deferred: multiset<Key>) {
    Consistent(s.(queue := s.queue + deferred))
  }

  /** The record of a pending task replaced by one of a task that starts, fails or stays pending. */
  function Replaced(s: Sched, id: TaskId, t: Task): Sched
    requires id in s.tasks
  {
    s.(tasks := s.tasks[id := t],
       running := if t.status == TaskRunning then s.running + {id} else s.running,
       queue := if t.status == TaskPending then s.queue else s.queue - multiset{KeyOf(s.tasks, id)})
  }

  lemma ReplacedRunningMatches(s: Sched, id: TaskId, t: Task)
    requires RunningMatches(s.cap, s.tasks, s.running) && IsPending(s.tasks, id)
    requires t.status == TaskRunning ==> |s.running| < s.cap
    ensures RunningMatches(s.cap, s.tasks[id := t], Replaced(s, id, t).running)
  {
    assert id !in s.running;
  }

  lemma ReplacedQueueMatches(tasks: map<TaskId, Task>, queue: multiset<Key>, id: TaskId, t: Task)
    requires QueueMatches(tasks, queue) && IsPending(tasks, id) && t.priority == tasks[id].priority
    ensures t.status == TaskPending ==> QueueMatches(tasks[id := t], queue)
    ensures t.status != TaskPending ==> QueueMatches(tasks[id := t], queue - multiset{KeyOf(tasks, id)})
  {
    var key := KeyOf(tasks, id);
    var rest := queue - multiset{key};
    var tasks' := tasks[id := t];
    forall k | k in queue ensures k != key ==> GoodEntry(tasks[id := t], k) {
      assert GoodEntry(tasks, k);
    }
    forall k | k in rest ensures k != key && rest[k] == 1 && k in queue {
      assert queue[key] == 1 && rest[key] == 0;
    }
    forall x | IsPending(tasks', x)
      ensures KeyOf(tasks', x) in queue
      ensures x != id ==> KeyOf(tasks', x) in rest
    {
      assert IsPending(tasks, x) && KeyOf(tasks', x) == KeyOf(tasks, x);
    }
  }

  lemma ReplacedConsistent(s: Sched, id: TaskId, t: Task)
    requires Consistent(s) && IsPending(s.tasks, id) && t.priority == s.tasks[id].priority
    requires t.status == TaskRunning ==> |s.running| < s.cap
    requires t.status == TaskPending ==> t.retryAttempts <= Max(0, t.maxRetryAttempts)
    requires t.status != TaskCompleted
    ensures Consistent(Replaced(s, id, t))
  {
    hide RunningMatches, QueueMatches;
    var tasks := s.tasks[id := t];
    ReplacedRunningMatches(s, id, t);
    ReplacedQueueMatches(s.tasks, s.queue, id, t);
    forall x | IsPending(tasks, x) ensures tasks[x].retryAttempts <= Max(0, tasks[x].maxRetryAttempts) {
      assert x == id || IsPending(s.tasks, x);
    }
    forall x | IsDone(tasks, x) ensures x in s.completed {
      assert IsDone(s.tasks, x);
    }
  }

  /** A visited task never completes, keeps its priority, and stays pending only within its limit. */
  lemma VisitedTask(tasks: map<TaskId, Task>, id: TaskId, now: Clock)
    requires IsPending(tasks, id) && tasks[id].retryAttempts <= Max(0, tasks[id].maxRetryAttempts)
    ensures var t := Visited(tasks, id, now);
      && t.priority == tasks[id].priority
      && t.status != TaskCompleted
      && (t.status == TaskPending ==> t.retryAttempts <= Max(0, t.maxRetryAttempts))
  {
  }

  lemma DroppingStaleKeepsConsistent(s: Sched, k: Key)
    requires Consistent(s) && k in s.queue && !IsPending(s.tasks, k.id)
    ensures Consistent(s.(queue := s.queue - multiset{k}))
  {
    var q := s.queue - multiset{k};
    assert forall j :: j != k ==> q[j] == s.queue[j];
  }

  lemma VisitKeepsConsistent(s: Sched, deferred: multiset<Key>, now: Clock)
    requires ConsistentWith(s, deferred) && s.queue != multiset{} && |s.running| < s.cap
    ensures var k := Least(s.queue);
      var popped := s.(queue := s.queue - multiset{k});
      ConsistentWith(Visit(popped, k.id, now), deferred + Deferral(s.tasks, k.id, now))
  {
    var k := Least(s.queue);
    assert k in s.queue + deferred && GoodEntry(s.tasks, k);
    hide *;
    if IsPending(s.tasks, k.id) {
      PendingVisitKeepsConsistent(s, deferred, k, now);
    } else {
      StaleVisitKeepsConsistent(s, deferred, k, now);
    }
  }

  lemma PendingVisitKeepsConsistent(s: Sched, deferred: multiset<Key>, k: Key, now: Clock)
    requires ConsistentWith(s, deferred) && k in s.queue && GoodEntry(s.tasks, k) && |s.running| < s.cap
    requires IsPending(s.tasks, k.id)
    ensures var popped := s.(queue := s.queue - multiset{k});
      ConsistentWith(Visit(popped, k.id, now), deferred + Deferral(s.tasks, k.id, now))
  {
    var popped := s.(queue := s.queue - multiset{k});
    var all, t := s.(queue := s.queue + deferred), Visited(s.tasks, k.id, now);
    VisitedTask(s.tasks, k.id, now);
    ReplacedConsistent(all, k.id, t);
    hide Consistent, Visited;
    assert popped.queue + (deferred + Deferral(s.tasks, k.id, now)) == Replaced(all, k.id, t).queue;
  }

  lemma StaleVisitKeepsConsistent(s: Sched, deferred: multiset<Key>, k: Key, now: Clock)
    requires ConsistentWith(s, deferred) && k in s.queue && GoodEntry(s.tasks, k) && !IsPending(s.tasks, k.id)
    ensures var popped := s.(queue := s.queue - multiset{k});
      ConsistentWith(Visit(popped, k.id, now), deferred + Deferral(s.tasks, k.id, now))
  {
    var all := s.(queue := s.queue + deferred);
    DroppingStaleKeepsConsistent(all, k);
    hide Consistent, Visited;
    assert s.queue - multiset{k} + (deferred + Deferral(s.tasks, k.id, now)) == all.queue - multiset{k};
  }

  lemma {:induction false} LoopKeepsConsistent(s: Sched, deferred: multiset<Key>, now: Clock)
    requires ConsistentWith(s, deferred)
    ensures Consistent(PassLoop(s, deferred, now))
    decreases |s.queue|
  {
    if s.queue != multiset{} && |s.running| < s.cap {
      var k := Least(s.queue);
      var popped := s.(queue := s.queue - multiset{k});
      VisitKeepsConsistent(s, deferred, now);
      LoopKeepsConsistent(Visit(popped, k.id, now), deferred + Deferral(s.tasks, k.id, now), now);
    }
  }

  lemma PassKeepsConsistent(s: Sched, now: Clock)
    requires Consistent(s)
    ensures Consistent(Pass(s, now))
  {
    assert s.queue + multiset{} == s.queue;
    LoopKeepsConsistent(s, multiset{}, now);
  }

  // ---------- Runs of the scheduler's operations ----------

  datatype SchedOp =
    | AddTask(id: TaskId, priority: int, dependencies: seq<TaskId>, maxRetryAttempts: int)
    | ExecuteScheduled(now: Clock)
    | MarkCompleted(id: TaskId)
    | MarkFailed(id: TaskId)
    | Requeue(id: TaskId)
    | ClearBackoff(ids: seq<TaskId>)

  function Added(s: Sched, id: TaskId, t: Task): Sched {
    if id in s.tasks then s
    else s.(tasks := s.tasks[id := t], queue := s.queue + multiset{Key(-t.priority, id)})
  }

  function Finished(s: Sched, id: TaskId): Sched {
    if id !in s.tasks then s
    else s.(tasks := s.tasks[id := s.tasks[id].(status := TaskCompleted)],
            running := s.running - {id}, completed := s.completed + {id})
  }

  function Dropped(s: Sched, id: TaskId): Sched {
    if id !in s.tasks then s
    else s.(tasks := s.tasks[id := s.tasks[id].(status := TaskFailed)], running := s.running - {id})
  }

  function WithoutBackoff(t: Task): Task {
    t.(nextRetryAt := None, retryAttempts := 0)
  }

  ghost predicate HasEntry(queue: multiset<Key>, id: TaskId) {
    exists k :: k in queue && k.id == id
  }

  /** `_mark_scheduler_pending` of the coordinator */
  ghost function Requeued(s: Sched, id: TaskId): Sched {
    if id !in s.tasks then s
    else
      var t := WithoutBackoff(s.tasks[id]).(status := TaskPending);
      s.(tasks := s.tasks[id := t], running := s.running - {id},
         queue := if HasEntry(s.queue, id) then s.queue else s.queue + multiset{Key(-t.priority, id)})
  }

  function ClearedTasks(tasks: map<TaskId, Task>, ids: seq<TaskId>): map<TaskId, Task> {
    map id | id in tasks :: if id in ids && IsPending(tasks, id) then WithoutBackoff(tasks[id]) else tasks[id]
  }

  /** `_clear_backoff_for_ready_tasks` of the coordinator */
  function Cleared(s: Sched, ids: seq<TaskId>): Sched {
    s.(tasks := ClearedTasks(s.tasks, ids))
  }

  ghost function Apply(s: Sched, op: SchedOp): Sched {
    match op
    case AddTask(id, priority, dependencies, limit) => Added(s, id, NewTask(priority, dependencies, limit))
    case ExecuteScheduled(now) => Pass(s, now)
    case MarkCompleted(id) => Finished(s, id)
    case MarkFailed(id) => Dropped(s, id)
    case Requeue(id) => Requeued(s, id)
    case ClearBackoff(ids) => Cleared(s, ids)
  }

  /** Statuses and priorities decide whether the queue and the running set match. */
  lemma SameShapeKeepsQueueMatches(tasks: map<TaskId, Task>, tasks': map<TaskId, Task>, queue: multiset<Key>)
    requires QueueMatches(tasks, queue) && tasks'.Keys == tasks.Keys
    requires forall x :: x in tasks ==> tasks'[x].priority == tasks[x].priority
    requires forall x :: x in tasks ==>
      tasks'[x].status == tasks[x].status || tasks'[x].status in {TaskCompleted, TaskFailed}
    ensures QueueMatches(tasks', queue)
  {
    forall k | k in queue ensures GoodEntry(tasks', k) {
      assert GoodEntry(tasks, k);
    }
    forall x | IsPending(tasks', x) ensures KeyOf(tasks', x) in queue {
      assert IsPending(tasks, x) && KeyOf(tasks', x) == KeyOf(tasks, x);
    }
  }

  lemma AddedConsistent(s: Sched, id: TaskId, t: Task)
    requires Consistent(s) && t.status == TaskPending && t.retryAttempts == 0
    ensures Consistent(Added(s, id, t))
  {
    if id !in s.tasks {
      var key := Key(-t.priority, id);
      var tasks, queue := s.tasks[id := t], s.queue + multiset{key};
      assert key !in s.queue by {
        if key in s.queue {
          assert GoodEntry(s.tasks, key);
        }
      }
      forall k | k in queue ensures queue[k] == 1 && GoodEntry(tasks, k) {
        assert k == key || (k in s.queue && GoodEntry(s.tasks, k));
      }
      forall x | IsPending(tasks, x) ensures KeyOf(tasks, x) in queue {
        assert x == id || (IsPending(s.tasks, x) && KeyOf(tasks, x) == KeyOf(s.tasks, x));
      }
      forall x | IsPending(tasks, x) ensures tasks[x].retryAttempts <= Max(0, tasks[x].maxRetryAttempts) {
        assert x == id || IsPending(s.tasks, x);
      }
      forall x | IsDone(tasks, x) ensures x in s.completed {
        assert IsDone(s.tasks, x);
      }
    }
  }

  lemma FinishedRunningMatches(cap: int, tasks: map<TaskId, Task>, running: set<TaskId>, id: TaskId, t: Task)
    requires RunningMatches(cap, tasks, running) && id in tasks && t.status != TaskRunning
    ensures RunningMatches(cap, tasks[id := t], running - {id})
  {
    assert id in running ==> |running - {id}| == |running| - 1;
    assert id !in running ==> running - {id} == running;
  }

  lemma FinishedConsistent(s: Sched, id: TaskId, status: RunStatus)
    requires Consistent(s) && id in s.tasks && status in {TaskCompleted, TaskFailed}
    ensures var tasks := s.tasks[id := s.tasks[id].(status := status)];
      Consistent(s.(tasks := tasks, running := s.running - {id},
                    completed := if status == TaskCompleted then s.completed + {id} else s.completed))
  {
    hide RunningMatches, QueueMatches;
    var t := s.tasks[id].(status := status);
    var tasks := s.tasks[id := t];
    SameShapeKeepsQueueMatches(s.tasks, tasks, s.queue);
    FinishedRunningMatches(s.cap, s.tasks, s.running, id, t);
    forall x | IsPending(tasks, x) ensures tasks[x].retryAttempts <= Max(0, tasks[x].maxRetryAttempts) {
      assert IsPending(s.tasks, x);
    }
    forall x | IsDone(tasks, x) ensures IsDone(s.tasks, x) || (x == id && status == TaskCompleted) {
    }
  }

  lemma RequeuedQueueMatches(tasks: map<TaskId, Task>, queue: multiset<Key>, id: TaskId, t: Task)
    requires QueueMatches(tasks, queue) && id in tasks
    requires t.status == TaskPending && t.priority == tasks[id].priority
    ensures HasEntry(queue, id) ==> QueueMatches(tasks[id := t], queue)
    ensures !HasEntry(queue, id) ==> QueueMatches(tasks[id := t], queue + multiset{KeyOf(tasks, id)})
  {
    var tasks' := tasks[id := t];
    EntriesSurvive(tasks, tasks', queue, id, t);
    if HasEntry(queue, id) {
      var k :| k in queue && k.id == id;
      assert GoodEntry(tasks, k);
    } else {
      var more := queue + multiset{KeyOf(tasks, id)};
      assert KeyOf(tasks, id) !in queue;
      hide QueueMatches, HasEntry;
      forall k | k in more ensures more[k] == 1 && GoodEntry(tasks', k) {
        assert k == KeyOf(tasks, id) || k in queue;
      }
      MakeQueueMatch(tasks', more);
    }
  }

  lemma MakeQueueMatch(tasks: map<TaskId, Task>, queue: multiset<Key>)
    requires forall k :: k in queue ==> queue[k] == 1 && GoodEntry(tasks, k)
    requires forall id :: IsPending(tasks, id) ==> KeyOf(tasks, id) in queue
    ensures QueueMatches(tasks, queue)
  {
  }

  lemma EntriesSurvive(tasks: map<TaskId, Task>, tasks': map<TaskId, Task>, queue: multiset<Key>, id: TaskId, t: Task)
    requires QueueMatches(tasks, queue) && id in tasks && tasks' == tasks[id := t]
    requires t.status == TaskPending && t.priority == tasks[id].priority
    ensures forall k :: k in queue ==> GoodEntry(tasks', k) && queue[k] == 1
    ensures forall x :: IsPending(tasks', x) && x != id ==> KeyOf(tasks', x) in queue
  {
    forall k | k in queue ensures GoodEntry(tasks', k) && queue[k] == 1 {
      assert GoodEntry(tasks, k);
    }
    forall x | IsPending(tasks', x) && x != id ensures KeyOf(tasks', x) in queue {
      assert IsPending(tasks, x) && KeyOf(tasks', x) == KeyOf(tasks, x);
    }
  }

  lemma RequeuedConsistent(s: Sched, id: TaskId)
    requires Consistent(s)
    ensures Consistent(Requeued(s, id))
  {
    if id in s.tasks {
      var r := Requeued(s, id);
      RequeuedQueueMatches(s.tasks, s.queue, id, r.tasks[id]);
      forall x | IsPending(r.tasks, x) ensures r.tasks[x].retryAttempts <= Max(0, r.tasks[x].maxRetryAttempts) {
        assert x == id || IsPending(s.tasks, x);
      }
      forall x | IsDone(r.tasks, x) ensures IsDone(s.tasks, x) {
      }
    }
  }

  lemma ClearedConsistent(s: Sched, ids: seq<TaskId>)
    requires Consistent(s)
    ensures Consistent(Cleared(s, ids))
  {
    hide QueueMatches;
    var tasks := ClearedTasks(s.tasks, ids);
    SameShapeKeepsQueueMatches(s.tasks, tasks, s.queue);
    forall x | IsPending(tasks, x) ensures tasks[x].retryAttempts <= Max(0, tasks[x].maxRetryAttempts) {
      assert IsPending(s.tasks, x);
    }
    forall x | IsDone(tasks, x) ensures IsDone(s.tasks, x) {
    }
  }

  lemma ApplyKeepsConsistent(s: Sched, op: SchedOp)
    requires Consistent(s)
    ensures Consistent(Apply(s, op))
  {
    hide Consistent, Pass, Requeued, Cleared, Added;
    match op
    case AddTask(id, priority, dependencies, limit) =>
      AddedConsistent(s, id, NewTask(priority, dependencies, limit));
    case ExecuteScheduled(now) => PassKeepsConsistent(s, now);
    case MarkCompleted(id) =>
      if id in s.tasks {
        FinishedConsistent(s, id, TaskCompleted);
      }
    case MarkFailed(id) =>
      if id in s.tasks {
        FinishedConsistent(s, id, TaskFailed);
      }
    case Requeue(id) => RequeuedConsistent(s, id);
    case ClearBackoff(ids) => ClearedConsistent(s, ids);
  }

  function EmptySched(cap: int): Sched {
    Sched(cap, map[], multiset{}, {}, {})
  }

  /** The scheduler after any sequence of calls. */
  ghost function AfterCalls(cap: int, ops: seq<SchedOp>): (s: Sched)
    ensures Consistent(s)
  {
    if ops == [] then EmptySched(cap)
    else
      var before := AfterCalls(cap, ops[..|ops| - 1]);
      ApplyKeepsConsistent(before, ops[|ops| - 1]);
      Apply(before, ops[|ops| - 1])
  }

  /** What holds of every task after any sequence of calls. */
  lemma EveryRunIsConsistent(cap: int, ops: seq<SchedOp>, id: TaskId)
    ensures var s := AfterCalls(cap, ops);
      && |s.running| <= Max(0, s.cap)
      && (id in s.running <==> id in s.tasks && s.tasks[id].status == TaskRunning)
      && (IsPending(s.tasks, id) ==> HasEntry(s.queue, id))
      && (id in s.running ==> !HasEntry(s.queue, id))
      && (forall k, k' :: k in s.queue && k' in s.queue && k.id == k'.id == id ==> k == k' && s.queue[k] == 1)
      && (forall k :: k in s.queue && k.id == id ==> id in s.tasks && k.rank == -s.tasks[id].priority)
      && (IsPending(s.tasks, id) ==> s.tasks[id].retryAttempts <= Max(0, s.tasks[id].maxRetryAttempts))
  {
    var s := AfterCalls(cap, ops);
    assert forall k :: k in s.queue ==> GoodEntry(s.tasks, k);
    if IsPending(s.tasks, id) {
      assert KeyOf(s.tasks, id) in s.queue;
    }
  }

  // ---------- The engine ----------

  lemma NoConflictsMeansFree(tasks: map<TaskId, Task>, id: TaskId)
    requires id in tasks
    ensures Unmet(tasks, tasks[id].dependencies) == [] <==> ConflictFree(tasks, id)
  {
    var unmet := Unmet(tasks, tasks[id].dependencies);
    if unmet != [] {
      assert unmet[0] in unmet;
    }
  }

  lemma EmptyQueue(q: seq<Key>)
    ensures q == [] <==> multiset(q) == multiset{}
  {
    if q != [] {
      assert q[0] in multiset(q);
    }
  }

  lemma LoopTurnOfPass(s: Sched, deferred: multiset<Key>, now: Clock)
    requires s.queue != multiset{} && |s.running| < s.cap
    ensures var k := Least(s.queue);
      PassLoop(s, deferred, now)
      == PassLoop(Visit(s.(queue := s.queue - multiset{k}), k.id, now), deferred + Deferral(s.tasks, k.id, now), now)
  {
  }

  class SchedulerEngine {
    const cap: int
    var tasks: map<TaskId, Task>
    var executionQueue: seq<Key>
    var runningTasks: set<TaskId>
    var completedTasks: set<TaskId>

    ghost function View(): Sched
      reads this
    {
      Sched(cap, tasks, multiset(executionQueue), runningTasks, completedTasks)
    }

    ghost predicate Valid()
      reads this
    {
      IsHeap(executionQueue, Before)
    }

    constructor (cap: int)
      ensures Valid() && View() == EmptySched(cap)
    {
      this.cap := cap;
      tasks, executionQueue, runningTasks, completedTasks := map[], [], {}, {};
    }

    method Push(key: Key)
      requires Valid()
      modifies `executionQueue
      ensures Valid() && multiset(executionQueue) == multiset(old(executionQueue)) + multiset{key}
    {
      BeforeIsTotalOrder();
      executionQueue := HeapPush(executionQueue, Before, key);
    }

    method PopLeast() returns (key: Key)
      requires Valid() && executionQueue != []
      modifies `executionQueue
      ensures Valid() && key == Least(multiset(old(executionQueue)))
      ensures multiset(executionQueue) == multiset(old(executionQueue)) - multiset{key}
      ensures |executionQueue| < |old(executionQueue)|
    {
      BeforeIsTotalOrder();
      ghost var before := executionQueue;
      key, executionQueue := HeapPop(executionQueue, Before);
      LeastIsUnique(multiset(before), key);
      assert |multiset(executionQueue)| == |multiset(before)| - 1;
    }

    method AddTask(id: TaskId, priority: int, dependencies: seq<TaskId>, maxRetryAttempts: int)
      returns (r: Result<(), SchedError>)
      requires Valid()
      modifies this
      ensures Valid() && View() == Apply(old(View()), SchedOp.AddTask(id, priority, dependencies, maxRetryAttempts))
      ensures r == if id in old(tasks) then Err(AlreadyScheduled) else Ok(())
      ensures r.Err? ==> View() == old(View())
      ensures r.Ok? ==>
        && tasks == old(tasks)[id := Task(priority, TaskPending, dependencies, None, 0, maxRetryAttempts, [])]
        && runningTasks == old(runningTasks) && completedTasks == old(completedTasks)
        && multiset(executionQueue) == multiset(old(executionQueue)) + multiset{Key(-priority, id)}
    {
      if id in tasks {
        return Err(AlreadyScheduled);
      }
      tasks := tasks[id := NewTask(priority, dependencies, maxRetryAttempts)];
      Push(Key(-priority, id));
      return Ok(());
    }

    /** Empty exactly when the task is unknown or all its dependencies are completed. */
    method DetectConflicts(id: TaskId) returns (conflicts: seq<TaskId>)
      ensures conflicts == if id in tasks then Unmet(tasks, tasks[id].dependencies) else []
    {
      conflicts := [];
      if id !in tasks {
        return;
      }
      var dependencies := tasks[id].dependencies;
      for i := 0 to |dependencies|
        invariant conflicts == Unmet(tasks, dependencies[..i])
      {
        assert dependencies[..i + 1][..i] == dependencies[..i];
        if dependencies[i] !in tasks {
          conflicts := conflicts + [dependencies[i]];
        } else if tasks[dependencies[i]].status != TaskCompleted {
          conflicts := conflicts + [dependencies[i]];
        }
      }
      assert dependencies[..|dependencies|] == dependencies;
    }

    method DetectPermanentConflict(id: TaskId) returns (permanent: seq<TaskId>)
      ensures permanent == if id in tasks then Lost(tasks, tasks[id].dependencies) else []
    {
      permanent := [];
      if id !in tasks {
        return;
      }
      var dependencies := tasks[id].dependencies;
      for i := 0 to |dependencies|
        invariant permanent == Lost(tasks, dependencies[..i])
      {
        assert dependencies[..i + 1][..i] == dependencies[..i];
        if dependencies[i] !in tasks || tasks[dependencies[i]].status == TaskFailed {
          permanent := permanent + [dependencies[i]];
        }
      }
      assert dependencies[..|dependencies|] == dependencies;
    }

    /** The branch of the loop body for a task with conflicts. */
    method CountConflict(id: TaskId, conflicts: seq<TaskId>, now: Clock) returns (deferred: bool)
      requires id in tasks && conflicts == Unmet(tasks, tasks[id].dependencies)
      requires tasks[id].status == TaskPending
      modifies `tasks
      ensures tasks == old(tasks)[id := Conflicted(old(tasks), old(tasks[id]), now(id))]
      ensures deferred == (tasks[id].status == TaskPending)
      ensures !deferred <==>
        || old(tasks[id]).retryAttempts >= old(tasks[id]).maxRetryAttempts
        || exists dep :: dep in old(tasks[id]).dependencies && IsLost(old(tasks), dep)
    {
      var permanent := DetectPermanentConflict(id);
      assert permanent != [] ==> permanent[0] in permanent;
      var t := tasks[id];
      var record := ConflictRecord(t.retryAttempts + 1, conflicts, permanent, now(id).recorded);
      t := t.(retryAttempts := t.retryAttempts + 1, conflictHistory := t.conflictHistory + [record]);
      if permanent != [] {
        tasks := tasks[id := t.(status := TaskFailed, nextRetryAt := None)];
        return false;
      }
      if t.retryAttempts > t.maxRetryAttempts {
        tasks := tasks[id := t.(status := TaskFailed, nextRetryAt := None)];
        return false;
      }
      tasks := tasks[id := t.(nextRetryAt := Some(now(id).putOff + BACKOFF))];
      return true;
    }

    /** The loop body for a pending task; tells whether it stays pending. */
    method ConsiderPending(id: TaskId, now: Clock) returns (deferred: bool)
      requires IsPending(tasks, id)
      modifies `tasks, `runningTasks
      ensures tasks == old(tasks)[id := Visited(old(tasks), id, now)]
      ensures runningTasks == old(runningTasks) + (if tasks[id].status == TaskRunning then {id} else {})
      ensures deferred == (tasks[id].status == TaskPending)
    {
      if tasks[id].nextRetryAt.Some? && now(id).checked < tasks[id].nextRetryAt.value {
        return true;
      }
      var conflicts := DetectConflicts(id);
      NoConflictsMeansFree(tasks, id);
      if conflicts == [] {
        tasks := tasks[id := tasks[id].(retryAttempts := 0, nextRetryAt := None, status := TaskRunning)];
        runningTasks := runningTasks + {id};
        return false;
      }
      deferred := CountConflict(id, conflicts, now);
    }

    /** The loop body after the pop. */
    method Consider(id: TaskId, now: Clock) returns (deferred: seq<Key>)
      modifies `tasks, `runningTasks
      ensures View() == Visit(old(View()), id, now)
      ensures multiset(deferred) == Deferral(old(tasks), id, now)
    {
      deferred := [];
      if id in tasks && tasks[id].status == TaskPending {
        var again := ConsiderPending(id, now);
        if again {
          deferred := [Key(-tasks[id].priority, id)];
        }
      }
    }

    /** The loop that queues the deferred entries again. */
    method RequeueDeferred(deferred: seq<Key>)
      requires Valid()
      modifies `executionQueue
      ensures Valid() && multiset(executionQueue) == multiset(old(executionQueue)) + multiset(deferred)
    {
      for i := 0 to |deferred|
        invariant Valid()
        invariant multiset(executionQueue) == multiset(old(executionQueue)) + multiset(deferred[..i])
      {
        Push(deferred[i]);
        assert deferred[..i + 1] == deferred[..i] + [deferred[i]];
      }
      assert deferred[..|deferred|] == deferred;
    }

    method ExecuteScheduledTasks(now: Clock)
      requires Valid()
      modifies this
      ensures Valid() && View() == Pass(old(View()), now)
    {
      var deferred: seq<Key> := [];
      while executionQueue != [] && |runningTasks| < cap
        invariant Valid()
        invariant PassLoop(View(), multiset(deferred), now) == Pass(old(View()), now)
        decreases |executionQueue|
      {
        EmptyQueue(executionQueue);
        LoopTurnOfPass(View(), multiset(deferred), now);
        var key := PopLeast();
        var more := Consider(key.id, now);
        deferred := deferred + more;
      }
      EmptyQueue(executionQueue);
      RequeueDeferred(deferred);
    }

    method MarkCompleted(id: TaskId) returns (r: Result<(), SchedError>)
      requires Valid()
      modifies this
      ensures Valid() && View() == Apply(old(View()), SchedOp.MarkCompleted(id))
      ensures id in old(tasks) ==> tasks == old(tasks)[id := old(tasks)[id].(status := TaskCompleted)]
      ensures r.Ok? ==> runningTasks == old(runningTasks) - {id} && completedTasks == old(completedTasks) + {id}
      ensures executionQueue == old(executionQueue) && (r.Err? ==> View() == old(View()))
      ensures r == if id in old(tasks) then Ok(()) else Err(TaskNotFound)
    {
      if id !in tasks {
        return Err(TaskNotFound);
      }
      tasks := tasks[id := tasks[id].(status := TaskCompleted)];
      runningTasks := runningTasks - {id};
      completedTasks := completedTasks + {id};
      return Ok(());
    }

    method MarkFailed(id: TaskId) returns (r: Result<(), SchedError>)
      requires Valid()
      modifies this
      ensures Valid() && View() == Apply(old(View()), SchedOp.MarkFailed(id))
      ensures id in old(tasks) ==> tasks == old(tasks)[id := old(tasks)[id].(status := TaskFailed)]
      ensures r.Ok? ==> runningTasks == old(runningTasks) - {id} && completedTasks == old(completedTasks)
      ensures executionQueue == old(executionQueue) && (r.Err? ==> View() == old(View()))
      ensures r == if id in old(tasks) then Ok(()) else Err(TaskNotFound)
    {
      if id !in tasks {
        return Err(TaskNotFound);
      }
      tasks := tasks[id := tasks[id].(status := TaskFailed)];
      runningTasks := runningTasks - {id};
      return Ok(());
    }
  }
}
