/** Scheduling by priority under resource limits: agentManager/scheduler/task_scheduler.py. */
module ResourceScheduling {
  import opened Wrappers
  import opened Sequences
  import opened TaskKeys
  import opened Sorting
  import opened StableQueues
  import opened ResourceAllocation

  // ---------- Specification ----------

  datatype JobStatus = JobScheduled | JobRunning | JobCompleted | JobFailed

  datatype Job = Job(priority: int, resources: Resources, status: JobStatus)

  /** `order`: insertion order of the task dictionary; `line`: the queue, in order;
      `totals`: None without an allocator. */
  datatype Jobs = Jobs(
    order: seq<TaskId>, tasks: map<TaskId, Job>, line: seq<Entry>, counter: nat,
    totals: Option<Resources>, allocations: Allocations)

  /** What running a task gives: its result, or the text of the exception. */
  type Outcome = Result<string, string>

  datatype Report = Report(id: TaskId, outcome: Outcome)

  /** What the executor answers in one call, in which no task runs twice. */
  type Executor = TaskId -> Outcome

  datatype Executed = Executed(jobs: Jobs, reports: seq<Report>)

  predicate IsScheduled(tasks: map<TaskId, Job>, id: TaskId) {
    id in tasks && tasks[id].status == JobScheduled
  }

  ghost predicate Admits(s: Jobs, id: TaskId)
    requires id in s.tasks
  {
    s.totals.Some? ==> id !in s.allocations && HasRoom(s.allocations, s.totals.value, s.tasks[id].resources)
  }

  /** While an admitted task runs, the sums of all allocations are within the totals. */
  lemma AdmittedStaysWithin(s: Jobs, id: TaskId)
    requires s.totals.Some? && id in s.tasks && Admits(s, id)
    ensures Within(s.allocations[id := s.tasks[id].resources], s.totals.value)
  {
    AddedTotal(s.allocations, id, s.tasks[id].resources);
  }

  function Ran(s: Jobs, id: TaskId, succeeded: bool): Jobs
    requires id in s.tasks
  {
    s.(tasks := s.tasks[id := s.tasks[id].(status := if succeeded then JobCompleted else JobFailed)])
  }

  /** A task joins the queue, or joins it again. */
  function Queued(s: Jobs, id: TaskId, priority: int): Jobs {
    s.(line := Pushed(s.line, Entry(-priority, s.counter, id)), counter := s.counter + 1)
  }

  /** `schedule` */
  function Scheduled(s: Jobs, id: TaskId, priority: int, resources: Resources): Jobs {
    if id in s.tasks then s
    else
      Queued(s.(order := s.order + [id], tasks := s.tasks[id := Job(priority, resources, JobScheduled)]),
             id, priority)
  }

  predicate Reached(limit: Option<int>, done: nat) {
    limit.Some? && done >= limit.value
  }

  /** The loop of `execute_scheduled`. */
  ghost function ExecuteFrom(s: Jobs, limit: Option<int>, executor: Executor, done: seq<Report>): Executed
    decreases |s.line|
  {
    if s.line == [] || Reached(limit, |done|) then Executed(s, done)
    else
      var id, rest := s.line[0].item, s.(line := s.line[1..]);
      if !IsScheduled(s.tasks, id) then ExecuteFrom(rest, limit, executor, done)
      else if !Admits(s, id) then Executed(Queued(rest, id, s.tasks[id].priority), done)
      else ExecuteFrom(Ran(rest, id, executor(id).Ok?), limit, executor, done + [Report(id, executor(id))])
  }

  /** `execute_scheduled` */
  ghost function Execute(s: Jobs, limit: Option<int>, executor: Executor): Executed {
    ExecuteFrom(s, limit, executor, [])
  }

  // ---------- What every sequence of calls keeps ----------

  predicate Fits(tasks: map<TaskId, Job>, counter: nat, e: Entry) {
    IsScheduled(tasks, e.item) && e.rank == -tasks[e.item].priority && e.counter < counter
  }

  predicate Waits(line: seq<Entry>, id: TaskId) {
    exists i :: 0 <= i < |line| && line[i].item == id
  }

  ghost predicate OnePerTask(line: seq<Entry>) {
    forall i, j :: 0 <= i < j < |line| ==> line[i].item != line[j].item
  }

  /** By falling priority, then by counter. */
  ghost predicate ByRankThenCounter(line: seq<Entry>) {
    forall i, j :: 0 <= i < j < |line| ==>
      line[i].rank < line[j].rank || (line[i].rank == line[j].rank && line[i].counter < line[j].counter)
  }

  /** Exactly one entry per scheduled task, in queue order. */
  ghost predicate LineSound(tasks: map<TaskId, Job>, line: seq<Entry>, counter: nat) {
    && (forall e :: e in line ==> Fits(tasks, counter, e))
    && OnePerTask(line) && ByRankThenCounter(line)
    && (forall id :: IsScheduled(tasks, id) ==> Waits(line, id))
  }

  ghost predicate Sound(s: Jobs) {
    && LineSound(s.tasks, s.line, s.counter)
    && Distinct(s.order) && (forall id :: id in s.order <==> id in s.tasks)
    && (forall id :: id in s.tasks ==> s.tasks[id].status != JobRunning)
    && (s.totals.Some? ==> NonNegative(s.allocations) && Within(s.allocations, s.totals.value))
  }

  lemma SplicedLine(line: seq<Entry>, e: Entry, p: nat, r: seq<Entry>)
    requires Spliced(line, e, p, r) && OnePerTask(line) && ByRankThenCounter(line)
    requires forall i :: 0 <= i < |line| ==> line[i].item != e.item && line[i].counter < e.counter
    ensures OnePerTask(r) && ByRankThenCounter(r)
  {
    forall i, j | 0 <= i < j < |r|
      ensures r[i].item != r[j].item
      ensures r[i].rank < r[j].rank || (r[i].rank == r[j].rank && r[i].counter < r[j].counter)
    {
      if i < p {
        assert i < p - 1 ==> line[i].rank <= line[p - 1].rank;
      }
    }
  }

  lemma SplicedWaits(line: seq<Entry>, e: Entry, p: nat, r: seq<Entry>, id: TaskId)
    requires Spliced(line, e, p, r)
    ensures Waits(r, id) <==> Waits(line, id) || id == e.item
  {
    if Waits(line, id) {
      var i :| 0 <= i < |line| && line[i].item == id;
      assert r[if i < p then i else i + 1].item == id;
    }
    if id == e.item {
      assert r[p].item == id;
    }
  }

  lemma PushedLine(line: seq<Entry>, e: Entry)
    requires OnePerTask(line) && ByRankThenCounter(line)
    requires forall f :: f in line ==> f.item != e.item && f.counter < e.counter
    ensures OnePerTask(Pushed(line, e)) && ByRankThenCounter(Pushed(line, e))
    ensures forall f :: f in Pushed(line, e) <==> f in line || f == e
    ensures forall id :: Waits(Pushed(line, e), id) <==> Waits(line, id) || id == e.item
  {
    var p := PushedAt(line, e);
    PushedContents(line, e);
    var r := Pushed(line, e);
    assert forall i :: 0 <= i < |line| ==> line[i] in line;
    hide *;
    SplicedLine(line, e, p, r);
    forall f ensures f in r <==> f in line || f == e {
      assert f in r <==> f in multiset(r);
      assert f in line <==> f in multiset(line);
    }
    forall id ensures Waits(r, id) <==> Waits(line, id) || id == e.item {
      SplicedWaits(line, e, p, r, id);
    }
  }

  lemma WaitsIsMember(line: seq<Entry>, id: TaskId)
    ensures Waits(line, id) <==> exists e :: e in line && e.item == id
  {
    if e :| e in line && e.item == id {
      var i :| 0 <= i < |line| && line[i] == e;
    }
    if Waits(line, id) {
      var i :| 0 <= i < |line| && line[i].item == id;
      assert line[i] in line;
    }
  }

  lemma QueuedIsSound(tasks: map<TaskId, Job>, tasks': map<TaskId, Job>, line: seq<Entry>, counter: nat, id: TaskId)
    requires LineSound(tasks, line, counter) && id in tasks' && !Waits(line, id)
    requires tasks' == tasks[id := tasks'[id]] && tasks'[id].status == JobScheduled
    ensures LineSound(tasks', Pushed(line, Entry(-tasks'[id].priority, counter, id)), counter + 1)
  {
    var e := Entry(-tasks'[id].priority, counter, id);
    WaitsIsMember(line, id);
    assert forall f :: f in line ==> Fits(tasks, counter, f) && f.item != id;
    PushedLine(line, e);
    var r := Pushed(line, e);
    hide Pushed, OnePerTask, ByRankThenCounter, Waits;
    forall x | IsScheduled(tasks', x) ensures Waits(r, x) {
      assert x == id || IsScheduled(tasks, x);
    }
    forall f | f in r ensures Fits(tasks', counter + 1, f) {
      assert f == e || Fits(tasks, counter, f);
    }
  }

  lemma PartsOfLine(tasks: map<TaskId, Job>, line: seq<Entry>, counter: nat)
    requires LineSound(tasks, line, counter)
    ensures forall e :: e in line ==> Fits(tasks, counter, e)
    ensures OnePerTask(line) && ByRankThenCounter(line)
    ensures forall id :: IsScheduled(tasks, id) ==> Waits(line, id)
  {
  }

  lemma MakeLine(tasks: map<TaskId, Job>, line: seq<Entry>, counter: nat)
    requires forall e :: e in line ==> Fits(tasks, counter, e)
    requires OnePerTask(line) && ByRankThenCounter(line)
    requires forall id :: IsScheduled(tasks, id) ==> Waits(line, id)
    ensures LineSound(tasks, line, counter)
  {
  }

  lemma FitsAfter(tasks: map<TaskId, Job>, counter: nat, id: TaskId, job: Job, e: Entry)
    requires Fits(tasks, counter, e) && e.item != id
    ensures Fits(tasks[id := job], counter, e)
  {
  }

  /** Without its first entry, whose task then runs or queues again. */
  lemma TailIsSound(tasks: map<TaskId, Job>, line: seq<Entry>, counter: nat, job: Job)
    requires LineSound(tasks, line, counter) && line != [] && job.status != JobScheduled
    ensures line[0].item in tasks && IsScheduled(tasks, line[0].item) && !Waits(line[1..], line[0].item)
    ensures LineSound(tasks[line[0].item := job], line[1..], counter)
  {
    var id, rest := line[0].item, line[1..];
    PartsOfLine(tasks, line, counter);
    assert IsScheduled(tasks, id) by {
      assert line[0] in line && Fits(tasks, counter, line[0]);
    }
    assert forall x :: IsScheduled(tasks[id := job], x) ==> x != id && IsScheduled(tasks, x);
    hide *;
    FirstLeaves(line);
    TailIsOrdered(line);
    WaitsIsMember(rest, id);
    forall e | e in rest ensures Fits(tasks[id := job], counter, e) {
      FitsAfter(tasks, counter, id, job, e);
    }
    MakeLine(tasks[id := job], rest, counter);
    ScheduledIsKnown(tasks, id);
  }

  lemma ScheduledIsKnown(tasks: map<TaskId, Job>, id: TaskId)
    requires IsScheduled(tasks, id)
    ensures id in tasks
  {
  }

  lemma TailIsOrdered(line: seq<Entry>)
    requires line != [] && OnePerTask(line) && ByRankThenCounter(line)
    ensures OnePerTask(line[1..]) && ByRankThenCounter(line[1..])
  {
  }

  lemma FirstLeaves(line: seq<Entry>)
    requires line != [] && OnePerTask(line)
    ensures forall e :: e in line[1..] ==> e in line && e.item != line[0].item
    ensures forall x :: Waits(line, x) && x != line[0].item ==> Waits(line[1..], x)
  {
    var rest := line[1..];
    forall e | e in rest ensures e in line && e.item != line[0].item {
      var i :| 0 <= i < |rest| && rest[i] == e;
      assert line[i + 1] == e;
    }
    forall x | Waits(line, x) && x != line[0].item ensures Waits(rest, x) {
      var i :| 0 <= i < |line| && line[i].item == x;
      assert rest[i - 1].item == x;
    }
  }

  lemma ScheduledIsSound(s: Jobs, id: TaskId, priority: int, resources: Resources)
    requires Sound(s)
    ensures Sound(Scheduled(s, id, priority, resources))
  {
    if id !in s.tasks {
      var s' := Scheduled(s, id, priority, resources);
      WaitsIsMember(s.line, id);
      assert forall f :: f in s.line ==> Fits(s.tasks, s.counter, f);
      QueuedIsSound(s.tasks, s'.tasks, s.line, s.counter, id);
      hide LineSound;
      assert forall x :: x in s'.order <==> x in s.order || x == id;
      assert id !in s.order;
    }
  }

  lemma RanIsSound(s: Jobs, succeeded: bool)
    requires Sound(s) && s.line != []
    ensures IsScheduled(s.tasks, s.line[0].item)
    ensures Sound(Ran(s.(line := s.line[1..]), s.line[0].item, succeeded))
  {
    var id := s.line[0].item;
    SoundFirst(s);
    TailIsSound(s.tasks, s.line, s.counter, Ran(s, id, succeeded).tasks[id]);
    hide LineSound;
  }

  lemma RequeuedIsSound(s: Jobs)
    requires Sound(s) && s.line != [] && s.line[0].item in s.tasks && s.tasks[s.line[0].item].status == JobScheduled
    ensures Sound(Queued(s.(line := s.line[1..]), s.line[0].item, s.tasks[s.line[0].item].priority))
  {
    var id := s.line[0].item;
    var gone := s.tasks[id := Job(0, NOTHING, JobFailed)];
    TailIsSound(s.tasks, s.line, s.counter, Job(0, NOTHING, JobFailed));
    assert s.tasks == gone[id := s.tasks[id]];
    QueuedIsSound(gone, s.tasks, s.line[1..], s.counter, id);
    hide LineSound;
  }

  /** One turn of the loop: the first task is scheduled; it runs, or goes back. */
  lemma TurnIsSound(s: Jobs, succeeded: bool)
    requires Sound(s) && s.line != []
    ensures var id, rest := s.line[0].item, s.(line := s.line[1..]);
      && IsScheduled(s.tasks, id)
      && Sound(Ran(rest, id, succeeded))
      && Sound(Queued(rest, id, s.tasks[id].priority))
  {
    RanIsSound(s, succeeded);
    hide Sound, Ran, Queued;
    RequeuedIsSound(s);
  }

  lemma {:induction false} ExecuteFromIsSound(s: Jobs, limit: Option<int>, executor: Executor, done: seq<Report>)
    requires Sound(s)
    ensures Sound(ExecuteFrom(s, limit, executor, done).jobs)
    decreases |s.line|
  {
    if s.line != [] && !Reached(limit, |done|) {
      var id, rest := s.line[0].item, s.(line := s.line[1..]);
      TurnIsSound(s, executor(id).Ok?);
      hide Sound, Admits, Ran, Queued;
      if Admits(s, id) {
        NextTurn(s, executor(id).Ok?);
        ExecuteFromIsSound(Ran(rest, id, executor(id).Ok?), limit, executor, done + [Report(id, executor(id))]);
      }
    }
  }

  lemma NextTurn(s: Jobs, succeeded: bool)
    requires s.line != [] && s.line[0].item in s.tasks
    ensures Ran(s.(line := s.line[1..]), s.line[0].item, succeeded).line == s.line[1..]
  {
  }

  datatype JobOp =
    | Schedule(id: TaskId, priority: int, resources: Resources)
    | ExecuteUpTo(limit: Option<int>, executor: Executor)

  ghost function Apply(s: Jobs, op: JobOp): Jobs {
    match op
    case Schedule(id, priority, resources) => Scheduled(s, id, priority, resources)
    case ExecuteUpTo(limit, executor) => Execute(s, limit, executor).jobs
  }

  function NoJobs(totals: Option<Resources>): Jobs {
    Jobs([], map[], [], 0, totals, map[])
  }

  /** The scheduler after any calls; its totals are not negative. */
  ghost function AfterCalls(totals: Option<Resources>, ops: seq<JobOp>): (s: Jobs)
    requires totals.Some? ==> AtMost(NOTHING, totals.value)
    ensures Sound(s)
  {
    if ops == [] then NoJobs(totals)
    else
      var before, op := AfterCalls(totals, ops[..|ops| - 1]), ops[|ops| - 1];
      ApplyKeepsSound(before, op);
      Apply(before, op)
  }

  lemma ApplyKeepsSound(s: Jobs, op: JobOp)
    requires Sound(s)
    ensures Sound(Apply(s, op))
  {
    hide Sound, ExecuteFrom, Scheduled;
    match op
    case Schedule(id, priority, resources) => ScheduledIsSound(s, id, priority, resources);
    case ExecuteUpTo(limit, executor) => ExecuteFromIsSound(s, limit, executor, []);
  }

  /** After any calls the queue holds exactly the scheduled tasks, one entry each, by falling
      priority and then by counter. */
  lemma EveryRunKeepsQueue(totals: Option<Resources>, ops: seq<JobOp>, id: TaskId)
    requires totals.Some? ==> AtMost(NOTHING, totals.value)
    ensures var s := AfterCalls(totals, ops);
      && (Waits(s.line, id) <==> IsScheduled(s.tasks, id))
      && OnePerTask(s.line) && ByRankThenCounter(s.line)
      && (forall e :: e in s.line ==> e.item in s.tasks && e.rank == -s.tasks[e.item].priority)
  {
    var s := AfterCalls(totals, ops);
    WaitsIsMember(s.line, id);
    assert forall e :: e in s.line ==> Fits(s.tasks, s.counter, e);
  }

  // ---------- One call runs a prefix of the queue ----------

  /** `n` is where a call stops: at the limit, at a task that is not admitted, or at the end. */
  ghost predicate StopsAt(s: Jobs, limit: Option<int>, n: nat) {
    && n <= |s.line|
    && (forall i: nat :: i < n ==> GoesOn(s, limit, i))
    && (n < |s.line| ==> !GoesOn(s, limit, n))
  }

  /** The limit is not reached, and the task at that place of the queue is admitted. */
  ghost predicate GoesOn(s: Jobs, limit: Option<int>, i: nat)
    requires i < |s.line|
  {
    (limit.Some? ==> i < limit.value) && MayRun(s, s.line[i].item)
  }

  ghost predicate MayRun(s: Jobs, id: TaskId) {
    id in s.tasks && Admits(s, id)
  }

  /** The reports of a stretch of the queue. */
  function ReportsOf(line: seq<Entry>, executor: Executor): (r: seq<Report>)
    ensures |r| == |line| && forall i :: 0 <= i < |r| ==> r[i] == Report(line[i].item, executor(line[i].item))
  {
    seq(|line|, i requires 0 <= i < |line| => Report(line[i].item, executor(line[i].item)))
  }

  /** The tasks after a stretch of the queue ran. */
  ghost predicate TasksAfter(before: map<TaskId, Job>, after: map<TaskId, Job>, line: seq<Entry>, executor: Executor) {
    && after.Keys == before.Keys
    && forall id :: id in before ==>
         after[id] == if Waits(line, id)
                      then before[id].(status := if executor(id).Ok? then JobCompleted else JobFailed) else before[id]
  }

  /** The queue behind the first `n` entries; a task refused there goes to the back of its priority. */
  function LineAfter(s: Jobs, limit: Option<int>, n: nat): seq<Entry>
    requires n <= |s.line|
  {
    if n == |s.line| || Reached(limit, n) then s.line[n..]
    else Pushed(s.line[n + 1..], Entry(s.line[n].rank, s.counter, s.line[n].item))
  }

  ghost predicate RanPrefix(s: Jobs, limit: Option<int>, executor: Executor, s': Jobs, n: nat) {
    && StopsAt(s, limit, n)
    && TasksAfter(s.tasks, s'.tasks, s.line[..n], executor)
    && s'.line == LineAfter(s, limit, n)
    && s'.allocations == s.allocations && s'.order == s.order && s'.totals == s.totals
  }

  /** What is left of a limit. */
  function Less(limit: Option<int>, done: nat): Option<int> {
    if limit.None? then None else Some(limit.value - done)
  }

  lemma StopNow(s: Jobs, limit: Option<int>, executor: Executor, done: nat)
    requires s.line == [] || Reached(limit, done)
    ensures RanPrefix(s, Less(limit, done), executor, s, 0)
  {
    assert s.line[0..] == s.line && s.line[..0] == [];
  }

  lemma RefuseNow(s: Jobs, limit: Option<int>, executor: Executor, done: nat)
    requires s.line != [] && !Reached(limit, done) && Fits(s.tasks, s.counter, s.line[0])
    requires !Admits(s, s.line[0].item)
    ensures var id := s.line[0].item;
      RanPrefix(s, Less(limit, done), executor, Queued(s.(line := s.line[1..]), id, s.tasks[id].priority), 0)
  {
    assert s.line[..0] == [];
    hide Admits;
  }

  lemma StopShifts(s: Jobs, ran: Jobs, limit: Option<int>, done: nat, n: nat)
    requires s.line != [] && !Reached(limit, done) && MayRun(s, s.line[0].item)
    requires ran.line == s.line[1..] && ran.totals == s.totals && ran.allocations == s.allocations
    requires ran.tasks.Keys == s.tasks.Keys
    requires forall id :: id in s.tasks ==> ran.tasks[id].resources == s.tasks[id].resources
    requires StopsAt(ran, Less(limit, done + 1), n)
    ensures StopsAt(s, Less(limit, done), n + 1)
  {
    assert forall id :: MayRun(ran, id) <==> MayRun(s, id);
    assert GoesOn(s, Less(limit, done), 0);
    hide MayRun;
    var less := Less(limit, done + 1);
    forall i: nat | i < |ran.line| ensures GoesOn(ran, less, i) <==> GoesOn(s, Less(limit, done), i + 1) {
      assert s.line[i + 1] == ran.line[i];
    }
    hide GoesOn;
    forall i: nat | i < n + 1 ensures GoesOn(s, Less(limit, done), i) {
      if i > 0 {
        assert GoesOn(ran, less, i - 1);
      }
    }
  }

  lemma FirstRunsOnce(line: seq<Entry>, n: nat)
    requires OnePerTask(line) && n < |line|
    ensures var part, rest := line[..n + 1], line[1..][..n];
      && !Waits(rest, line[0].item)
      && forall id :: Waits(part, id) <==> id == line[0].item || Waits(rest, id)
  {
    var part, rest := line[..n + 1], line[1..][..n];
    assert part == [line[0]] + rest;
    hide OnePerTask;
    forall id ensures Waits(part, id) <==> id == line[0].item || Waits(rest, id) {
      WaitsIsMember(part, id);
      WaitsIsMember(rest, id);
    }
    if Waits(rest, line[0].item) {
      var i :| 0 <= i < n && rest[i].item == line[0].item;
      NoSecondEntry(line, i + 1);
    }
  }

  lemma NoSecondEntry(line: seq<Entry>, i: nat)
    requires OnePerTask(line) && 0 < i < |line|
    ensures line[i].item != line[0].item
  {
  }

  lemma TasksCompose(s: Jobs, after: map<TaskId, Job>, executor: Executor, n: nat)
    requires LineSound(s.tasks, s.line, s.counter) && n < |s.line| && s.line[0].item in s.tasks
    requires TasksAfter(Ran(s, s.line[0].item, executor(s.line[0].item).Ok?).tasks, after, s.line[1..][..n], executor)
    ensures TasksAfter(s.tasks, after, s.line[..n + 1], executor)
  {
    FirstRunsOnce(s.line, n);
    hide LineSound, Waits;
  }

  lemma TurnThenPrefix(s: Jobs, limit: Option<int>, executor: Executor, done: nat, s': Jobs, n: nat)
    requires LineSound(s.tasks, s.line, s.counter) && s.line != [] && !Reached(limit, done)
    requires MayRun(s, s.line[0].item)
    requires var id := s.line[0].item;
      RanPrefix(Ran(s.(line := s.line[1..]), id, executor(id).Ok?), Less(limit, done + 1), executor, s', n)
    ensures RanPrefix(s, Less(limit, done), executor, s', n + 1)
  {
    var id := s.line[0].item;
    var ran := Ran(s.(line := s.line[1..]), id, executor(id).Ok?);
    StopShifts(s, ran, limit, done, n);
    TasksCompose(s, s'.tasks, executor, n);
    assert s.line[1..][n..] == s.line[n + 1..];
    assert n < |ran.line| ==> s.line[1..][n + 1..] == s.line[n + 2..] && ran.line[n] == s.line[n + 1];
    hide LineSound, TasksAfter, StopsAt, MayRun, Pushed;
  }

  lemma ReportsShift(line: seq<Entry>, executor: Executor, m: nat)
    requires m < |line|
    ensures ReportsOf(line[..m + 1], executor)
      == [Report(line[0].item, executor(line[0].item))] + ReportsOf(line[1..][..m], executor)
    ensures ReportsOf(line[..0], executor) == []
  {
    assert line[..m + 1] == [line[0]] + line[1..][..m];
  }

  lemma ExecuteStops(s: Jobs, limit: Option<int>, executor: Executor, done: seq<Report>)
    requires s.line == [] || Reached(limit, |done|)
    ensures ExecuteFrom(s, limit, executor, done) == Executed(s, done)
  {
  }

  /** One turn of the loop. */
  lemma ExecuteTurn(s: Jobs, limit: Option<int>, executor: Executor, done: seq<Report>)
    requires Sound(s) && s.line != [] && !Reached(limit, |done|)
    ensures var id, rest := s.line[0].item, s.(line := s.line[1..]);
      && id in s.tasks && LineSound(s.tasks, s.line, s.counter) && Fits(s.tasks, s.counter, s.line[0])
      && Sound(Ran(rest, id, executor(id).Ok?))
      && ExecuteFrom(s, limit, executor, done) ==
           if Admits(s, id)
           then ExecuteFrom(Ran(rest, id, executor(id).Ok?), limit, executor, done + [Report(id, executor(id))])
           else Executed(Queued(rest, id, s.tasks[id].priority), done)
  {
    TurnIsSound(s, executor(s.line[0].item).Ok?);
    SoundFirst(s);
    hide Sound, Admits, Ran, Queued, LineSound;
  }

  lemma {:induction false} ExecuteFromPrefix(s: Jobs, limit: Option<int>, executor: Executor, done: seq<Report>)
    returns (n: nat)
    requires Sound(s)
    ensures n <= |s.line|
    ensures var r := ExecuteFrom(s, limit, executor, done);
      && RanPrefix(s, Less(limit, |done|), executor, r.jobs, n)
      && r.reports == done + ReportsOf(s.line[..n], executor)
    decreases |s.line|
  {
    hide *;
    n := 0;
    if s.line == [] || Reached(limit, |done|) {
      StopNow(s, limit, executor, |done|);
      ExecuteStops(s, limit, executor, done);
    } else {
      var id, rest := s.line[0].item, s.(line := s.line[1..]);
      ExecuteTurn(s, limit, executor, done);
      if !Admits(s, id) {
        RefuseNow(s, limit, executor, |done|);
      } else {
        var ran, report := Ran(rest, id, executor(id).Ok?), Report(id, executor(id));
        NextTurn(s, executor(id).Ok?);
        var m := ExecuteFromPrefix(ran, limit, executor, done + [report]);
        MayRunFirst(s);
        TurnThenPrefix(s, limit, executor, |done|, ExecuteFrom(s, limit, executor, done).jobs, m);
        ReportsShift(s.line, executor, m);
        n := m + 1;
      }
    }
  }

  lemma MayRunFirst(s: Jobs)
    requires s.line != [] && s.line[0].item in s.tasks && Admits(s, s.line[0].item)
    ensures MayRun(s, s.line[0].item)
  {
  }

  lemma SoundFirst(s: Jobs)
    requires Sound(s) && s.line != []
    ensures LineSound(s.tasks, s.line, s.counter) && Fits(s.tasks, s.counter, s.line[0])
  {
    assert s.line[0] in s.line;
  }

  /** One call executes exactly the longest prefix of the queue in which every task is admitted
      and the limit is not reached. Its reports are those of that prefix, in order; the rest of
      the queue keeps its order, except that a task refused resources loses its place among
      its equals; and all allocations are as before. */
  lemma ExecutesPrefix(s: Jobs, limit: Option<int>, executor: Executor)
    requires Sound(s)
    ensures var r := Execute(s, limit, executor);
      var n := |r.reports|;
      && n <= |s.line| && r.reports == ReportsOf(s.line[..n], executor)
      && Sound(r.jobs) && RanPrefix(s, limit, executor, r.jobs, n)
  {
    hide Sound, RanPrefix, ExecuteFrom;
    var n := ExecuteFromPrefix(s, limit, executor, []);
    ExecuteFromIsSound(s, limit, executor, []);
    assert Less(limit, 0) == limit;
  }

  // ---------- The listing of scheduled tasks ----------

  /** The scheduled ones of some tasks, in their order. */
  function SelectScheduled(tasks: map<TaskId, Job>, ids: seq<TaskId>): seq<TaskId> {
    if ids == [] then []
    else
      var n := |ids| - 1;
      SelectScheduled(tasks, ids[..n]) + (if IsScheduled(tasks, ids[n]) then [ids[n]] else [])
  }

  function PriorityOf(tasks: map<TaskId, Job>): TaskId -> real {
    id => if id in tasks then tasks[id].priority as real else 0.0
  }

  /** `get_scheduled_tasks` */
  function Listed(s: Jobs): seq<TaskId> {
    SortDescending(SelectScheduled(s.tasks, s.order), PriorityOf(s.tasks))
  }

  lemma {:induction false} SelectionAs(tasks: map<TaskId, Job>, ids: seq<TaskId>)
    requires Distinct(ids)
    ensures Distinct(SelectScheduled(tasks, ids))
    ensures forall id :: id in SelectScheduled(tasks, ids) <==> id in ids && IsScheduled(tasks, id)
    ensures forall a, b :: InOrder(SelectScheduled(tasks, ids), a, b) ==> InOrder(ids, a, b)
  {
    if ids != [] {
      var n := |ids| - 1;
      var before := SelectScheduled(tasks, ids[..n]);
      SelectionAs(tasks, ids[..n]);
      assert ids == ids[..n] + [ids[n]];
      assert ids[n] !in ids[..n];
      hide SelectScheduled, IsScheduled;
      SelectionGrows(ids, before);
    }
  }

  lemma SelectionGrows(ids: seq<TaskId>, before: seq<TaskId>)
    requires ids != [] && ids[|ids| - 1] !in ids[..|ids| - 1] && Distinct(before)
    requires forall id :: id in before ==> id in ids[..|ids| - 1]
    requires forall a, b :: InOrder(before, a, b) ==> InOrder(ids[..|ids| - 1], a, b)
    ensures Distinct(before + [ids[|ids| - 1]])
    ensures forall a, b :: InOrder(before, a, b) || InOrder(before + [ids[|ids| - 1]], a, b) ==> InOrder(ids, a, b)
  {
    var n := |ids| - 1;
    var after := before + [ids[n]];
    forall i | 0 <= i < |before| ensures before[i] in ids[..n] {
      assert before[i] in before;
    }
    forall a, b | InOrder(before, a, b) ensures InOrder(ids, a, b) {
      var i, j :| 0 <= i < j < n && ids[..n][i] == a && ids[..n][j] == b;
      assert ids[i] == a && ids[j] == b;
    }
    forall a, b | InOrder(after, a, b) ensures InOrder(ids, a, b) {
      var i, j :| 0 <= i < j < |after| && after[i] == a && after[j] == b;
      if j < |before| {
        assert before[i] == a && before[j] == b;
      } else {
        var k :| 0 <= k < n && ids[..n][k] == before[i];
        assert ids[k] == a && ids[n] == b;
      }
    }
  }

  ghost predicate Precedes(tasks: map<TaskId, Job>, order: seq<TaskId>, a: TaskId, b: TaskId)
    requires a in tasks && b in tasks
  {
    tasks[a].priority > tasks[b].priority || (tasks[a].priority == tasks[b].priority && InOrder(order, a, b))
  }

  /** Scheduled tasks by falling priority and, among equals, in insertion order. */
  ghost predicate IsListing(s: Jobs, l: seq<TaskId>) {
    && Distinct(l) && (forall id :: id in l <==> IsScheduled(s.tasks, id))
    && AllPrecede(s.tasks, s.order, l)
  }

  lemma ListedIsListing(s: Jobs)
    requires Sound(s)
    ensures IsListing(s, Listed(s))
  {
    var chosen, key := SelectScheduled(s.tasks, s.order), PriorityOf(s.tasks);
    SelectionAs(s.tasks, s.order);
    SortedAs(chosen, key);
    RearrangedDistinct(chosen, Listed(s));
    assert Listed(s) == SortDescending(chosen, key);
    assert forall id :: id in s.order <==> id in s.tasks;
    hide *;
    SortedIsListing(s, chosen, Listed(s));
  }

  lemma SortedIsListing(s: Jobs, chosen: seq<TaskId>, l: seq<TaskId>)
    requires Falling(l, PriorityOf(s.tasks)) && Stable(chosen, l, PriorityOf(s.tasks)) && Distinct(l)
    requires forall id :: id in l <==> id in chosen
    requires forall id :: id in chosen <==> id in s.order && IsScheduled(s.tasks, id)
    requires forall id :: id in s.order <==> id in s.tasks
    requires forall a, b :: InOrder(chosen, a, b) ==> InOrder(s.order, a, b)
    ensures IsListing(s, l)
  {
    hide InOrder, Distinct;
    forall i, j | 0 <= i < j < |l|
      ensures l[i] in s.tasks && l[j] in s.tasks && Precedes(s.tasks, s.order, l[i], l[j])
    {
      assert l[i] in l && l[j] in l;
      assert PriorityOf(s.tasks)(l[i]) >= PriorityOf(s.tasks)(l[j]);
    }
  }

  /** There is only one listing. */
  lemma {:induction false} ListingIsUnique(tasks: map<TaskId, Job>, order: seq<TaskId>, a: seq<TaskId>, b: seq<TaskId>)
    requires Distinct(order) && Distinct(a) && Distinct(b) && (forall id :: id in a <==> id in b)
    requires AllPrecede(tasks, order, a) && AllPrecede(tasks, order, b)
    ensures a == b
    decreases |a|
  {
    if a == [] {
      assert b != [] ==> b[0] in b;
    } else {
      assert a[0] in a && a[0] in b && b != [];
      assert b[0] in b && b[0] in a;
      SameFirst(tasks, order, a, b);
      RestPrecedes(tasks, order, a);
      RestPrecedes(tasks, order, b);
      var a', b' := a[1..], b[1..];
      assert a == [a[0]] + a' && b == [b[0]] + b';
      hide AllPrecede, Distinct;
      forall id ensures id in a' <==> id in b' {
        assert id in a <==> id == a[0] || id in a';
        assert id in b <==> id == b[0] || id in b';
      }
      ListingIsUnique(tasks, order, a', b');
    }
  }

  ghost predicate AllPrecede(tasks: map<TaskId, Job>, order: seq<TaskId>, l: seq<TaskId>) {
    forall i, j :: 0 <= i < j < |l| ==> l[i] in tasks && l[j] in tasks && Precedes(tasks, order, l[i], l[j])
  }

  lemma RestPrecedes(tasks: map<TaskId, Job>, order: seq<TaskId>, l: seq<TaskId>)
    requires AllPrecede(tasks, order, l) && Distinct(l) && l != []
    ensures AllPrecede(tasks, order, l[1..]) && Distinct(l[1..]) && l[0] !in l[1..]
  {
    var rest := l[1..];
    forall i, j | 0 <= i < j < |rest|
      ensures rest[i] in tasks && rest[j] in tasks && Precedes(tasks, order, rest[i], rest[j])
    {
      assert rest[i] == l[i + 1] && rest[j] == l[j + 1];
    }
    forall i | 0 <= i < |rest| ensures rest[i] == l[i + 1] != l[0] {
    }
  }

  lemma SameFirst(tasks: map<TaskId, Job>, order: seq<TaskId>, a: seq<TaskId>, b: seq<TaskId>)
    requires Distinct(order) && a != [] && b != [] && a[0] in b && b[0] in a
    requires AllPrecede(tasks, order, a) && AllPrecede(tasks, order, b)
    ensures a[0] == b[0]
  {
    if a[0] != b[0] {
      var i :| 0 <= i < |b| && b[i] == a[0];
      var j :| 0 <= j < |a| && a[j] == b[0];
      assert Precedes(tasks, order, b[0], b[i]) && Precedes(tasks, order, a[0], a[j]);
      NotBothOrders(order, a[0], b[0]);
    }
  }

  lemma NotBothOrders(order: seq<TaskId>, a: TaskId, b: TaskId)
    requires Distinct(order)
    ensures !(InOrder(order, a, b) && InOrder(order, b, a))
  {
  }

  function ItemsOf(line: seq<Entry>): (r: seq<TaskId>)
    ensures |r| == |line| && forall i :: 0 <= i < |r| ==> r[i] == line[i].item
  {
    seq(|line|, i requires 0 <= i < |line| => line[i].item)
  }

  /** Among equals the queue is in insertion order. */
  ghost predicate AgreesWithInsertion(s: Jobs) {
    forall i, j :: 0 <= i < j < |s.line| && s.line[i].rank == s.line[j].rank ==>
      InOrder(s.order, s.line[i].item, s.line[j].item)
  }

  lemma LineItems(s: Jobs)
    requires Sound(s)
    ensures var l := ItemsOf(s.line);
      && Distinct(l) && (forall id :: id in l <==> IsScheduled(s.tasks, id))
      && (forall i :: 0 <= i < |l| ==> l[i] in s.tasks && s.line[i].rank == -s.tasks[l[i]].priority)
      && (forall i, j :: 0 <= i < j < |l| ==> s.line[i].rank <= s.line[j].rank)
  {
    var l := ItemsOf(s.line);
    forall i | 0 <= i < |l| ensures Fits(s.tasks, s.counter, s.line[i]) {
      assert s.line[i] in s.line;
    }
    forall id | IsScheduled(s.tasks, id) ensures id in l {
      assert Waits(s.line, id);
      var i :| 0 <= i < |s.line| && s.line[i].item == id;
      assert l[i] == id;
    }
  }

  /** `get_scheduled_tasks` lists the tasks in the order in which they would run exactly when
      the queue keeps equals in insertion order. */
  lemma ListingAgreesIff(s: Jobs)
    requires Sound(s)
    ensures Listed(s) == ItemsOf(s.line) <==> AgreesWithInsertion(s)
  {
    ListedIsListing(s);
    LineItems(s);
    assert Distinct(s.order);
    var a, b := Listed(s), ItemsOf(s.line);
    hide Listed, ItemsOf, Sound, Distinct, InOrder, IsScheduled;
    if a == b {
      forall i, j | 0 <= i < j < |s.line| && s.line[i].rank == s.line[j].rank
        ensures InOrder(s.order, s.line[i].item, s.line[j].item)
      {
        assert Precedes(s.tasks, s.order, a[i], a[j]);
      }
    }
    if AgreesWithInsertion(s) {
      ListingIsUnique(s.tasks, s.order, a, b);
    }
  }

  lemma SuffixAgrees(s: Jobs, n: nat, s': Jobs)
    requires AgreesWithInsertion(s) && n <= |s.line| && s'.line == s.line[n..] && s'.order == s.order
    ensures AgreesWithInsertion(s')
  {
    forall i, j | 0 <= i < j < |s'.line| && s'.line[i].rank == s'.line[j].rank
      ensures InOrder(s'.order, s'.line[i].item, s'.line[j].item)
    {
      assert s'.line[i] == s.line[n + i] && s'.line[j] == s.line[n + j];
    }
  }

  /** A call stops at one place only. */
  lemma StopsOnce(s: Jobs, limit: Option<int>, m: nat, n: nat)
    requires StopsAt(s, limit, m) && StopsAt(s, limit, n)
    ensures m == n
  {
    hide MayRun;
  }

  /** A call that stops at a task refused resources: listing and queue then disagree exactly
      when a task of the same priority waits behind it, for the refused one now runs later
      while it is still listed first. */
  lemma RefusalReordersIff(s: Jobs, limit: Option<int>, executor: Executor, n: nat)
    requires Sound(s) && AgreesWithInsertion(s) && StopsAt(s, limit, n)
    ensures AgreesWithInsertion(Execute(s, limit, executor).jobs) <==>
      n == |s.line| || Reached(limit, n) || forall k :: n < k < |s.line| ==> s.line[k].rank != s.line[n].rank
  {
    var s' := Execute(s, limit, executor).jobs;
    ExecutesPrefix(s, limit, executor);
    StopsOnce(s, limit, n, |Execute(s, limit, executor).reports|);
    assert s'.line == LineAfter(s, limit, n) && s'.order == s.order;
    SoundCounters(s);
    hide Execute, Sound, RanPrefix, Pushed, StopsAt;
    if n == |s.line| || Reached(limit, n) {
      SuffixAgrees(s, n, s');
    } else {
      RefusedLine(s, n, s');
    }
  }

  lemma AfterOneMore(totals: Option<Resources>, ops: seq<JobOp>, op: JobOp)
    requires totals.Some? ==> AtMost(NOTHING, totals.value)
    ensures AfterCalls(totals, ops + [op]) == Apply(AfterCalls(totals, ops), op)
  {
    assert (ops + [op])[..|ops|] == ops;
  }

  /** Two tasks of one priority, of which the first asks for more than there is. */
  lemma TwoScheduled(totals: Resources, a: TaskId, b: TaskId, large: Resources, small: Resources)
    requires AtMost(NOTHING, totals) && a != b
    ensures var first, second := Job(0, large, JobScheduled), Job(0, small, JobScheduled);
      AfterCalls(Some(totals), [Schedule(a, 0, large), Schedule(b, 0, small)])
      == Jobs([a, b], map[a := first, b := second], [Entry(0, 0, a), Entry(0, 1, b)], 2, Some(totals), map[])
  {
    var ops := [Schedule(a, 0, large), Schedule(b, 0, small)];
    AfterOneMore(Some(totals), [], ops[0]);
    AfterOneMore(Some(totals), [ops[0]], ops[1]);
    assert [] + [ops[0]] == [ops[0]] && [ops[0]] + [ops[1]] == ops;
    assert AfterCalls(Some(totals), []) == NoJobs(Some(totals));
    hide AfterCalls;
  }

  /** Then a call runs nothing, and `get_scheduled_tasks` lists first what would run last. */
  lemma RefusedTaskIsListedFirst(totals: Resources, a: TaskId, b: TaskId, large: Resources, small: Resources,
                                 executor: Executor)
    requires AtMost(NOTHING, totals) && a != b && !AtMost(large, totals)
    ensures var s := AfterCalls(Some(totals),
        [Schedule(a, 0, large), Schedule(b, 0, small), ExecuteUpTo(None, executor)]);
      ItemsOf(s.line) == [b, a] && Listed(s) == [a, b]
  {
    var ops := [Schedule(a, 0, large), Schedule(b, 0, small)];
    var s := AfterCalls(Some(totals), ops);
    TwoScheduled(totals, a, b, large, small);
    assert ops + [ExecuteUpTo(None, executor)]
      == [Schedule(a, 0, large), Schedule(b, 0, small), ExecuteUpTo(None, executor)];
    AfterOneMore(Some(totals), ops, ExecuteUpTo(None, executor));
    hide AfterCalls, Sound, Execute, Listed, ItemsOf, Scheduled;
    TwoListed(s, totals, a, b, large, small);
    FirstRefused(s, totals, a, b, large, small, executor);
  }

  ghost predicate TwoWait(s: Jobs, totals: Resources, a: TaskId, b: TaskId, large: Resources, small: Resources) {
    s == Jobs([a, b], map[a := Job(0, large, JobScheduled), b := Job(0, small, JobScheduled)],
              [Entry(0, 0, a), Entry(0, 1, b)], 2, Some(totals), map[])
  }

  lemma TwoListed(s: Jobs, totals: Resources, a: TaskId, b: TaskId, large: Resources, small: Resources)
    requires Sound(s) && a != b && TwoWait(s, totals, a, b, large, small)
    ensures Listed(s) == [a, b]
  {
    assert s.order[0] == a && s.order[1] == b && ItemsOf(s.line) == [a, b];
    assert AgreesWithInsertion(s);
    hide Sound, Listed, ItemsOf;
    ListingAgreesIff(s);
  }

  lemma FirstRefused(s: Jobs, totals: Resources, a: TaskId, b: TaskId, large: Resources, small: Resources,
                     executor: Executor)
    requires a != b && TwoWait(s, totals, a, b, large, small) && !AtMost(large, totals)
    ensures var s' := Execute(s, None, executor).jobs;
      ItemsOf(s'.line) == [b, a] && Listed(s') == Listed(s)
  {
    assert !Admits(s, a) by {
      assert s.allocations == map[] && Total(map[]) == NOTHING;
    }
    hide Admits, Listed;
    var s' := Execute(s, None, executor).jobs;
    assert s' == Queued(s.(line := s.line[1..]), a, 0);
    assert s.line[1..] == [Entry(0, 1, b)] && ItemsOf(s'.line) == [b, a];
    SameListing(s, s');
  }

  lemma SameListing(s: Jobs, s': Jobs)
    requires s'.tasks == s.tasks && s'.order == s.order
    ensures Listed(s') == Listed(s)
  {
  }

  lemma SoundCounters(s: Jobs)
    requires Sound(s)
    ensures Distinct(s.order)
    ensures forall i :: 0 <= i < |s.line| ==> s.line[i].counter < s.counter
  {
    forall i | 0 <= i < |s.line| ensures s.line[i].counter < s.counter {
      assert s.line[i] in s.line;
    }
  }

  lemma RefusedLine(s: Jobs, n: nat, s': Jobs)
    requires Distinct(s.order) && AgreesWithInsertion(s) && n < |s.line| && s'.order == s.order
    requires s'.line == Pushed(s.line[n + 1..], Entry(s.line[n].rank, s.counter, s.line[n].item))
    ensures AgreesWithInsertion(s') <==> forall k :: n < k < |s.line| ==> s.line[k].rank != s.line[n].rank
  {
    var rest, e := s.line[n + 1..], Entry(s.line[n].rank, s.counter, s.line[n].item);
    var p := PushedAt(rest, e);
    hide Pushed, InOrder, Distinct;
    if k :| n < k < |s.line| && s.line[k].rank == e.rank {
      var i := k - n - 1;
      assert rest[i] == s.line[k];
      assert i < p;
      assert s'.line[i] == rest[i] && s'.line[p] == e;
      NotBothOrders(s.order, s.line[n].item, s.line[k].item);
    } else {
      forall i, j | 0 <= i < j < |s'.line| && s'.line[i].rank == s'.line[j].rank
        ensures InOrder(s'.order, s'.line[i].item, s'.line[j].item)
      {
        var a := if i < p then i else i - 1;
        var b := if j < p then j else j - 1;
        assert i != p ==> s'.line[i] == rest[a] && rest[a] == s.line[n + 1 + a];
        assert j != p ==> s'.line[j] == rest[b] && rest[b] == s.line[n + 1 + b];
      }
    }
  }

  // ---------- The engine ----------

  datatype JobError = JobExists

  predicate Known(tasks: map<TaskId, Job>, line: seq<Entry>) {
    forall e :: e in line ==> e.item in tasks
  }

  lemma PushedKnown(tasks: map<TaskId, Job>, line: seq<Entry>, e: Entry)
    requires Known(tasks, line) && e.item in tasks
    ensures Known(tasks, Pushed(line, e))
  {
    PushedContents(line, e);
    forall f | f in Pushed(line, e) ensures f.item in tasks {
      assert f in multiset(Pushed(line, e));
      assert f in line <==> f in multiset(line);
    }
  }

  lemma GivenBack(m: Allocations, id: TaskId, resources: Resources)
    ensures id !in m ==> m[id := resources] - {id} == m
  {
  }

  lemma AdmitsIgnoresLine(s: Jobs, id: TaskId)
    requires id in s.tasks && s.line != []
    ensures Admits(s.(line := s.line[1..]), id) <==> Admits(s, id)
  {
  }

  class TaskScheduler {
    const resourceAllocator: ResourceAllocator?
    const queue: PriorityQueue
    var order: seq<TaskId>
    var tasks: map<TaskId, Job>

    ghost function View(): Jobs
      reads this, queue, resourceAllocator
    {
      Jobs(order, tasks, queue.Line(), queue.counter,
           if resourceAllocator == null then None else Some(resourceAllocator.totals),
           if resourceAllocator == null then map[] else resourceAllocator.allocations)
    }

    ghost predicate Valid()
      reads this, queue
    {
      queue.Valid() && Known(tasks, queue.Line())
    }

    ghost function Footprint(): set<object> {
      if resourceAllocator == null then {this, queue} else {this, queue, resourceAllocator}
    }

    constructor (resourceAllocator: ResourceAllocator?)
      ensures Valid() && this.resourceAllocator == resourceAllocator && fresh(queue)
      ensures resourceAllocator == null ==> View() == NoJobs(None)
      ensures resourceAllocator != null ==>
        View() == NoJobs(Some(resourceAllocator.totals)).(allocations := resourceAllocator.allocations)
    {
      this.resourceAllocator := resourceAllocator;
      queue := new PriorityQueue();
      order, tasks := [], map[];
    }

    /** A task joins the queue, or joins it again. */
    method Enqueue(id: TaskId)
      requires Valid() && id in tasks
      modifies queue
      ensures Valid() && View() == Queued(old(View()), id, tasks[id].priority)
    {
      hide Pushed, Drained, Known, PriorityQueue.Valid, PriorityQueue.Line;
      PushedKnown(tasks, queue.Line(), Entry(-tasks[id].priority, queue.counter, id));
      queue.Push(id, tasks[id].priority);
    }

    method Schedule(id: TaskId, priority: int, resources: Resources) returns (r: Result<(), JobError>)
      requires Valid()
      modifies this, queue
      ensures Valid() && View() == Scheduled(old(View()), id, priority, resources)
      ensures r.Err? <==> id in old(tasks)
      ensures r.Err? ==> View() == old(View())
      ensures r.Ok? ==> order == old(order) + [id] && tasks == old(tasks)[id := Job(priority, resources, JobScheduled)]
    {
      hide Pushed, Drained, PriorityQueue.Valid, PriorityQueue.Line;
      if id in tasks {
        return Err(JobExists);
      }
      order := order + [id];
      tasks := tasks[id := Job(priority, resources, JobScheduled)];
      Enqueue(id);
      return Ok(());
    }

    /** Scheduled tasks by falling priority and, among equals, in insertion order. */
    method GetScheduledTasks() returns (ids: seq<TaskId>)
      ensures ids == Listed(View())
    {
      var scheduled: seq<TaskId> := [];
      for i := 0 to |order|
        invariant scheduled == SelectScheduled(tasks, order[..i])
      {
        assert order[..i + 1][..i] == order[..i];
        if order[i] in tasks && tasks[order[i]].status == JobScheduled {
          scheduled := scheduled + [order[i]];
        }
      }
      assert order[..|order|] == order;
      ids := SortDescending(scheduled, PriorityOf(tasks));
    }

    /** Tries to reserve what a task asks for; without an allocator there is nothing to reserve. */
    method Reserve(id: TaskId) returns (ok: bool)
      requires id in tasks
      modifies resourceAllocator
      ensures ok == Admits(old(View()), id)
      ensures !ok ==> View() == old(View())
      ensures ok ==> View() == old(View()).(allocations :=
        if resourceAllocator == null then map[] else old(View()).allocations[id := tasks[id].resources])
      ensures ok && resourceAllocator != null ==> id !in old(View()).allocations
    {
      ok := true;
      if resourceAllocator != null {
        ok := resourceAllocator.Allocate(id, tasks[id].resources);
      }
    }

    /** Runs an admitted task and gives its resources back. */
    method RunReserved(id: TaskId, executor: Executor) returns (report: Report)
      requires Valid() && id in tasks
      modifies this`tasks, resourceAllocator
      ensures Valid() && report == Report(id, executor(id))
      ensures View() == Ran(old(View()), id, executor(id).Ok?)
        .(allocations := if resourceAllocator == null then map[] else old(View()).allocations - {id})
    {
      hide Pushed, Drained, PriorityQueue.Valid, PriorityQueue.Line;
      tasks := tasks[id := tasks[id].(status := JobRunning)];
      var outcome := executor(id);
      tasks := tasks[id := tasks[id].(status := if outcome.Ok? then JobCompleted else JobFailed)];
      if resourceAllocator != null {
        resourceAllocator.Release(id);
      }
      report := Report(id, outcome);
    }

    method ExecuteScheduled(executor: Executor, limit: Option<int>) returns (results: seq<Report>)
      requires Valid()
      modifies Footprint()
      ensures Valid() && Executed(View(), results) == Execute(old(View()), limit, executor)
    {
      hide Pushed, Drained, Admits, PriorityQueue.Valid, PriorityQueue.Line;
      results := [];
      while true
        invariant Valid()
        invariant ExecuteFrom(View(), limit, executor, results) == Execute(old(View()), limit, executor)
        decreases |queue.Line()|
      {
        var length := queue.Length();
        if length == 0 || (limit.Some? && |results| >= limit.value) {
          return;
        }
        ghost var before := View();
        ghost var line := queue.Line();
        assert line[0] in line && forall e :: e in line[1..] ==> e in line;
        var popped := queue.Pop();
        var id := popped.value;
        if tasks[id].status != JobScheduled {
          continue;
        }
        AdmitsIgnoresLine(before, id);
        var ok := Reserve(id);
        if !ok {
          Enqueue(id);
          return;
        }
        var report := RunReserved(id, executor);
        GivenBack(before.allocations, id, before.tasks[id].resources);
        results := results + [report];
      }
    }
  }
}
