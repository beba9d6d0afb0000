/** The stable priority queue: agentManager/scheduler/priority_queue.py, a heap of tuples that
    acts like a line in which an item queues behind everything of at least its priority. */
module StableQueues {
  import opened Wrappers
  import opened Heapq
  import opened TaskKeys

  /** A heap entry `(-priority, counter, item)`. */
  datatype Entry = Entry(rank: int, counter: nat, item: TaskId)

  /** Python's order on such tuples. */
  predicate Earlier(a: Entry, b: Entry) {
    || a.rank < b.rank
    || (a.rank == b.rank && a.counter < b.counter)
    || (a.rank == b.rank && a.counter == b.counter && LexLess(a.item, b.item))
  }

  lemma EarlierIsTotalOrder()
    ensures StrictTotalOrder(Earlier)
  {
    forall a ensures !Earlier(a, a) {
      LexIrreflexive(a.item);
    }
    forall a, b, c | Earlier(a, b) && Earlier(b, c) ensures Earlier(a, c) {
      if a.rank == c.rank && a.counter == c.counter {
        LexTransitive(a.item, b.item, c.item);
      }
    }
    forall a: Entry, b: Entry ensures a == b || Earlier(a, b) || Earlier(b, a) {
      LexTotal(a.item, b.item);
    }
  }

  ghost function First(q: multiset<Entry>): (e: Entry)
    requires q != multiset{}
    ensures e in q && forall f :: f in q ==> !Earlier(f, e)
  {
    EarlierIsTotalOrder();
    LeastEntry(q, Earlier)
  }

  lemma FirstIsUnique(q: multiset<Entry>, e: Entry)
    requires e in q && forall f :: f in q ==> !Earlier(f, e)
    ensures e == First(q)
  {
    EarlierIsTotalOrder();
    assert !Earlier(e, First(q)) && !Earlier(First(q), e);
  }

  // ---------- The queue as a line ----------

  /** The entries in the order they leave. */
  ghost function Drained(q: multiset<Entry>): (line: seq<Entry>)
    ensures multiset(line) == q && |line| == |q|
    decreases |q|
  {
    if q == multiset{} then []
    else
      var e := First(q);
      assert q == multiset{e} + (q - multiset{e});
      [e] + Drained(q - multiset{e})
  }

  ghost predicate InLine(line: seq<Entry>) {
    forall i, j :: 0 <= i < j < |line| ==> !Earlier(line[j], line[i])
  }

  lemma {:induction false} DrainedInLine(q: multiset<Entry>)
    ensures InLine(Drained(q))
    decreases |q|
  {
    if q != multiset{} {
      var e := First(q);
      var rest := Drained(q - multiset{e});
      DrainedInLine(q - multiset{e});
      forall i | 0 <= i < |rest| ensures !Earlier(rest[i], e) {
        assert rest[i] in multiset(rest);
      }
      hide Earlier;
      FirstInLine(e, rest);
    }
  }

  lemma FirstInLine(e: Entry, rest: seq<Entry>)
    requires InLine(rest) && forall i :: 0 <= i < |rest| ==> !Earlier(rest[i], e)
    ensures InLine([e] + rest)
  {
    hide Earlier;
  }

  /** There is only one order. */
  lemma {:induction false} LineIsDrained(line: seq<Entry>)
    requires InLine(line)
    ensures line == Drained(multiset(line))
    decreases |line|
  {
    if line != [] {
      var q, rest := multiset(line), line[1..];
      assert line == [line[0]] + rest;
      LineIsDrained(rest);
      forall f | f in q ensures !Earlier(f, line[0]) {
        EarlierIsTotalOrder();
        var i :| 0 <= i < |line| && line[i] == f;
      }
      assert line[0] in q;
      FirstIsUnique(q, line[0]);
      assert q - multiset{line[0]} == multiset(rest);
    }
  }

  /** Behind every entry of at least the same priority. */
  function Pushed(line: seq<Entry>, e: Entry): (r: seq<Entry>)
    ensures |r| == |line| + 1
  {
    if line == [] || line[|line| - 1].rank <= e.rank then line + [e]
    else Pushed(line[..|line| - 1], e) + [line[|line| - 1]]
  }

  function SplicedEntry(line: seq<Entry>, e: Entry, p: nat, i: nat): Entry
    requires p <= |line| && i <= |line|
  {
    if i < p then line[i] else if i == p then e else line[i - 1]
  }

  /** `r` is `line` with `e` at position `p`, behind all entries of at least its priority. */
  ghost predicate Spliced(line: seq<Entry>, e: Entry, p: nat, r: seq<Entry>) {
    && p <= |line| && |r| == |line| + 1
    && (forall i :: 0 <= i < |r| ==> r[i] == SplicedEntry(line, e, p, i))
    && (p > 0 ==> line[p - 1].rank <= e.rank)
    && (forall i :: p <= i < |line| ==> line[i].rank > e.rank)
  }

  lemma {:induction false} PushedAt(line: seq<Entry>, e: Entry) returns (p: nat)
    ensures Spliced(line, e, p, Pushed(line, e))
  {
    p := |line|;
    if line != [] && line[|line| - 1].rank > e.rank {
      var n := |line| - 1;
      p := PushedAt(line[..n], e);
      assert forall i :: 0 <= i < n ==> line[..n][i] == line[i];
    }
  }

  lemma {:induction false} PushedContents(line: seq<Entry>, e: Entry)
    ensures multiset(Pushed(line, e)) == multiset(line) + multiset{e}
  {
    if line != [] && line[|line| - 1].rank > e.rank {
      var n := |line| - 1;
      PushedContents(line[..n], e);
      assert line == line[..n] + [line[n]];
    }
  }

  /** A new counter is behind all equals, so pushing is inserting in order. */
  lemma SplicedInLine(line: seq<Entry>, e: Entry, p: nat, r: seq<Entry>)
    requires Spliced(line, e, p, r) && InLine(line) && forall i :: 0 <= i < |line| ==> line[i].counter < e.counter
    ensures InLine(r)
  {
    forall i, j | 0 <= i < j < |r| ensures !Earlier(r[j], r[i]) {
      if i < p {
        assert i < p - 1 ==> !Earlier(line[p - 1], line[i]);
      }
    }
  }

  lemma PushedInLine(q: multiset<Entry>, e: Entry)
    requires forall f :: f in q ==> f.counter < e.counter
    ensures Pushed(Drained(q), e) == Drained(q + multiset{e})
  {
    var line := Drained(q);
    DrainedInLine(q);
    var p := PushedAt(line, e);
    PushedContents(line, e);
    forall i | 0 <= i < |line| ensures line[i].counter < e.counter {
      assert line[i] in multiset(line);
    }
    hide Drained, Pushed;
    SplicedInLine(line, e, p, Pushed(line, e));
    LineIsDrained(Pushed(line, e));
  }

  class PriorityQueue {
    var items: seq<Entry>
    var counter: nat

    ghost predicate Valid()
      reads this
    {
      IsHeap(items, Earlier) && forall e :: e in items ==> e.counter < counter
    }

    /** The entries in the order they leave. */
    ghost function Line(): seq<Entry>
      reads this
    {
      Drained(multiset(items))
    }

    constructor ()
      ensures Valid() && Line() == [] && counter == 0
    {
      items, counter := [], 0;
    }

    /** Stable: the item queues behind everything of at least its priority. */
    method Push(item: TaskId, priority: int)
      requires Valid()
      modifies this
      ensures Valid() && counter == old(counter) + 1
      ensures Line() == Pushed(old(Line()), Entry(-priority, old(counter), item))
    {
      hide Pushed, Drained;
      var e := Entry(-priority, counter, item);
      PushedInLine(multiset(items), e);
      EarlierIsTotalOrder();
      items := HeapPush(items, Earlier, e);
      counter := counter + 1;
      forall f | f in items ensures f.counter < counter {
        assert f in multiset(items);
      }
    }

    /** None is the IndexError of an empty queue. */
    method Pop() returns (item: Option<TaskId>)
      requires Valid()
      modifies `items
      ensures Valid()
      ensures item == if old(Line()) == [] then None else Some(old(Line())[0].item)
      ensures Line() == if old(Line()) == [] then [] else old(Line())[1..]
    {
      if items == [] {
        return None;
      }
      assert items[0] in multiset(items);
      EarlierIsTotalOrder();
      ghost var before := items;
      var e;
      e, items := HeapPop(items, Earlier);
      FirstIsUnique(multiset(before), e);
      forall f | f in items ensures f in before {
        assert f in multiset(items) && f in multiset(before);
      }
      return Some(e.item);
    }

    method Peek() returns (item: Option<TaskId>)
      requires Valid()
      ensures item == if Line() == [] then None else Some(Line()[0].item)
    {
      if items == [] {
        return None;
      }
      assert items[0] in multiset(items);
      EarlierIsTotalOrder();
      forall f | f in multiset(items) ensures !Earlier(f, items[0]) {
        var i :| 0 <= i < |items| && items[i] == f;
        RootIsLeast(items, Earlier, i);
      }
      FirstIsUnique(multiset(items), items[0]);
      return Some(items[0].item);
    }

    method Length() returns (n: nat)
      ensures n == |Line()|
    {
      n := |items|;
    }
  }
}
