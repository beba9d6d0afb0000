/** Paths and cycles in a directed graph, and the depth-first search of
    agentManager/engine/dag.py for a cycle in a graph plus one virtual edge. */
module Graphs {
  import opened Wrappers
  import opened Sequences
  import opened TaskKeys

  /** Successor lists, as a NetworkX digraph keeps them. */
  type Graph = map<TaskId, seq<TaskId>>
  type Edge = (TaskId, TaskId)

  ghost predicate Closed(g: Graph) {
    forall a, b :: a in g && b in g[a] ==> b in g
  }

  predicate HasEdge(g: Graph, a: TaskId, b: TaskId) {
    a in g && b in g[a]
  }

  ghost predicate IsPath(g: Graph, p: seq<TaskId>) {
    |p| > 0 && forall i :: 0 <= i < |p| - 1 ==> HasEdge(g, p[i], p[i + 1])
  }

  ghost predicate IsCycle(g: Graph, p: seq<TaskId>) {
    |p| >= 2 && p[0] == p[|p| - 1] && IsPath(g, p)
  }

  /** A cycle that meets no node twice, its first node repeated at the end. */
  ghost predicate IsSimpleCycle(g: Graph, p: seq<TaskId>) {
    IsCycle(g, p) && Distinct(p[..|p| - 1])
  }

  ghost predicate Acyclic(g: Graph) {
    forall p :: !IsCycle(g, p)
  }

  ghost predicate Reaches(g: Graph, a: TaskId, b: TaskId) {
    exists p :: IsPath(g, p) && p[0] == a && p[|p| - 1] == b
  }

  /** The graph the search sees: the stored one plus an edge not yet added. */
  function WithEdge(g: Graph, extra: Option<Edge>): (r: Graph)
    requires extra.Some? ==> extra.value.0 in g
    ensures r.Keys == g.Keys
    ensures forall a, b :: HasEdge(r, a, b) <==> HasEdge(g, a, b) || extra == Some((a, b))
  {
    if extra.Some? && extra.value.1 !in g[extra.value.0]
    then g[extra.value.0 := g[extra.value.0] + [extra.value.1]]
    else g
  }

  // ---------- Finishing orders ----------

  /** Every successor of an entry stands before it. */
  ghost predicate IsFinishingOrder(g: Graph, f: seq<TaskId>) {
    f == [] ||
    (var n := |f| - 1;
     IsFinishingOrder(g, f[..n]) && forall x :: HasEdge(g, f[n], x) ==> x in f[..n])
  }

  lemma {:induction false} SuccessorsFinishFirst(g: Graph, f: seq<TaskId>, i: nat, x: TaskId)
    requires IsFinishingOrder(g, f) && i < |f| && HasEdge(g, f[i], x)
    ensures x in f[..i]
  {
    var n := |f| - 1;
    if i < n {
      SuccessorsFinishFirst(g, f[..n], i, x);
      assert f[..n][..i] == f[..i];
    }
  }

  function FirstIndex(f: seq<TaskId>, x: TaskId): (i: nat)
    requires x in f
    ensures i < |f| && f[i] == x && x !in f[..i]
  {
    if f[0] == x then 0
    else
      assert f == [f[0]] + f[1..];
      assert forall k :: 0 < k <= |f| ==> f[..k] == [f[0]] + f[1..][..k - 1];
      1 + FirstIndex(f[1..], x)
  }

  lemma {:induction false} PathDescends(g: Graph, f: seq<TaskId>, p: seq<TaskId>)
    requires IsFinishingOrder(g, f) && IsPath(g, p) && p[0] in f
    ensures p[|p| - 1] in f
    ensures FirstIndex(f, p[|p| - 1]) <= FirstIndex(f, p[0]) - (|p| - 1)
  {
    if |p| > 1 {
      var i := FirstIndex(f, p[0]);
      SuccessorsFinishFirst(g, f, i, p[1]);
      var j :| 0 <= j < i && f[j] == p[1];
      assert p[1] in f;
      assert FirstIndex(f, p[1]) <= j;
      PathDescends(g, f, p[1..]);
    }
  }

  /** Whatever a finished node reaches is finished. */
  lemma FinishedIsClosed(g: Graph, f: seq<TaskId>, x: TaskId)
    requires IsFinishingOrder(g, f) && x in f
    ensures forall y :: Reaches(g, x, y) ==> y in f
  {
    forall y | Reaches(g, x, y) ensures y in f {
      var p :| IsPath(g, p) && p[0] == x && p[|p| - 1] == y;
      PathDescends(g, f, p);
    }
  }

  /** A finishing order of all nodes certifies that there is no cycle. */
  lemma FinishingOrderMeansAcyclic(g: Graph, f: seq<TaskId>)
    requires IsFinishingOrder(g, f)
    requires forall x :: x in g ==> x in f
    ensures Acyclic(g)
  {
    forall p ensures !IsCycle(g, p) {
      if IsCycle(g, p) {
        assert HasEdge(g, p[0], p[1]);
        PathDescends(g, f, p);
      }
    }
  }

  // ---------- Depth-first search ----------

  /** The nodes under visit: no node twice, each an edge after the one below it. */
  ghost predicate IsActiveStack(g: Graph, stack: seq<TaskId>) {
    stack == [] ||
    (var n := |stack| - 1;
     && IsActiveStack(g, stack[..n])
     && stack[n] !in stack[..n]
     && (n > 0 ==> HasEdge(g, stack[n - 1], stack[n])))
  }

  lemma {:induction false} ActiveStackSteps(g: Graph, stack: seq<TaskId>)
    requires IsActiveStack(g, stack)
    ensures Distinct(stack)
    ensures forall i :: 0 <= i < |stack| - 1 ==> HasEdge(g, stack[i], stack[i + 1])
  {
    if stack != [] {
      var n := |stack| - 1;
      var below := stack[..n];
      ActiveStackSteps(g, below);
      forall i | 0 <= i < n ensures HasEdge(g, stack[i], stack[i + 1]) {
        if i < n - 1 {
          assert HasEdge(g, below[i], below[i + 1]);
        }
      }
      assert forall i, j :: 0 <= i < j < n ==> below[i] != below[j];
    }
  }

  /** The state shared by the nested calls of `dfs` inside `_detect_cycle_path`. */
  class CycleSearch {
    const graph: Graph
    const extra: Option<Edge>

    var visiting: set<TaskId>
    var visited: set<TaskId>
    var stack: seq<TaskId>
    var stackIndex: map<TaskId, nat>
    /** Nodes in the order in which their visits ended. */
    ghost var finished: seq<TaskId>

    ghost function Searched(): Graph
      requires extra.Some? ==> extra.value.0 in graph
    {
      WithEdge(graph, extra)
    }

    ghost predicate WellFormed() {
      Closed(graph) && (extra.Some? ==> extra.value.0 in graph && extra.value.1 in graph)
    }

    ghost predicate Valid()
      reads this
    {
      && WellFormed()
      && IsActiveStack(Searched(), stack)
      && (forall i :: 0 <= i < |stack| ==> stack[i] in visiting)
      && stackIndex.Keys == visiting
      && (forall x :: x in stackIndex ==> stackIndex[x] < |stack| && stack[stackIndex[x]] == x)
      && visiting <= graph.Keys && visited <= graph.Keys && visiting !! visited
      && IsFinishingOrder(Searched(), finished)
      && (forall x :: x in visited <==> x in finished)
    }

    constructor (graph: Graph, extra: Option<Edge>)
      requires Closed(graph) && (extra.Some? ==> extra.value.0 in graph && extra.value.1 in graph)
      ensures Valid() && this.graph == graph && this.extra == extra
      ensures visiting == {} && visited == {} && stack == []
    {
      this.graph, this.extra := graph, extra;
      visiting, visited, stack, stackIndex, finished := {}, {}, [], map[], [];
    }

    /** `_successors_with_extra_edge` */
    method SuccessorsWithExtraEdge(node: TaskId) returns (successors: seq<TaskId>)
      requires WellFormed() && node in graph
      ensures successors == Searched()[node]
    {
      successors := graph[node];
      if extra.Some? && extra.value.0 == node && extra.value.1 !in successors {
        successors := successors + [extra.value.1];
      }
    }

    /** The opening lines of `dfs`: the node goes on the stack. */
    method Enter(node: TaskId)
      requires Valid() && node in graph && node !in visiting && node !in visited
      requires |stack| > 0 ==> HasEdge(Searched(), stack[|stack| - 1], node)
      modifies this
      ensures Valid() && visited == old(visited)
      ensures stack == old(stack) + [node] && visiting == old(visiting) + {node}
    {
      visiting := visiting + {node};
      stackIndex := stackIndex[node := |stack|];
      stack := stack + [node];
      assert stack[..|stack| - 1] == old(stack);
    }

    /** The closing lines of `dfs`: the node leaves the stack and is finished. */
    method Leave(node: TaskId)
      requires Valid() && |stack| > 0 && stack[|stack| - 1] == node
      requires forall x :: HasEdge(Searched(), node, x) ==> x in visited
      modifies this
      ensures Valid() && visited == old(visited) + {node}
      ensures stack == old(stack)[..|old(stack)| - 1] && visiting == old(visiting) - {node}
    {
      stack := stack[..|stack| - 1];
      stackIndex := stackIndex - {node};
      visiting := visiting - {node};
      visited := visited + {node};
      finished := finished + [node];
      assert finished[..|finished| - 1] == old(finished);
    }

    /** The stack from an active successor on, closed by the edge back to it. */
    method CloseCycle(successor: TaskId) returns (cycle: Option<seq<TaskId>>)
      requires Valid() && successor in visiting && |stack| > 0
      requires HasEdge(Searched(), stack[|stack| - 1], successor)
      ensures cycle.Some? && IsSimpleCycle(Searched(), cycle.value)
    {
      var start := stackIndex[successor];
      ActiveStackSteps(Searched(), stack);
      ClosingEdge(Searched(), stack, start);
      return Some(stack[start..] + [successor]);
    }

    ghost function Unvisited(): set<TaskId>
      reads this
    {
      graph.Keys - visiting - visited
    }

    /** The inner `dfs`: either every node reachable from `node` is finished and the
        stack is as before, or a cycle along the stack is returned. */
    method Dfs(node: TaskId) returns (cycle: Option<seq<TaskId>>)
      requires Valid() && node in graph && node !in visiting && node !in visited
      requires |stack| > 0 ==> HasEdge(Searched(), stack[|stack| - 1], node)
      modifies this
      ensures cycle.Some? ==> IsSimpleCycle(Searched(), cycle.value)
      ensures cycle.None? ==> Valid() && stack == old(stack) && visiting == old(visiting)
      ensures cycle.None? ==> old(visited) + {node} <= visited
      ensures cycle.None? ==> forall x :: Reaches(Searched(), node, x) ==> x in visited
      decreases Unvisited(), 0
    {
      Enter(node);
      var successors := SuccessorsWithExtraEdge(node);
      assert node in old(Unvisited()) && node !in Unvisited();
      cycle := FollowAll(successors);
      if cycle.None? {
        Leave(node);
        FinishedIsClosed(Searched(), finished, node);
      }
    }

    /** The loop in `dfs` over the successors of the node on top of the stack. */
    method FollowAll(successors: seq<TaskId>) returns (cycle: Option<seq<TaskId>>)
      requires Valid() && |stack| > 0
      requires forall x :: x in successors ==> HasEdge(Searched(), stack[|stack| - 1], x)
      modifies this
      ensures cycle.Some? ==> IsSimpleCycle(Searched(), cycle.value)
      ensures cycle.None? ==> Valid() && stack == old(stack) && visiting == old(visiting)
      ensures cycle.None? ==> old(visited) <= visited && forall x :: x in successors ==> x in visited
      decreases Unvisited(), 2
    {
      for i := 0 to |successors|
        invariant Valid() && stack == old(stack) && visiting == old(visiting)
        invariant old(visited) <= visited
        invariant forall j :: 0 <= j < i ==> successors[j] in visited
      {
        assert successors[i] in successors && Unvisited() <= old(Unvisited());
        cycle := Follow(successors[i]);
        if cycle.Some? {
          return;
        }
      }
      return None;
    }

    /** One turn of that loop. */
    method Follow(successor: TaskId) returns (cycle: Option<seq<TaskId>>)
      requires Valid() && |stack| > 0 && HasEdge(Searched(), stack[|stack| - 1], successor)
      modifies this
      ensures cycle.Some? ==> IsSimpleCycle(Searched(), cycle.value)
      ensures cycle.None? ==> Valid() && stack == old(stack) && visiting == old(visiting)
      ensures cycle.None? ==> old(visited) + {successor} <= visited
      decreases Unvisited(), 1
    {
      if successor in visiting {
        cycle := CloseCycle(successor);
      } else if successor !in visited {
        cycle := Dfs(successor);
      } else {
        cycle := None;
      }
    }
  }

  /** An edge from the top of the stack back into it closes a simple cycle. */
  lemma ClosingEdge(g: Graph, stack: seq<TaskId>, start: nat)
    requires Distinct(stack) && start < |stack|
    requires forall i :: 0 <= i < |stack| - 1 ==> HasEdge(g, stack[i], stack[i + 1])
    requires HasEdge(g, stack[|stack| - 1], stack[start])
    ensures IsSimpleCycle(g, stack[start..] + [stack[start]])
  {
    var c := stack[start..] + [stack[start]];
    forall i | 0 <= i < |c| - 1 ensures HasEdge(g, c[i], c[i + 1]) {
      assert c[i] == stack[start + i];
      if i + 1 < |c| - 1 {
        assert c[i + 1] == stack[start + i + 1];
      }
    }
    assert c[..|c| - 1] == stack[start..];
  }

  /** `_detect_cycle_path`: a cycle of the graph plus the virtual edge is reported exactly
      when there is one, and what is reported is a simple cycle. */
  method DetectCyclePath(order: seq<TaskId>, graph: Graph, extra: Option<Edge>)
    returns (cycle: Option<seq<TaskId>>)
    requires Closed(graph) && graph.Keys == (set x | x in order)
    requires extra.Some? ==> extra.value.0 in graph && extra.value.1 in graph
    ensures cycle.None? <==> Acyclic(WithEdge(graph, extra))
    ensures cycle.Some? ==> IsSimpleCycle(WithEdge(graph, extra), cycle.value)
  {
    var search := new CycleSearch(graph, extra);
    for i := 0 to |order|
      invariant search.Valid() && search.graph == graph && search.extra == extra
      invariant search.stack == []
      invariant forall j :: 0 <= j < i ==> order[j] in search.visited
    {
      if order[i] !in search.visited {
        cycle := search.Dfs(order[i]);
        if cycle.Some? {
          return;
        }
      }
    }
    FinishingOrderMeansAcyclic(WithEdge(graph, extra), search.finished);
    return None;
  }

  // ---------- What one more edge does ----------

  ghost predicate UsesEdge(c: seq<TaskId>, a: TaskId, b: TaskId) {
    exists i :: 0 <= i < |c| - 1 && c[i] == a && c[i + 1] == b
  }

  /** A cycle that only the new edge closes passes along that edge. */
  lemma CycleUsesNewEdge(g: Graph, a: TaskId, b: TaskId, c: seq<TaskId>)
    requires Acyclic(g) && a in g && IsCycle(WithEdge(g, Some((a, b))), c)
    ensures UsesEdge(c, a, b)
  {
    var w := WithEdge(g, Some((a, b)));
    if !UsesEdge(c, a, b) {
      forall i | 0 <= i < |c| - 1 ensures HasEdge(g, c[i], c[i + 1]) {
        assert HasEdge(w, c[i], c[i + 1]);
      }
      assert IsCycle(g, c);
    }
  }

  /** Entering a simple cycle behind its i-th edge and leaving before that edge. */
  function Rotation(c: seq<TaskId>, i: nat): (p: seq<TaskId>)
    requires i < |c| - 1
    ensures |p| == |c| - 1 && p[0] == c[i + 1]
    ensures c[0] == c[|c| - 1] ==> p[|p| - 1] == c[i]
  {
    c[i + 1..] + c[1..i + 1]
  }

  lemma RotationStep(c: seq<TaskId>, i: nat, k: nat) returns (m: nat)
    requires |c| >= 2 && c[0] == c[|c| - 1] && i < |c| - 1 && k < |c| - 2
    ensures m < |c| - 1 && m != i
    ensures Rotation(c, i)[k] == c[m] && Rotation(c, i)[k + 1] == c[m + 1]
  {
    var n := |c| - 1;
    if k < n - i - 1 {
      m := i + 1 + k;
    } else {
      m := k - (n - i - 1);
    }
  }

  /** Without the new edge, a simple cycle through it is a path from its target to its source. */
  lemma CycleGivesPathBack(g: Graph, a: TaskId, b: TaskId, c: seq<TaskId>)
    requires Acyclic(g) && a in g
    requires IsSimpleCycle(WithEdge(g, Some((a, b))), c)
    ensures UsesEdge(c, a, b) && Reaches(g, b, a)
  {
    var w := WithEdge(g, Some((a, b)));
    CycleUsesNewEdge(g, a, b, c);
    var i :| 0 <= i < |c| - 1 && c[i] == a && c[i + 1] == b;
    var p := Rotation(c, i);
    forall k | 0 <= k < |p| - 1 ensures HasEdge(g, p[k], p[k + 1]) {
      var m := RotationStep(c, i, k);
      assert HasEdge(w, c[m], c[m + 1]);
      var d := c[..|c| - 1];
      assert d[m] != d[i];
    }
    assert IsPath(g, p) && p[0] == b && p[|p| - 1] == a;
  }

  lemma PathBackGivesCycle(g: Graph, a: TaskId, b: TaskId)
    requires a in g && Reaches(g, b, a)
    ensures !Acyclic(WithEdge(g, Some((a, b))))
  {
    var w := WithEdge(g, Some((a, b)));
    var p :| IsPath(g, p) && p[0] == b && p[|p| - 1] == a;
    var c := p + [b];
    forall i | 0 <= i < |c| - 1 ensures HasEdge(w, c[i], c[i + 1]) {
      if i < |p| - 1 {
        assert HasEdge(g, p[i], p[i + 1]);
      }
    }
    assert IsCycle(w, c);
  }

  /** Adding an edge keeps the graph acyclic exactly when its target does not reach its source. */
  lemma EdgeKeepsAcyclicIff(g: Graph, a: TaskId, b: TaskId)
    requires Acyclic(g) && Closed(g) && a in g && b in g
    ensures Acyclic(WithEdge(g, Some((a, b)))) <==> !Reaches(g, b, a)
  {
    if Reaches(g, b, a) {
      PathBackGivesCycle(g, a, b);
    } else {
      var w := WithEdge(g, Some((a, b)));
      forall c ensures !IsCycle(w, c) {
        if IsCycle(w, c) {
          var s := SimpleSubcycle(w, c);
          CycleGivesPathBack(g, a, b, s);
        }
      }
    }
  }

  /** Every cycle contains a simple one. */
  lemma {:induction false} SimpleSubcycle(g: Graph, c: seq<TaskId>) returns (s: seq<TaskId>)
    requires IsCycle(g, c)
    ensures IsSimpleCycle(g, s)
    decreases |c|
  {
    var d := c[..|c| - 1];
    if Distinct(d) {
      return c;
    }
    var i, j :| 0 <= i < j < |d| && d[i] == d[j];
    s := SimpleSubcycle(g, c[i..j + 1]);
  }
}
