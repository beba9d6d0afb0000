/** The dependency graph of tasks: agentManager/engine/dag.py and the part of
    `create_task` in agentManager/api.py that changes it. */
module Dags {
  import opened Wrappers
  import opened Sequences
  import opened TaskKeys
  import opened Graphs

  datatype NodeStatus =
    | NodePending | NodeReady | NodeRunning | NodeVerifying
    | NodeCompleted | NodeFailed | NodeBlockedRepair | NodeBlockedHitl

  datatype DagNode = DagNode(dependencies: seq<TaskId>, priority: int, status: NodeStatus)

  /** `order` is the insertion order of the node dictionary. */
  datatype Dag = Dag(order: seq<TaskId>, nodes: map<TaskId, DagNode>, graph: Graph)

  datatype DagError = NodeExists | NodeNotFound | CycleFound(path: seq<TaskId>)

  ghost predicate WellFormed(d: Dag) {
    && Distinct(d.order)
    && (forall x :: x in d.order <==> x in d.nodes)
    && d.graph.Keys == d.nodes.Keys
    && Closed(d.graph)
    && Acyclic(d.graph)
  }

  /** Dependency lists say the same as the edges. */
  ghost predicate Mirrored(d: Dag) {
    forall a, b :: HasEdge(d.graph, a, b) <==> b in d.nodes && a in d.nodes[b].dependencies
  }

  // ---------- Runs of add_node and add_edge ----------

  const EMPTY_DAG := Dag([], map[], map[])

  datatype DagOp = AddNode(id: TaskId, node: DagNode) | AddEdge(source: TaskId, target: TaskId)

  ghost predicate Rejected(d: Dag, op: DagOp) {
    match op
    case AddNode(id, _) => id in d.nodes
    case AddEdge(a, b) => a !in d.nodes || b !in d.nodes || Reaches(d.graph, b, a)
  }

  function LinkDependency(node: DagNode, dependency: TaskId): DagNode {
    if dependency in node.dependencies then node
    else node.(dependencies := node.dependencies + [dependency])
  }

  ghost function Apply(d: Dag, op: DagOp): Dag
    requires WellFormed(d)
  {
    if Rejected(d, op) then d
    else match op
      case AddNode(id, node) =>
        Dag(d.order + [id], d.nodes[id := node], d.graph[id := []])
      case AddEdge(a, b) =>
        d.(nodes := d.nodes[b := LinkDependency(d.nodes[b], a)],
           graph := WithEdge(d.graph, Some((a, b))))
  }

  lemma IsolatedNodeKeepsAcyclic(g: Graph, id: TaskId)
    requires Acyclic(g) && id !in g
    ensures Acyclic(g[id := []])
  {
    var h := g[id := []];
    forall p ensures !IsCycle(h, p) {
      if IsCycle(h, p) {
        forall i | 0 <= i < |p| - 1 ensures HasEdge(g, p[i], p[i + 1]) {
          assert HasEdge(h, p[i], p[i + 1]);
        }
        assert IsCycle(g, p);
      }
    }
  }

  lemma ApplyKeepsWellFormed(d: Dag, op: DagOp)
    requires WellFormed(d)
    ensures WellFormed(Apply(d, op))
  {
    if !Rejected(d, op) {
      match op
      case AddNode(id, node) =>
        IsolatedNodeKeepsAcyclic(d.graph, id);
        var d' := Apply(d, op);
        assert forall x :: x in d'.order <==> x in d.order || x == id;
        assert id !in d.order;
      case AddEdge(a, b) =>
        EdgeKeepsAcyclicIff(d.graph, a, b);
        assert forall x, y :: HasEdge(Apply(d, op).graph, x, y) ==> HasEdge(d.graph, x, y) || y == b;
    }
  }

  lemma EmptyDagIsWellFormed()
    ensures WellFormed(EMPTY_DAG)
  {
    forall p ensures !IsCycle(EMPTY_DAG.graph, p) {
      if IsCycle(EMPTY_DAG.graph, p) {
        assert HasEdge(EMPTY_DAG.graph, p[0], p[1]);
      }
    }
  }

  /** The graph after a sequence of calls, each of them accepted or rejected. */
  ghost function AfterCalls(ops: seq<DagOp>): (d: Dag)
    ensures WellFormed(d)
  {
    if ops == [] then
      EmptyDagIsWellFormed();
      EMPTY_DAG
    else
      var before := AfterCalls(ops[..|ops| - 1]);
      var op := ops[|ops| - 1];
      ApplyKeepsWellFormed(before, op);
      Apply(before, op)
  }

  /** Whatever nodes and edges are offered, in whatever order, no cycle ever arises;
      and the graph refuses exactly the edges that would close one. */
  lemma EveryRunStaysAcyclic(ops: seq<DagOp>, source: TaskId, target: TaskId)
    ensures var d := AfterCalls(ops);
      && Acyclic(d.graph)
      && (source in d.nodes && target in d.nodes ==>
            (Rejected(d, AddEdge(source, target))
             <==> !Acyclic(WithEdge(d.graph, Some((source, target))))))
  {
    var d := AfterCalls(ops);
    if source in d.nodes && target in d.nodes {
      EdgeKeepsAcyclicIff(d.graph, source, target);
    }
  }

  // ---------- What the calls leave of the dependency lists ----------

  /** An accepted edge appends its source to the dependencies of its target unless it is listed
      there already, and touches nothing else: no other dependency, node, status or priority. */
  lemma EdgeKeepsRest(d: Dag, source: TaskId, target: TaskId)
    requires WellFormed(d) && !Rejected(d, AddEdge(source, target))
    ensures var r := Apply(d, AddEdge(source, target));
      && r.order == d.order && r.nodes.Keys == d.nodes.Keys
      && (forall x :: x in d.nodes && x != target ==> r.nodes[x] == d.nodes[x])
      && r.nodes[target].status == d.nodes[target].status && r.nodes[target].priority == d.nodes[target].priority
      && d.nodes[target].dependencies <= r.nodes[target].dependencies
      && r.nodes[target].dependencies[|d.nodes[target].dependencies|..]
         == (if source in d.nodes[target].dependencies then [] else [source])
      && (forall x, y :: HasEdge(r.graph, x, y) <==> HasEdge(d.graph, x, y) || (x == source && y == target))
  {
    hide WellFormed, Reaches;
  }

  /** A call keeps dependency lists and edges the same exactly if it adds no node that lists
      dependencies of its own. */
  lemma ApplyKeepsMirroredIff(d: Dag, op: DagOp)
    requires WellFormed(d) && Mirrored(d)
    ensures Mirrored(Apply(d, op)) <==> Rejected(d, op) || op.AddEdge? || op.node.dependencies == []
  {
    if !Rejected(d, op) {
      match op
      case AddNode(id, node) =>
        var r := Apply(d, op);
        assert forall x, y :: HasEdge(r.graph, x, y) ==> HasEdge(d.graph, x, y);
        assert forall x, y :: HasEdge(d.graph, x, y) ==> x in d.nodes && y in d.nodes;
        assert node.dependencies != [] ==> node.dependencies[0] in r.nodes[id].dependencies;
      case AddEdge(source, target) => EdgeKeepsRest(d, source, target);
    }
  }

  ghost predicate ListsOnce(d: Dag) {
    forall x :: x in d.nodes ==> Distinct(d.nodes[x].dependencies)
  }

  lemma ApplyKeepsListsOnce(d: Dag, op: DagOp)
    requires WellFormed(d) && ListsOnce(d) && (op.AddNode? ==> op.node.dependencies == [])
    ensures ListsOnce(Apply(d, op))
  {
    hide WellFormed, Reaches;
  }

  /** After any calls that add nodes without dependencies and then edges, accepted or refused,
      every dependency list says exactly what the edges say, each dependency once. */
  lemma {:induction false} EveryRunStaysMirrored(ops: seq<DagOp>)
    requires forall op :: op in ops && op.AddNode? ==> op.node.dependencies == []
    ensures Mirrored(AfterCalls(ops)) && ListsOnce(AfterCalls(ops))
  {
    hide Apply, Mirrored, ListsOnce, Rejected;
    if ops == [] {
      NothingIsMirrored();
    } else {
      var n := |ops| - 1;
      assert ops == ops[..n] + [ops[n]] && ops[n] in ops;
      EveryRunStaysMirrored(ops[..n]);
      ApplyKeepsMirroredIff(AfterCalls(ops[..n]), ops[n]);
      ApplyKeepsListsOnce(AfterCalls(ops[..n]), ops[n]);
    }
  }

  lemma NothingIsMirrored()
    ensures Mirrored(EMPTY_DAG) && ListsOnce(EMPTY_DAG)
  {
  }

  // ---------- Ready nodes ----------

  predicate IsReady(d: Dag, id: TaskId) {
    && id in d.nodes && d.nodes[id].status == NodePending
    && forall dep :: dep in d.nodes[id].dependencies ==> IsCompleted(d, dep)
  }

  /** The ready ids among `ids`, in their order. */
  function SelectReady(d: Dag, ids: seq<TaskId>): (r: seq<TaskId>)
    ensures forall x :: x in r <==> x in ids && IsReady(d, x)
  {
    if ids == [] then []
    else
      var rest := SelectReady(d, ids[..|ids| - 1]);
      var last := ids[|ids| - 1];
      assert ids == ids[..|ids| - 1] + [last];
      if IsReady(d, last) then rest + [last] else rest
  }

  /** The selection keeps the order and repeats nothing: it may be made piece by piece. */
  lemma {:induction false} SelectReadySplits(d: Dag, a: seq<TaskId>, b: seq<TaskId>)
    ensures SelectReady(d, a + b) == SelectReady(d, a) + SelectReady(d, b)
    ensures forall x :: SelectReady(d, [x]) == if IsReady(d, x) then [x] else []
  {
    hide IsReady;
    forall x ensures SelectReady(d, [x]) == if IsReady(d, x) then [x] else [] {
      assert [x][..0] == [] && SelectReady(d, []) == [];
    }
    if b == [] {
      assert a + b == a;
    } else {
      var n := |b| - 1;
      assert (a + b)[..|a + b| - 1] == a + b[..n];
      SelectReadySplits(d, a, b[..n]);
    }
  }

  function ReadyNodes(d: Dag): seq<TaskId> {
    SelectReady(d, d.order)
  }

  predicate IsCompleted(d: Dag, id: TaskId) {
    id in d.nodes && d.nodes[id].status == NodeCompleted
  }

  ghost predicate DanglingAt(d: Dag, dependencies: seq<TaskId>, k: int) {
    && 0 <= k < |dependencies| && dependencies[k] !in d.nodes
    && forall j :: 0 <= j < k ==> IsCompleted(d, dependencies[j])
  }

  /** The lookup of a dependency that is no node is reached: every earlier one is completed. */
  ghost predicate Dangling(d: Dag, id: TaskId) {
    && id in d.nodes && d.nodes[id].status == NodePending
    && exists k :: DanglingAt(d, d.nodes[id].dependencies, k)
  }

  lemma {:induction false} DistinctWithinBound(s: seq<TaskId>, bound: set<TaskId>)
    requires Distinct(s) && forall x :: x in s ==> x in bound
    ensures |s| <= |bound|
  {
    if s != [] {
      var n := |s| - 1;
      assert forall i :: 0 <= i < n ==> s[i] != s[n];
      DistinctWithinBound(s[..n], bound - {s[n]});
    }
  }

  /** Pending and completed nodes, closed under the dependencies of the pending ones. */
  ghost predicate Live(d: Dag, nodes: set<TaskId>) {
    forall x :: x in nodes ==>
      && x in d.nodes && d.nodes[x].status in {NodePending, NodeCompleted}
      && (d.nodes[x].status == NodePending ==> forall dep :: dep in d.nodes[x].dependencies ==> dep in nodes)
  }

  /** Within such nodes, walking back along unfinished dependencies must end, in a ready node. */
  lemma {:induction false} WalkBackToReady(d: Dag, nodes: set<TaskId>, p: seq<TaskId>) returns (ready: TaskId)
    requires WellFormed(d) && Mirrored(d) && Live(d, nodes)
    requires IsPath(d.graph, p) && Distinct(p)
    requires forall x :: x in p ==> x in nodes && x in d.nodes && d.nodes[x].status == NodePending
    ensures ready in nodes && IsReady(d, ready)
    decreases |d.nodes| - |p|
  {
    assert p[0] in p;
    if IsReady(d, p[0]) {
      return p[0];
    }
    DistinctWithinBound(p, d.nodes.Keys);
    var dep :| dep in d.nodes[p[0]].dependencies && !IsCompleted(d, dep);
    assert HasEdge(d.graph, dep, p[0]);
    assert dep in nodes && Acyclic(d.graph) && dep in d.nodes && d.nodes[dep].status == NodePending;
    ExtendedPath(d.graph, dep, p);
    hide WellFormed, Mirrored, Acyclic, IsPath, Distinct, IsReady, Live;
    var q := [dep] + p;
    assert forall x :: x in q ==> x == dep || x in p;
    DistinctWithinBound(q, d.nodes.Keys);
    ready := WalkBackToReady(d, nodes, q);
  }

  /** In an acyclic graph a path extended at its start does not meet itself. */
  lemma ExtendedPath(g: Graph, a: TaskId, p: seq<TaskId>)
    requires Acyclic(g) && IsPath(g, p) && Distinct(p) && HasEdge(g, a, p[0])
    ensures IsPath(g, [a] + p) && Distinct([a] + p)
  {
    var q := [a] + p;
    assert forall i :: 0 <= i < |q| - 1 ==> q[i + 1] == p[i] && (i > 0 ==> q[i] == p[i - 1]);
    forall i | 0 <= i < |q| - 1 ensures HasEdge(g, q[i], q[i + 1]) {
      if i > 0 {
        assert HasEdge(g, p[i - 1], p[i]);
      }
    }
    if i :| 0 <= i < |p| && p[i] == a {
      assert IsCycle(g, q[..i + 2]);
    }
  }

  /** No deadlock: among pending and completed nodes, closed under the dependencies of the
      pending ones, some node is ready if one is pending, whatever the other nodes are. */
  lemma NoDeadlock(d: Dag, nodes: set<TaskId>, pending: TaskId) returns (ready: TaskId)
    requires WellFormed(d) && Mirrored(d) && Live(d, nodes)
    requires pending in nodes && pending in d.nodes && d.nodes[pending].status == NodePending
    ensures ready in nodes && ready in ReadyNodes(d)
  {
    ready := WalkBackToReady(d, nodes, [pending]);
    assert ready in d.order;
  }

  /** Looking up the dependencies of the node in order, up to the first that is not completed, meets
      one that is no node. */
  predicate Unknown(nodes: map<TaskId, DagNode>, id: TaskId)
    requires id in nodes
  {
    var dependencies := nodes[id].dependencies;
    exists k :: 0 <= k < |dependencies| && dependencies[k] !in nodes
      && forall j :: 0 <= j < k ==> dependencies[j] in nodes && nodes[dependencies[j]].status == NodeCompleted
  }

  /** A pending node whose lookups meet such an id. */
  predicate Misled(nodes: map<TaskId, DagNode>, id: TaskId) {
    id in nodes && nodes[id].status == NodePending && Unknown(nodes, id)
  }

  lemma DanglingMeans(d: Dag, id: TaskId)
    ensures Dangling(d, id) <==> Misled(d.nodes, id)
  {
    if Dangling(d, id) {
      var k :| DanglingAt(d, d.nodes[id].dependencies, k);
      assert d.nodes[id].dependencies[k] !in d.nodes;
    }
    if Misled(d.nodes, id) {
      var dependencies := d.nodes[id].dependencies;
      var k :| 0 <= k < |dependencies| && dependencies[k] !in d.nodes
        && forall j :: 0 <= j < k ==> dependencies[j] in d.nodes && d.nodes[dependencies[j]].status == NodeCompleted;
      assert DanglingAt(d, dependencies, k);
    }
  }

  /** `Dangling`, on which the calls for the ready nodes fail, in terms of the nodes alone. */
  lemma SomeDangling(d: Dag)
    ensures (exists id :: Dangling(d, id)) <==> exists id :: Misled(d.nodes, id)
  {
    forall id ensures Dangling(d, id) <==> Misled(d.nodes, id) {
      DanglingMeans(d, id);
    }
    hide Dangling, Misled;
  }

  lemma ReadyNodesMean(d: Dag)
    requires WellFormed(d)
    ensures SelectReady(d, []) == [] && (forall id :: Dangling(d, id) ==> id in d.order)
    ensures forall id {:trigger id in d.order} :: id in d.order ==> id in d.nodes
    ensures forall id {:trigger id in ReadyNodes(d)} :: id in ReadyNodes(d) <==>
      && id in d.nodes && d.nodes[id].status == NodePending
      && forall dep :: dep in d.nodes[id].dependencies ==> dep in d.nodes && d.nodes[dep].status == NodeCompleted
  {
  }

  lemma SelectReadyStep(d: Dag, ids: seq<TaskId>, i: nat)
    requires i < |ids| && ids[i] in d.nodes
    ensures SelectReady(d, ids[..i + 1]) == SelectReady(d, ids[..i]) + if IsReady(d, ids[i]) then [ids[i]] else []
    ensures d.nodes[ids[i]].status == NodePending || (!IsReady(d, ids[i]) && !Dangling(d, ids[i]))
    ensures d.nodes[ids[i]].status == NodePending ==> (Dangling(d, ids[i]) <==> Unknown(d.nodes, ids[i]))
  {
    assert ids[..i + 1][..i] == ids[..i];
    DanglingMeans(d, ids[i]);
    hide Unknown, Dangling;
  }

  // ---------- The engine ----------

  class DagEngine {
    var order: seq<TaskId>
    var nodes: map<TaskId, DagNode>
    var graph: Graph

    ghost function View(): Dag
      reads this
    {
      Dag(order, nodes, graph)
    }

    ghost predicate Valid()
      reads this
    {
      WellFormed(View())
    }

    constructor ()
      ensures Valid() && View() == EMPTY_DAG
    {
      order, nodes, graph := [], map[], map[];
      EmptyDagIsWellFormed();
    }

    method AddNode(id: TaskId, node: DagNode) returns (r: Result<(), DagError>)
      requires Valid()
      modifies this
      ensures Valid() && View() == Apply(old(View()), DagOp.AddNode(id, node))
      ensures r == if id in old(nodes) then Err(NodeExists) else Ok(())
      ensures r.Err? ==> View() == old(View())
      ensures r.Ok? ==> nodes == old(nodes)[id := node] && order == old(order) + [id] && graph == old(graph)[id := []]
    {
      ghost var before := View();
      if id in nodes {
        return Err(NodeExists);
      }
      nodes := nodes[id := node];
      order := order + [id];
      graph := graph[id := []];
      ApplyKeepsWellFormed(before, DagOp.AddNode(id, node));
      return Ok(());
    }

    /** The edge is refused exactly when it would close a cycle; then the error carries
        a simple cycle through the refused edge, and nothing has changed. */
    method AddEdge(source: TaskId, target: TaskId) returns (r: Result<(), DagError>)
      requires Valid()
      modifies this
      ensures Valid() && View() == Apply(old(View()), DagOp.AddEdge(source, target))
      ensures r.Err? ==> View() == old(View())
      ensures r == Err(NodeNotFound) <==> source !in old(nodes) || target !in old(nodes)
      ensures source in old(nodes) && target in old(nodes) ==>
        (r.Err? <==> Reaches(old(graph), target, source))
      ensures r.Ok? ==>
        var before := old(nodes);
        var listed := before[target].dependencies;
        && order == old(order)
        && nodes == before[target := before[target].(
                             dependencies := if source in listed then listed else listed + [source])]
      ensures r.Err? && r.error != NodeNotFound ==>
        && r.error.CycleFound? && UsesEdge(r.error.path, source, target)
        && IsSimpleCycle(WithEdge(old(graph), Some((source, target))), r.error.path)
    {
      hide Acyclic, Closed, IsSimpleCycle, Reaches, UsesEdge;
      if source !in nodes || target !in nodes {
        return Err(NodeNotFound);
      }
      ghost var before := View();
      EdgeKeepsAcyclicIff(graph, source, target);
      var cycle := DetectCyclePath(order, graph, Some((source, target)));
      if cycle.Some? {
        CycleGivesPathBack(graph, source, target, cycle.value);
        return Err(CycleFound(cycle.value));
      }
      graph := WithEdge(graph, Some((source, target)));
      if source !in nodes[target].dependencies {
        nodes := nodes[target := nodes[target].(dependencies := nodes[target].dependencies + [source])];
      }
      assert nodes == before.nodes[target := LinkDependency(before.nodes[target], source)];
      ApplyKeepsWellFormed(before, DagOp.AddEdge(source, target));
      return Ok(());
    }

    /** `detect_cycle_path` on the stored graph never finds anything. */
    method DetectStoredCycle() returns (cycle: Option<seq<TaskId>>)
      requires Valid()
      ensures cycle.None?
    {
      cycle := DetectCyclePath(order, graph, None);
    }

    /** The inner `all(...)`: None is the KeyError for a dependency that is no node. */
    method DependenciesCompleted(id: TaskId) returns (r: Option<bool>)
      requires id in nodes && nodes[id].status == NodePending
      ensures r.None? <==> Dangling(View(), id)
      ensures r.None? <==> Unknown(nodes, id)
      ensures r.Some? ==> r.value == IsReady(View(), id)
    {
      DanglingMeans(View(), id);
      var dependencies := nodes[id].dependencies;
      for k := 0 to |dependencies|
        invariant forall j :: 0 <= j < k ==> IsCompleted(View(), dependencies[j])
      {
        if dependencies[k] !in nodes {
          assert DanglingAt(View(), dependencies, k);
          return None;
        }
        if nodes[dependencies[k]].status != NodeCompleted {
          assert !IsCompleted(View(), dependencies[k]);
          return Some(false);
        }
      }
      return Some(true);
    }

    /** Fails exactly when a pending node waits on an id that is no node and that the
        lookups reach; otherwise returns the ready nodes in insertion order. */
    method GetReadyNodes() returns (r: Option<seq<TaskId>>)
      requires Valid()
      ensures r.None? <==> exists id :: Dangling(View(), id)
      ensures r.Some? ==> r.value == ReadyNodes(View())
      ensures r.Some? ==> forall id :: id in r.value <==>
        && id in nodes && nodes[id].status == NodePending
        && forall dep :: dep in nodes[id].dependencies ==> dep in nodes && nodes[dep].status == NodeCompleted
    {
      ghost var d := View();
      ReadyNodesMean(d);
      hide Unknown, Dangling, SelectReady, IsReady, WellFormed;
      var ready := [];
      for i := 0 to |order|
        invariant ready == SelectReady(d, order[..i])
        invariant forall j :: 0 <= j < i ==> !Dangling(d, order[j])
      {
        var id := order[i];
        SelectReadyStep(d, order, i);
        if nodes[id].status == NodePending {
          var completed := DependenciesCompleted(id);
          if completed.None? {
            assert Dangling(d, id);
            return None;
          }
          if completed.value {
            ready := ready + [id];
          }
        }
      }
      assert order[..|order|] == order;
      return Some(ready);
    }

    method GetNode(id: TaskId) returns (node: Option<DagNode>)
      ensures node == if id in nodes then Some(nodes[id]) else None
    {
      return if id in nodes then Some(nodes[id]) else None;
    }

    method UpdateNodeStatus(id: TaskId, status: NodeStatus) returns (r: Result<(), DagError>)
      requires Valid()
      modifies `nodes
      ensures Valid()
      ensures r.Ok? <==> id in old(nodes)
      ensures View() == if id in old(nodes) then SetStatus(old(View()), id, status) else old(View())
      ensures nodes == if id in old(nodes) then old(nodes)[id := old(nodes[id]).(status := status)] else old(nodes)
    {
      if id !in nodes {
        return Err(NodeNotFound);
      }
      nodes := nodes[id := nodes[id].(status := status)];
      return Ok(());
    }
  }

  function SetStatus(d: Dag, id: TaskId, status: NodeStatus): (r: Dag)
    requires id in d.nodes
    ensures WellFormed(d) ==> WellFormed(r)
    ensures Mirrored(d) ==> Mirrored(r)
  {
    d.(nodes := d.nodes[id := d.nodes[id].(status := status)])
  }

  // ---------- create_task ----------

  datatype CreateError = TaskExists | DependencyNotFound(dependency: TaskId)

  /** A node without outgoing edges reaches only itself. */
  lemma SinkReachesOnlyItself(g: Graph, a: TaskId, b: TaskId)
    requires Reaches(g, a, b) && forall x :: !HasEdge(g, a, x)
    ensures a == b
  {
    var p :| IsPath(g, p) && p[0] == a && p[|p| - 1] == b;
    if |p| > 1 {
      assert HasEdge(g, p[0], p[1]);
    }
  }

  /** An edge into a node without outgoing edges is never refused. */
  method LinkNewTask(dag: DagEngine, dep: TaskId, id: TaskId)
    requires dag.Valid() && dep in dag.nodes && dep != id
    requires id in dag.nodes && dep in dag.nodes[id].dependencies
    requires forall x :: !HasEdge(dag.graph, id, x)
    modifies dag
    ensures dag.Valid() && dag.nodes == old(dag.nodes) && dag.order == old(dag.order)
    ensures forall a, b :: HasEdge(dag.graph, a, b) <==>
      HasEdge(old(dag.graph), a, b) || (b == id && a == dep)
  {
    if Reaches(dag.graph, id, dep) {
      SinkReachesOnlyItself(dag.graph, id, dep);
    }
    var r := dag.AddEdge(dep, id);
    assert r.Ok?;
  }

  /** The loop over the dependencies of a new task. */
  method LinkAll(dag: DagEngine, dependencies: seq<TaskId>, id: TaskId)
    requires dag.Valid() && id in dag.nodes && dag.nodes[id].dependencies == dependencies
    requires forall dep :: dep in dependencies ==> dep in dag.nodes && dep != id
    requires forall x :: !HasEdge(dag.graph, id, x)
    modifies dag
    ensures dag.Valid() && dag.nodes == old(dag.nodes)
    ensures forall a, b :: HasEdge(dag.graph, a, b) <==>
      HasEdge(old(dag.graph), a, b) || (b == id && a in dependencies)
  {
    for i := 0 to |dependencies|
      invariant dag.Valid() && dag.nodes == old(dag.nodes)
      invariant forall a, b :: HasEdge(dag.graph, a, b) <==>
        HasEdge(old(dag.graph), a, b) || (b == id && a in dependencies[..i])
    {
      assert dependencies[..i + 1] == dependencies[..i] + [dependencies[i]];
      assert dependencies[i] in dependencies;
      LinkNewTask(dag, dependencies[i], id);
    }
    assert dependencies[..|dependencies|] == dependencies;
  }

  /** The DAG part of `create_task`: unknown dependencies are refused before anything is
      changed, and a task that passes gets exactly one edge from each dependency. */
  method CreateTask(dag: DagEngine, id: TaskId, dependencies: seq<TaskId>, priority: int)
    returns (r: Result<(), CreateError>)
    requires dag.Valid()
    modifies dag
    ensures dag.Valid()
    ensures r == Err(TaskExists) <==> id in old(dag.nodes)
    ensures r.Ok? <==> id !in old(dag.nodes) && forall dep :: dep in dependencies ==> dep in old(dag.nodes)
    ensures r.Err? ==> dag.View() == old(dag.View())
    ensures r.Ok? ==> dag.nodes == old(dag.nodes)[id := DagNode(dependencies, priority, NodePending)]
    ensures r.Ok? ==> forall a, b :: HasEdge(dag.graph, a, b) <==>
      HasEdge(old(dag.graph), a, b) || (b == id && a in dependencies)
    ensures old(Mirrored(dag.View())) ==> Mirrored(dag.View())
  {
    if id in dag.nodes {
      return Err(TaskExists);
    }
    for i := 0 to |dependencies|
      invariant forall j :: 0 <= j < i ==> dependencies[j] in dag.nodes
    {
      if dependencies[i] !in dag.nodes {
        return Err(DependencyNotFound(dependencies[i]));
      }
    }
    var _ := dag.AddNode(id, DagNode(dependencies, priority, NodePending));
    assert forall a, b :: HasEdge(dag.graph, a, b) <==> HasEdge(old(dag.graph), a, b);
    LinkAll(dag, dependencies, id);
    return Ok(());
  }
}
