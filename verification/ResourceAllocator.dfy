/** Resources granted to tasks: agentManager/scheduler/resource_allocator.py, with real amounts. */
module ResourceAllocation {
  import opened TaskKeys

  datatype Resources = Resources(cpu: real, memory: real, gpu: real)

  const NOTHING := Resources(0.0, 0.0, 0.0)

  function Plus(a: Resources, b: Resources): Resources {
    Resources(a.cpu + b.cpu, a.memory + b.memory, a.gpu + b.gpu)
  }

  predicate AtMost(a: Resources, b: Resources) {
    a.cpu <= b.cpu && a.memory <= b.memory && a.gpu <= b.gpu
  }

  type Allocations = map<TaskId, Resources>

  /** The sum of all allocations. */
  ghost function Total(m: Allocations): Resources
    decreases |m|
  {
    if m == map[] then NOTHING
    else
      var id :| id in m;
      Plus(Total(m - {id}), m[id])
  }

  /** It may be taken apart at any task. */
  lemma {:induction false} TotalSplits(m: Allocations, id: TaskId)
    requires id in m
    ensures Total(m) == Plus(Total(m - {id}), m[id])
    decreases |m|
  {
    var other :| other in m && Total(m) == Plus(Total(m - {other}), m[other]);
    if other != id {
      var rest := m - {other} - {id};
      assert m - {id} - {other} == rest;
      TotalSplits(m - {other}, id);
      TotalSplits(m - {id}, other);
      var a, b, c := Total(rest), m[id], m[other];
      assert Total(m - {other}) == Plus(a, b) && Total(m - {id}) == Plus(a, c);
      PlusCommutes(a, b, c);
    }
  }

  lemma PlusCommutes(a: Resources, b: Resources, c: Resources)
    ensures Plus(Plus(a, b), c) == Plus(Plus(a, c), b)
  {
  }

  function Cpu(r: Resources): real {
    r.cpu
  }

  function Memory(r: Resources): real {
    r.memory
  }

  function Gpu(r: Resources): real {
    r.gpu
  }

  /** The sum of one amount over all allocations. */
  ghost function SumOf(m: Allocations, amount: Resources -> real): real
    decreases |m|
  {
    if m == map[] then 0.0
    else
      var id :| id in m;
      SumOf(m - {id}, amount) + amount(m[id])
  }

  lemma {:induction false} SumSplits(m: Allocations, amount: Resources -> real, id: TaskId)
    requires id in m
    ensures SumOf(m, amount) == SumOf(m - {id}, amount) + amount(m[id])
    decreases |m|
  {
    var other :| other in m && SumOf(m, amount) == SumOf(m - {other}, amount) + amount(m[other]);
    if other != id {
      assert m - {id} - {other} == m - {other} - {id};
      SumSplits(m - {other}, amount, id);
      SumSplits(m - {id}, amount, other);
    }
  }

  /** The three resources are summed separately, each over every task. */
  lemma {:induction false} TotalSums(m: Allocations)
    ensures Total(m) == Resources(SumOf(m, Cpu), SumOf(m, Memory), SumOf(m, Gpu))
    decreases |m|
  {
    if m != map[] {
      var id :| id in m;
      TotalSplits(m, id);
      SumSplits(m, Cpu, id);
      SumSplits(m, Memory, id);
      SumSplits(m, Gpu, id);
      TotalSums(m - {id});
    }
  }

  predicate NonNegative(m: Allocations) {
    forall id :: id in m ==> AtMost(NOTHING, m[id])
  }

  ghost predicate Within(m: Allocations, totals: Resources) {
    AtMost(Total(m), totals)
  }

  ghost predicate HasRoom(m: Allocations, totals: Resources, request: Resources) {
    AtMost(Plus(Total(m), request), totals)
  }

  lemma AddedTotal(m: Allocations, id: TaskId, request: Resources)
    requires id !in m
    ensures Total(m[id := request]) == Plus(Total(m), request)
  {
    TotalSplits(m[id := request], id);
    assert m[id := request] - {id} == m;
  }

  class ResourceAllocator {
    const totals: Resources
    var allocations: Allocations

    constructor (totals: Resources)
      ensures this.totals == totals && allocations == map[]
    {
      this.totals := totals;
      allocations := map[];
    }

    method GetAllocated() returns (sum: Resources)
      ensures sum == Total(allocations)
    {
      sum := NOTHING;
      var rest := allocations;
      while rest != map[]
        invariant Plus(sum, Total(rest)) == Total(allocations)
        decreases |rest|
      {
        var id :| id in rest;
        TotalSplits(rest, id);
        sum := Plus(sum, rest[id]);
        rest := rest - {id};
      }
    }

    method GetAvailable() returns (available: Resources)
      ensures Plus(available, Total(allocations)) == totals
    {
      var used := GetAllocated();
      available := Resources(totals.cpu - used.cpu, totals.memory - used.memory, totals.gpu - used.gpu);
    }

    method CanAllocate(request: Resources) returns (fits: bool)
      ensures fits == HasRoom(allocations, totals, request)
      ensures var used := Total(allocations);
        fits <==> && used.cpu + request.cpu <= totals.cpu && used.memory + request.memory <= totals.memory
                  && used.gpu + request.gpu <= totals.gpu
    {
      var available := GetAvailable();
      fits := available.cpu >= request.cpu && available.memory >= request.memory && available.gpu >= request.gpu;
    }

    /** Grants exactly what fits and is not granted already, so sums stay within the totals. */
    method Allocate(id: TaskId, request: Resources) returns (ok: bool)
      modifies this
      ensures ok <==> id !in old(allocations) && HasRoom(old(allocations), totals, request)
      ensures ok <==>
        var used := Total(old(allocations));
        && id !in old(allocations) && used.cpu + request.cpu <= totals.cpu
        && used.memory + request.memory <= totals.memory && used.gpu + request.gpu <= totals.gpu
      ensures allocations == if ok then old(allocations)[id := request] else old(allocations)
      ensures Within(old(allocations), totals) ==> Within(allocations, totals)
      ensures ok ==> Within(allocations, totals)
    {
      if id in allocations {
        return false;
      }
      ok := CanAllocate(request);
      if ok {
        AddedTotal(allocations, id, request);
        allocations := allocations[id := request];
      }
    }

    method Release(id: TaskId)
      modifies this
      ensures allocations == old(allocations) - {id}
      ensures NonNegative(old(allocations)) && Within(old(allocations), totals) ==> Within(allocations, totals)
    {
      if id in allocations {
        TotalSplits(allocations, id);
      } else {
        assert allocations - {id} == allocations;
      }
      allocations := allocations - {id};
    }
  }
}
