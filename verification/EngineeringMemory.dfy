/** The engineering memory: agentManager/memory/engineering_memory.py over the in-process
    index of agentManager/memory/vector_backend.py.  Reading tokens out of a stored value and
    out of a query are functions passed in; the table is a map. */
module EngineeringMemories {
  import opened Wrappers
  import opened Sequences
  import opened Sorting

  type Token = string

  /** A stored JSON value; `null` is read back as "no value". */
  datatype Value = NullValue | JsonValue(json: string)

  datatype Slot = Slot(namespace: string, key: string)

  datatype Hit = Hit(key: string, score: real)

  datatype Found = Found(key: string, value: Value, similarity: real)

  // ---------- Scores ----------

  function Jaccard(a: set<Token>, b: set<Token>): real {
    if a + b == {} then 0.0 else |a * b| as real / |a + b| as real
  }

  lemma {:induction false} SubsetCounts(a: set<Token>, b: set<Token>)
    requires a <= b
    ensures |a| <= |b| && (|a| == |b| ==> a == b)
  {
    if a != {} {
      var x :| x in a;
      SubsetCounts(a - {x}, b - {x});
    }
  }

  /** The share of the common tokens in all of them. */
  predicate IsShare(score: real, a: set<Token>, b: set<Token>) {
    score * |a + b| as real == |a * b| as real
  }

  /** A score is that share, so between 0 and 1, 0 exactly without a common token, 1 exactly for
      the same tokens, and the same both ways round. */
  lemma JaccardMeans(a: set<Token>, b: set<Token>)
    ensures a + b != {} ==> forall score :: score == Jaccard(a, b) <==> IsShare(score, a, b)
    ensures a + b == {} ==> Jaccard(a, b) == 0.0
    ensures 0.0 <= Jaccard(a, b) <= 1.0
    ensures Jaccard(a, b) > 0.0 <==> a * b != {}
    ensures Jaccard(a, b) == 1.0 <==> a == b && a != {}
    ensures Jaccard(a, b) == Jaccard(b, a)
  {
    assert a + b == b + a && a * b == b * a;
    if a + b != {} {
      SubsetCounts(a * b, a + b);
      var n, d := |a * b| as real, |a + b| as real;
      assert d > 0.0 && n <= d && Jaccard(a, b) == n / d;
      DivisionBounds(n, d);
      forall score ensures score == n / d <==> IsShare(score, a, b) {
        QuotientIsUnique(n, d, score);
      }
      assert a * b == a + b <==> a == b;
      assert |a * b| == 0 <==> a * b == {};
    }
  }

  lemma QuotientIsUnique(n: real, d: real, q: real)
    requires d > 0.0
    ensures q == n / d <==> q * d == n
  {
    assert n / d * d == n;
    if q * d == n {
      assert (q - n / d) * d == 0.0;
    }
  }

  /** Shares compare by cross-multiplied counts. */
  lemma SharesCompare(a: set<Token>, b: set<Token>, query: set<Token>, x: real, y: real)
    requires a * query != {} && b * query != {} && IsShare(x, a, query) && IsShare(y, b, query)
    ensures x >= y <==> |a * query| * |b + query| >= |b * query| * |a + query|
  {
    var n, d, m, e := |a * query|, |a + query|, |b * query|, |b + query|;
    SubsetCounts(a * query, a + query);
    SubsetCounts(b * query, b + query);
    assert n > 0 && m > 0;
    CrossMultiplied(n, d, m, e, x, y);
  }

  lemma CrossMultiplied(n: nat, d: nat, m: nat, e: nat, x: real, y: real)
    requires d > 0 && e > 0 && x * d as real == n as real && y * e as real == m as real
    ensures x >= y <==> n * e >= m * d
  {
    var dr, er := d as real, e as real;
    assert (n * e) as real == n as real * er && (m * d) as real == m as real * dr;
    assert n as real * er == x * dr * er && m as real * dr == y * er * dr;
    assert (n * e) as real - (m * d) as real == (x - y) * (dr * er);
    PositiveFactor(x - y, dr * er);
  }

  lemma PositiveFactor(a: real, b: real)
    requires b > 0.0
    ensures a * b >= 0.0 <==> a >= 0.0
  {
    if a < 0.0 {
      assert (-a) * b > 0.0;
    }
  }

  lemma DivisionBounds(n: real, d: real)
    requires 0.0 <= n <= d && d > 0.0
    ensures 0.0 <= n / d <= 1.0
    ensures n / d > 0.0 <==> n > 0.0
    ensures n / d == 1.0 <==> n == d
  {
    assert n / d * d == n;
  }

  // ---------- The index ----------

  /** One namespace of the index: a dictionary, so with an order of keys. */
  datatype Names = Names(keys: seq<string>, tokens: map<string, set<Token>>)

  type Index = map<string, Names>

  /** Keys once each, and none empty. */
  ghost predicate NamesSound(n: Names) {
    && "" !in n.tokens
    && (forall i, j :: 0 <= i < j < |n.keys| ==> n.keys[i] != n.keys[j])
    && forall k :: k in n.keys <==> k in n.tokens
  }

  function NamesOf(index: Index, namespace: string): Names {
    if namespace in index then index[namespace] else Names([], map[])
  }

  function Upserted(index: Index, namespace: string, key: string, tokens: set<Token>): Index {
    var n := NamesOf(index, namespace);
    index[namespace := Names(if key in n.tokens then n.keys else n.keys + [key], n.tokens[key := tokens])]
  }

  function Without(keys: seq<string>, key: string): seq<string> {
    if keys == [] then []
    else
      var rest := Without(keys[..|keys| - 1], key);
      if keys[|keys| - 1] == key then rest else rest + [keys[|keys| - 1]]
  }

  function Removed(index: Index, namespace: string, key: string): Index {
    if key !in NamesOf(index, namespace).tokens then index
    else
      var n := NamesOf(index, namespace);
      index[namespace := Names(Without(n.keys, key), n.tokens - {key})]
  }

  /** The entries with a positive score, in dictionary order. */
  function Scored(keys: seq<string>, tokens: map<string, set<Token>>, query: set<Token>): seq<Hit> {
    if keys == [] then []
    else
      var n := |keys| - 1;
      var before := Scored(keys[..n], tokens, query);
      if keys[n] in tokens && Jaccard(tokens[keys[n]], query) > 0.0
      then before + [Hit(keys[n], Jaccard(tokens[keys[n]], query))] else before
  }

  function Larger(a: int, b: int): int {
    if a < b then b else a
  }

  /** Python's `s[:limit]`, which counts a negative limit from the end. */
  function Slice(s: seq<Hit>, limit: int): (r: seq<Hit>)
    ensures r <= s
    ensures |r| == if limit >= |s| then |s| else if limit >= 0 then limit else Larger(0, |s| + limit)
    ensures r == [] <==> s == [] || limit == 0 || limit <= -|s|
  {
    if limit >= |s| then s else if limit >= 0 then s[..limit] else if |s| + limit > 0 then s[..|s| + limit] else []
  }

  function Ranked(n: Names, query: set<Token>): seq<Hit> {
    SortDescending(Scored(n.keys, n.tokens, query), (h: Hit) => h.score)
  }

  class InMemoryVectorSearchBackend {
    var index: Index

    constructor ()
      ensures index == map[]
    {
      index := map[];
    }

    method Upsert(namespace: string, key: string, tokens: set<Token>)
      modifies this
      ensures index == Upserted(old(index), namespace, key, tokens)
      ensures var before := NamesOf(old(index), namespace);
        && namespace in index && index[namespace].tokens == before.tokens[key := tokens]
        && index[namespace].keys == (if key in before.tokens then before.keys else before.keys + [key])
        && index - {namespace} == old(index) - {namespace}
    {
      if namespace !in index {
        index := index[namespace := Names([], map[])];
      }
      var n := index[namespace];
      if key !in n.tokens {
        n := n.(keys := n.keys + [key]);
      }
      index := index[namespace := n.(tokens := n.tokens[key := tokens])];
    }

    method Remove(namespace: string, key: string) returns (removed: bool)
      modifies this
      ensures index == Removed(old(index), namespace, key)
      ensures removed <==> key in NamesOf(old(index), namespace).tokens
      ensures !removed ==> index == old(index)
      ensures removed ==>
        var before := NamesOf(old(index), namespace);
        && namespace in index && index[namespace].tokens == before.tokens - {key}
        && index[namespace].keys == Without(before.keys, key) && index - {namespace} == old(index) - {namespace}
    {
      if namespace !in index || key !in index[namespace].tokens {
        return false;
      }
      var n := index[namespace];
      index := index[namespace := Names(Without(n.keys, key), n.tokens - {key})];
      return true;
    }

    method Query(namespace: string, query: set<Token>, limit: int) returns (hits: seq<Hit>)
      requires NamesSound(NamesOf(index, namespace))
      ensures hits == Slice(Ranked(NamesOf(index, namespace), query), limit)
    {
      var n := NamesOf(index, namespace);
      var filtered: seq<Hit> := [];
      for i := 0 to |n.keys|
        invariant filtered == Scored(n.keys[..i], n.tokens, query)
      {
        assert n.keys[..i + 1][..i] == n.keys[..i];
        assert n.keys[i] in n.keys;
        var score := Jaccard(n.tokens[n.keys[i]], query);
        if score > 0.0 {
          filtered := filtered + [Hit(n.keys[i], score)];
        }
      }
      assert n.keys[..|n.keys|] == n.keys;
      hits := Slice(SortDescending(filtered, (h: Hit) => h.score), limit);
    }

    /** An empty namespace counts as none and stays. */
    method Clear(namespace: string) returns (count: nat)
      modifies this
      ensures count == |NamesOf(old(index), namespace).tokens|
      ensures index == if count == 0 then old(index) else old(index) - {namespace}
    {
      if namespace !in index || index[namespace].tokens == map[] {
        return 0;
      }
      count := |index[namespace].tokens|;
      index := index - {namespace};
    }
  }

  // ---------- Index and store ----------

  datatype Memory = Memory(store: map<Slot, Value>, index: Index)

  /** Reading tokens out of a stored value; None where that raises, as for tags that cannot be
      iterated. */
  type Reader = Value -> Option<set<Token>>

  ghost predicate IndexSound(index: Index) {
    forall namespace :: namespace in index ==> NamesSound(index[namespace])
  }

  function Stored(m: Memory, slot: Slot): Option<Value> {
    if slot in m.store then Some(m.store[slot]) else None
  }

  function Indexed(m: Memory, slot: Slot): Option<set<Token>> {
    var tokens := NamesOf(m.index, slot.namespace).tokens;
    if slot.key in tokens then Some(tokens[slot.key]) else None
  }

  /** The slot is indexed exactly if it is stored, with the tokens of its value. */
  predicate AgreesAt(m: Memory, reader: Reader, slot: Slot) {
    match Stored(m, slot)
    case None => Indexed(m, slot).None?
    case Some(value) => Indexed(m, slot).Some? && Indexed(m, slot) == reader(value)
  }

  datatype MemoryOp =
    | Put(namespace: string, key: string, value: Value)
    | Delete(namespace: string, key: string)
    | Clear(namespace: string)

  function InNamespace(store: map<Slot, Value>, namespace: string): set<Slot> {
    set slot | slot in store && slot.namespace == namespace
  }

  /** The row is committed before the value is read: nothing is indexed where that raises. */
  function Reindexed(index: Index, namespace: string, key: string, tokens: Option<set<Token>>): Index {
    if tokens.Some? then Upserted(index, namespace, key, tokens.value) else index
  }

  function Apply(m: Memory, op: MemoryOp, reader: Reader): Memory {
    match op
    case Put(namespace, key, value) =>
      if namespace == "" || key == "" then m
      else Memory(m.store[Slot(namespace, key) := value], Reindexed(m.index, namespace, key, reader(value)))
    case Delete(namespace, key) =>
      if namespace == "" || key == "" then m
      else Memory(m.store - {Slot(namespace, key)}, Removed(m.index, namespace, key))
    case Clear(namespace) =>
      if namespace == "" then m
      else Memory(m.store - InNamespace(m.store, namespace),
                  if NamesOf(m.index, namespace).tokens == map[] then m.index else m.index - {namespace})
  }

  lemma {:induction false} WithoutIs(keys: seq<string>, key: string)
    requires forall i, j :: 0 <= i < j < |keys| ==> keys[i] != keys[j]
    ensures forall k :: k in Without(keys, key) <==> k in keys && k != key
    ensures forall i, j :: 0 <= i < j < |Without(keys, key)| ==> Without(keys, key)[i] != Without(keys, key)[j]
  {
    if keys != [] {
      var n := |keys| - 1;
      WithoutIs(keys[..n], key);
      assert keys == keys[..n] + [keys[n]];
      assert keys[n] !in keys[..n];
    }
  }

  /** The other keys keep their order. */
  lemma {:induction false} WithoutSplits(a: seq<string>, b: seq<string>, key: string)
    ensures Without(a + b, key) == Without(a, key) + Without(b, key)
    ensures Without([key], key) == []
  {
    assert [key][..0] == [];
    if b == [] {
      assert a + b == a;
    } else {
      var n := |b| - 1;
      assert (a + b)[..|a + b| - 1] == a + b[..n];
      WithoutSplits(a, b[..n], key);
    }
  }

  lemma UpsertKeepsSound(index: Index, namespace: string, key: string, tokens: set<Token>)
    requires IndexSound(index) && key != ""
    ensures IndexSound(Upserted(index, namespace, key, tokens))
  {
    var n, r := NamesOf(index, namespace), Upserted(index, namespace, key, tokens)[namespace];
    assert NamesSound(n);
    assert forall k :: k in r.keys <==> k in n.keys || k == key;
  }

  lemma RemoveKeepsSound(index: Index, namespace: string, key: string)
    requires IndexSound(index)
    ensures IndexSound(Removed(index, namespace, key))
  {
    if key in NamesOf(index, namespace).tokens {
      assert NamesSound(index[namespace]);
      WithoutIs(index[namespace].keys, key);
    }
  }

  lemma ApplyKeepsSound(m: Memory, op: MemoryOp, reader: Reader)
    requires IndexSound(m.index)
    ensures IndexSound(Apply(m, op, reader).index)
  {
    match op
    case Put(namespace, key, value) =>
      if key != "" && reader(value).Some? {
        UpsertKeepsSound(m.index, namespace, key, reader(value).value);
      }
    case Delete(namespace, key) => RemoveKeepsSound(m.index, namespace, key);
    case Clear(namespace) =>
  }

  /** The memory after any calls, one at a time. */
  ghost function AfterCalls(ops: seq<MemoryOp>, reader: Reader): (m: Memory)
    ensures IndexSound(m.index)
  {
    if ops == [] then Memory(map[], map[])
    else
      var before := AfterCalls(ops[..|ops| - 1], reader);
      ApplyKeepsSound(before, ops[|ops| - 1], reader);
      Apply(before, ops[|ops| - 1], reader)
  }

  // ---------- What a run of calls leaves in a slot ----------

  predicate Accepted(op: MemoryOp) {
    op.namespace != "" && (op.Clear? || op.key != "")
  }

  predicate PutsInto(op: MemoryOp, slot: Slot) {
    op.Put? && Accepted(op) && Slot(op.namespace, op.key) == slot
  }

  predicate Wipes(op: MemoryOp, slot: Slot) {
    && Accepted(op) && op.namespace == slot.namespace
    && (op.Clear? || (op.Delete? && op.key == slot.key))
  }

  /** The last value put into the slot since it was last deleted or cleared. */
  function LastPut(ops: seq<MemoryOp>, slot: Slot): Option<Value> {
    if ops == [] then None
    else
      var op := ops[|ops| - 1];
      if PutsInto(op, slot) then Some(op.value)
      else if Wipes(op, slot) then None else LastPut(ops[..|ops| - 1], slot)
  }

  /** The tokens of the last readable one of these. */
  function LastRead(ops: seq<MemoryOp>, slot: Slot, reader: Reader): Option<set<Token>> {
    if ops == [] then None
    else
      var op := ops[|ops| - 1];
      if PutsInto(op, slot) && reader(op.value).Some? then reader(op.value)
      else if Wipes(op, slot) then None else LastRead(ops[..|ops| - 1], slot, reader)
  }

  lemma StepOfStore(m: Memory, op: MemoryOp, reader: Reader, slot: Slot)
    ensures Stored(Apply(m, op, reader), slot) ==
      if PutsInto(op, slot) then Some(op.value) else if Wipes(op, slot) then None else Stored(m, slot)
  {
  }

  lemma StepOfIndex(m: Memory, op: MemoryOp, reader: Reader, slot: Slot)
    ensures Indexed(Apply(m, op, reader), slot) ==
      if PutsInto(op, slot) && reader(op.value).Some? then reader(op.value)
      else if Wipes(op, slot) then None else Indexed(m, slot)
  {
    hide Without;
  }

  /** After any calls a slot stores the last value put into it, and is indexed with the tokens of
      the last readable one, since it was last deleted or cleared. */
  lemma {:induction false} RunLeaves(ops: seq<MemoryOp>, reader: Reader, slot: Slot)
    ensures Stored(AfterCalls(ops, reader), slot) == LastPut(ops, slot)
    ensures Indexed(AfterCalls(ops, reader), slot) == LastRead(ops, slot, reader)
  {
    hide Apply, PutsInto, Wipes;
    if ops != [] {
      var n := |ops| - 1;
      RunLeaves(ops[..n], reader, slot);
      StepOfStore(AfterCalls(ops[..n], reader), ops[n], reader, slot);
      StepOfIndex(AfterCalls(ops[..n], reader), ops[n], reader, slot);
    }
  }

  lemma {:induction false} ReadIsLast(ops: seq<MemoryOp>, slot: Slot, reader: Reader)
    ensures LastPut(ops, slot).None? ==> LastRead(ops, slot, reader).None?
    ensures LastPut(ops, slot).Some? && reader(LastPut(ops, slot).value).Some? ==>
      LastRead(ops, slot, reader) == reader(LastPut(ops, slot).value)
  {
    hide PutsInto, Wipes;
    if ops != [] {
      ReadIsLast(ops[..|ops| - 1], slot, reader);
    }
  }

  /** After any calls an indexed slot is stored, and index and store agree about a slot exactly
      when the last value put into it, since it was last deleted or cleared, could be read. */
  lemma IndexAgreesWithStoreIff(ops: seq<MemoryOp>, reader: Reader, slot: Slot)
    ensures var m := AfterCalls(ops, reader);
      && (Indexed(m, slot).Some? ==> Stored(m, slot).Some?)
      && (AgreesAt(m, reader, slot) <==> (LastPut(ops, slot).Some? ==> reader(LastPut(ops, slot).value).Some?))
  {
    RunLeaves(ops, reader, slot);
    ReadIsLast(ops, slot, reader);
    hide LastPut, LastRead, AfterCalls, Stored, Indexed;
  }

  // ---------- Search ----------

  /** Hits whose value is read back. */
  function Hydrated(store: map<Slot, Value>, namespace: string, hits: seq<Hit>): seq<Found> {
    if hits == [] then []
    else
      var n := |hits| - 1;
      var before, slot := Hydrated(store, namespace, hits[..n]), Slot(namespace, hits[n].key);
      if slot in store && store[slot] != NullValue
      then before + [Found(hits[n].key, store[slot], hits[n].score)] else before
  }

  /** Without any hit the memory falls back to a text match in the table. */
  datatype SearchResult = EmptyNamespace | ByText | ByTokens(found: seq<Found>)

  function HitsOf(m: Memory, namespace: string, query: set<Token>, limit: int): seq<Hit> {
    Slice(Ranked(NamesOf(m.index, namespace), query), limit)
  }

  function Searched(m: Memory, namespace: string, query: set<Token>, limit: int): SearchResult {
    if namespace == "" then EmptyNamespace
    else
      var hits := HitsOf(m, namespace, query, limit);
      if hits == [] then ByText else ByTokens(Hydrated(m.store, namespace, hits))
  }

  /** The result of one hit: none where its value is missing or null. */
  function HydratedHit(store: map<Slot, Value>, namespace: string, h: Hit): seq<Found> {
    var slot := Slot(namespace, h.key);
    if slot in store && store[slot] != NullValue then [Found(h.key, store[slot], h.score)] else []
  }

  lemma HydratedLastOne(store: map<Slot, Value>, namespace: string, hits: seq<Hit>)
    requires hits != []
    ensures var n := |hits| - 1;
      Hydrated(store, namespace, hits) == Hydrated(store, namespace, hits[..n]) + HydratedHit(store, namespace, hits[n])
  {
  }

  /** Hydrating keeps the order of the hits and drops exactly those. */
  lemma {:induction false} HydratedSplits(store: map<Slot, Value>, namespace: string, a: seq<Hit>, b: seq<Hit>)
    ensures Hydrated(store, namespace, a + b) == Hydrated(store, namespace, a) + Hydrated(store, namespace, b)
  {
    if b == [] {
      assert a + b == a && Hydrated(store, namespace, b) == [];
    } else {
      hide *;
      var n := |b| - 1;
      HydratedLastOne(store, namespace, a + b);
      HydratedLastOne(store, namespace, b);
      HydratedSplits(store, namespace, a, b[..n]);
      assert (a + b)[..|a + b| - 1] == a + b[..n] && (a + b)[|a + b| - 1] == b[n];
    }
  }

  /** Indexed keys that share a token with the query. */
  function Matches(m: Memory, namespace: string, query: set<Token>): set<string> {
    var tokens := NamesOf(m.index, namespace).tokens;
    set key | key in tokens && tokens[key] * query != {}
  }

  ghost predicate OncePerKey(hits: seq<Hit>) {
    forall i, j :: 0 <= i < j < |hits| ==> hits[i].key != hits[j].key
  }

  lemma {:induction false} ScoredAre(keys: seq<string>, tokens: map<string, set<Token>>, query: set<Token>)
    requires forall i, j :: 0 <= i < j < |keys| ==> keys[i] != keys[j]
    ensures OncePerKey(Scored(keys, tokens, query))
    ensures forall h :: h in Scored(keys, tokens, query) <==>
      h.key in keys && h.key in tokens && tokens[h.key] * query != {} && IsShare(h.score, tokens[h.key], query)
  {
    hide Jaccard, IsShare;
    if keys != [] {
      var n := |keys| - 1;
      ScoredAre(keys[..n], tokens, query);
      assert keys == keys[..n] + [keys[n]] && keys[n] !in keys[..n];
      if keys[n] in tokens {
        JaccardMeans(tokens[keys[n]], query);
      }
      forall h | h in Scored(keys[..n], tokens, query) ensures h.key != keys[n] {
      }
    }
  }

  lemma SameKeysAfterSorting(a: seq<Hit>, b: seq<Hit>)
    requires multiset(a) == multiset(b) && OncePerKey(a)
    ensures OncePerKey(b) && |a| == |b| && forall h :: h in b <==> h in a
  {
    RearrangedDistinct(a, b);
    forall i, j | 0 <= i < j < |b| ensures b[i].key != b[j].key {
      assert b[i] in b && b[j] in b && b[i] in a && b[j] in a && b[i] != b[j];
    }
  }

  ghost function KeysOf(hits: seq<Hit>): set<string> {
    set h | h in hits :: h.key
  }

  lemma KeysOneMore(hits: seq<Hit>)
    requires OncePerKey(hits) && hits != []
    ensures var n := |hits| - 1;
      KeysOf(hits) == KeysOf(hits[..n]) + {hits[n].key} && hits[n].key !in KeysOf(hits[..n]) && OncePerKey(hits[..n])
  {
    var n := |hits| - 1;
    assert hits == hits[..n] + [hits[n]];
    assert forall h :: h in hits <==> h in hits[..n] || h == hits[n];
  }

  lemma {:induction false} KeysCount(hits: seq<Hit>)
    requires OncePerKey(hits)
    ensures |KeysOf(hits)| == |hits|
  {
    if hits == [] {
      assert KeysOf(hits) == {};
    } else {
      hide *;
      KeysOneMore(hits);
      KeysCount(hits[..|hits| - 1]);
    }
  }

  /** The ranking of a namespace: every match once, with its score, best first. */
  lemma RankedAre(m: Memory, namespace: string, query: set<Token>)
    requires IndexSound(m.index)
    ensures var ranked := Ranked(NamesOf(m.index, namespace), query);
      && OncePerKey(ranked) && |ranked| == |Matches(m, namespace, query)|
      && (forall h :: h in ranked <==> ScoresMatch(m, namespace, query, h))
      && (forall i, j :: 0 <= i < j < |ranked| ==> ranked[i].score >= ranked[j].score)
  {
    var n := NamesOf(m.index, namespace);
    assert NamesSound(n);
    var scored, key := Scored(n.keys, n.tokens, query), (h: Hit) => h.score;
    ScoredAre(n.keys, n.tokens, query);
    SortedAs(scored, key);
    var ranked := Ranked(n, query);
    SameKeysAfterSorting(scored, ranked);
    hide Scored, SortDescending, Ranked, Jaccard, IsShare, NamesSound, NamesOf;
    forall i, j | 0 <= i < j < |ranked| ensures ranked[i].score >= ranked[j].score {
      assert key(ranked[i]) >= key(ranked[j]);
    }
    var matches := Matches(m, namespace, query);
    forall k ensures k in matches <==> k in KeysOf(ranked) {
      if k in matches {
        JaccardMeans(n.tokens[k], query);
        assert Hit(k, Jaccard(n.tokens[k], query)) in ranked;
      }
    }
    KeysCount(ranked);
    assert matches == KeysOf(ranked);
  }

  lemma HitsHaveKeys(m: Memory, namespace: string, query: set<Token>, limit: int)
    requires IndexSound(m.index)
    ensures forall h :: h in HitsOf(m, namespace, query, limit) ==> h.key != ""
  {
    var n := NamesOf(m.index, namespace);
    assert NamesSound(n);
    ScoredAre(n.keys, n.tokens, query);
    SortedAs(Scored(n.keys, n.tokens, query), (h: Hit) => h.score);
    SameKeysAfterSorting(Scored(n.keys, n.tokens, query), Ranked(n, query));
    hide Scored, SortDescending, Slice;
    forall h | h in HitsOf(m, namespace, query, limit) ensures h in Ranked(n, query) {
    }
  }

  /** What stands behind a cut of a falling ranking scores no higher. */
  lemma CutKeepsBest(ranked: seq<Hit>, hits: seq<Hit>, omitted: Hit, h: Hit)
    requires hits <= ranked && omitted in ranked && omitted !in hits && h in hits
    requires forall i, j :: 0 <= i < j < |ranked| ==> ranked[i].score >= ranked[j].score
    ensures omitted.score <= h.score
  {
    var j :| 0 <= j < |ranked| && ranked[j] == omitted;
    var i :| 0 <= i < |hits| && hits[i] == h;
    assert j < |hits| ==> hits[j] == omitted;
    assert ranked[i] == h;
  }

  /** A hit on the tokens a slot is indexed with. */
  predicate ScoresMatch(m: Memory, namespace: string, query: set<Token>, h: Hit) {
    var tokens := NamesOf(m.index, namespace).tokens;
    h.key in tokens && tokens[h.key] * query != {} && IsShare(h.score, tokens[h.key], query)
  }

  /** `a` has at least as large a share of its tokens in common with the query as `b`: common
      tokens of one times all tokens of the other, counted. */
  predicate SharesAtLeast(m: Memory, namespace: string, query: set<Token>, a: string, b: string) {
    var tokens := NamesOf(m.index, namespace).tokens;
    && a in tokens && b in tokens
    && |tokens[a] * query| * |tokens[b] + query| >= |tokens[b] * query| * |tokens[a] + query|
  }

  /** A hit on the tokens of the stored value. */
  predicate ScoresStored(m: Memory, reader: Reader, namespace: string, query: set<Token>, h: Hit) {
    var value := Stored(m, Slot(namespace, h.key));
    && value.Some? && reader(value.value).Some? && reader(value.value).value * query != {}
    && IsShare(h.score, reader(value.value).value, query)
  }

  /** The hits of a query: as many matches as the limit allows, best first, each once and with
      its score, and no match left out that scores above one of them; a slot about which index
      and store agree is matched and scored by its stored value. */
  lemma HitsAreBest(m: Memory, reader: Reader, namespace: string, query: set<Token>, limit: int)
    requires IndexSound(m.index) && limit >= 1
    ensures var hits, matches := HitsOf(m, namespace, query, limit), Matches(m, namespace, query);
      && |hits| == (if limit < |matches| then limit else |matches|)
      && OncePerKey(hits)
      && (forall h :: h in hits ==> ScoresMatch(m, namespace, query, h))
      && (forall i, j :: 0 <= i < j < |hits| ==> SharesAtLeast(m, namespace, query, hits[i].key, hits[j].key))
      && (forall h :: h in hits ==> forall key :: key in matches && (forall g :: g in hits ==> g.key != key) ==>
            SharesAtLeast(m, namespace, query, h.key, key))
    ensures forall h: Hit :: AgreesAt(m, reader, Slot(namespace, h.key)) ==>
      (ScoresMatch(m, namespace, query, h) <==> ScoresStored(m, reader, namespace, query, h))
  {
    RankedAre(m, namespace, query);
    var ranked, hits := Ranked(NamesOf(m.index, namespace), query), HitsOf(m, namespace, query, limit);
    assert hits <= ranked && |hits| == if limit < |ranked| then limit else |ranked|;
    assert forall key :: key in Matches(m, namespace, query) ==>
      key in NamesOf(m.index, namespace).tokens && NamesOf(m.index, namespace).tokens[key] * query != {};
    forall h: Hit | AgreesAt(m, reader, Slot(namespace, h.key))
      ensures ScoresMatch(m, namespace, query, h) <==> ScoresStored(m, reader, namespace, query, h)
    {
      AgreeingSlotScores(m, reader, namespace, query, h);
    }
    hide *;
    forall h | h in hits ensures h in ranked {
    }
    forall i, j | 0 <= i < j < |hits| ensures SharesAtLeast(m, namespace, query, hits[i].key, hits[j].key) {
      assert ranked[i] == hits[i] && ranked[j] == hits[j] && hits[i] in hits && hits[j] in hits;
      HigherSharesMore(m, namespace, query, hits[i], hits[j]);
    }
    forall h, key | h in hits && key in Matches(m, namespace, query) && forall g :: g in hits ==> g.key != key
      ensures SharesAtLeast(m, namespace, query, h.key, key)
    {
      var omitted := MatchHasHit(m, namespace, query, key);
      assert omitted !in hits;
      CutKeepsBest(ranked, hits, omitted, h);
      HigherSharesMore(m, namespace, query, h, omitted);
    }
    CutIsOncePerKey(ranked, hits);
  }

  lemma HigherSharesMore(m: Memory, namespace: string, query: set<Token>, h: Hit, g: Hit)
    requires ScoresMatch(m, namespace, query, h) && ScoresMatch(m, namespace, query, g) && h.score >= g.score
    ensures SharesAtLeast(m, namespace, query, h.key, g.key)
  {
    var tokens := NamesOf(m.index, namespace).tokens;
    SharesCompare(tokens[h.key], tokens[g.key], query, h.score, g.score);
    hide IsShare;
  }

  lemma MatchHasHit(m: Memory, namespace: string, query: set<Token>, key: string) returns (h: Hit)
    requires key in Matches(m, namespace, query)
    ensures h.key == key && ScoresMatch(m, namespace, query, h)
  {
    var tokens := NamesOf(m.index, namespace).tokens;
    JaccardMeans(tokens[key], query);
    h := Hit(key, Jaccard(tokens[key], query));
    hide Jaccard, IsShare;
  }

  /** Hits of the same score come in the order in which their keys were indexed. */
  lemma TiesKeepOrder(m: Memory, namespace: string, query: set<Token>, limit: int, i: nat, j: nat)
    requires IndexSound(m.index)
    requires var hits := HitsOf(m, namespace, query, limit);
      i < j < |hits| && hits[i].score == hits[j].score
    ensures var hits, keys := HitsOf(m, namespace, query, limit), NamesOf(m.index, namespace).keys;
      exists a, b :: 0 <= a < b < |keys| && keys[a] == hits[i].key && keys[b] == hits[j].key
  {
    var n, hits := NamesOf(m.index, namespace), HitsOf(m, namespace, query, limit);
    var scored, key := Scored(n.keys, n.tokens, query), (h: Hit) => h.score;
    SortedAs(scored, key);
    var ranked := Ranked(n, query);
    assert hits <= ranked && ranked[i] == hits[i] && ranked[j] == hits[j];
    hide Scored, SortDescending, Ranked, Jaccard, Slice;
    assert key(ranked[i]) == key(ranked[j]);
    var a, b :| 0 <= a < b < |scored| && scored[a] == ranked[i] && scored[b] == ranked[j];
    var _, _ := ScoredKeepOrder(n.keys, n.tokens, query, a, b);
  }

  lemma {:induction false} ScoredKeepOrder(keys: seq<string>, tokens: map<string, set<Token>>, query: set<Token>,
                                           i: nat, j: nat) returns (a: nat, b: nat)
    requires i < j < |Scored(keys, tokens, query)|
    ensures var scored := Scored(keys, tokens, query);
      a < b < |keys| && keys[a] == scored[i].key && keys[b] == scored[j].key
    decreases |keys|
  {
    hide Jaccard;
    var n := |keys| - 1;
    var before := Scored(keys[..n], tokens, query);
    if j < |before| {
      a, b := ScoredKeepOrder(keys[..n], tokens, query, i, j);
    } else {
      a := ScoredHasKey(keys[..n], tokens, query, i);
      b := n;
    }
  }

  lemma {:induction false} ScoredHasKey(keys: seq<string>, tokens: map<string, set<Token>>, query: set<Token>, i: nat)
    returns (a: nat)
    requires i < |Scored(keys, tokens, query)|
    ensures a < |keys| && keys[a] == Scored(keys, tokens, query)[i].key
    decreases |keys|
  {
    hide Jaccard;
    var n := |keys| - 1;
    if i < |Scored(keys[..n], tokens, query)| {
      a := ScoredHasKey(keys[..n], tokens, query, i);
    } else {
      a := n;
    }
  }

  lemma CutIsOncePerKey(ranked: seq<Hit>, hits: seq<Hit>)
    requires OncePerKey(ranked) && hits <= ranked
    ensures OncePerKey(hits)
  {
  }

  lemma AgreeingSlotScores(m: Memory, reader: Reader, namespace: string, query: set<Token>, h: Hit)
    requires AgreesAt(m, reader, Slot(namespace, h.key))
    ensures ScoresMatch(m, namespace, query, h) <==> ScoresStored(m, reader, namespace, query, h)
  {
    hide IsShare;
  }

  predicate IsNull(m: Memory, namespace: string, hit: Hit) {
    Slot(namespace, hit.key) in m.store && m.store[Slot(namespace, hit.key)] == NullValue
  }

  lemma {:induction false} HydratedAre(m: Memory, namespace: string, hits: seq<Hit>)
    requires forall h :: h in hits ==> Slot(namespace, h.key) in m.store
    ensures var found := Hydrated(m.store, namespace, hits);
      && |found| <= |hits|
      && (|found| == |hits| <==> forall h :: h in hits ==> !IsNull(m, namespace, h))
      && ((forall h :: h in hits ==> !IsNull(m, namespace, h)) ==> forall i :: 0 <= i < |found| ==>
            found[i] == Found(hits[i].key, m.store[Slot(namespace, hits[i].key)], hits[i].score))
  {
    if hits != [] {
      var n := |hits| - 1;
      assert hits == hits[..n] + [hits[n]] && hits[n] in hits;
      HydratedAre(m, namespace, hits[..n]);
      HydratedOneMore(m, namespace, hits);
      hide Hydrated, IsNull;
    }
  }

  lemma HydratedOneMore(m: Memory, namespace: string, hits: seq<Hit>)
    requires hits != [] && Slot(namespace, hits[|hits| - 1].key) in m.store
    ensures var last := hits[|hits| - 1];
      Hydrated(m.store, namespace, hits) == Hydrated(m.store, namespace, hits[..|hits| - 1])
        + if IsNull(m, namespace, last) then []
          else [Found(last.key, m.store[Slot(namespace, last.key)], last.score)]
  {
  }

  /** After any calls, where a match exists and at least one result is asked for, `search`
      returns one result per hit, in the order of the hits and with the stored values, exactly if
      no hit is a stored null: a null is found by its tokens, and then dropped. */
  lemma SearchReturnsAllHitsIff(ops: seq<MemoryOp>, reader: Reader, namespace: string, query: set<Token>, limit: int)
    requires limit >= 1 && namespace != ""
    requires Matches(AfterCalls(ops, reader), namespace, query) != {}
    ensures var m := AfterCalls(ops, reader);
      var hits, r := HitsOf(m, namespace, query, limit), Searched(m, namespace, query, limit);
      && r.ByTokens? && |r.found| <= |hits|
      && (|r.found| == |hits| <==> forall h :: h in hits ==> !IsNull(m, namespace, h))
      && (|r.found| == |hits| ==> forall i :: 0 <= i < |hits| ==>
            && Slot(namespace, hits[i].key) in m.store
            && r.found[i] == Found(hits[i].key, m.store[Slot(namespace, hits[i].key)], hits[i].score))
  {
    var m := AfterCalls(ops, reader);
    HitsAreBest(m, reader, namespace, query, limit);
    hide HitsOf, Jaccard, AfterCalls;
    forall h | h in HitsOf(m, namespace, query, limit) ensures Slot(namespace, h.key) in m.store {
      IndexAgreesWithStoreIff(ops, reader, Slot(namespace, h.key));
    }
    HydratedAre(m, namespace, HitsOf(m, namespace, query, limit));
  }

  /** A search falls back to the text match exactly if nothing matches or the limit cuts all off. */
  lemma SearchesTextIff(m: Memory, namespace: string, query: set<Token>, limit: int)
    requires IndexSound(m.index)
    ensures Searched(m, namespace, query, limit).EmptyNamespace? <==> namespace == ""
    ensures Searched(m, namespace, query, limit).ByText? <==>
      var matches := |Matches(m, namespace, query)|;
      namespace != "" && (matches == 0 || limit == 0 || limit <= -matches)
  {
    RankedAre(m, namespace, query);
    hide Ranked, Hydrated, Matches;
  }

  /** It is the share of common tokens in all tokens that ranks: of a key with one of its two tokens
      in common with the query and one with two of its five, the second comes first. */
  lemma LargerShareComesFirst(first: Value, second: Value, reader: Reader)
    requires reader(first) == Some({"x", "p"}) && reader(second) == Some({"x", "y", "p", "q", "r"})
    ensures var m := AfterCalls([Put("n", "k1", first)] + [Put("n", "k2", second)], reader);
      var hits := HitsOf(m, "n", {"x", "y"}, 1);
      |hits| == 1 && hits[0].key == "k2" && hits[0].score == 2.0 / 5.0
  {
    var before, m := AfterCalls([Put("n", "k1", first)], reader),
                     AfterCalls([Put("n", "k1", first)] + [Put("n", "k2", second)], reader);
    AfterOnePut("k1", first, reader);
    AfterOneMore([Put("n", "k1", first)], Put("n", "k2", second), reader);
    TwoIndexed(before, second, reader);
    assert m == Apply(before, Put("n", "k2", second), reader);
    hide *;
    BestOfTwo(m, {"x", "y"}, reader);
  }

  lemma BestOfTwo(m: Memory, query: set<Token>, reader: Reader)
    requires IndexSound(m.index) && query == {"x", "y"}
    requires NamesOf(m.index, "n").tokens == map["k1" := {"x", "p"}, "k2" := {"x", "y", "p", "q", "r"}]
    ensures var hits := HitsOf(m, "n", query, 1);
      |hits| == 1 && hits[0].key == "k2" && hits[0].score == 2.0 / 5.0
  {
    var hits := HitsOf(m, "n", query, 1);
    TwoMatch(m, query);
    HitsAreBest(m, reader, "n", query, 1);
    hide HitsOf, IndexSound, SharesAtLeast, IsShare, Matches, OncePerKey, AgreesAt, ScoresStored;
    assert |hits| == 1 && hits[0] in hits;
    assert ScoresMatch(m, "n", query, hits[0]);
    SecondIsBest(m, query, hits[0]);
  }

  lemma SecondIsBest(m: Memory, query: set<Token>, h: Hit)
    requires Matches(m, "n", query) == {"k1", "k2"} && !SharesAtLeast(m, "n", query, "k1", "k2")
    requires h.key in Matches(m, "n", query) && (h.key != "k2" ==> SharesAtLeast(m, "n", query, h.key, "k2"))
    ensures h.key == "k2"
  {
    hide *;
  }

  lemma TwoIndexed(before: Memory, second: Value, reader: Reader)
    requires before.index == map["n" := Names(["k1"], map["k1" := {"x", "p"}])]
    requires reader(second) == Some({"x", "y", "p", "q", "r"})
    ensures var n := NamesOf(Apply(before, Put("n", "k2", second), reader).index, "n");
      n.tokens == map["k1" := {"x", "p"}, "k2" := {"x", "y", "p", "q", "r"}]
  {
  }

  lemma TwoMatch(m: Memory, query: set<Token>)
    requires query == {"x", "y"}
    requires NamesOf(m.index, "n").tokens == map["k1" := {"x", "p"}, "k2" := {"x", "y", "p", "q", "r"}]
    ensures Matches(m, "n", query) == {"k1", "k2"} && !SharesAtLeast(m, "n", query, "k1", "k2")
    ensures forall score :: IsShare(score, NamesOf(m.index, "n").tokens["k2"], query) ==> score == 2.0 / 5.0
  {
    var a: set<Token>, b: set<Token> := {"x", "p"}, {"x", "y", "p", "q", "r"};
    assert a * query == {"x"} && a + query == {"x", "y", "p"};
    assert b * query == {"x", "y"} && b + query == b;
    assert "x" in a * query && "x" in b * query;
    assert |a * query| == 1 && |a + query| == 3 && |b * query| == 2 && |b + query| == 5;
  }

  // ---------- Two inputs that break the promise ----------

  const TAGGED := JsonValue("{\"content\": \"cache\", \"tags\": []}")
  const NULL_TAGS := JsonValue("{\"content\": \"cache\", \"tags\": null}")

  lemma SingleHit(m: Memory, namespace: string, key: string, tokens: set<Token>, query: set<Token>)
    requires NamesOf(m.index, namespace) == Names([key], map[key := tokens]) && tokens * query != {}
    ensures HitsOf(m, namespace, query, 1) == [Hit(key, Jaccard(tokens, query))]
  {
    var n, hit := NamesOf(m.index, namespace), Hit(key, Jaccard(tokens, query));
    JaccardMeans(tokens, query);
    assert Scored([], n.tokens, query) == [];
    assert Scored(n.keys, n.tokens, query) == [hit];
    hide Scored, Jaccard;
    SortedAs([hit], (h: Hit) => h.score);
    assert multiset(Ranked(n, query)) == multiset{hit};
    OneElement(Ranked(n, query), hit);
  }

  lemma OneElement(s: seq<Hit>, hit: Hit)
    requires multiset(s) == multiset{hit}
    ensures s == [hit]
  {
    assert |s| == |multiset(s)| == 1;
    assert s[0] in multiset(s);
  }

  lemma AfterOneMore(ops: seq<MemoryOp>, op: MemoryOp, reader: Reader)
    ensures AfterCalls(ops + [op], reader) == Apply(AfterCalls(ops, reader), op, reader)
  {
    assert (ops + [op])[..|ops|] == ops;
  }

  lemma AfterOnePut(key: string, value: Value, reader: Reader)
    requires key != "" && reader(value).Some?
    ensures AfterCalls([Put("n", key, value)], reader)
      == Memory(map[Slot("n", key) := value], map["n" := Names([key], map[key := reader(value).value])])
  {
    var empty := Memory(map[], map[]);
    assert AfterCalls([], reader) == empty;
    assert [] + [Put("n", key, value)] == [Put("n", key, value)];
    AfterOneMore([], Put("n", key, value), reader);
    hide AfterCalls;
    assert NamesOf(empty.index, "n") == Names([], map[]);
    assert Apply(empty, Put("n", key, value), reader).store == map[Slot("n", key) := value];
    var index := Apply(empty, Put("n", key, value), reader).index;
    assert index.Keys == {"n"} && index["n"].keys == [key] && index["n"].tokens == map[key := reader(value).value];
  }

  lemma HydratedOne(store: map<Slot, Value>, hit: Hit)
    ensures var slot := Slot("n", hit.key);
      Hydrated(store, "n", [hit]) ==
        if slot in store && store[slot] != NullValue then [Found(hit.key, store[slot], hit.score)] else []
  {
    assert [hit][..0] == [] && Hydrated(store, "n", []) == [];
  }

  /** A readable value replaced by one that cannot be read: `put` raises after the commit, and
      from then on the new value is returned under the score of the old one. */
  lemma UnreadableValueKeepsOldScore(reader: Reader, key: string, tokens: set<Token>, query: set<Token>)
    requires key != "" && tokens * query != {}
    requires reader(TAGGED) == Some(tokens) && reader(NULL_TAGS).None?
    ensures var m := AfterCalls([Put("n", key, TAGGED), Put("n", key, NULL_TAGS)], reader);
      && Searched(m, "n", query, 1) == ByTokens([Found(key, NULL_TAGS, Jaccard(tokens, query))])
      && !AgreesAt(m, reader, Slot("n", key))
  {
    var first, second := Put("n", key, TAGGED), Put("n", key, NULL_TAGS);
    AfterOnePut(key, TAGGED, reader);
    assert [first] + [second] == [first, second];
    AfterOneMore([first], second, reader);
    var before, m := AfterCalls([first], reader), AfterCalls([first, second], reader);
    assert m == Memory(before.store[Slot("n", key) := NULL_TAGS], before.index) && NULL_TAGS != NullValue;
    hide *;
    OldScoreRemains(m, reader, key, tokens, query);
  }

  lemma OldScoreRemains(m: Memory, reader: Reader, key: string, tokens: set<Token>, query: set<Token>)
    requires m.index == map["n" := Names([key], map[key := tokens])] && tokens * query != {}
    requires Slot("n", key) in m.store && m.store[Slot("n", key)] == NULL_TAGS && reader(NULL_TAGS).None?
    ensures Searched(m, "n", query, 1) == ByTokens([Found(key, NULL_TAGS, Jaccard(tokens, query))])
    ensures !AgreesAt(m, reader, Slot("n", key))
  {
    SingleHit(m, "n", key, tokens, query);
    HydratedOne(m.store, Hit(key, Jaccard(tokens, query)));
    hide HitsOf, Jaccard, Hydrated;
  }

  /** A stored null is found by the token of its text and then dropped: the search finds nothing,
      and does not fall back to the table either. */
  lemma StoredNullIsDropped(reader: Reader, key: string, tokens: set<Token>, query: set<Token>)
    requires key != "" && reader(NullValue) == Some(tokens) && tokens * query != {}
    ensures var m := AfterCalls([Put("n", key, NullValue)], reader);
      |HitsOf(m, "n", query, 1)| == 1 && Searched(m, "n", query, 1) == ByTokens([])
  {
    AfterOnePut(key, NullValue, reader);
    hide AfterCalls, HitsOf, Jaccard, Hydrated;
    var m := AfterCalls([Put("n", key, NullValue)], reader);
    SingleHit(m, "n", key, tokens, query);
    HydratedOne(m.store, Hit(key, Jaccard(tokens, query)));
  }

  /** `put` raises for an empty name, and after the commit where the value cannot be read. */
  datatype PutOutcome = PutDone | EmptyName | Unreadable

  class EngineeringMemory {
    var store: map<Slot, Value>
    const vectorBackend: InMemoryVectorSearchBackend
    const reader: Reader

    ghost function View(): Memory
      reads this, vectorBackend
    {
      Memory(store, vectorBackend.index)
    }

    ghost predicate Valid()
      reads vectorBackend
    {
      IndexSound(vectorBackend.index)
    }

    constructor (reader: Reader)
      ensures Valid() && View() == Memory(map[], map[]) && this.reader == reader && fresh(vectorBackend)
    {
      store := map[];
      vectorBackend := new InMemoryVectorSearchBackend();
      this.reader := reader;
    }

    method PutValue(namespace: string, key: string, value: Value) returns (r: PutOutcome)
      requires Valid()
      modifies this, vectorBackend
      ensures Valid() && View() == Apply(old(View()), Put(namespace, key, value), reader)
      ensures r.EmptyName? <==> namespace == "" || key == ""
      ensures !r.EmptyName? ==> store == old(store)[Slot(namespace, key) := value]
      ensures !r.EmptyName? ==> (r.Unreadable? <==> reader(value).None?)
      ensures r.Unreadable? ==> vectorBackend.index == old(vectorBackend.index)
    {
      if namespace == "" || key == "" {
        return EmptyName;
      }
      store := store[Slot(namespace, key) := value];
      var tokens := reader(value);
      if tokens.None? {
        return Unreadable;
      }
      UpsertKeepsSound(vectorBackend.index, namespace, key, tokens.value);
      vectorBackend.Upsert(namespace, key, tokens.value);
      return PutDone;
    }

    /** A stored null reads like a missing key. */
    method GetValue(namespace: string, key: string) returns (r: Result<Option<Value>, ()>)
      ensures r.Err? <==> namespace == "" || key == ""
      ensures r.Ok? ==> r.value == if Slot(namespace, key) in store && store[Slot(namespace, key)] != NullValue
        then Some(store[Slot(namespace, key)]) else None
    {
      if namespace == "" || key == "" {
        return Err(());
      }
      if Slot(namespace, key) !in store || store[Slot(namespace, key)] == NullValue {
        return Ok(None);
      }
      return Ok(Some(store[Slot(namespace, key)]));
    }

    method DeleteValue(namespace: string, key: string) returns (r: Result<bool, ()>)
      requires Valid()
      modifies this, vectorBackend
      ensures Valid() && View() == Apply(old(View()), Delete(namespace, key), reader)
      ensures r == if namespace == "" || key == "" then Err(()) else Ok(Slot(namespace, key) in old(store))
    {
      if namespace == "" || key == "" {
        return Err(());
      }
      RemoveKeepsSound(vectorBackend.index, namespace, key);
      r := Ok(Slot(namespace, key) in store);
      store := store - {Slot(namespace, key)};
      var _ := vectorBackend.Remove(namespace, key);
    }

    method ClearNamespace(namespace: string) returns (r: Result<nat, ()>)
      requires Valid()
      modifies this, vectorBackend
      ensures Valid() && View() == Apply(old(View()), Clear(namespace), reader)
      ensures r == if namespace == "" then Err(()) else Ok(|InNamespace(old(store), namespace)|)
    {
      if namespace == "" {
        return Err(());
      }
      var rows := set slot | slot in store && slot.namespace == namespace;
      store := store - rows;
      var _ := vectorBackend.Clear(namespace);
      return Ok(|rows|);
    }

    /** `_hydrate_vector_results` */
    method HydrateVectorResults(namespace: string, hits: seq<Hit>) returns (results: seq<Found>)
      requires namespace != "" && forall h :: h in hits ==> h.key != ""
      ensures results == Hydrated(store, namespace, hits)
    {
      results := [];
      for i := 0 to |hits|
        invariant results == Hydrated(store, namespace, hits[..i])
      {
        assert hits[..i + 1][..i] == hits[..i];
        assert hits[i] in hits;
        var value := GetValue(namespace, hits[i].key);
        if value.value.Some? {
          results := results + [Found(hits[i].key, value.value.value, hits[i].score)];
        }
      }
      assert hits[..|hits|] == hits;
    }

    method Search(namespace: string, query: set<Token>, limit: int) returns (r: SearchResult)
      requires Valid()
      ensures r == Searched(View(), namespace, query, limit)
    {
      if namespace == "" {
        return EmptyNamespace;
      }
      var hits := vectorBackend.Query(namespace, query, limit);
      if hits == [] {
        return ByText;
      }
      HitsHaveKeys(View(), namespace, query, limit);
      var found := HydrateVectorResults(namespace, hits);
      return ByTokens(found);
    }
  }
}
