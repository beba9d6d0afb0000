/** The binary heap both task queues are kept in: a list in which no entry comes
    before its parent.  The two sifting loops are those of Python's `heapq`. */
module Heapq {

  ghost predicate StrictTotalOrder<K(!new)>(less: (K, K) -> bool) {
    && (forall a :: !less(a, a))
    && (forall a, b, c :: less(a, b) && less(b, c) ==> less(a, c))
    && (forall a, b :: a == b || less(a, b) || less(b, a))
  }

  predicate Child(p: int, i: int) {
    i == 2 * p + 1 || i == 2 * p + 2
  }

  ghost predicate IsHeap<K(!new)>(h: seq<K>, less: (K, K) -> bool) {
    forall p, i :: 0 <= p < i < |h| && Child(p, i) ==> !less(h[i], h[p])
  }

  /** A heap but for the entry at `pos`, which may be too small for its place. */
  ghost predicate HeapButUp<K(!new)>(h: seq<K>, less: (K, K) -> bool, pos: nat) {
    && (forall p, i :: 0 <= p < i < |h| && Child(p, i) && i != pos ==> !less(h[i], h[p]))
    && (forall g, c :: 0 <= g < pos < c < |h| && Child(g, pos) && Child(pos, c) ==> !less(h[c], h[g]))
  }

  /** A heap but for the entry at `pos`, which may be out of place in either direction. */
  ghost predicate HeapButAt<K(!new)>(h: seq<K>, less: (K, K) -> bool, pos: nat) {
    && (forall p, i :: 0 <= p < i < |h| && Child(p, i) && i != pos && p != pos ==> !less(h[i], h[p]))
    && (forall g, c :: 0 <= g < pos < c < |h| && Child(g, pos) && Child(pos, c) ==> !less(h[c], h[g]))
  }

  /** The root of a heap is a least entry. */
  lemma {:induction false} RootIsLeast<K(!new)>(h: seq<K>, less: (K, K) -> bool, i: nat)
    requires StrictTotalOrder(less) && IsHeap(h, less) && i < |h|
    ensures !less(h[i], h[0])
  {
    if i > 0 {
      var p := (i - 1) / 2;
      assert Child(p, i);
      RootIsLeast(h, less, p);
    }
  }

  // ---------- The least of some entries ----------

  lemma NotBelowSmaller<K(!new)>(less: (K, K) -> bool, j: K, x: K, k: K)
    requires StrictTotalOrder(less) && less(x, k) && !less(j, k)
    ensures !less(j, x)
  {
  }

  lemma {:induction false} LeastOf<K(!new)>(s: set<K>, less: (K, K) -> bool) returns (least: K)
    requires StrictTotalOrder(less) && s != {}
    ensures least in s && forall j :: j in s ==> !less(j, least)
  {
    var x :| x in s;
    assert !less(x, x);
    least := x;
    var rest := s - {x};
    assert forall j :: j in s ==> j == x || j in rest;
    hide StrictTotalOrder;
    if rest != {} {
      var k := LeastOf(rest, less);
      least := if less(x, k) then x else k;
      forall j | j in s ensures !less(j, least) {
        if j != x && less(x, k) {
          NotBelowSmaller(less, j, x, k);
        }
      }
    }
  }

  lemma LeastExists<K(!new)>(s: set<K>, less: (K, K) -> bool)
    requires StrictTotalOrder(less) && s != {}
    ensures exists k :: k in s && forall j :: j in s ==> !less(j, k)
  {
    hide *;
    var k := LeastOf(s, less);
  }

  ghost function LeastEntry<K(!new)>(q: multiset<K>, less: (K, K) -> bool): (k: K)
    requires StrictTotalOrder(less) && q != multiset{}
    ensures k in q && forall j :: j in q ==> !less(j, k)
  {
    var s := set k | k in q;
    var some :| some in q;
    assert some in s;
    LeastExists(s, less);
    assert forall j :: j in q <==> j in s;
    var k :| k in q && forall j :: j in q ==> !less(j, k);
    k
  }

  // ---------- Sifting ----------

  lemma SwapKeepsContents<K>(h: seq<K>, i: nat, j: nat)
    requires i < |h| && j < |h|
    ensures multiset(h[i := h[j]][j := h[i]]) == multiset(h)
  {
  }

  lemma ChildrenOf<K(!new)>(h: seq<K>, less: (K, K) -> bool, pos: nat, child: nat)
    requires StrictTotalOrder(less) && 2 * pos + 1 <= child <= 2 * pos + 2 && child < |h|
    requires child == 2 * pos + 1 && child + 1 < |h| ==> less(h[child], h[child + 1])
    requires child == 2 * pos + 2 ==> !less(h[child - 1], h[child])
    ensures forall i :: pos < i < |h| && Child(pos, i) ==> !less(h[i], h[child])
  {
  }

  /** Swapping an entry with its smaller child moves the misplaced entry one level down. */
  lemma SmallerChildUp<K(!new)>(h: seq<K>, less: (K, K) -> bool, pos: nat, child: nat)
    requires StrictTotalOrder(less) && pos < child < |h| && HeapButAt(h, less, pos)
    requires Child(pos, child)
    requires forall i :: pos < i < |h| && Child(pos, i) ==> !less(h[i], h[child])
    ensures HeapButAt(h[pos := h[child]][child := h[pos]], less, child)
  {
    var s := h[pos := h[child]][child := h[pos]];
    forall p, i | 0 <= p < i < |s| && Child(p, i) && i != child && p != child
      ensures !less(s[i], s[p])
    {
      if p == pos {
        assert s[i] == h[i];
      } else if i == pos {
        assert s[p] == h[p];
      } else {
        assert s[i] == h[i] && s[p] == h[p];
      }
    }
    forall g, c | 0 <= g < child < c < |s| && Child(g, child) && Child(child, c)
      ensures !less(s[c], s[g])
    {
      assert g == pos && s[c] == h[c] && !less(h[c], h[child]);
    }
  }

  /** Swapping a too small entry with its parent moves it one level up. */
  lemma SmallerThanParentUp<K(!new)>(h: seq<K>, less: (K, K) -> bool, pos: nat, parent: nat)
    requires StrictTotalOrder(less) && parent < pos < |h| && HeapButUp(h, less, pos)
    requires Child(parent, pos) && less(h[pos], h[parent])
    ensures HeapButUp(h[pos := h[parent]][parent := h[pos]], less, parent)
  {
    var s := h[pos := h[parent]][parent := h[pos]];
    forall p, i | 0 <= p < i < |s| && Child(p, i) && i != parent
      ensures !less(s[i], s[p])
    {
      if p == parent && i != pos {
        assert !less(h[i], h[parent]);
      } else if p == pos {
        assert !less(h[i], h[parent]);
      }
    }
    forall g, c | 0 <= g < parent < c < |s| && Child(g, parent) && Child(parent, c)
      ensures !less(s[c], s[g])
    {
      assert !less(h[parent], h[g]) && (c != pos ==> !less(h[c], h[parent]));
    }
  }

  /** `heapq._siftdown`: moves the entry at `at` towards the root. */
  method SiftTowardsRoot<K(!new)>(h0: seq<K>, less: (K, K) -> bool, at: nat) returns (h: seq<K>)
    requires StrictTotalOrder(less) && at < |h0| && HeapButUp(h0, less, at)
    ensures IsHeap(h, less) && multiset(h) == multiset(h0)
  {
    h := h0;
    var pos: nat := at;
    while pos > 0
      invariant pos < |h| == |h0|
      invariant HeapButUp(h, less, pos)
      invariant multiset(h) == multiset(h0)
    {
      var parent := (pos - 1) / 2;
      assert Child(parent, pos);
      if !less(h[pos], h[parent]) {
        break;
      }
      SwapKeepsContents(h, pos, parent);
      SmallerThanParentUp(h, less, pos, parent);
      h := h[pos := h[parent]][parent := h[pos]];
      pos := parent;
    }
  }

  /** `heapq._siftup`: moves the entry at the root to a leaf, then back up to its place. */
  method SiftFromRoot<K(!new)>(h0: seq<K>, less: (K, K) -> bool) returns (h: seq<K>)
    requires StrictTotalOrder(less) && |h0| > 0 && HeapButAt(h0, less, 0)
    ensures IsHeap(h, less) && multiset(h) == multiset(h0)
  {
    h := h0;
    var pos: nat := 0;
    while 2 * pos + 1 < |h|
      invariant pos < |h| == |h0|
      invariant HeapButAt(h, less, pos)
      invariant multiset(h) == multiset(h0)
      decreases |h| - pos
    {
      var child := 2 * pos + 1;
      if child + 1 < |h| && !less(h[child], h[child + 1]) {
        child := child + 1;
      }
      hide StrictTotalOrder, HeapButAt;
      SwapKeepsContents(h, pos, child);
      ChildrenOf(h, less, pos, child);
      SmallerChildUp(h, less, pos, child);
      h := h[pos := h[child]][child := h[pos]];
      pos := child;
    }
    h := SiftTowardsRoot(h, less, pos);
  }

  method HeapPush<K(!new)>(h0: seq<K>, less: (K, K) -> bool, x: K) returns (h: seq<K>)
    requires StrictTotalOrder(less) && IsHeap(h0, less)
    ensures IsHeap(h, less) && multiset(h) == multiset(h0) + multiset{x}
  {
    h := SiftTowardsRoot(h0 + [x], less, |h0|);
  }

  method HeapPop<K(!new)>(h0: seq<K>, less: (K, K) -> bool) returns (x: K, h: seq<K>)
    requires StrictTotalOrder(less) && IsHeap(h0, less) && |h0| > 0
    ensures IsHeap(h, less)
    ensures x == h0[0]
    ensures x in multiset(h0) && multiset(h) == multiset(h0) - multiset{x}
    ensures forall y :: y in multiset(h0) ==> !less(y, x)
  {
    x := h0[0];
    forall y | y in multiset(h0) ensures !less(y, x) {
      var i :| 0 <= i < |h0| && h0[i] == y;
      RootIsLeast(h0, less, i);
    }
    var n := |h0| - 1;
    var last := h0[n];
    h := h0[..n];
    assert h0 == h + [last];
    assert multiset(h0) == multiset(h) + multiset{last};
    if n > 0 {
      h := h[0 := last];
      h := SiftFromRoot(h, less);
    }
  }
}
