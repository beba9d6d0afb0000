/** Python's `sorted(..., key=..., reverse=True)`: by falling key, stable. */
module Sorting {

  function InsertDescending<T>(sorted: seq<T>, x: T, key: T -> real): seq<T> {
    if sorted == [] || key(sorted[|sorted| - 1]) >= key(x) then sorted + [x]
    else InsertDescending(sorted[..|sorted| - 1], x, key) + [sorted[|sorted| - 1]]
  }

  function SortDescending<T>(s: seq<T>, key: T -> real): seq<T> {
    if s == [] then [] else InsertDescending(SortDescending(s[..|s| - 1], key), s[|s| - 1], key)
  }

  ghost predicate Falling<T(!new)>(s: seq<T>, key: T -> real) {
    forall i, j :: 0 <= i < j < |s| ==> key(s[i]) >= key(s[j])
  }

  /** `a` occurs in `s` before an occurrence of `b`. */
  ghost predicate InOrder<T(!new)>(s: seq<T>, a: T, b: T) {
    exists i, j :: 0 <= i < j < |s| && s[i] == a && s[j] == b
  }

  /** Equal keys keep the order they have in `s`. */
  ghost predicate Stable<T(!new)>(s: seq<T>, sorted: seq<T>, key: T -> real) {
    forall i, j :: 0 <= i < j < |sorted| && key(sorted[i]) == key(sorted[j]) ==> InOrder(s, sorted[i], sorted[j])
  }

  /** Where an insertion puts its element. */
  lemma {:induction false} InsertedAt<T(!new)>(sorted: seq<T>, x: T, key: T -> real) returns (p: nat)
    ensures p <= |sorted|
    ensures InsertDescending(sorted, x, key) == sorted[..p] + [x] + sorted[p..]
    ensures p > 0 ==> key(sorted[p - 1]) >= key(x)
    ensures forall i :: p <= i < |sorted| ==> key(sorted[i]) < key(x)
  {
    if sorted == [] || key(sorted[|sorted| - 1]) >= key(x) {
      p := |sorted|;
      assert sorted[..p] + [x] + sorted[p..] == sorted + [x];
    } else {
      var n := |sorted| - 1;
      p := InsertedAt(sorted[..n], x, key);
      LastRejoins(sorted, x, p);
    }
  }

  lemma LastRejoins<T(!new)>(s: seq<T>, x: T, p: nat)
    requires p < |s|
    ensures var n := |s| - 1; s[..n][..p] + [x] + s[..n][p..] + [s[n]] == s[..p] + [x] + s[p..]
  {
    var n := |s| - 1;
    assert s[..n][..p] == s[..p];
    assert s[p..] == s[..n][p..] + [s[n]];
  }

  lemma OneMoreStaysFalling<T(!new)>(sorted: seq<T>, x: T, key: T -> real, p: nat)
    requires Falling(sorted, key) && p <= |sorted|
    requires p > 0 ==> key(sorted[p - 1]) >= key(x)
    requires forall i :: p <= i < |sorted| ==> key(sorted[i]) < key(x)
    ensures Falling(sorted[..p] + [x] + sorted[p..], key)
  {
    var r := sorted[..p] + [x] + sorted[p..];
    forall i, j | 0 <= i < j < |r| ensures key(r[i]) >= key(r[j]) {
      if i < p {
        assert r[i] == sorted[i] && key(sorted[i]) >= key(sorted[p - 1]);
      } else if i > p {
        assert r[i] == sorted[i - 1] && r[j] == sorted[j - 1];
      }
    }
  }

  lemma OneMoreStaysStable<T(!new)>(s: seq<T>, sorted: seq<T>, x: T, key: T -> real, p: nat)
    requires Stable(s, sorted, key) && p <= |sorted| && multiset(sorted) == multiset(s)
    requires forall i :: p <= i < |sorted| ==> key(sorted[i]) < key(x)
    ensures Stable(s + [x], sorted[..p] + [x] + sorted[p..], key)
  {
    var r := sorted[..p] + [x] + sorted[p..];
    forall i, j | 0 <= i < j < |r| && key(r[i]) == key(r[j]) ensures InOrder(s + [x], r[i], r[j]) {
      if i == p {
        assert r[j] == sorted[j - 1];
      } else {
        var a := if i < p then i else i - 1;
        assert r[i] == sorted[a] && sorted[a] in multiset(sorted);
        if j == p {
          assert r[i] in s;
          var k :| 0 <= k < |s| && s[k] == r[i];
          assert (s + [x])[k] == r[i] && (s + [x])[|s|] == r[j];
        } else {
          var b := if j < p then j else j - 1;
          assert r[j] == sorted[b] && a < b;
          var k, l :| 0 <= k < l < |s| && s[k] == sorted[a] && s[l] == sorted[b];
          assert (s + [x])[k] == r[i] && (s + [x])[l] == r[j];
        }
      }
    }
  }

  /** What the sort promises. */
  lemma {:induction false} SortedAs<T(!new)>(s: seq<T>, key: T -> real)
    ensures multiset(SortDescending(s, key)) == multiset(s)
    ensures Falling(SortDescending(s, key), key) && Stable(s, SortDescending(s, key), key)
  {
    if s != [] {
      var n := |s| - 1;
      var sorted := SortDescending(s[..n], key);
      SortedAs(s[..n], key);
      assert s == s[..n] + [s[n]];
      assert SortDescending(s, key) == InsertDescending(sorted, s[n], key);
      hide *;
      InsertedKeeps(s[..n], sorted, s[n], key);
    }
  }

  lemma {:induction false} InsertedContents<T(!new)>(sorted: seq<T>, x: T, key: T -> real)
    ensures multiset(InsertDescending(sorted, x, key)) == multiset(sorted) + multiset{x}
  {
    if sorted != [] && key(sorted[|sorted| - 1]) < key(x) {
      var n := |sorted| - 1;
      InsertedContents(sorted[..n], x, key);
      assert sorted == sorted[..n] + [sorted[n]];
    }
  }

  lemma InsertedKeeps<T(!new)>(s: seq<T>, sorted: seq<T>, x: T, key: T -> real)
    requires multiset(sorted) == multiset(s) && Falling(sorted, key) && Stable(s, sorted, key)
    ensures var r := InsertDescending(sorted, x, key);
      multiset(r) == multiset(s + [x]) && Falling(r, key) && Stable(s + [x], r, key)
  {
    var p := InsertedAt(sorted, x, key);
    OneMoreStaysFalling(sorted, x, key, p);
    OneMoreStaysStable(s, sorted, x, key, p);
    InsertedContents(sorted, x, key);
    hide *;
  }
}
