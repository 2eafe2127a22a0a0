/**
 * Python's `sorted(xs, key=k, reverse=True)` / `xs.sort(key=k, reverse=True)`:
 * a stable sort into non-increasing key order, written as an insertion sort.
 */
module Sorting {

  /** Keys never increase from left to right. */
  predicate SortedDesc<T>(s: seq<T>, key: T -> real) {
    forall i, j :: 0 <= i < j < |s| ==> key(s[i]) >= key(s[j])
  }

  /**
   * Puts `x` right after the last element whose key is at least `key(x)`,
   * so that elements with equal keys keep their order of arrival.
   */
  function Insert<T(==)>(x: T, s: seq<T>, key: T -> real): (r: seq<T>)
    requires SortedDesc(s, key)
    ensures SortedDesc(r, key)
    ensures multiset(r) == multiset(s) + multiset{x}
    ensures |r| == |s| + 1
  {
    if s == [] then [x]
    else
      var last := s[|s| - 1];
      var init := s[..|s| - 1];
      assert s == init + [last];
      if key(last) >= key(x) then s + [x]
      else
        var r' := Insert(x, init, key);
        BoundKept(r', init, x, key, key(last));
        assert multiset(r' + [last]) == multiset(r') + multiset{last};
        r' + [last]
  }

  /** A bound on every key of `s` and on `key(x)` holds for every rearrangement of `s` and `x`. */
  lemma BoundKept<T>(r: seq<T>, s: seq<T>, x: T, key: T -> real, b: real)
    requires multiset(r) == multiset(s) + multiset{x}
    requires forall i :: 0 <= i < |s| ==> key(s[i]) >= b
    requires key(x) >= b
    ensures forall i :: 0 <= i < |r| ==> key(r[i]) >= b
  {
    forall i | 0 <= i < |r| ensures key(r[i]) >= b {
      var y := r[i];
      assert y in multiset(r);
      if y != x {
        assert y in multiset(s);
        var j :| 0 <= j < |s| && s[j] == y;
      }
    }
  }

  /** The stable descending sort of `s` by `key`. */
  function SortDesc<T(==)>(s: seq<T>, key: T -> real): (r: seq<T>)
    ensures SortedDesc(r, key)
    ensures multiset(r) == multiset(s)
    ensures |r| == |s|
  {
    if s == [] then []
    else
      assert s == s[..|s| - 1] + [s[|s| - 1]];
      Insert(s[|s| - 1], SortDesc(s[..|s| - 1], key), key)
  }

  // ---------------------------------------------------------------- stability

  /** The elements of `s` whose key is `v`, in their order in `s`. */
  function WithKey<T>(s: seq<T>, key: T -> real, v: real): (r: seq<T>)
    ensures |r| <= |s|
    ensures forall k :: 0 <= k < |r| ==> key(r[k]) == v
  {
    if s == [] then []
    else WithKey(s[..|s| - 1], key, v) + (if key(s[|s| - 1]) == v then [s[|s| - 1]] else [])
  }

  lemma WithKeySnoc<T>(s: seq<T>, x: T, key: T -> real, v: real)
    ensures WithKey(s + [x], key, v) == WithKey(s, key, v) + (if key(x) == v then [x] else [])
  {
    assert (s + [x])[..|s|] == s;
  }

  /** Inserting `x` keeps, among the elements of each key, the order of arrival. */
  lemma {:induction false} InsertStable<T>(x: T, s: seq<T>, key: T -> real, v: real)
    requires SortedDesc(s, key)
    ensures WithKey(Insert(x, s, key), key, v) == WithKey(s + [x], key, v)
  {
    if s != [] {
      var last := s[|s| - 1];
      var init := s[..|s| - 1];
      assert s == init + [last];
      if key(last) < key(x) {
        var r' := Insert(x, init, key);
        assert Insert(x, s, key) == r' + [last];
        InsertStable(x, init, key, v);
        PassOver(x, last, init, r', key, v);
      }
    }
  }

  /** `x` moving in front of `last`, whose key is smaller, changes no key's order. */
  lemma PassOver<T>(x: T, last: T, init: seq<T>, r': seq<T>, key: T -> real, v: real)
    requires key(last) < key(x)
    requires WithKey(r', key, v) == WithKey(init + [x], key, v)
    ensures WithKey(r' + [last], key, v) == WithKey(init + [last] + [x], key, v)
  {
    var lx := if key(x) == v then [x] else [];
    var ll := if key(last) == v then [last] else [];
    WithKeySnoc(r', last, key, v);
    WithKeySnoc(init, x, key, v);
    WithKeySnoc(init, last, key, v);
    WithKeySnoc(init + [last], x, key, v);
    assert lx == [] || ll == [];
    assert lx + ll == ll + lx;
  }

  /** The sort is stable: the elements of each key keep their relative order. */
  lemma {:induction false} SortDescStable<T>(s: seq<T>, key: T -> real, v: real)
    ensures WithKey(SortDesc(s, key), key, v) == WithKey(s, key, v)
  {
    if s != [] {
      var init := s[..|s| - 1];
      SortDescStable(init, key, v);
      InsertStable(s[|s| - 1], SortDesc(init, key), key, v);
      WithKeySnoc(SortDesc(init, key), s[|s| - 1], key, v);
    }
  }

  // ---------------------------------------------------------------- duplicates

  predicate NoDup<T(==)>(s: seq<T>) {
    forall i, j :: 0 <= i < j < |s| ==> s[i] != s[j]
  }

  /** `list(set(s))`: every element once, in order of first occurrence. */
  function Dedup<T(==,!new)>(s: seq<T>): (r: seq<T>)
    ensures NoDup(r)
    ensures forall x :: x in r <==> x in s
    ensures |r| <= |s| && (r == [] <==> s == [])
  {
    if s == [] then []
    else
      var init := Dedup(s[..|s| - 1]);
      var last := s[|s| - 1];
      assert forall x :: x in s <==> x in s[..|s| - 1] || x == last by {
        assert s == s[..|s| - 1] + [last];
      }
      if last in init then init else init + [last]
  }

  /** Without duplicates, every element occurs at most once. */
  lemma {:induction false} NoDupCount<T>(s: seq<T>, x: T)
    requires NoDup(s)
    ensures multiset(s)[x] <= 1
    decreases |s|
  {
    if s != [] {
      var init := s[..|s| - 1];
      assert s == init + [s[|s| - 1]];
      NoDupCount(init, x);
      if x == s[|s| - 1] {
        assert x !in init;
      }
    }
  }

  /** Reordering a sequence without duplicates cannot create any. */
  lemma PermutationKeepsNoDup<T>(a: seq<T>, b: seq<T>)
    requires multiset(a) == multiset(b) && NoDup(a)
    ensures NoDup(b)
  {
    forall i, j | 0 <= i < j < |b| ensures b[i] != b[j] {
      if b[i] == b[j] {
        var x := b[i];
        assert b == b[..j] + [b[j]] + b[j + 1..];
        assert x in b[..j];
        assert multiset(b)[x] >= multiset(b[..j])[x] + 1;
        NoDupCount(a, x);
        assert false;
      }
    }
  }
}
