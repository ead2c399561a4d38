/**
 * The stable sort JavaScript's `Array.prototype.sort` performs, by a numeric key:
 * a functional insertion sort as the specification and an in-place insertion sort on an array.
 */
module Sorting {

  ghost predicate SortedBy<T>(s: seq<T>, key: T -> real) {
    forall i, j :: 0 <= i < j < |s| ==> key(s[i]) <= key(s[j])
  }

  /** The elements of `s` whose key is `k`, in their order in `s`. */
  function WithKey<T>(s: seq<T>, key: T -> real, k: real): seq<T> {
    if s == [] then []
    else WithKey(s[..|s| - 1], key, k) + (if key(s[|s| - 1]) == k then [s[|s| - 1]] else [])
  }

  /** Puts `x` after the trailing elements of `s` that have a larger key; scanning from the back. */
  function Insert<T>(s: seq<T>, x: T, key: T -> real): (r: seq<T>)
    ensures |r| == |s| + 1
  {
    if s == [] || key(s[|s| - 1]) <= key(x) then s + [x]
    else Insert(s[..|s| - 1], x, key) + [s[|s| - 1]]
  }

  lemma {:induction false} InsertPermutes<T>(s: seq<T>, x: T, key: T -> real)
    ensures multiset(Insert(s, x, key)) == multiset(s) + multiset{x}
  {
    if s != [] && key(s[|s| - 1]) > key(x) {
      var front := s[..|s| - 1];
      InsertPermutes(front, x, key);
      assert s == front + [s[|s| - 1]];
    }
  }

  /** Insertion sort: each element in turn inserted into the sorted prefix. */
  function SortedOf<T>(s: seq<T>, key: T -> real): (r: seq<T>)
    ensures |r| == |s|
  {
    if s == [] then []
    else Insert(SortedOf(s[..|s| - 1], key), s[|s| - 1], key)
  }

  /** The result of the sort is a permutation of its input. */
  lemma {:induction false} SortedOfPermutes<T>(s: seq<T>, key: T -> real)
    ensures multiset(SortedOf(s, key)) == multiset(s)
  {
    if s != [] {
      var front := s[..|s| - 1];
      SortedOfPermutes(front, key);
      InsertPermutes(SortedOf(front, key), s[|s| - 1], key);
      assert s == front + [s[|s| - 1]];
    }
  }

  /** An element no smaller than everything before it extends a sorted sequence. */
  lemma SortedSnoc<T>(s: seq<T>, y: T, key: T -> real)
    requires SortedBy(s, key)
    requires forall i :: 0 <= i < |s| ==> key(s[i]) <= key(y)
    ensures SortedBy(s + [y], key)
  {
  }

  lemma {:induction false} InsertSorted<T>(s: seq<T>, x: T, key: T -> real)
    requires SortedBy(s, key)
    ensures SortedBy(Insert(s, x, key), key)
  {
    if s == [] || key(s[|s| - 1]) <= key(x) {
      SortedSnoc(s, x, key);
    } else {
      var front := s[..|s| - 1];
      var last := s[|s| - 1];
      InsertSorted(front, x, key);
      InsertPermutes(front, x, key);
      var r := Insert(front, x, key);
      forall i | 0 <= i < |r|
        ensures key(r[i]) <= key(last)
      {
        assert r[i] in multiset(r);
        if r[i] != x {
          var k :| 0 <= k < |front| && front[k] == r[i];
        }
      }
      SortedSnoc(r, last, key);
    }
  }

  /** The result of the sort is ordered by key. */
  lemma {:induction false} SortedOfIsSorted<T>(s: seq<T>, key: T -> real)
    ensures SortedBy(SortedOf(s, key), key)
  {
    if s != [] {
      SortedOfIsSorted(s[..|s| - 1], key);
      InsertSorted(SortedOf(s[..|s| - 1], key), s[|s| - 1], key);
    }
  }

  lemma {:induction false} InsertWithKey<T>(s: seq<T>, x: T, key: T -> real, k: real)
    ensures WithKey(Insert(s, x, key), key, k)
         == WithKey(s, key, k) + (if key(x) == k then [x] else [])
  {
    if s == [] || key(s[|s| - 1]) <= key(x) {
      assert (s + [x])[..|s|] == s;
    } else {
      var front := s[..|s| - 1];
      var last := s[|s| - 1];
      InsertWithKey(front, x, key, k);
      var r := Insert(front, x, key);
      assert (r + [last])[..|r|] == r;
    }
  }

  /** Stability: elements with equal keys keep their relative order. */
  lemma {:induction false} SortedOfIsStable<T>(s: seq<T>, key: T -> real, k: real)
    ensures WithKey(SortedOf(s, key), key, k) == WithKey(s, key, k)
  {
    if s != [] {
      SortedOfIsStable(s[..|s| - 1], key, k);
      InsertWithKey(SortedOf(s[..|s| - 1], key), s[|s| - 1], key, k);
    }
  }

  /** Sorting an already sorted sequence changes nothing. */
  lemma {:induction false} SortedOfSorted<T>(s: seq<T>, key: T -> real)
    requires SortedBy(s, key)
    ensures SortedOf(s, key) == s
  {
    if s != [] {
      var front := s[..|s| - 1];
      assert SortedBy(front, key);
      SortedOfSorted(front, key);
      assert front + [s[|s| - 1]] == s;
    }
  }

  /** Sorting one more element inserts it into the sorted prefix. */
  lemma SortedOfSnoc<T>(s: seq<T>, n: nat, key: T -> real)
    requires n < |s|
    ensures SortedOf(s[..n + 1], key) == Insert(SortedOf(s[..n], key), s[n], key)
  {
    assert s[..n + 1][..n] == s[..n];
  }

  /** `Insert` puts `x` right after the last element whose key does not exceed its own. */
  lemma {:induction false} InsertAtGap<T>(s: seq<T>, j: nat, x: T, key: T -> real)
    requires j <= |s|
    requires j == 0 || key(s[j - 1]) <= key(x)
    requires forall k :: j <= k < |s| ==> key(s[k]) > key(x)
    ensures Insert(s, x, key) == s[..j] + [x] + s[j..]
    decreases |s|
  {
    if j < |s| {
      var front := s[..|s| - 1];
      InsertAtGap(front, j, x, key);
      assert front[..j] == s[..j];
      assert s[j..] == front[j..] + [s[|s| - 1]];
    } else {
      assert s[..j] == s;
    }
  }

  /** Shifts the trailing elements of `a[..i]` whose key exceeds `key(x)` one place right,
      leaving a gap at the returned index `j`, where `x` belongs. */
  method ShiftLarger<T>(a: array<T>, i: nat, x: T, key: T -> real) returns (j: nat)
    requires i < a.Length
    modifies a
    ensures j <= i
    ensures forall k :: 0 <= k < j ==> a[k] == old(a[k])
    ensures forall k :: j < k <= i ==> a[k] == old(a[k - 1])
    ensures forall k :: i < k < a.Length ==> a[k] == old(a[k])
    ensures Insert(old(a[..i]), x, key) == old(a[..j]) + [x] + old(a[j..i])
  {
    ghost var orig := a[..];
    j := i;
    while j > 0 && key(a[j - 1]) > key(x)
      invariant 0 <= j <= i
      invariant forall k :: 0 <= k < j ==> a[k] == orig[k]
      invariant forall k :: j < k <= i ==> a[k] == orig[k - 1]
      invariant forall k :: i < k < a.Length ==> a[k] == orig[k]
      invariant forall k :: j <= k < i ==> key(orig[k]) > key(x)
    {
      a[j] := a[j - 1];
      j := j - 1;
    }
    ghost var done := orig[..i];
    InsertAtGap(done, j, x, key);
    assert done[..j] == old(a[..j]) && done[j..] == old(a[j..i]);
  }

  /** Moves `a[i]` left past the larger-keyed elements before it, shifting them one place right. */
  method InsertAt<T>(a: array<T>, i: nat, key: T -> real)
    requires i < a.Length
    modifies a
    ensures a[..i + 1] == Insert(old(a[..i]), old(a[i]), key)
    ensures a[i + 1..] == old(a[i + 1..])
  {
    var x := a[i];
    var j := ShiftLarger(a, i, x, key);
    a[j] := x;
  }

  /** In-place insertion sort by `key`, stable, as `array.sort((a, b) => key(a) - key(b))` is. */
  method SortInPlace<T>(a: array<T>, key: T -> real)
    modifies a
    ensures a[..] == SortedOf(old(a[..]), key)
  {
    ghost var orig := a[..];
    var i := 0;
    while i < a.Length
      invariant 0 <= i <= a.Length
      invariant a[..i] == SortedOf(orig[..i], key)
      invariant a[i..] == orig[i..]
    {
      assert a[i] == orig[i];
      InsertAt(a, i, key);
      SortedOfSnoc(orig, i, key);
      assert a[i + 1..] == orig[i + 1..];
      i := i + 1;
    }
    assert orig[..i] == orig;
    assert a[..i] == a[..];
  }
}
