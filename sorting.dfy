/**
 * Stable sorting by an integer key.
 *
 * `Array.prototype.sort` with a comparator of the form `(a, b) => key(a) - key(b)`
 * is stable (ECMA-262 since 2019), and a stable sort by a key is unique: it is
 * the insertion sort `SortBy` below. Both `sortPlayersByPosition` and the guild
 * list of `/guilds` sort this way; `InsertionSortBy` is the in-place version.
 */
module Sorting {

  /** Keys never decrease from left to right. */
  ghost predicate SortedBy<T>(s: seq<T>, key: T -> int) {
    forall i, j :: 0 <= i < j < |s| ==> key(s[i]) <= key(s[j])
  }

  /** The elements of `s` whose key is `k`, in their order in `s`. */
  function WithKey<T>(s: seq<T>, key: T -> int, k: int): (r: seq<T>)
    ensures |r| <= |s|
    ensures forall i :: 0 <= i < |r| ==> key(r[i]) == k
  {
    if s == [] then []
    else WithKey(s[..|s| - 1], key, k) + (if key(s[|s| - 1]) == k then [s[|s| - 1]] else [])
  }

  /** Inserts `x` into `t` after the last element whose key is at most `key(x)`. */
  function InsertBy<T>(t: seq<T>, x: T, key: T -> int): seq<T>
  {
    if t == [] || key(t[|t| - 1]) <= key(x) then t + [x]
    else InsertBy(t[..|t| - 1], x, key) + [t[|t| - 1]]
  }

  /** Stable sort of `s` by `key`. */
  function SortBy<T>(s: seq<T>, key: T -> int): seq<T>
  {
    if s == [] then [] else InsertBy(SortBy(s[..|s| - 1], key), s[|s| - 1], key)
  }

  // ---------------------------------------------------------------------------
  // Properties of a single insertion
  // ---------------------------------------------------------------------------

  lemma {:induction false} WithKeyAppend<T>(a: seq<T>, b: seq<T>, key: T -> int, k: int)
    ensures WithKey(a + b, key, k) == WithKey(a, key, k) + WithKey(b, key, k)
  {
    if b != [] {
      var b' := b[..|b| - 1];
      assert (a + b)[..|a + b| - 1] == a + b';
      WithKeyAppend(a, b', key, k);
    } else {
      assert a + b == a;
    }
  }

  lemma WithKeyOne<T>(x: T, key: T -> int, k: int)
    ensures WithKey([x], key, k) == if key(x) == k then [x] else []
  {
    assert [x][..0] == [];
  }

  lemma {:induction false} InsertByPermutes<T>(t: seq<T>, x: T, key: T -> int)
    ensures multiset(InsertBy(t, x, key)) == multiset(t) + multiset{x}
  {
    if !(t == [] || key(t[|t| - 1]) <= key(x)) {
      InsertByPermutes(t[..|t| - 1], x, key);
      assert t == t[..|t| - 1] + [t[|t| - 1]];
    }
  }

  lemma {:induction false} InsertBySorted<T>(t: seq<T>, x: T, key: T -> int)
    requires SortedBy(t, key)
    ensures SortedBy(InsertBy(t, x, key), key)
    ensures |InsertBy(t, x, key)| == |t| + 1
    ensures key(InsertBy(t, x, key)[|t|]) == if t == [] || key(t[|t| - 1]) <= key(x) then key(x) else key(t[|t| - 1])
  {
    if t == [] || key(t[|t| - 1]) <= key(x) {
      assert InsertBy(t, x, key) == t + [x];
    } else {
      var t', last := t[..|t| - 1], t[|t| - 1];
      InsertBySorted(t', x, key);
      var u := InsertBy(t', x, key);
      assert InsertBy(t, x, key) == u + [last];
      // the largest key of u is that of x or of the last of t', neither above the key of `last`
      assert key(u[|u| - 1]) <= key(last);
      assert forall i :: 0 <= i < |u| ==> key(u[i]) <= key(u[|u| - 1]);
    }
  }

  lemma {:induction false} InsertByStable<T>(t: seq<T>, x: T, key: T -> int, k: int)
    ensures WithKey(InsertBy(t, x, key), key, k) == WithKey(t, key, k) + WithKey([x], key, k)
  {
    if t == [] || key(t[|t| - 1]) <= key(x) {
      WithKeyAppend(t, [x], key, k);
    } else {
      var t', last := t[..|t| - 1], t[|t| - 1];
      InsertByStable(t', x, key, k);
      WithKeyAppend(InsertBy(t', x, key), [last], key, k);
      WithKeyAppend(t', [last], key, k);
      assert t == t' + [last];
      WithKeyOne(x, key, k);
      WithKeyOne(last, key, k);
      // `last` and `x` have different keys, so at most one of them has key `k`
      assert WithKey([x], key, k) == [] || WithKey([last], key, k) == [];
    }
  }

  // ---------------------------------------------------------------------------
  // Properties of the sort
  // ---------------------------------------------------------------------------

  /** The sort returns a permutation of its input. */
  lemma {:induction false} SortByPermutes<T>(s: seq<T>, key: T -> int)
    ensures multiset(SortBy(s, key)) == multiset(s)
    ensures |SortBy(s, key)| == |s|
  {
    if s != [] {
      SortByPermutes(s[..|s| - 1], key);
      InsertByPermutes(SortBy(s[..|s| - 1], key), s[|s| - 1], key);
      assert s == s[..|s| - 1] + [s[|s| - 1]];
    }
  }

  /** After the sort, keys are nondecreasing. */
  lemma {:induction false} SortBySorted<T>(s: seq<T>, key: T -> int)
    ensures SortedBy(SortBy(s, key), key)
  {
    if s != [] {
      SortBySorted(s[..|s| - 1], key);
      InsertBySorted(SortBy(s[..|s| - 1], key), s[|s| - 1], key);
    }
  }

  /** The sort is stable: elements with equal keys keep their relative order. */
  lemma {:induction false} SortByStable<T>(s: seq<T>, key: T -> int, k: int)
    ensures WithKey(SortBy(s, key), key, k) == WithKey(s, key, k)
  {
    if s != [] {
      var s', x := s[..|s| - 1], s[|s| - 1];
      SortByStable(s', key, k);
      InsertByStable(SortBy(s', key), x, key, k);
      WithKeyAppend(s', [x], key, k);
      assert s == s' + [x];
      assert [x][..0] == [];
    }
  }

  // ---------------------------------------------------------------------------
  // In place
  // ---------------------------------------------------------------------------

  /** Insertion sort of `a` by `key`, in place. */
  method InsertionSortBy<T>(a: array<T>, key: T -> int)
    modifies a
    ensures a[..] == SortBy(old(a[..]), key)
  {
    ghost var orig := a[..];
    var i := 0;
    while i < a.Length
      invariant 0 <= i <= a.Length
      invariant a[..i] == SortBy(orig[..i], key)
      invariant a[i..] == orig[i..]
    {
      assert orig[..i + 1][..i] == orig[..i];
      assert a[i] == orig[i];
      InsertAt(a, i, key);
      i := i + 1;
    }
    assert a[..] == a[..a.Length] && orig == orig[..a.Length];
  }

  /** Moves `a[i]` left into the prefix `a[..i]`, shifting larger keys right. */
  method InsertAt<T>(a: array<T>, i: nat, key: T -> int)
    requires i < a.Length
    modifies a
    ensures a[..i + 1] == InsertBy(old(a[..i]), old(a[i]), key)
    ensures a[i + 1..] == old(a[i + 1..])
  {
    ghost var sorted := a[..i];
    var x := a[i];
    var j := i;
    assert sorted[..j] == sorted && sorted[j..] == [];
    while j > 0 && key(a[j - 1]) > key(x)
      invariant 0 <= j <= i
      invariant forall k :: 0 <= k < j ==> a[k] == sorted[k]
      invariant forall k :: j < k <= i ==> a[k] == sorted[k - 1]
      invariant forall k :: i < k < a.Length ==> a[k] == old(a[k])
      invariant InsertBy(sorted, x, key) == InsertBy(sorted[..j], x, key) + sorted[j..]
    {
      ShiftStep(sorted, x, key, j, i);
      a[j] := a[j - 1];
      j := j - 1;
    }
    a[j] := x;
    FinishInsert(sorted, x, key, j);
    Assemble(a[..], sorted, x, j);
  }

  lemma Assemble<T>(cur: seq<T>, sorted: seq<T>, x: T, j: nat)
    requires j <= |sorted| < |cur|
    requires forall k :: 0 <= k < j ==> cur[k] == sorted[k]
    requires cur[j] == x
    requires forall k :: j < k <= |sorted| ==> cur[k] == sorted[k - 1]
    ensures cur[..|sorted| + 1] == sorted[..j] + [x] + sorted[j..]
  {
  }

  lemma FinishInsert<T>(sorted: seq<T>, x: T, key: T -> int, j: nat)
    requires j <= |sorted|
    requires j == 0 || key(sorted[j - 1]) <= key(x)
    requires InsertBy(sorted, x, key) == InsertBy(sorted[..j], x, key) + sorted[j..]
    ensures InsertBy(sorted, x, key) == sorted[..j] + [x] + sorted[j..]
  {
  }

  lemma ShiftStep<T>(sorted: seq<T>, x: T, key: T -> int, j: nat, i: nat)
    requires 0 < j <= i == |sorted|
    requires key(sorted[j - 1]) > key(x)
    requires InsertBy(sorted, x, key) == InsertBy(sorted[..j], x, key) + sorted[j..]
    ensures InsertBy(sorted, x, key) == InsertBy(sorted[..j - 1], x, key) + sorted[j - 1..]
  {
    assert sorted[..j][..j - 1] == sorted[..j - 1];
    assert sorted[j - 1..] == [sorted[j - 1]] + sorted[j..];
  }
}
