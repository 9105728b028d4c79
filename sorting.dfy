/** The stable sort that `Array.prototype.sort` performs with a comparator, as a reference
    definition on sequences (insertion sort) and as an in-place method on arrays. A comparator
    `cmp(a, b) <= 0` is represented by the relation `le(a, b)`: "a may stay before b". */
module Sorting {

  /** `le` is total and transitive, as a consistent comparator is. */
  ghost predicate TotalPreorder<T(!new)>(le: (T, T) -> bool) {
    && (forall a, b :: le(a, b) || le(b, a))
    && (forall a, b, c :: le(a, b) && le(b, c) ==> le(a, c))
  }

  /** Every element may stay before every later one. */
  ghost predicate SortedBy<T>(s: seq<T>, le: (T, T) -> bool) {
    forall i, j :: 0 <= i < j < |s| ==> le(s[i], s[j])
  }

  /** Inserts `x` after the last element that may precede it and after everything before that,
      so that `x` follows the elements equal to it (stability). */
  function Insert<T>(s: seq<T>, x: T, le: (T, T) -> bool): (r: seq<T>)
    ensures |r| == |s| + 1
    ensures multiset(r) == multiset(s) + multiset{x}
    decreases |s|
  {
    if s == [] then [x]
    else if le(s[|s| - 1], x) then s + [x]
    else
      assert s == s[..|s| - 1] + [s[|s| - 1]];
      Insert(s[..|s| - 1], x, le) + [s[|s| - 1]]
  }

  /** Stable sort of `s`: each element in turn inserted into the sorted prefix before it. */
  function Sort<T>(s: seq<T>, le: (T, T) -> bool): (r: seq<T>)
    ensures |r| == |s|
    ensures multiset(r) == multiset(s)
    decreases |s|
  {
    if s == [] then []
    else
      assert s == s[..|s| - 1] + [s[|s| - 1]];
      Insert(Sort(s[..|s| - 1], le), s[|s| - 1], le)
  }

  /** Inserting into a sorted sequence keeps it sorted. */
  lemma {:induction false} InsertSorted<T(!new)>(s: seq<T>, x: T, le: (T, T) -> bool)
    requires TotalPreorder(le)
    requires SortedBy(s, le)
    ensures SortedBy(Insert(s, x, le), le)
    decreases |s|
  {
    if s != [] {
      var n := |s| - 1;
      var last := s[n];
      if le(last, x) {
        forall i, j | 0 <= i < j < |s + [x]| ensures le((s + [x])[i], (s + [x])[j]) {
          if j == |s| {
            if i < n {
              assert le(s[i], last);
            }
          }
        }
      } else {
        assert le(x, last);
        var init := s[..n];
        assert SortedBy(init, le);
        InsertSorted(init, x, le);
        var ins := Insert(init, x, le);
        forall k | 0 <= k < |ins| ensures le(ins[k], last) {
          assert ins[k] in multiset(ins);
          if ins[k] != x {
            assert ins[k] in multiset(init);
            var m :| 0 <= m < |init| && init[m] == ins[k];
            assert init[m] == s[m];
          }
        }
        forall i, j | 0 <= i < j < |ins + [last]| ensures le((ins + [last])[i], (ins + [last])[j]) {
          if j == |ins| {
            assert (ins + [last])[i] == ins[i];
          } else {
            assert (ins + [last])[i] == ins[i] && (ins + [last])[j] == ins[j];
          }
        }
      }
    }
  }

  /** The reference sort produces a sorted sequence. */
  lemma {:induction false} SortSorted<T(!new)>(s: seq<T>, le: (T, T) -> bool)
    requires TotalPreorder(le)
    ensures SortedBy(Sort(s, le), le)
    decreases |s|
  {
    if s != [] {
      SortSorted(s[..|s| - 1], le);
      InsertSorted(Sort(s[..|s| - 1], le), s[|s| - 1], le);
    }
  }

  /** One step of shifting in the insertion: `x` moves in front of an element it may not follow. */
  lemma InsertStep<T>(p: seq<T>, j: nat, x: T, le: (T, T) -> bool)
    requires 0 < j <= |p|
    requires !le(p[j - 1], x)
    ensures Insert(p[..j], x, le) + p[j..] == Insert(p[..j - 1], x, le) + p[j - 1..]
  {
    assert p[..j][..j - 1] == p[..j - 1];
    assert p[j - 1..] == [p[j - 1]] + p[j..];
  }

  /** The insertion stops in front of an element `x` may follow, or at the start. */
  lemma InsertStops<T>(p: seq<T>, j: nat, x: T, le: (T, T) -> bool)
    requires j <= |p|
    requires j > 0 ==> le(p[j - 1], x)
    ensures Insert(p[..j], x, le) == p[..j] + [x]
  {
  }

  /** Past elements that `x` may not follow, the insertion only works on the prefix before them. */
  lemma {:induction false} InsertSuffix<T>(p: seq<T>, m: nat, x: T, le: (T, T) -> bool)
    requires m <= |p|
    requires forall k :: m <= k < |p| ==> !le(p[k], x)
    ensures Insert(p, x, le) == Insert(p[..m], x, le) + p[m..]
    decreases |p| - m
  {
    if m == |p| {
      assert p[..m] == p && p[m..] == [];
    } else {
      InsertSuffix(p, m + 1, x, le);
      InsertStep(p, m + 1, x, le);
    }
  }

  /** Inserting goes in right after the last element `x` may follow, when none of those after
      it may precede `x`. */
  lemma InsertAt<T>(p: seq<T>, j: nat, x: T, le: (T, T) -> bool)
    requires j <= |p|
    requires j > 0 ==> le(p[j - 1], x)
    requires forall k :: j <= k < |p| ==> !le(p[k], x)
    ensures Insert(p, x, le) == p[..j] + [x] + p[j..]
  {
    InsertSuffix(p, j, x, le);
    InsertStops(p, j, x, le);
  }

  /** Inserts `a[i]` into the prefix `a[..i]`, shifting larger elements one place right. */
  method InsertInPlace<T>(a: array<T>, i: nat, le: (T, T) -> bool)
    requires i < a.Length
    modifies a
    ensures a[..i + 1] == Insert(old(a[..i]), old(a[i]), le)
    ensures a[i + 1..] == old(a[i + 1..])
  {
    var x := a[i];
    ghost var p, rest := a[..i], a[i + 1..];
    var j := ShiftRight(a, i, x, le);
    InsertAt(p, j, x, le);
    ghost var b := a[..];
    assert |b| == a.Length;
    assert forall k :: 0 <= k < j ==> b[k] == p[k];
    assert forall k :: j < k <= i ==> b[k] == p[k - 1];
    assert forall k :: i < k < |b| ==> b[k] == rest[k - i - 1];
    a[j] := x;
    assert a[..] == b[j := x];
    Placed(b, p, rest, i, j, x);
  }

  /** The array contents after the shift, with `x` put in at `j`, are `p` with `x` inserted at
      `j`, followed by the untouched rest. */
  lemma Placed<T>(b: seq<T>, p: seq<T>, rest: seq<T>, i: nat, j: nat, x: T)
    requires j <= i == |p| && |b| == i + 1 + |rest|
    requires forall k :: 0 <= k < j ==> b[k] == p[k]
    requires forall k :: j < k <= i ==> b[k] == p[k - 1]
    requires forall k :: i < k < |b| ==> b[k] == rest[k - i - 1]
    ensures b[j := x][..i + 1] == p[..j] + [x] + p[j..]
    ensures b[j := x][i + 1..] == rest
  {
    var c := b[j := x];
    var r := p[..j] + [x] + p[j..];
    InsertedAt(p, j, x);
    assert forall k :: 0 <= k <= i ==> c[..i + 1][k] == r[k];
    assert forall k :: 0 <= k < |rest| ==> c[i + 1..][k] == rest[k];
  }

  /** The positions of `p` with `x` put in at `j`. */
  lemma InsertedAt<T>(p: seq<T>, j: nat, x: T)
    requires j <= |p|
    ensures var r := p[..j] + [x] + p[j..];
      && |r| == |p| + 1 && r[j] == x
      && (forall k :: 0 <= k < j ==> r[k] == p[k])
      && (forall k :: j < k <= |p| ==> r[k] == p[k - 1])
  {
  }

  /** Moves the run of elements before `a[i]` that `x` may not follow one place right, and
      returns the index where that run began, now free for `x`. */
  method ShiftRight<T>(a: array<T>, i: nat, x: T, le: (T, T) -> bool) returns (j: nat)
    requires i < a.Length
    modifies a
    ensures j <= i
    ensures forall k :: 0 <= k < j ==> a[k] == old(a[k])
    ensures forall k :: j < k <= i ==> a[k] == old(a[k - 1])
    ensures forall k :: i < k < a.Length ==> a[k] == old(a[k])
    ensures j > 0 ==> le(a[j - 1], x)
    ensures forall k :: j <= k < i ==> !le(old(a[k]), x)
  {
    j := i;
    while j > 0 && !le(a[j - 1], x)
      invariant 0 <= j <= i
      invariant forall k :: 0 <= k < j ==> a[k] == old(a[k])
      invariant forall k :: j < k <= i ==> a[k] == old(a[k - 1])
      invariant forall k :: i < k < a.Length ==> a[k] == old(a[k])
      invariant forall k :: j <= k < i ==> !le(old(a[k]), x)
    {
      a[j] := a[j - 1];
      j := j - 1;
    }
  }

  /** The reference sort of a one-longer prefix inserts the new element into the shorter one's sort. */
  lemma SortPrefixStep<T>(s: seq<T>, i: nat, le: (T, T) -> bool)
    requires i < |s|
    ensures Sort(s[..i + 1], le) == Insert(Sort(s[..i], le), s[i], le)
  {
    assert s[..i + 1][..i] == s[..i];
  }

  /** Sorts `a` in place; the result is the reference stable sort of its old contents. */
  method SortInPlace<T>(a: array<T>, le: (T, T) -> bool)
    modifies a
    ensures a[..] == Sort(old(a[..]), le)
  {
    ghost var s := a[..];
    var i := 0;
    while i < a.Length
      invariant 0 <= i <= a.Length
      invariant a[..i] == Sort(s[..i], le)
      invariant a[i..] == s[i..]
    {
      assert a[i] == s[i] by { assert a[i..][0] == a[i] && s[i..][0] == s[i]; }
      assert a[i + 1..] == s[i + 1..] by { assert a[i + 1..] == a[i..][1..] && s[i + 1..] == s[i..][1..]; }
      InsertInPlace(a, i, le);
      SortPrefixStep(s, i, le);
      i := i + 1;
    }
    assert s[..a.Length] == s;
  }
}
