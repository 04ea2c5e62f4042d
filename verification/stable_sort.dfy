/** `Array.prototype.sort` with a comparator, as the console uses it.  Since
    ES2019 the sort is stable, so its result is fully determined by the
    comparator.  Every comparator in the modelled code orders by a tuple of
    integers; the model takes that tuple as a key, compares keys
    lexicographically, and sorts by stable insertion. */
module StableSort {
  import opened Js

  /** Lexicographic order on integer tuples. */
  predicate KeyLe(x: seq<int>, y: seq<int>)
    decreases |x|
  {
    x == [] || (y != [] && (x[0] < y[0] || (x[0] == y[0] && KeyLe(x[1..], y[1..]))))
  }

  predicate KeyLt(x: seq<int>, y: seq<int>)
  {
    !KeyLe(y, x)
  }

  lemma {:induction false} KeyLeReflexive(x: seq<int>)
    ensures KeyLe(x, x)
    decreases |x|
  {
    if x != [] {
      KeyLeReflexive(x[1..]);
    }
  }

  lemma {:induction false} KeyLeTotal(x: seq<int>, y: seq<int>)
    ensures KeyLe(x, y) || KeyLe(y, x)
    decreases |x|
  {
    if x != [] && y != [] && x[0] == y[0] {
      KeyLeTotal(x[1..], y[1..]);
    }
  }

  lemma {:induction false} KeyLeTransitive(x: seq<int>, y: seq<int>, z: seq<int>)
    requires KeyLe(x, y) && KeyLe(y, z)
    ensures KeyLe(x, z)
    decreases |x|
  {
    if x != [] && y != [] && z != [] && x[0] == y[0] && y[0] == z[0] {
      KeyLeTransitive(x[1..], y[1..], z[1..]);
    }
  }

  /** A strictly smaller key is smaller than everything at least as large. */
  lemma KeyLtLe(x: seq<int>, y: seq<int>, z: seq<int>)
    requires KeyLt(x, y) && KeyLe(y, z)
    ensures KeyLt(x, z)
  {
    KeyLeTotal(x, y);
    if KeyLe(z, x) {
      KeyLeTransitive(y, z, x);
    }
  }

  /** `s` is in non-decreasing key order. */
  predicate SortedBy<T>(key: T -> seq<int>, s: seq<T>)
  {
    forall i, j :: 0 <= i < j < |s| ==> KeyLe(key(s[i]), key(s[j]))
  }

  /** The elements of `s` whose key is `k`, in order. */
  function WithKey<T>(key: T -> seq<int>, k: seq<int>, s: seq<T>): (r: seq<T>)
    ensures |r| <= |s|
  {
    if s == [] then []
    else (if key(s[0]) == k then [s[0]] else []) + WithKey(key, k, s[1..])
  }

  lemma {:induction false} WithKeyAppend<T>(key: T -> seq<int>, k: seq<int>, a: seq<T>, b: seq<T>)
    ensures WithKey(key, k, a + b) == WithKey(key, k, a) + WithKey(key, k, b)
  {
    if a == [] {
      assert a + b == b;
    } else {
      var ab := a + b;
      assert ab[0] == a[0];
      assert ab[1..] == a[1..] + b;
      WithKeyAppend(key, k, a[1..], b);
      calc {
        WithKey(key, k, ab);
        (if key(a[0]) == k then [a[0]] else []) + WithKey(key, k, ab[1..]);
        (if key(a[0]) == k then [a[0]] else []) + (WithKey(key, k, a[1..]) + WithKey(key, k, b));
      }
    }
  }

  /** A suffix of a sorted sequence is sorted. */
  lemma SortedTail<T>(key: T -> seq<int>, t: seq<T>)
    requires t != [] && SortedBy(key, t)
    ensures SortedBy(key, t[1..])
  {
    forall i, j | 0 <= i < j < |t| - 1 ensures KeyLe(key(t[1..][i]), key(t[1..][j])) {
      assert t[1..][i] == t[i + 1] && t[1..][j] == t[j + 1];
    }
  }

  lemma {:induction false} WithKeyNone<T>(key: T -> seq<int>, k: seq<int>, s: seq<T>)
    requires forall i :: 0 <= i < |s| ==> key(s[i]) != k
    ensures WithKey(key, k, s) == []
  {
    if s != [] {
      WithKeyNone(key, k, s[1..]);
    }
  }

  /** Stable insertion: `x` goes in front of the first element whose key is
      strictly greater than its own, i.e. behind every element it ties with. */
  function Insert<T>(key: T -> seq<int>, t: seq<T>, x: T): (r: seq<T>)
    ensures |r| == |t| + 1
  {
    if t == [] then [x]
    else if KeyLt(key(x), key(t[0])) then [x] + t
    else [t[0]] + Insert(key, t[1..], x)
  }

  lemma {:induction false} InsertMultiset<T>(key: T -> seq<int>, t: seq<T>, x: T)
    ensures multiset(Insert(key, t, x)) == multiset(t) + multiset{x}
  {
    if t != [] && !KeyLt(key(x), key(t[0])) {
      InsertMultiset(key, t[1..], x);
      assert t == [t[0]] + t[1..];
    }
  }

  lemma {:induction false} InsertSorted<T>(key: T -> seq<int>, t: seq<T>, x: T)
    requires SortedBy(key, t)
    ensures SortedBy(key, Insert(key, t, x))
  {
    if t == [] {
    } else if KeyLt(key(x), key(t[0])) {
      KeyLeTotal(key(x), key(t[0]));
      forall j | 0 <= j < |t| ensures KeyLe(key(x), key(t[j])) {
        if j == 0 {
          KeyLeReflexive(key(t[0]));
        }
        KeyLeTransitive(key(x), key(t[0]), key(t[j]));
      }
      ConsSorted(key, x, t);
    } else {
      var tail := Insert(key, t[1..], x);
      SortedTail(key, t);
      InsertSorted(key, t[1..], x);
      InsertMultiset(key, t[1..], x);
      KeyLeTotal(key(x), key(t[0]));
      forall j | 0 <= j < |tail| ensures KeyLe(key(t[0]), key(tail[j])) {
        assert tail[j] in multiset(tail);
        if tail[j] != x {
          assert tail[j] in multiset(t[1..]);
          var m :| 0 <= m < |t[1..]| && t[1..][m] == tail[j];
          assert t[m + 1] == tail[j];
        }
      }
      ConsSorted(key, t[0], tail);
    }
  }

  /** An element no larger than anything in a sorted sequence can go in
      front of it. */
  lemma ConsSorted<T>(key: T -> seq<int>, y: T, s: seq<T>)
    requires SortedBy(key, s)
    requires forall j :: 0 <= j < |s| ==> KeyLe(key(y), key(s[j]))
    ensures SortedBy(key, [y] + s)
  {
    var r := [y] + s;
    forall i, j | 0 <= i < j < |r| ensures KeyLe(key(r[i]), key(r[j])) {
      assert r[j] == s[j - 1];
      if i > 0 {
        assert r[i] == s[i - 1];
      }
    }
  }

  /** Inserting into a sorted sequence adds `x` behind every element with its key. */
  lemma {:induction false} InsertWithKey<T>(key: T -> seq<int>, k: seq<int>, t: seq<T>, x: T)
    requires SortedBy(key, t)
    ensures WithKey(key, k, Insert(key, t, x)) == WithKey(key, k, t) + (if key(x) == k then [x] else [])
  {
    if t == [] {
    } else if KeyLt(key(x), key(t[0])) {
      if key(x) == k {
        forall i | 0 <= i < |t| ensures key(t[i]) != k {
          AboveDiffers(key, t, x, i);
        }
        WithKeyNone(key, k, t);
      }
      var r := [x] + t;
      assert r[0] == x && r[1..] == t;
      assert WithKey(key, k, r) == (if key(x) == k then [x] else []) + WithKey(key, k, t);
    } else {
      SortedTail(key, t);
      InsertWithKey(key, k, t[1..], x);
      assert ([t[0]] + Insert(key, t[1..], x))[1..] == Insert(key, t[1..], x);
    }
  }

  /** Every element of a sorted sequence whose head is above `x` has a key other than `x`'s. */
  lemma AboveDiffers<T>(key: T -> seq<int>, t: seq<T>, x: T, i: int)
    requires SortedBy(key, t) && 0 <= i < |t| && KeyLt(key(x), key(t[0]))
    ensures key(t[i]) != key(x)
  {
    if i > 0 {
      KeyLtLe(key(x), key(t[0]), key(t[i]));
    }
    KeyLeReflexive(key(x));
  }

  /** `s.sort(cmp)` where `cmp` orders by `key`: stable insertion sort. */
  function SortBy<T>(key: T -> seq<int>, s: seq<T>): (r: seq<T>)
    ensures |r| == |s|
  {
    if s == [] then [] else Insert(key, SortBy(key, s[..|s| - 1]), s[|s| - 1])
  }

  /** The result of the sort is in key order. */
  lemma {:induction false} SortByOrdered<T>(key: T -> seq<int>, s: seq<T>)
    ensures SortedBy(key, SortBy(key, s))
  {
    if s != [] {
      SortByOrdered(key, s[..|s| - 1]);
      InsertSorted(key, SortBy(key, s[..|s| - 1]), s[|s| - 1]);
    }
  }

  /** Sorting only reorders: the result is a permutation of the input. */
  lemma {:induction false} SortByPermutation<T>(key: T -> seq<int>, s: seq<T>)
    ensures multiset(SortBy(key, s)) == multiset(s)
  {
    if s != [] {
      var init, x := s[..|s| - 1], s[|s| - 1];
      SortByPermutation(key, init);
      InsertMultiset(key, SortBy(key, init), x);
      assert s == init + [x];
    }
  }

  /** Stability: elements with equal keys keep their original relative order. */
  lemma {:induction false} SortByStable<T>(key: T -> seq<int>, k: seq<int>, s: seq<T>)
    ensures WithKey(key, k, SortBy(key, s)) == WithKey(key, k, s)
  {
    if s != [] {
      var init, x := s[..|s| - 1], s[|s| - 1];
      var t := SortBy(key, init);
      assert SortBy(key, s) == Insert(key, t, x);
      SortByOrdered(key, init);
      SortByStable(key, k, init);
      InsertWithKey(key, k, t, x);
      assert s == init + [x];
      WithKeyAppend(key, k, init, [x]);
      assert WithKey(key, k, [x]) == (if key(x) == k then [x] else []) + WithKey(key, k, []);
    }
  }

  /** Sorting a sequence that is already in key order changes nothing. */
  lemma {:induction false} SortBySorted<T>(key: T -> seq<int>, s: seq<T>)
    requires SortedBy(key, s)
    ensures SortBy(key, s) == s
  {
    if s != [] {
      var init, x := s[..|s| - 1], s[|s| - 1];
      SortBySorted(key, init);
      InsertLast(key, init, x);
      assert s == init + [x];
    }
  }

  lemma {:induction false} InsertLast<T>(key: T -> seq<int>, t: seq<T>, x: T)
    requires forall i :: 0 <= i < |t| ==> KeyLe(key(t[i]), key(x))
    ensures Insert(key, t, x) == t + [x]
  {
    if t != [] {
      InsertLast(key, t[1..], x);
      assert t == [t[0]] + t[1..];
    }
  }

  /** Lexicographic order on triples, written out. */
  lemma KeyLeTriple(a0: int, a1: int, a2: int, b0: int, b1: int, b2: int)
    ensures KeyLe([a0, a1, a2], [b0, b1, b2]) <==> a0 < b0 || (a0 == b0 && (a1 < b1 || (a1 == b1 && a2 <= b2)))
  {
    var x, y := [a0, a1, a2], [b0, b1, b2];
    assert x[1..] == [a1, a2] && y[1..] == [b1, b2];
    assert x[1..][1..] == [a2] && y[1..][1..] == [b2];
    assert x[1..][1..][1..] == [];
    assert KeyLe([a2], [b2]) <==> a2 <= b2;
    assert KeyLe([a1, a2], [b1, b2]) <==> a1 < b1 || (a1 == b1 && a2 <= b2);
  }

  /** Where stable insertion puts `x`: behind a prefix of keys not above its
      own and in front of a suffix of strictly larger keys. */
  lemma {:induction false} InsertAt<T>(key: T -> seq<int>, t: seq<T>, x: T, j: int)
    requires 0 <= j <= |t|
    requires forall m :: 0 <= m < j ==> !KeyLt(key(x), key(t[m]))
    requires forall m :: j <= m < |t| ==> KeyLt(key(x), key(t[m]))
    ensures Insert(key, t, x) == t[..j] + [x] + t[j..]
  {
    if j == 0 {
      if t != [] {
        assert KeyLt(key(x), key(t[0]));
      }
    } else {
      var u := t[1..];
      assert !KeyLt(key(x), key(t[0]));
      assert Insert(key, t, x) == [t[0]] + Insert(key, u, x);
      assert forall m :: 0 <= m < |u| ==> u[m] == t[m + 1];
      InsertAt(key, u, x, j - 1);
      assert u[..j - 1] == t[1..j] && u[j - 1..] == t[j..];
      assert t[..j] == [t[0]] + t[1..j];
    }
  }

  /** In a sorted sequence, everything up to an element whose key is not
      above `x`'s is not above `x`'s either. */
  lemma SortedBelow<T>(key: T -> seq<int>, t: seq<T>, x: T, j: int)
    requires SortedBy(key, t) && 0 < j <= |t| && !KeyLt(key(x), key(t[j - 1]))
    ensures forall m :: 0 <= m < j ==> !KeyLt(key(x), key(t[m]))
  {
    forall m | 0 <= m < j - 1 ensures !KeyLt(key(x), key(t[m])) {
      KeyLeTransitive(key(t[m]), key(t[j - 1]), key(x));
    }
  }

  /** The sort as the engine performs it on the array itself: insertion sort
      that shifts every strictly larger element one place to the right. */
  method SortInPlace<T>(key: T -> seq<int>, a: array<T>)
    modifies a
    ensures a[..] == SortBy(key, old(a[..]))
  {
    ghost var s := a[..];
    var i := 0;
    while i < a.Length
      invariant 0 <= i <= a.Length
      invariant a[..i] == SortBy(key, s[..i])
      invariant a[i..] == s[i..]
    {
      SortByOrdered(key, s[..i]);
      InsertStep(key, a, i);
      assert s[..i + 1] == s[..i] + [s[i]];
      i := i + 1;
    }
    assert s[..a.Length] == s;
  }

  /** `[...s].sort(cmp)`: the items are copied into a fresh array, which
      is sorted in place; `s` itself keeps its order. */
  method SortedCopy<T>(key: T -> seq<int>, s: seq<T>) returns (r: seq<T>)
    ensures r == SortBy(key, s)
    ensures multiset(r) == multiset(s)
  {
    var a := new T[|s|](i requires 0 <= i < |s| => s[i]);
    assert a[..] == s;
    SortInPlace(key, a);
    r := a[..];
    SortByPermutation(key, s);
  }

  /** One pass of the insertion sort: `a[i]` moves into the sorted prefix
      `a[..i]` and nothing behind position `i` is touched. */
  method InsertStep<T>(key: T -> seq<int>, a: array<T>, i: int)
    requires 0 <= i < a.Length && SortedBy(key, a[..i])
    modifies a
    ensures a[..i + 1] == Insert(key, old(a[..i]), old(a[i]))
    ensures a[i + 1..] == old(a[i + 1..])
  {
    var x := a[i];
    ghost var t := a[..i];
    var j := i;
    while j > 0 && KeyLt(key(x), key(a[j - 1]))
      invariant 0 <= j <= i
      invariant forall m :: 0 <= m < j ==> a[m] == t[m]
      invariant forall m :: j < m <= i ==> a[m] == t[m - 1]
      invariant forall m :: j <= m < i ==> KeyLt(key(x), key(t[m]))
      invariant a[i + 1..] == old(a[i + 1..])
    {
      a[j] := a[j - 1];
      j := j - 1;
    }
    a[j] := x;
    if j > 0 {
      SortedBelow(key, t, x, j);
    }
    InsertAt(key, t, x, j);
    ShiftedIn(a[..i + 1], t, x, j);
  }

  /** A sequence that agrees with `t` below `j`, holds `x` at `j` and `t`
      shifted by one above it is `t` with `x` put in at `j`. */
  lemma ShiftedIn<T>(b: seq<T>, t: seq<T>, x: T, j: int)
    requires |b| == |t| + 1 && 0 <= j <= |t|
    requires forall m :: 0 <= m < j ==> b[m] == t[m]
    requires b[j] == x
    requires forall m :: j < m < |b| ==> b[m] == t[m - 1]
    ensures b == t[..j] + [x] + t[j..]
  {
  }
}
