/** Grouping a list into a dictionary of lists, the way the console does it
    with `forEach` and `push`: each element is appended to the list stored
    under its key, creating the list on first use. */
module Grouping {
  import opened Js

  /** The keys that occur in `s`. */
  function KeysOf<T, K(==)>(key: T -> K, s: seq<T>): set<K>
  {
    set i | 0 <= i < |s| :: key(s[i])
  }

  /** The elements of `s` whose key is `k`, in input order. */
  function Group<T, K(==)>(key: T -> K, s: seq<T>, k: K): (r: seq<T>)
    ensures |r| <= |s|
  {
    if s == [] then []
    else Group(key, s[..|s| - 1], k) + (if key(s[|s| - 1]) == k then [s[|s| - 1]] else [])
  }

  /** The test "has key `k`". */
  function HasKey<T, K(==)>(key: T -> K, k: K): T -> bool
  {
    x => key(x) == k
  }

  /** A group is the input filtered by its key. */
  lemma {:induction false} GroupIsFilter<T, K>(key: T -> K, s: seq<T>, k: K)
    ensures Group(key, s, k) == Filter(HasKey(key, k), s)
  {
    if s != [] {
      var init, x := s[..|s| - 1], s[|s| - 1];
      GroupIsFilter(key, init, k);
      assert s == init + [x];
      FilterSnoc(HasKey(key, k), init, x);
    }
  }

  /** The dictionary the grouping loop builds, stated as a value. */
  function GroupMap<T, K(==)>(key: T -> K, s: seq<T>): map<K, seq<T>>
  {
    map k | k in KeysOf(key, s) :: Group(key, s, k)
  }

  /** One more element is appended to its own key's list, which is created
      when the key is new; every other entry stays as it was. */
  lemma GroupMapSnoc<T, K>(key: T -> K, s: seq<T>, x: T)
    ensures var g := GroupMap(key, s);
            GroupMap(key, s + [x]) == g[key(x) := (if key(x) in g then g[key(x)] else []) + [x]]
  {
    var g := GroupMap(key, s);
    var k := key(x);
    var s' := s + [x];
    assert s'[..|s'| - 1] == s;
    var lhs := GroupMap(key, s');
    var rhs := g[k := (if k in g then g[k] else []) + [x]];
    assert forall i :: 0 <= i < |s| ==> s'[i] == s[i];
    assert KeysOf(key, s') == KeysOf(key, s) + {k} by {
      assert key(s'[|s|]) == k;
    }
    forall j | j in lhs.Keys ensures lhs[j] == rhs[j] {
      if j == k && k !in g {
        GroupAbsent(key, s, k);
      }
    }
  }

  lemma {:induction false} GroupAbsent<T, K>(key: T -> K, s: seq<T>, k: K)
    requires k !in KeysOf(key, s)
    ensures Group(key, s, k) == []
  {
    if s != [] {
      var init := s[..|s| - 1];
      assert forall i :: 0 <= i < |init| ==> init[i] == s[i];
      assert KeysOf(key, init) <= KeysOf(key, s);
      GroupAbsent(key, init, k);
    }
  }

  /** The same step, phrased for a loop that has handled `s[..i]`. */
  lemma GroupMapStep<T, K>(key: T -> K, s: seq<T>, i: int)
    requires 0 <= i < |s|
    ensures var g := GroupMap(key, s[..i]);
            GroupMap(key, s[..i + 1]) == g[key(s[i]) := (if key(s[i]) in g then g[key(s[i])] else []) + [s[i]]]
  {
    GroupMapSnoc(key, s[..i], s[i]);
    assert s[..i + 1] == s[..i] + [s[i]];
  }

  /** A group holds exactly the elements with its key: each one it holds has
      that key and comes from the input, and every input element with that
      key is in it. */
  lemma {:induction false} GroupMembers<T, K>(key: T -> K, s: seq<T>, k: K)
    ensures forall x :: x in Group(key, s, k) ==> key(x) == k && x in s
    ensures forall i :: 0 <= i < |s| && key(s[i]) == k ==> s[i] in Group(key, s, k)
  {
    if s != [] {
      var init := s[..|s| - 1];
      GroupMembers(key, init, k);
      assert forall i :: 0 <= i < |init| ==> init[i] == s[i];
      assert s == init + [s[|s| - 1]];
    }
  }

  /** Every element sits in the group of its own key, no group is empty, and
      a group only holds elements of the input with its key. */
  lemma GroupMapPartition<T, K>(key: T -> K, s: seq<T>)
    ensures GroupMap(key, s).Keys == KeysOf(key, s)
    ensures forall i :: 0 <= i < |s| ==> key(s[i]) in GroupMap(key, s) && s[i] in GroupMap(key, s)[key(s[i])]
    ensures forall k :: k in GroupMap(key, s) ==> GroupMap(key, s)[k] != []
    ensures forall k, x :: k in GroupMap(key, s) && x in GroupMap(key, s)[k] ==> key(x) == k && x in s
  {
    var g := GroupMap(key, s);
    forall i | 0 <= i < |s| ensures s[i] in g[key(s[i])] {
      GroupMembers(key, s, key(s[i]));
    }
    forall k | k in g ensures g[k] != [] && forall x :: x in g[k] ==> key(x) == k && x in s {
      GroupMembers(key, s, k);
      var i :| 0 <= i < |s| && key(s[i]) == k;
    }
  }

  /** Total length of the groups listed in `ks`. */
  function TotalSize<T, K>(g: map<K, seq<T>>, ks: seq<K>): nat
  {
    if ks == [] then 0
    else (if ks[0] in g then |g[ks[0]]| else 0) + TotalSize(g, ks[1..])
  }

  lemma {:induction false} TotalSizeBump<T, K>(g: map<K, seq<T>>, ks: seq<K>, k: K, x: T)
    requires forall a, b :: 0 <= a < b < |ks| ==> ks[a] != ks[b]
    ensures TotalSize(g[k := (if k in g then g[k] else []) + [x]], ks) == TotalSize(g, ks) + (if k in ks then 1 else 0)
  {
    if ks != [] {
      TotalSizeBump(g, ks[1..], k, x);
      if ks[0] == k {
        assert k !in ks[1..];
      }
    }
  }

  lemma {:induction false} TotalSizeEmpty<T, K>(g: map<K, seq<T>>, ks: seq<K>)
    requires g == map[]
    ensures TotalSize(g, ks) == 0
  {
    if ks != [] {
      TotalSizeEmpty(g, ks[1..]);
    }
  }

  /** When `ks` lists every possible key once, the group sizes add up to the
      length of the input: nothing is lost and nothing is counted twice. */
  lemma {:induction false} GroupSizesSum<T, K>(key: T -> K, s: seq<T>, ks: seq<K>)
    requires forall a, b :: 0 <= a < b < |ks| ==> ks[a] != ks[b]
    requires forall i :: 0 <= i < |s| ==> key(s[i]) in ks
    ensures TotalSize(GroupMap(key, s), ks) == |s|
  {
    if s == [] {
      assert GroupMap(key, s) == map[];
      TotalSizeEmpty(GroupMap(key, s), ks);
    } else {
      var init, x := s[..|s| - 1], s[|s| - 1];
      assert s == init + [x];
      assert forall i :: 0 <= i < |init| ==> init[i] == s[i];
      GroupSizesSum(key, init, ks);
      GroupMapSnoc(key, init, x);
      TotalSizeBump(GroupMap(key, init), ks, key(x), x);
    }
  }

  /** Every entry of a dictionary replaced by its image under `f`, as a
      `forEach` that overwrites each entry in turn leaves it. */
  function MapValues<K, V>(src: map<K, V>, f: V -> V): map<K, V>
  {
    map k | k in src :: f(src[k])
  }

  /** Midway through that `forEach`: the keys in `pending` still hold their
      old value, every other key already holds its image. */
  ghost predicate PartlyMapped<K, V>(src: map<K, V>, dst: map<K, V>, pending: set<K>, f: V -> V)
  {
    dst.Keys == src.Keys && pending <= src.Keys
    && (forall k :: k in pending ==> dst[k] == src[k])
    && (forall k :: k in src && k !in pending ==> dst[k] == f(src[k]))
  }

  lemma PartlyMappedStep<K, V>(src: map<K, V>, dst: map<K, V>, pending: set<K>, f: V -> V, k: K, v: V)
    requires PartlyMapped(src, dst, pending, f) && k in pending && v == f(dst[k])
    ensures PartlyMapped(src, dst[k := v], pending - {k}, f)
  {
  }

  lemma PartlyMappedDone<K, V>(src: map<K, V>, dst: map<K, V>, f: V -> V)
    requires PartlyMapped(src, dst, {}, f)
    ensures dst == MapValues(src, f)
  {
    var spec := MapValues(src, f);
    assert spec.Keys == dst.Keys;
    assert forall k :: k in spec ==> spec[k] == dst[k];
  }
}
