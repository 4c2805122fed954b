/** Sequence helpers shared by the stores, the components and the PDF layout:
    the elements with a given key, the keys of a sequence in first-occurrence
    order (what a JavaScript `Map` or `Set` filled by a loop yields), the
    grouping loop itself, and the stable sort behind `Array.prototype.sort`. */
module Seqs {

  ghost predicate Distinct<T>(s: seq<T>) {
    forall i, j :: 0 <= i < j < |s| ==> s[i] != s[j]
  }

  /** An element of a sequence without repetitions occurs once. */
  lemma {:induction false} DistinctCount<T>(s: seq<T>, x: T)
    requires Distinct(s)
    ensures multiset(s)[x] <= 1
  {
    if s != [] {
      var init := s[..|s| - 1];
      assert s == init + [s[|s| - 1]];
      DistinctCount(init, x);
      if s[|s| - 1] == x {
        assert x !in init;
      }
    }
  }

  /** Reordering keeps a sequence free of repetitions. */
  lemma DistinctPermutation<T>(a: seq<T>, b: seq<T>)
    requires Distinct(a) && multiset(a) == multiset(b)
    ensures Distinct(b)
  {
    forall i, j | 0 <= i < j < |b| ensures b[i] != b[j] {
      if b[i] == b[j] {
        assert b == b[..i] + [b[i]] + b[i + 1..j] + [b[j]] + b[j + 1..];
        assert multiset(b)[b[i]] >= 2;
        DistinctCount(a, b[i]);
      }
    }
  }

  /** `le` is total and transitive: what a comparator handed to `sort` must be. */
  ghost predicate TotalPreorder<T(!new)>(le: (T, T) -> bool) {
    && (forall a, b :: le(a, b) || le(b, a))
    && (forall a, b, c :: le(a, b) && le(b, c) ==> le(a, c))
  }

  ghost predicate SortedBy<T>(s: seq<T>, le: (T, T) -> bool) {
    forall i, j :: 0 <= i < j < |s| ==> le(s[i], s[j])
  }

  // ---------------------------------------------------------------------
  // Filter

  /** `s.filter(p)`: the elements satisfying `p`, in their order. */
  function Filter<T(!new)>(s: seq<T>, p: T -> bool): (r: seq<T>)
    ensures |r| <= |s|
    ensures forall x :: x in r <==> x in s && p(x)
  {
    if s == [] then [] else (if p(s[0]) then [s[0]] else []) + Filter(s[1..], p)
  }

  /** Filtering distributes over concatenation, so it keeps relative order. */
  lemma {:induction false} FilterAppend<T(!new)>(a: seq<T>, b: seq<T>, p: T -> bool)
    ensures Filter(a + b, p) == Filter(a, p) + Filter(b, p)
  {
    if a == [] {
      assert a + b == b;
    } else {
      assert (a + b)[1..] == a[1..] + b;
      FilterAppend(a[1..], b, p);
    }
  }

  /** Filters by two tests that agree everywhere agree. */
  lemma {:induction false} FilterSame<T(!new)>(s: seq<T>, p: T -> bool, q: T -> bool)
    requires forall x :: p(x) == q(x)
    ensures Filter(s, p) == Filter(s, q)
  {
    if s != [] {
      FilterSame(s[1..], p, q);
    }
  }

  /** Nothing is dropped when every element passes. */
  lemma {:induction false} FilterAll<T(!new)>(s: seq<T>, p: T -> bool)
    requires forall i :: 0 <= i < |s| ==> p(s[i])
    ensures Filter(s, p) == s
  {
    if s != [] {
      FilterAll(s[1..], p);
    }
  }

  // ---------------------------------------------------------------------
  // Elements by key

  /** The elements of `xs` whose key is `k`, in their original order. */
  function WithKey<T(!new), K(==,!new)>(xs: seq<T>, key: T -> K, k: K): (r: seq<T>)
    ensures |r| <= |xs|
    ensures forall i :: 0 <= i < |r| ==> key(r[i]) == k
  {
    if xs == [] then []
    else
      var p := xs[..|xs| - 1];
      assert xs == p + [xs[|xs| - 1]];
      WithKey(p, key, k) + (if key(xs[|xs| - 1]) == k then [xs[|xs| - 1]] else [])
  }

  lemma {:induction false} WithKeyAbsent<T(!new), K(!new)>(xs: seq<T>, key: T -> K, k: K)
    requires k !in KeysInOrder(xs, key)
    ensures WithKey(xs, key, k) == []
  {
    if xs != [] {
      var p := xs[..|xs| - 1];
      assert forall i :: 0 <= i < |p| ==> xs[i] == p[i];
      assert k !in KeysInOrder(p, key);
      WithKeyAbsent(p, key, k);
    }
  }

  /** `x` is among the elements with key `k` exactly when it is an element of
      `xs` with that key. */
  lemma {:induction false} InWithKey<T(!new), K(!new)>(xs: seq<T>, key: T -> K, k: K, x: T)
    ensures x in WithKey(xs, key, k) <==> x in xs && key(x) == k
  {
    if xs != [] {
      var p := xs[..|xs| - 1];
      assert xs == p + [xs[|xs| - 1]];
      InWithKey(p, key, k, x);
    }
  }

  /** Position of the first element of `xs` whose key is `k`. */
  function FirstIndex<T(!new), K(==,!new)>(xs: seq<T>, key: T -> K, k: K): (i: nat)
    requires exists j :: 0 <= j < |xs| && key(xs[j]) == k
    ensures i < |xs| && key(xs[i]) == k
    ensures forall j :: 0 <= j < i ==> key(xs[j]) != k
  {
    if key(xs[0]) == k then 0
    else
      assert exists j :: 0 <= j < |xs[1..]| && key(xs[1..][j]) == k by {
        var j :| 0 <= j < |xs| && key(xs[j]) == k;
        assert key(xs[1..][j - 1]) == k;
      }
      1 + FirstIndex(xs[1..], key, k)
  }

  lemma FirstIndexIs<T(!new), K(!new)>(xs: seq<T>, key: T -> K, k: K, i: nat)
    requires i < |xs| && key(xs[i]) == k
    requires forall j :: 0 <= j < i ==> key(xs[j]) != k
    ensures FirstIndex(xs, key, k) == i
  {
  }

  /** The distinct keys of `xs`, each once, in order of first occurrence. */
  function KeysInOrder<T(!new), K(==,!new)>(xs: seq<T>, key: T -> K): (r: seq<K>)
    ensures Distinct(r)
    ensures forall k :: k in r <==> exists i :: 0 <= i < |xs| && key(xs[i]) == k
    ensures forall j :: 0 <= j < |r| ==> exists i :: 0 <= i < |xs| && key(xs[i]) == r[j]
  {
    if xs == [] then []
    else
      var p := xs[..|xs| - 1];
      var y := key(xs[|xs| - 1]);
      var d := KeysInOrder(p, key);
      assert forall i :: 0 <= i < |p| ==> xs[i] == p[i];
      if y in d then d else d + [y]
  }

  /** The keys come out in the order in which their first occurrences appear. */
  lemma {:induction false} KeysInFirstOccurrenceOrder<T(!new), K(!new)>(xs: seq<T>, key: T -> K, i: nat, j: nat)
    requires i < j < |KeysInOrder(xs, key)|
    ensures FirstIndex(xs, key, KeysInOrder(xs, key)[i]) < FirstIndex(xs, key, KeysInOrder(xs, key)[j])
  {
    var r := KeysInOrder(xs, key);
    var p := xs[..|xs| - 1];
    var d := KeysInOrder(p, key);
    assert forall t :: 0 <= t < |p| ==> xs[t] == p[t];
    var ki, kj := r[i], r[j];
    assert ki == d[i];
    var fi := FirstIndex(p, key, ki);
    FirstIndexIs(xs, key, ki, fi);
    if j < |d| {
      KeysInFirstOccurrenceOrder(p, key, i, j);
      FirstIndexIs(xs, key, kj, FirstIndex(p, key, kj));
    } else {
      assert kj == key(xs[|xs| - 1]) && kj !in d;
      FirstIndexIs(xs, key, kj, |xs| - 1);
    }
  }

  // ---------------------------------------------------------------------
  // Grouping: `xs.reduce((acc, x) => { acc.get(k) || []; push; set })`

  /** Builds the groups of `xs` by key the way the source's `reduce` loops do:
      the keys in insertion order of the `Map`, each key's elements in input order. */
  method GroupBy<T(!new), K(==,!new)>(xs: seq<T>, key: T -> K) returns (keys: seq<K>, groups: map<K, seq<T>>)
    ensures keys == KeysInOrder(xs, key)
    ensures forall k :: k in groups <==> k in keys
    ensures forall k :: k in groups ==> groups[k] == WithKey(xs, key, k)
  {
    keys, groups := [], map[];
    for i := 0 to |xs|
      invariant Grouped(xs[..i], key, keys, groups)
    {
      var k := key(xs[i]);
      GroupInsert(xs[..i], xs[i], key, keys, groups);
      assert xs[..i + 1] == xs[..i] + [xs[i]];
      if k in groups {
        groups := groups[k := groups[k] + [xs[i]]];
      } else {
        keys := keys + [k];
        groups := groups[k := [xs[i]]];
      }
    }
    assert xs[..|xs|] == xs;
  }

  /** The keys and groups `GroupBy` holds once it has seen `p`. */
  ghost predicate Grouped<T(!new), K(!new)>(p: seq<T>, key: T -> K, keys: seq<K>, groups: map<K, seq<T>>) {
    && keys == KeysInOrder(p, key)
    && (forall k :: k in groups <==> k in keys)
    && (forall k :: k in groups ==> groups[k] == WithKey(p, key, k))
  }

  /** One step of `GroupBy`: the element joins its key's group, and a new
      key is appended to the keys. */
  lemma GroupInsert<T(!new), K(!new)>(p: seq<T>, x: T, key: T -> K, keys: seq<K>, groups: map<K, seq<T>>)
    requires Grouped(p, key, keys, groups)
    ensures var k := key(x);
            if k in groups then Grouped(p + [x], key, keys, groups[k := groups[k] + [x]])
            else Grouped(p + [x], key, keys + [k], groups[k := [x]])
  {
    GroupStep(p, x, key);
    if key(x) !in groups {
      WithKeyAbsent(p, key, key(x));
    }
  }

  /** One more element: its key is appended if new, and it joins the end
      of its own group. */
  lemma GroupStep<T(!new), K(!new)>(p: seq<T>, x: T, key: T -> K)
    ensures KeysInOrder(p + [x], key)
         == if key(x) in KeysInOrder(p, key) then KeysInOrder(p, key) else KeysInOrder(p, key) + [key(x)]
    ensures forall k :: WithKey(p + [x], key, k) == WithKey(p, key, k) + (if key(x) == k then [x] else [])
  {
    assert (p + [x])[..|p|] == p;
  }

  /** All groups, one after the other, in the order of `keys`. */
  function ConcatGroups<T(!new), K(==,!new)>(xs: seq<T>, key: T -> K, keys: seq<K>): seq<T> {
    if keys == [] then [] else ConcatGroups(xs, key, keys[..|keys| - 1]) + WithKey(xs, key, keys[|keys| - 1])
  }

  lemma {:induction false} ConcatGroupsOfEmpty<T(!new), K(!new)>(xs: seq<T>, key: T -> K, keys: seq<K>)
    requires xs == []
    ensures ConcatGroups(xs, key, keys) == []
  {
    if keys != [] {
      ConcatGroupsOfEmpty(xs, key, keys[..|keys| - 1]);
    }
  }

  lemma {:induction false} ConcatGroupsSnoc<T(!new), K(!new)>(p: seq<T>, x: T, key: T -> K, keys: seq<K>)
    requires Distinct(keys)
    ensures multiset(ConcatGroups(p + [x], key, keys))
         == multiset(ConcatGroups(p, key, keys)) + (if key(x) in keys then multiset{x} else multiset{})
  {
    if keys != [] {
      var init := keys[..|keys| - 1];
      assert (p + [x])[..|p + [x]| - 1] == p;
      ConcatGroupsSnoc(p, x, key, init);
      assert key(x) == keys[|keys| - 1] ==> key(x) !in init;
      assert key(x) in keys <==> key(x) in init || key(x) == keys[|keys| - 1];
    }
  }

  /** Grouping loses and duplicates nothing: laying out every group once, for
      distinct keys that cover every element, is a permutation of the input. */
  lemma {:induction false} ConcatGroupsIsPermutation<T(!new), K(!new)>(xs: seq<T>, key: T -> K, keys: seq<K>)
    requires Distinct(keys)
    requires forall i :: 0 <= i < |xs| ==> key(xs[i]) in keys
    ensures multiset(ConcatGroups(xs, key, keys)) == multiset(xs)
  {
    if xs == [] {
      ConcatGroupsOfEmpty(xs, key, keys);
    } else {
      var p := xs[..|xs| - 1];
      assert xs == p + [xs[|xs| - 1]];
      ConcatGroupsIsPermutation(p, key, keys);
      ConcatGroupsSnoc(p, xs[|xs| - 1], key, keys);
    }
  }

  /** Sorting the keys keeps exactly the same keys. */
  lemma SortedKeysIn<T(!new), K(!new)>(xs: seq<T>, key: T -> K, le: (K, K) -> bool)
    ensures forall k :: k in SortBy(KeysInOrder(xs, key), le) <==> k in KeysInOrder(xs, key)
  {
    var keys := KeysInOrder(xs, key);
    var ks := SortBy(keys, le);
    forall k ensures k in ks <==> k in keys {
      assert k in ks <==> k in multiset(ks);
      assert k in keys <==> k in multiset(keys);
    }
  }

  /** The keys of `xs`, sorted, are still distinct and still cover every
      element, so grouping by them is a permutation of `xs`. */
  lemma SortedKeysCover<T(!new), K(!new)>(xs: seq<T>, key: T -> K, le: (K, K) -> bool)
    ensures var ks := SortBy(KeysInOrder(xs, key), le);
            && Distinct(ks)
            && (forall k :: k in ks <==> k in KeysInOrder(xs, key))
            && multiset(ConcatGroups(xs, key, ks)) == multiset(xs)
  {
    var keys := KeysInOrder(xs, key);
    var ks := SortBy(keys, le);
    DistinctPermutation(keys, ks);
    forall k ensures k in ks <==> k in keys {
      assert k in ks <==> k in multiset(ks);
      assert k in keys <==> k in multiset(keys);
    }
    forall i | 0 <= i < |xs| ensures key(xs[i]) in ks {
      assert key(xs[i]) in keys;
    }
    ConcatGroupsIsPermutation(xs, key, ks);
  }

  /** Each group sorted by `le`, the groups in the order of `keys`. */
  function SortedGroups<T(!new), K(==,!new)>(xs: seq<T>, key: T -> K, keys: seq<K>, le: (T, T) -> bool): seq<T> {
    if keys == [] then []
    else SortedGroups(xs, key, keys[..|keys| - 1], le) + SortBy(WithKey(xs, key, keys[|keys| - 1]), le)
  }

  lemma SortedGroupsSnoc<T(!new), K(!new)>(xs: seq<T>, key: T -> K, keys: seq<K>, le: (T, T) -> bool, i: nat)
    requires i < |keys|
    ensures SortedGroups(xs, key, keys[..i + 1], le) == SortedGroups(xs, key, keys[..i], le) + SortBy(WithKey(xs, key, keys[i]), le)
  {
    assert keys[..i + 1][..i] == keys[..i];
  }

  /** Sorting inside the groups does not change which elements there are. */
  lemma {:induction false} SortedGroupsPermutation<T(!new), K(!new)>(xs: seq<T>, key: T -> K, keys: seq<K>, le: (T, T) -> bool)
    ensures multiset(SortedGroups(xs, key, keys, le)) == multiset(ConcatGroups(xs, key, keys))
  {
    if keys != [] {
      SortedGroupsPermutation(xs, key, keys[..|keys| - 1], le);
    }
  }

  // ---------------------------------------------------------------------
  // Stable sort

  /** Inserts `x` before the first element it is `le` to. */
  function Insert<T>(x: T, s: seq<T>, le: (T, T) -> bool): (r: seq<T>)
    ensures multiset(r) == multiset(s) + multiset{x}
    ensures |r| == |s| + 1
  {
    if s == [] then [x]
    else if le(x, s[0]) then [x] + s
    else
      assert s == [s[0]] + s[1..];
      [s[0]] + Insert(x, s[1..], le)
  }

  /** A stable sort by the comparator `le` (insertion sort: an element goes
      in front of the later elements it is `le` to). */
  function SortBy<T>(s: seq<T>, le: (T, T) -> bool): (r: seq<T>)
    ensures multiset(r) == multiset(s)
    ensures |r| == |s|
  {
    if s == [] then []
    else
      assert s == [s[0]] + s[1..];
      Insert(s[0], SortBy(s[1..], le), le)
  }

  lemma {:induction false} InsertSorted<T(!new)>(x: T, s: seq<T>, le: (T, T) -> bool)
    requires TotalPreorder(le)
    requires SortedBy(s, le)
    ensures SortedBy(Insert(x, s, le), le)
  {
    if s != [] && !le(x, s[0]) {
      var t := Insert(x, s[1..], le);
      InsertSorted(x, s[1..], le);
      forall k | 0 <= k < |t|
        ensures le(s[0], t[k])
      {
        assert t[k] in multiset(t);
        if t[k] != x {
          assert t[k] in multiset(s[1..]);
          var j :| 0 <= j < |s[1..]| && s[1..][j] == t[k];
          assert s[j + 1] == t[k];
        }
      }
      var r := [s[0]] + t;
      forall i, j | 0 <= i < j < |r|
        ensures le(r[i], r[j])
      {
        if i > 0 {
          assert r[i] == t[i - 1] && r[j] == t[j - 1];
        } else {
          assert r[j] == t[j - 1];
        }
      }
    }
  }

  /** `SortBy` sorts, for any comparator that is a total preorder. */
  lemma {:induction false} SortBySorted<T(!new)>(s: seq<T>, le: (T, T) -> bool)
    requires TotalPreorder(le)
    ensures SortedBy(SortBy(s, le), le)
  {
    if s != [] {
      SortBySorted(s[1..], le);
      InsertSorted(s[0], SortBy(s[1..], le), le);
    }
  }

  /** The elements the comparator cannot tell apart from `y`. */
  function TiedWith<T>(le: (T, T) -> bool, y: T): T -> bool {
    z => le(z, y) && le(y, z)
  }

  /** Two elements tied with the same `y` are `le` each other. */
  lemma TiedLe<T(!new)>(le: (T, T) -> bool, y: T, a: T, b: T)
    requires TotalPreorder(le)
    ensures TiedWith(le, y)(a) && TiedWith(le, y)(b) ==> le(a, b)
  {
    if TiedWith(le, y)(a) && TiedWith(le, y)(b) {
      assert le(a, y) && le(y, b);
    }
  }

  /** Inserting `x` puts it in front of every element tied with it. */
  lemma {:induction false} InsertStable<T(!new)>(x: T, s: seq<T>, le: (T, T) -> bool, y: T)
    requires TotalPreorder(le)
    ensures Filter(Insert(x, s, le), TiedWith(le, y)) == Filter([x], TiedWith(le, y)) + Filter(s, TiedWith(le, y))
  {
    var p := TiedWith(le, y);
    if s == [] {
    } else if le(x, s[0]) {
      FilterAppend([x], s, p);
    } else {
      assert s == [s[0]] + s[1..];
      InsertStable(x, s[1..], le, y);
      FilterAppend([s[0]], Insert(x, s[1..], le), p);
      FilterAppend([s[0]], s[1..], p);
      TiedLe(le, y, x, s[0]);
    }
  }

  /** `SortBy` is stable: the elements tied with any `y` keep their input order. */
  lemma {:induction false} SortByStable<T(!new)>(s: seq<T>, le: (T, T) -> bool, y: T)
    requires TotalPreorder(le)
    ensures Filter(SortBy(s, le), TiedWith(le, y)) == Filter(s, TiedWith(le, y))
  {
    if s != [] {
      SortByStable(s[1..], le, y);
      InsertStable(s[0], SortBy(s[1..], le), le, y);
      assert s == [s[0]] + s[1..];
      FilterAppend([s[0]], s[1..], TiedWith(le, y));
    }
  }

  /** Concatenating two sorted runs where every element of the first is `le`
      every element of the second gives a sorted sequence. */
  lemma SortedAppend<T>(a: seq<T>, b: seq<T>, le: (T, T) -> bool)
    requires SortedBy(a, le) && SortedBy(b, le)
    requires forall x, y :: x in a && y in b ==> le(x, y)
    ensures SortedBy(a + b, le)
  {
    var r := a + b;
    forall i, j | 0 <= i < j < |r|
      ensures le(r[i], r[j])
    {
      if j < |a| {
        assert r[i] == a[i] && r[j] == a[j];
      } else if i >= |a| {
        assert r[i] == b[i - |a|] && r[j] == b[j - |a|];
      } else {
        assert r[i] in a && r[j] in b;
      }
    }
  }
}
