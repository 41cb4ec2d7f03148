/**
 * Python's `dict` with its insertion order. The renumbering pass of the
 * translation-table merge walks keys in insertion order while it pops and
 * reinserts them, so the order is part of the behaviour being modelled.
 */
module OrderedDict {
  import opened Wrappers

  /** A dict: its keys in insertion order and the mapping they carry. */
  datatype Dict<K(==,!new), V> = Dict(keys: seq<K>, vals: map<K, V>)

  predicate Distinct<K(==,!new)>(s: seq<K>) {
    forall i, j :: 0 <= i < j < |s| ==> s[i] != s[j]
  }

  ghost predicate Valid<K(!new), V>(d: Dict<K, V>) {
    Distinct(d.keys) && (forall k :: k in d.vals <==> k in d.keys)
  }

  function Empty<K(==,!new), V>(): (d: Dict<K, V>)
    ensures Valid(d) && d.keys == []
  {
    Dict([], map[])
  }

  /** `d[k] = v`: an existing key keeps its place, a new key goes last. */
  function Set<K(==,!new), V>(d: Dict<K, V>, k: K, v: V): (r: Dict<K, V>)
    requires Valid(d)
    ensures Valid(r)
    ensures r.vals == d.vals[k := v]
    ensures k in d.vals ==> r.keys == d.keys
    ensures k !in d.vals ==> r.keys == d.keys + [k]
  {
    if k in d.vals then Dict(d.keys, d.vals[k := v]) else Dict(d.keys + [k], d.vals[k := v])
  }

  /** Assigning a key twice is assigning it the second value: the key keeps the place the first assignment gave it. */
  lemma SetSet<K(!new), V>(d: Dict<K, V>, k: K, v: V, w: V)
    requires Valid(d)
    ensures Set(Set(d, k, v), k, w) == Set(d, k, w)
  {
    assert d.vals[k := v][k := w] == d.vals[k := w];
  }

  /** The key sequence with `k` taken out. */
  function Without<K(==,!new)>(s: seq<K>, k: K): (r: seq<K>)
    ensures forall x :: x in r <==> x in s && x != k
    ensures Distinct(s) ==> Distinct(r)
    ensures Distinct(s) && k in s ==> |r| == |s| - 1
    ensures k !in s ==> r == s
  {
    if s == [] then []
    else if s[0] == k then Without(s[1..], k)
    else
      var t := Without(s[1..], k);
      assert Distinct(s) ==> s[0] !in s[1..];
      assert Distinct(s) ==> s[0] !in t;
      [s[0]] + t
  }

  /** `d.pop(k)`: the value and the dict without `k`; None where Python raises KeyError. */
  function Pop<K(==,!new), V>(d: Dict<K, V>, k: K): (r: Option<(V, Dict<K, V>)>)
    requires Valid(d)
    ensures r.None? <==> k !in d.vals
    ensures r.Some? ==>
      && r.value.0 == d.vals[k] && Valid(r.value.1)
      && r.value.1.vals == d.vals - {k} && r.value.1.keys == Without(d.keys, k)
  {
    if k in d.vals then Some((d.vals[k], Dict(Without(d.keys, k), d.vals - {k}))) else None
  }

  /** Assigns `m[k]` into `d` for each `k` of `ks`, first to last. */
  function UpdateKeys<K(==,!new), V>(d: Dict<K, V>, ks: seq<K>, m: map<K, V>): (r: Dict<K, V>)
    requires Valid(d) && forall k :: k in ks ==> k in m
    ensures Valid(r)
    ensures forall k :: k in r.vals <==> k in d.vals || k in ks
    ensures forall k :: k in r.vals ==> r.vals[k] == if k in ks then m[k] else d.vals[k]
    decreases |ks|
  {
    if ks == [] then d
    else UpdateKeys(Set(d, ks[0], m[ks[0]]), ks[1..], m)
  }

  /** `d.update(e)`: each key of `e`, in `e`'s order, assigned into `d`. */
  function Update<K(==,!new), V>(d: Dict<K, V>, e: Dict<K, V>): (r: Dict<K, V>)
    requires Valid(d) && Valid(e)
    ensures Valid(r)
    ensures r.vals == d.vals + e.vals
  {
    var r := UpdateKeys(d, e.keys, e.vals);
    assert r.vals.Keys == (d.vals + e.vals).Keys;
    r
  }

  /** `len(d)` */
  lemma LengthIsKeyCount<K(!new), V>(d: Dict<K, V>)
    requires Valid(d)
    ensures |d.keys| == |d.vals|
  {
    DistinctCard(d.keys);
    assert d.vals.Keys == set k | k in d.keys;
  }

  lemma DistinctCard<K(!new)>(s: seq<K>)
    requires Distinct(s)
    ensures |set k | k in s| == |s|
  {
    if s != [] {
      DistinctCard(s[1..]);
      assert (set k | k in s) == (set k | k in s[1..]) + {s[0]};
    }
  }
}

/**
 * Stable sorting by a total preorder, as `sorted(xs, key=...)` and
 * `list.sort(key=...)` do.
 */
module Sorting {

  ghost predicate TotalPreorder<T(!new)>(le: (T, T) -> bool) {
    (forall a, b :: le(a, b) || le(b, a))
    && (forall a, b, c :: le(a, b) && le(b, c) ==> le(a, c))
  }

  predicate SortedBy<T>(s: seq<T>, le: (T, T) -> bool) {
    forall i, j :: 0 <= i < j < |s| ==> le(s[i], s[j])
  }

  /** Puts `x` in front of the first element it is not after; ahead of its equals. */
  function Insert<T>(x: T, s: seq<T>, le: (T, T) -> bool): (r: seq<T>)
    ensures multiset(r) == multiset(s) + multiset{x}
    ensures |r| == |s| + 1
  {
    if s == [] || le(x, s[0]) then [x] + s
    else
      assert s == [s[0]] + s[1..];
      [s[0]] + Insert(x, s[1..], le)
  }

  /** Insertion sort: stable, so elements with equivalent keys keep their relative order. */
  function SortBy<T>(s: seq<T>, le: (T, T) -> bool): (r: seq<T>)
    ensures multiset(r) == multiset(s)
    ensures |r| == |s|
  {
    if s == [] then []
    else
      assert s == [s[0]] + s[1..];
      Insert(s[0], SortBy(s[1..], le), le)
  }

  lemma {:induction false} InsertSorted<T(!new)>(x: T, s: seq<T>, le: (T, T) -> bool)
    requires TotalPreorder(le) && SortedBy(s, le)
    ensures SortedBy(Insert(x, s, le), le)
  {
    if s != [] && !le(x, s[0]) {
      InsertSorted(x, s[1..], le);
      var r := Insert(x, s, le);
      var t := Insert(x, s[1..], le);
      assert r == [s[0]] + t;
      forall j | 0 < j < |r| ensures le(s[0], r[j]) {
        assert r[j] in multiset(t);
        assert r[j] in multiset(s[1..]) + multiset{x};
        if r[j] == x {
        } else {
          assert r[j] in s[1..];
        }
      }
    }
  }

  /** The result of SortBy is sorted whenever `le` is a total preorder. */
  lemma {:induction false} SortBySorted<T(!new)>(s: seq<T>, le: (T, T) -> bool)
    requires TotalPreorder(le)
    ensures SortedBy(SortBy(s, le), le)
  {
    if s != [] {
      SortBySorted(s[1..], le);
      InsertSorted(s[0], SortBy(s[1..], le), le);
    }
  }

  /** No two distinct elements of `s` are equivalent under `le`. */
  ghost predicate Antisymmetric<T(!new)>(s: seq<T>, le: (T, T) -> bool) {
    forall x, y :: x in s && y in s && le(x, y) && le(y, x) ==> x == y
  }

  lemma HeadsAgree<T(!new)>(a: seq<T>, b: seq<T>, le: (T, T) -> bool)
    requires a != [] && SortedBy(a, le) && SortedBy(b, le) && multiset(a) == multiset(b)
    requires Antisymmetric(a, le)
    ensures b != [] && a[0] == b[0]
  {
    assert a[0] in multiset(b);
    assert b[0] in multiset(a);
    var i :| 0 <= i < |a| && a[i] == b[0];
    var j :| 0 <= j < |b| && b[j] == a[0];
  }

  lemma TailsAgree<T>(a: seq<T>, b: seq<T>)
    requires a != [] && b != [] && a[0] == b[0] && multiset(a) == multiset(b)
    ensures multiset(a[1..]) == multiset(b[1..])
  {
    assert a == [a[0]] + a[1..];
    assert b == [b[0]] + b[1..];
    assert multiset(a) == multiset{a[0]} + multiset(a[1..]);
    assert multiset(b) == multiset{b[0]} + multiset(b[1..]);
    assert multiset(a[1..]) == multiset(a) - multiset{a[0]};
  }

  /**
   * Two sorted arrangements of the same elements coincide when no two distinct
   * elements are equivalent: the order of the input cannot show through.
   */
  lemma {:induction false} SortedUnique<T(!new)>(a: seq<T>, b: seq<T>, le: (T, T) -> bool)
    requires SortedBy(a, le) && SortedBy(b, le) && multiset(a) == multiset(b)
    requires Antisymmetric(a, le)
    ensures a == b
  {
    if a != [] {
      HeadsAgree(a, b, le);
      TailsAgree(a, b);
      assert Antisymmetric(a[1..], le) by {
        forall x, y | x in a[1..] && y in a[1..] && le(x, y) && le(y, x) ensures x == y {
          assert x in a && y in a;
        }
      }
      SortedUnique(a[1..], b[1..], le);
      assert a == [a[0]] + a[1..];
      assert b == [b[0]] + b[1..];
    } else {
      assert |b| == |multiset(b)|;
    }
  }

  /** Sorting two arrangements of the same elements gives one result when keys are distinct. */
  lemma SortByPermutationInvariant<T(!new)>(a: seq<T>, b: seq<T>, le: (T, T) -> bool)
    requires TotalPreorder(le) && multiset(a) == multiset(b)
    requires Antisymmetric(a, le)
    ensures SortBy(a, le) == SortBy(b, le)
  {
    var sa, sb := SortBy(a, le), SortBy(b, le);
    SortBySorted(a, le);
    SortBySorted(b, le);
    assert Antisymmetric(sa, le) by {
      forall x, y | x in sa && y in sa && le(x, y) && le(y, x) ensures x == y {
        assert x in multiset(a) && y in multiset(a);
      }
    }
    SortedUnique(sa, sb, le);
  }

  /** The elements of `s` that satisfy `p`, in order. */
  function Filter<T>(s: seq<T>, p: T -> bool): (r: seq<T>)
    ensures |r| <= |s|
  {
    if s == [] then [] else (if p(s[0]) then [s[0]] else []) + Filter(s[1..], p)
  }

  /**
   * Inserting `x` puts it ahead of every element equivalent to it, so among
   * the elements of one class (`p`) it comes first.
   */
  lemma {:induction false} InsertFilter<T(!new)>(x: T, t: seq<T>, le: (T, T) -> bool, k: T, p: T -> bool)
    requires TotalPreorder(le)
    requires forall y :: p(y) <==> le(y, k) && le(k, y)
    ensures Filter(Insert(x, t, le), p) == (if p(x) then [x] else []) + Filter(t, p)
  {
    var px := if p(x) then [x] else [];
    if t == [] || le(x, t[0]) {
      var r := [x] + t;
      assert r[0] == x && r[1..] == t;
    } else {
      var r := [t[0]] + Insert(x, t[1..], le);
      assert r[0] == t[0] && r[1..] == Insert(x, t[1..], le);
      InsertFilter(x, t[1..], le, k, p);
      var pt := if p(t[0]) then [t[0]] else [];
      assert !(p(x) && p(t[0]));
      assert pt + (px + Filter(t[1..], p)) == px + (pt + Filter(t[1..], p));
    }
  }

  /** Stability: sorting keeps the order of the elements of each class of equivalent elements. */
  lemma {:induction false} SortByFilter<T(!new)>(s: seq<T>, le: (T, T) -> bool, k: T, p: T -> bool)
    requires TotalPreorder(le)
    requires forall y :: p(y) <==> le(y, k) && le(k, y)
    ensures Filter(SortBy(s, le), p) == Filter(s, p)
  {
    if s != [] {
      SortByFilter(s[1..], le, k, p);
      InsertFilter(s[0], SortBy(s[1..], le), le, k, p);
    }
  }
}
