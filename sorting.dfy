/** `Array.prototype.sort` with a comparator. The engines the dashboard runs on
    sort stably, and a stable sort by a strict weak order has exactly one
    result, so the model sorts by stable insertion: an element is placed in
    front of the first element that does not come strictly before it. */
module Sorting {
  import opened Sequences

  /** `before(a, b)` is "the comparator returns a negative number for (a, b)".
      A comparator the sort can rely on is a strict weak order. */
  ghost predicate StrictWeakOrder<T(!new)>(before: (T, T) -> bool) {
    (forall x, y :: before(x, y) ==> !before(y, x))
    && (forall x, y, z :: !before(x, y) && !before(y, z) ==> !before(x, z))
  }

  /** No element comes strictly before an element to its left. */
  predicate Sorted<T>(s: seq<T>, before: (T, T) -> bool) {
    forall i, j :: 0 <= i < j < |s| ==> !before(s[j], s[i])
  }

  /** Filtering a sorted list leaves it sorted. */
  lemma {:induction false} FilterSorted<T>(s: seq<T>, p: T -> bool, before: (T, T) -> bool)
    requires Sorted(s, before)
    ensures Sorted(Filter(s, p), before)
    decreases |s|
  {
    if s != [] {
      FilterSorted(s[1..], p, before);
      var rest := Filter(s[1..], p);
      if p(s[0]) {
        forall k | 0 <= k < |rest| ensures !before(rest[k], s[0]) {
          var i :| 0 <= i < |s[1..]| && s[1..][i] == rest[k];
          assert s[i + 1] == rest[k];
        }
        assert Filter(s, p) == [s[0]] + rest;
      }
    }
  }

  /** Places `x` in front of the first element of `t` that `x` does not follow. */
  function Insert<T>(x: T, t: seq<T>, before: (T, T) -> bool): (r: seq<T>)
    ensures |r| == |t| + 1
    ensures multiset(r) == multiset(t) + multiset{x}
    decreases |t|
  {
    if t == [] || !before(t[0], x) then [x] + t
    else
      assert t == [t[0]] + t[1..];
      [t[0]] + Insert(x, t[1..], before)
  }

  /** `[...s].sort(cmp)` */
  function SortBy<T>(s: seq<T>, before: (T, T) -> bool): (r: seq<T>)
    ensures |r| == |s|
    ensures multiset(r) == multiset(s)
    decreases |s|
  {
    if s == [] then []
    else
      assert s == [s[0]] + s[1..];
      Insert(s[0], SortBy(s[1..], before), before)
  }

  /** A sorted list stays sorted with an element in front that no element
      of it comes strictly before. */
  lemma ConsSorted<T>(h: T, s: seq<T>, before: (T, T) -> bool)
    requires Sorted(s, before)
    requires forall k :: 0 <= k < |s| ==> !before(s[k], h)
    ensures Sorted([h] + s, before)
  {
    var r := [h] + s;
    forall i, j | 0 <= i < j < |r| ensures !before(r[j], r[i]) {
      assert r[j] == s[j - 1];
      if i > 0 {
        assert r[i] == s[i - 1];
      }
    }
  }

  /** Inserting keeps a bound that `x` and every element of `t` respect. */
  lemma InsertBound<T>(x: T, t: seq<T>, before: (T, T) -> bool, z: T)
    requires forall k :: 0 <= k < |t| ==> !before(t[k], z)
    requires !before(x, z)
    ensures forall k :: 0 <= k < |Insert(x, t, before)| ==> !before(Insert(x, t, before)[k], z)
  {
    var r := Insert(x, t, before);
    forall k | 0 <= k < |r| ensures !before(r[k], z) {
      var y := r[k];
      assert y in multiset(r);
      if y != x {
        assert y in multiset(t);
        var m :| 0 <= m < |t| && t[m] == y;
      }
    }
  }

  /** Inserting into a sorted list keeps it sorted. */
  lemma {:induction false} InsertSorted<T(!new)>(x: T, t: seq<T>, before: (T, T) -> bool)
    requires StrictWeakOrder(before)
    requires Sorted(t, before)
    ensures Sorted(Insert(x, t, before), before)
    decreases |t|
  {
    if t == [] {
      ConsSorted(x, t, before);
    } else if before(t[0], x) {
      var tail := t[1..];
      assert Sorted(tail, before) by {
        forall i, j | 0 <= i < j < |tail| ensures !before(tail[j], tail[i]) {
          assert tail[i] == t[i + 1] && tail[j] == t[j + 1];
        }
      }
      InsertSorted(x, tail, before);
      assert forall k :: 0 <= k < |tail| ==> tail[k] == t[k + 1];
      assert !before(x, t[0]);
      InsertBound(x, tail, before, t[0]);
      ConsSorted(t[0], Insert(x, tail, before), before);
    } else {
      forall k | 0 <= k < |t| ensures !before(t[k], x) {
        if k > 0 {
          assert !before(t[k], t[0]);
        }
      }
      ConsSorted(x, t, before);
    }
  }

  /** The sort returns a sorted permutation of its input. */
  lemma {:induction false} SortBySorted<T(!new)>(s: seq<T>, before: (T, T) -> bool)
    requires StrictWeakOrder(before)
    ensures Sorted(SortBy(s, before), before)
    ensures multiset(SortBy(s, before)) == multiset(s)
    decreases |s|
  {
    if s != [] {
      SortBySorted(s[1..], before);
      InsertSorted(s[0], SortBy(s[1..], before), before);
    }
  }

  /** Sorting what is already sorted changes nothing: the sort is stable. */
  lemma {:induction false} SortByOfSorted<T(!new)>(s: seq<T>, before: (T, T) -> bool)
    requires Sorted(s, before)
    ensures SortBy(s, before) == s
    decreases |s|
  {
    if s != [] {
      assert Sorted(s[1..], before) by {
        forall i, j | 0 <= i < j < |s[1..]|
          ensures !before(s[1..][j], s[1..][i])
        {
          assert s[1..][j] == s[j + 1] && s[1..][i] == s[i + 1];
        }
      }
      SortByOfSorted(s[1..], before);
      if |s| > 1 {
        assert !before(s[1], s[0]);
      }
      assert [s[0]] + s[1..] == s;
    }
  }

  /** Elements of an inserted sequence are the old ones and the new one. */
  lemma InsertMembers<T>(x: T, t: seq<T>, before: (T, T) -> bool, y: T)
    ensures y in Insert(x, t, before) <==> y == x || y in t
  {
    var r := Insert(x, t, before);
    assert y in r <==> y in multiset(r);
    assert y in t <==> y in multiset(t);
  }

  /** The elements of a sorted sequence are those of its input. */
  lemma SortByMembers<T>(s: seq<T>, before: (T, T) -> bool, y: T)
    ensures y in SortBy(s, before) <==> y in s
  {
    var r := SortBy(s, before);
    assert y in r <==> y in multiset(r);
    assert y in s <==> y in multiset(s);
  }

  /** No two elements have the same `key`. */
  predicate KeysDistinct<T, K(==)>(s: seq<T>, key: T -> K) {
    forall i, j :: 0 <= i < j < |s| ==> key(s[i]) != key(s[j])
  }

  lemma {:induction false} InsertKeysDistinct<T, K>(x: T, t: seq<T>, before: (T, T) -> bool, key: T -> K)
    requires KeysDistinct(t, key)
    requires forall i :: 0 <= i < |t| ==> key(t[i]) != key(x)
    ensures KeysDistinct(Insert(x, t, before), key)
    decreases |t|
  {
    if t != [] && before(t[0], x) {
      InsertKeysDistinct(x, t[1..], before, key);
      var rest := Insert(x, t[1..], before);
      var r := [t[0]] + rest;
      forall i, j | 0 <= i < j < |r|
        ensures key(r[i]) != key(r[j])
      {
        if i == 0 {
          var y := r[j];
          assert y in rest;
          InsertMembers(x, t[1..], before, y);
          if y != x {
            var k :| 0 <= k < |t[1..]| && t[1..][k] == y;
            assert t[k + 1] == y;
          }
        } else {
          assert r[i] == rest[i - 1] && r[j] == rest[j - 1];
        }
      }
    }
  }

  /** Sorting keeps the keys of a keyed collection distinct. */
  lemma {:induction false} SortByKeysDistinct<T, K>(s: seq<T>, before: (T, T) -> bool, key: T -> K)
    requires KeysDistinct(s, key)
    ensures KeysDistinct(SortBy(s, before), key)
    decreases |s|
  {
    if s != [] {
      assert KeysDistinct(s[1..], key) by {
        forall i, j | 0 <= i < j < |s[1..]|
          ensures key(s[1..][i]) != key(s[1..][j])
        {
          assert s[1..][j] == s[j + 1] && s[1..][i] == s[i + 1];
        }
      }
      SortByKeysDistinct(s[1..], before, key);
      var t := SortBy(s[1..], before);
      forall i | 0 <= i < |t|
        ensures key(t[i]) != key(s[0])
      {
        SortByMembers(s[1..], before, t[i]);
        var k :| 0 <= k < |s[1..]| && s[1..][k] == t[i];
        assert s[k + 1] == t[i];
      }
      InsertKeysDistinct(s[0], t, before, key);
    }
  }

  lemma {:induction false} InsertTotal<T>(x: T, t: seq<T>, before: (T, T) -> bool, f: T -> int)
    ensures SumBy(Insert(x, t, before), f) == f(x) + SumBy(t, f)
    decreases |t|
  {
    if t != [] && before(t[0], x) {
      InsertTotal(x, t[1..], before, f);
      assert ([t[0]] + Insert(x, t[1..], before))[1..] == Insert(x, t[1..], before);
    } else {
      assert ([x] + t)[1..] == t;
    }
  }

  /** Sorting does not change a sum over the elements. */
  lemma {:induction false} SortByTotal<T>(s: seq<T>, before: (T, T) -> bool, f: T -> int)
    ensures SumBy(SortBy(s, before), f) == SumBy(s, f)
    decreases |s|
  {
    if s != [] {
      SortByTotal(s[1..], before, f);
      InsertTotal(s[0], SortBy(s[1..], before), before, f);
    }
  }
}
