/** The `Option` datatype used for JavaScript's `null`/`undefined` results. */
module Wrappers {
  datatype Option<+T> = None | Some(value: T)
}

/** Array helpers with JavaScript semantics: `filter`, `map`, `[...new Set(xs)]`,
    `includes`, and the sums used by the aggregations. */
module Sequences {

  /** `s.filter(p)`: the elements satisfying `p`, in their original order. */
  function Filter<T>(s: seq<T>, p: T -> bool): (r: seq<T>)
    ensures |r| <= |s|
    ensures forall i :: 0 <= i < |r| ==> r[i] in s && p(r[i])
    ensures forall i :: 0 <= i < |s| && p(s[i]) ==> s[i] in r
    decreases |s|
  {
    if s == [] then []
    else (if p(s[0]) then [s[0]] else []) + Filter(s[1..], p)
  }

  /** `a` is obtained from `b` by deleting elements (order is preserved). */
  predicate IsSubsequence<T(==)>(a: seq<T>, b: seq<T>)
    decreases |b|
  {
    if a == [] then true
    else if b == [] then false
    else if a[0] == b[0] then IsSubsequence(a[1..], b[1..])
    else IsSubsequence(a, b[1..])
  }

  lemma {:induction false} FilterIsSubsequence<T>(s: seq<T>, p: T -> bool)
    ensures IsSubsequence(Filter(s, p), s)
    decreases |s|
  {
    if s != [] {
      FilterIsSubsequence(s[1..], p);
      var f := Filter(s, p);
      if p(s[0]) {
        assert f[1..] == Filter(s[1..], p);
      } else {
        assert f == Filter(s[1..], p);
        if f != [] {
          assert p(f[0]) && f[0] != s[0];
        }
      }
    }
  }

  /** An element is kept exactly when it occurs and satisfies the predicate. */
  lemma FilterMembers<T>(s: seq<T>, p: T -> bool)
    ensures forall x :: x in Filter(s, p) <==> x in s && p(x)
  {
    var f := Filter(s, p);
    forall x ensures x in f <==> x in s && p(x) {
      if x in f {
        var k :| 0 <= k < |f| && f[k] == x;
      }
      if x in s && p(x) {
        var k :| 0 <= k < |s| && s[k] == x;
      }
    }
  }

  /** Nothing is kept when no element satisfies the predicate. */
  lemma {:induction false} FilterNone<T>(s: seq<T>, p: T -> bool)
    requires forall i :: 0 <= i < |s| ==> !p(s[i])
    ensures Filter(s, p) == []
    decreases |s|
  {
    if s != [] {
      FilterNone(s[1..], p);
    }
  }

  /** Filtering keeps everything exactly when everything satisfies the predicate. */
  lemma {:induction false} FilterAll<T>(s: seq<T>, p: T -> bool)
    ensures Filter(s, p) == s <==> forall x :: x in s ==> p(x)
    decreases |s|
  {
    if s != [] {
      FilterAll(s[1..], p);
      if !p(s[0]) {
        assert |Filter(s, p)| < |s|;
      }
    }
  }

  /** Filtering with `p` and then with `q` is filtering with their conjunction. */
  lemma {:induction false} FilterFilter<T>(s: seq<T>, p: T -> bool, q: T -> bool, pq: T -> bool)
    requires forall x :: pq(x) == (p(x) && q(x))
    ensures Filter(Filter(s, p), q) == Filter(s, pq)
    decreases |s|
  {
    if s != [] {
      FilterFilter(s[1..], p, q, pq);
      assert pq(s[0]) == (p(s[0]) && q(s[0]));
      var f := Filter(s, p);
      if p(s[0]) {
        assert f == [s[0]] + Filter(s[1..], p);
        assert f[0] == s[0] && f[1..] == Filter(s[1..], p);
        assert Filter(f, q) == (if q(s[0]) then [s[0]] else []) + Filter(f[1..], q);
      } else {
        assert f == Filter(s[1..], p);
      }
    }
  }

  lemma AppendAssoc<T>(a: seq<T>, b: seq<T>, c: seq<T>)
    ensures (a + b) + c == a + (b + c)
  {
  }

  /** Predicates that agree on the elements filter alike. */
  lemma {:induction false} FilterSame<T>(s: seq<T>, p: T -> bool, q: T -> bool)
    requires forall i :: 0 <= i < |s| ==> p(s[i]) == q(s[i])
    ensures Filter(s, p) == Filter(s, q)
    decreases |s|
  {
    if s != [] {
      assert forall i :: 0 <= i < |s[1..]| ==> s[1..][i] == s[i + 1];
      FilterSame(s[1..], p, q);
    }
  }

  /** Filtering twice with the same predicate changes nothing the second time. */
  lemma FilterIdempotent<T>(s: seq<T>, p: T -> bool)
    ensures Filter(Filter(s, p), p) == Filter(s, p)
  {
    FilterAll(Filter(s, p), p);
  }

  lemma {:induction false} FilterAppend<T>(a: seq<T>, b: seq<T>, p: T -> bool)
    ensures Filter(a + b, p) == Filter(a, p) + Filter(b, p)
    decreases |a|
  {
    if a == [] {
      assert a + b == b;
    } else {
      assert (a + b)[1..] == a[1..] + b;
      FilterAppend(a[1..], b, p);
    }
  }

  /** No element occurs twice. */
  predicate NoDup<T(==)>(s: seq<T>) {
    forall i, j :: 0 <= i < j < |s| ==> s[i] != s[j]
  }

  /** Splitting by a predicate and its negation loses and adds nothing. */
  lemma {:induction false} FilterPartition<T>(s: seq<T>, p: T -> bool, q: T -> bool)
    requires forall x :: q(x) == !p(x)
    ensures multiset(Filter(s, p)) + multiset(Filter(s, q)) == multiset(s)
    decreases |s|
  {
    if s != [] {
      var x, t := s[0], s[1..];
      FilterPartition(t, p, q);
      assert q(x) == !p(x);
      MultisetSplitStep(x, t, Filter(t, p), Filter(t, q), Filter(s, p), Filter(s, q), p(x));
      assert s == [x] + t;
    }
  }

  /** One step of `FilterPartition`, on multisets alone. */
  lemma MultisetSplitStep<T>(x: T, t: seq<T>, a: seq<T>, b: seq<T>, fa: seq<T>, fb: seq<T>, keep: bool)
    requires multiset(a) + multiset(b) == multiset(t)
    requires fa == (if keep then [x] else []) + a
    requires fb == (if keep then [] else [x]) + b
    ensures multiset(fa) + multiset(fb) == multiset([x] + t)
  {
  }

  /** Removing position `i` removes one copy of `s[i]`. */
  lemma MultisetRemove<T>(s: seq<T>, i: nat)
    requires i < |s|
    ensures multiset(s[..i] + s[i + 1..]) == multiset(s) - multiset{s[i]}
  {
    assert s == s[..i] + [s[i]] + s[i + 1..];
  }

  /** Removing position `i` removes its term from the sum. */
  lemma SumByRemove<T>(s: seq<T>, i: nat, f: T -> int)
    requires i < |s|
    ensures SumBy(s, f) == f(s[i]) + SumBy(s[..i] + s[i + 1..], f)
  {
    assert s == s[..i] + ([s[i]] + s[i + 1..]);
    SumByAppend(s[..i], [s[i]] + s[i + 1..], f);
    SumByAppend(s[..i], s[i + 1..], f);
  }

  /** A sum over the elements does not depend on their order. */
  lemma {:induction false} SumByPermutation<T>(s: seq<T>, t: seq<T>, f: T -> int)
    requires multiset(s) == multiset(t)
    ensures SumBy(s, f) == SumBy(t, f)
    decreases |s|
  {
    if s == [] {
      assert |t| == |multiset(t)| == 0;
    } else {
      var x := s[0];
      assert x in multiset(t);
      var i :| 0 <= i < |t| && t[i] == x;
      var rest := t[..i] + t[i + 1..];
      MultisetRemove(t, i);
      assert s == [x] + s[1..];
      assert multiset(s[1..]) == multiset(s) - multiset{x};
      SumByPermutation(s[1..], rest, f);
      SumByRemove(t, i, f);
    }
  }

  /** A sequence is duplicate-free exactly when no element occurs twice in its
      multiset. */
  lemma {:induction false} NoDupMultiset<T>(s: seq<T>)
    ensures NoDup(s) <==> forall x :: multiset(s)[x] <= 1
    decreases |s|
  {
    if s != [] {
      NoDupMultiset(s[1..]);
      assert s == [s[0]] + s[1..];
      if NoDup(s) {
        assert NoDup(s[1..]) by {
          forall i, j | 0 <= i < j < |s[1..]| ensures s[1..][i] != s[1..][j] {
            assert s[1..][i] == s[i + 1] && s[1..][j] == s[j + 1];
          }
        }
        assert s[0] !in s[1..];
      } else {
        var i, j :| 0 <= i < j < |s| && s[i] == s[j];
        if i == 0 {
          assert s[1..][j - 1] == s[0];
          assert multiset(s)[s[0]] >= 2;
        } else {
          assert s[1..][i - 1] == s[1..][j - 1];
          assert !NoDup(s[1..]);
          var x :| multiset(s[1..])[x] > 1;
          assert multiset(s)[x] >= multiset(s[1..])[x];
        }
      }
    }
  }

  /** Reordering keeps a sequence duplicate-free. */
  lemma NoDupPermutation<T>(s: seq<T>, t: seq<T>)
    requires multiset(s) == multiset(t) && NoDup(s)
    ensures NoDup(t)
  {
    NoDupMultiset(s);
    NoDupMultiset(t);
  }

  /** `[...new Set(s)]`: the distinct elements, in order of first occurrence. */
  function Distinct<T(==)>(s: seq<T>): (r: seq<T>)
    ensures NoDup(r)
    ensures forall i :: 0 <= i < |r| ==> r[i] in s
    ensures forall i :: 0 <= i < |s| ==> s[i] in r
    decreases |s|
  {
    if s == [] then []
    else
      var d := Distinct(s[..|s| - 1]);
      assert forall i :: 0 <= i < |s| - 1 ==> s[i] == s[..|s| - 1][i];
      if s[|s| - 1] in d then d else d + [s[|s| - 1]]
  }

  lemma {:induction false} DistinctOfNoDup<T>(s: seq<T>)
    requires NoDup(s)
    ensures Distinct(s) == s
    decreases |s|
  {
    if s != [] {
      DistinctOfNoDup(s[..|s| - 1]);
      assert s == s[..|s| - 1] + [s[|s| - 1]];
    }
  }

  /** The set of the elements of a sequence. */
  function SetOf<T>(s: seq<T>): set<T> {
    set x | x in s
  }

  lemma SetOfSnoc<T>(s: seq<T>, x: T)
    ensures SetOf(s + [x]) == SetOf(s) + {x}
  {
  }

  /** A sequence has at least as many elements as it has distinct ones. */
  lemma {:induction false} SetOfSize<T>(s: seq<T>)
    ensures |SetOf(s)| <= |s|
    ensures s != [] ==> |SetOf(s)| >= 1
    decreases |s|
  {
    if s != [] {
      SetOfSize(s[1..]);
      assert SetOf(s) == {s[0]} + SetOf(s[1..]);
      assert s[0] in SetOf(s);
    }
  }

  /** A duplicate-free sequence has as many distinct elements as positions. */
  lemma {:induction false} SetOfNoDup<T>(s: seq<T>)
    requires NoDup(s)
    ensures |SetOf(s)| == |s|
    decreases |s|
  {
    if s != [] {
      SetOfNoDup(s[1..]);
      assert SetOf(s) == {s[0]} + SetOf(s[1..]);
      assert s[0] !in SetOf(s[1..]);
    }
  }

  /** Filtering a list without duplicates leaves a list without duplicates. */
  lemma {:induction false} FilterNoDup<T>(s: seq<T>, p: T -> bool)
    requires NoDup(s)
    ensures NoDup(Filter(s, p))
    decreases |s|
  {
    if s != [] {
      assert NoDup(s[1..]) by {
        forall i, j | 0 <= i < j < |s[1..]| ensures s[1..][i] != s[1..][j] {
          assert s[1..][i] == s[i + 1] && s[1..][j] == s[j + 1];
        }
      }
      FilterNoDup(s[1..], p);
      var rest := Filter(s[1..], p);
      if p(s[0]) {
        forall k | 0 <= k < |rest| ensures rest[k] != s[0] {
          var i :| 0 <= i < |s[1..]| && s[1..][i] == rest[k];
          assert s[i + 1] == rest[k];
        }
        assert Filter(s, p) == [s[0]] + rest;
      }
    }
  }

  /** Two lists without duplicates of the same length, the first within the
      second, hold the same elements. */
  lemma SubsetSameSize<T>(a: seq<T>, b: seq<T>)
    requires NoDup(a) && NoDup(b) && |a| == |b|
    requires forall i :: 0 <= i < |a| ==> a[i] in b
    ensures forall x :: x in b ==> x in a
  {
    SetOfNoDup(a);
    SetOfNoDup(b);
    assert SetOf(a) <= SetOf(b);
    assert |SetOf(b) - SetOf(a)| == |SetOf(b)| - |SetOf(a)| == 0;
    assert SetOf(b) == SetOf(a);
    forall x | x in b ensures x in a {
      assert x in SetOf(b);
    }
  }

  /** `[...new Set(s)]` has as many elements as `new Set(s).size`. */
  lemma DistinctSize<T>(s: seq<T>)
    ensures |Distinct(s)| == |SetOf(s)|
    ensures SetOf(Distinct(s)) == SetOf(s)
  {
    SetOfNoDup(Distinct(s));
    assert SetOf(Distinct(s)) == SetOf(s) by {
      forall x | x in SetOf(s) ensures x in SetOf(Distinct(s)) {
        var i :| 0 <= i < |s| && s[i] == x;
      }
    }
  }

  /** `s.map(f)` */
  function MapSeq<T, U>(s: seq<T>, f: T -> U): (r: seq<U>)
    ensures |r| == |s| && forall i :: 0 <= i < |s| ==> r[i] == f(s[i])
  {
    seq(|s|, i requires 0 <= i < |s| => f(s[i]))
  }

  /** `s.reduce((acc, x) => acc + f(x), 0)` */
  function SumBy<T>(s: seq<T>, f: T -> int): int
    decreases |s|
  {
    if s == [] then 0 else f(s[0]) + SumBy(s[1..], f)
  }

  lemma {:induction false} SumByAppend<T>(a: seq<T>, b: seq<T>, f: T -> int)
    ensures SumBy(a + b, f) == SumBy(a, f) + SumBy(b, f)
    decreases |a|
  {
    if a == [] {
      assert a + b == b;
    } else {
      assert (a + b)[1..] == a[1..] + b;
      SumByAppend(a[1..], b, f);
    }
  }

  /** `s.filter(y => y !== x)`: every occurrence of `x` removed. */
  function RemoveAll<T(==)>(s: seq<T>, x: T): (r: seq<T>)
    ensures x !in r
    ensures forall i :: 0 <= i < |r| ==> r[i] in s
    ensures forall i :: 0 <= i < |s| && s[i] != x ==> s[i] in r
    ensures IsSubsequence(r, s)
  {
    FilterIsSubsequence(s, y => y != x);
    Filter(s, y => y != x)
  }

  lemma {:induction false} RemoveAllAbsent<T>(s: seq<T>, x: T)
    requires x !in s
    ensures RemoveAll(s, x) == s
  {
    FilterAll(s, y => y != x);
  }

  /** A prefix one longer is the prefix and the next element. */
  lemma TakeSnoc<T>(s: seq<T>, i: nat)
    requires i < |s|
    ensures s[..i + 1] == s[..i] + [s[i]]
  {
  }

  /** Dropping every copy of `x` keeps every other element as often as it
      occurred. */
  lemma {:induction false} RemoveAllMultiset<T>(s: seq<T>, x: T)
    ensures multiset(RemoveAll(s, x)) == multiset(s)[x := 0]
    decreases |s|
  {
    if s != [] {
      RemoveAllMultiset(s[1..], x);
      assert s == [s[0]] + s[1..];
    }
  }

  /** `s.includes(x) ? s.filter(y => y !== x) : [...s, x]`, the list toggle. */
  function ListToggle<T(==)>(s: seq<T>, x: T): (r: seq<T>)
    ensures x in r <==> x !in s
    ensures x in s ==> r == RemoveAll(s, x)
    ensures x !in s ==> r == s + [x]
  {
    if x in s then RemoveAll(s, x) else s + [x]
  }

  /** Toggling an absent element twice restores the list; toggling a present
      one twice leaves it once, at the end, with every other element in place. */
  lemma ListToggleTwice<T>(s: seq<T>, x: T)
    ensures x !in s ==> ListToggle(ListToggle(s, x), x) == s
    ensures x in s ==> ListToggle(ListToggle(s, x), x) == RemoveAll(s, x) + [x]
  {
    if x !in s {
      var t := s + [x];
      FilterAppend(s, [x], y => y != x);
      RemoveAllAbsent(s, x);
    }
  }

  /** `s.filter(p).length`: how many elements satisfy `p`. */
  function CountIf<T>(s: seq<T>, p: T -> bool): nat {
    |Filter(s, p)|
  }

  /** `set.has(x) ? set.delete(x) : set.add(x)` on a copy of the set. */
  function SetToggle<T>(s: set<T>, x: T): (r: set<T>)
    ensures x in r <==> x !in s
    ensures r - {x} == s - {x}
  {
    if x in s then s - {x} else s + {x}
  }

  /** Toggling twice gives back the set. */
  lemma SetToggleTwice<T>(s: set<T>, x: T)
    ensures SetToggle(SetToggle(s, x), x) == s
  {
  }
}
