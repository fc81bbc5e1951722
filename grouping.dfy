/** Grouping records by a key, the step every aggregation of the dashboard
    starts with: walk the records once, create an empty group the first time
    a key is seen, and append each record to its key's group. */
module Grouping {
  import opened Wrappers
  import opened Sequences
  import opened JsObject

  /** The groups built so far: the keys in the order they were first seen,
      and each key's records in input order. */
  datatype Groups<T, K> = Groups(keys: seq<K>, members: map<K, seq<T>>)

  /** Every group is listed once, and no group is empty. */
  predicate Valid<T, K>(g: Groups<T, K>) {
    NoDup(g.keys)
    && g.members.Keys == SetOf(g.keys)
    && (forall i :: 0 <= i < |g.keys| ==> g.members[g.keys[i]] != [])
  }

  /** The records whose key is `k`. */
  function HasKey<T, K(==)>(key: T -> K, k: K): T -> bool {
    x => key(x) == k
  }

  /** One step of the walk: `if (!groups.has(k)) groups.set(k, []);
      groups.get(k).push(x)`. */
  function Add<T, K>(g: Groups<T, K>, x: T, key: T -> K): Groups<T, K> {
    var k := key(x);
    if k in g.members then Groups(g.keys, g.members[k := g.members[k] + [x]])
    else Groups(g.keys + [k], g.members[k := [x]])
  }

  /** The groups of `items`, with a dictionary that holds only what the walk
      put in it (a `Map`). */
  function GroupBy<T, K>(items: seq<T>, key: T -> K): (g: Groups<T, K>)
    ensures Valid(g)
    decreases |items|
  {
    if items == [] then Groups([], map[])
    else
      var g := GroupBy(items[..|items| - 1], key);
      var k := key(items[|items| - 1]);
      assert k !in g.members ==> forall i :: 0 <= i < |g.keys| ==> g.keys[i] != k;
      Add(g, items[|items| - 1], key)
  }

  /** Every listed key names a group. */
  lemma {:induction false} KeysInMembers<T, K>(g: Groups<T, K>)
    requires Valid(g)
    ensures forall i :: 0 <= i < |g.keys| ==> g.keys[i] in g.members
  {
    forall i | 0 <= i < |g.keys| ensures g.keys[i] in g.members {
      assert g.keys[i] in SetOf(g.keys);
    }
  }

  /** Two records share a group exactly when their keys are equal. */
  lemma GroupByTwo<T, K>(a: T, b: T, key: T -> K)
    ensures key(a) == key(b) ==>
              GroupBy([a, b], key).keys == [key(a)] && GroupBy([a, b], key).members[key(a)] == [a, b]
    ensures key(a) != key(b) ==> GroupBy([a, b], key).keys == [key(a), key(b)]
  {
    assert [a, b][..1] == [a];
    assert [a][..0] == [];
    assert GroupBy([a], key) == Groups([key(a)], map[key(a) := [a]]);
  }

  /** The rows of the groups named by `order`: `rowOf` of each group, in
      the order of `order`. */
  function RowsFor<T(!new), K, R>(g: Groups<T, K>, order: seq<K>, rowOf: seq<T> --> R): (rows: seq<R>)
    requires Valid(g) && forall i :: 0 <= i < |order| ==> order[i] in g.members
    requires forall group: seq<T> :: group != [] ==> rowOf.requires(group)
    ensures |rows| == |order|
    decreases |order|
  {
    if order == [] then []
    else
      assert order[0] in SetOf(g.keys);
      [rowOf(g.members[order[0]])] + RowsFor(g, order[1..], rowOf)
  }

  /** Row `i` is the row of the `i`-th named group, which is not empty. */
  lemma {:induction false} RowsForAt<T(!new), K, R>(g: Groups<T, K>, order: seq<K>, rowOf: seq<T> --> R, i: nat)
    requires Valid(g) && forall j :: 0 <= j < |order| ==> order[j] in g.members
    requires forall group: seq<T> :: group != [] ==> rowOf.requires(group)
    requires i < |order|
    ensures order[i] in g.members && g.members[order[i]] != []
    ensures RowsFor(g, order, rowOf)[i] == rowOf(g.members[order[i]])
    decreases i
  {
    assert order[i] in SetOf(g.keys);
    if i > 0 {
      RowsForAt(g, order[1..], rowOf, i - 1);
    }
  }

  /** When a row's `size` is its group's size, the sizes of the rows add up
      to those of the named groups. */
  lemma {:induction false} RowsForCounts<T(!new), K, R>(g: Groups<T, K>, order: seq<K>, rowOf: seq<T> --> R, size: R -> int)
    requires Valid(g) && forall i :: 0 <= i < |order| ==> order[i] in g.members
    requires forall group: seq<T> :: group != [] ==> rowOf.requires(group)
    requires forall group: seq<T> :: group != [] ==> size(rowOf(group)) == |group|
    ensures SumBy(RowsFor(g, order, rowOf), size) == SumBy(order, SizeIn(g))
    decreases |order|
  {
    if order != [] {
      assert order[0] in SetOf(g.keys);
      RowsForCounts(g, order[1..], rowOf, size);
    }
  }

  /** Groups renamed by `f` give the same rows. */
  lemma {:induction false} RowsForRekey<T(!new), K, L, R>(g1: Groups<T, K>, g2: Groups<T, L>, ks: seq<K>, f: K -> L,
                                                    rowOf: seq<T> --> R)
    requires Valid(g1) && Valid(g2)
    requires forall group: seq<T> :: group != [] ==> rowOf.requires(group)
    requires forall i :: 0 <= i < |ks| ==> ks[i] in g1.members
    requires forall i :: 0 <= i < |ks| ==> f(ks[i]) in g2.members && g2.members[f(ks[i])] == g1.members[ks[i]]
    ensures RowsFor(g2, MapSeq(ks, f), rowOf) == RowsFor(g1, ks, rowOf)
    decreases |ks|
  {
    if ks != [] {
      assert MapSeq(ks, f)[1..] == MapSeq(ks[1..], f);
      RowsForRekey(g1, g2, ks[1..], f, rowOf);
    }
  }

  /** The number of records in the groups named by `ks`. */
  function SizeIn<T, K>(g: Groups<T, K>): K -> int {
    k => if k in g.members then |g.members[k]| else 0
  }

  /** The keys are the distinct keys of the records, in first-seen order. */
  lemma {:induction false} GroupByKeys<T, K>(items: seq<T>, key: T -> K)
    ensures GroupBy(items, key).keys == Distinct(MapSeq(items, key))
    decreases |items|
  {
    if items != [] {
      var init := items[..|items| - 1];
      GroupByKeys(init, key);
      assert MapSeq(items, key)[..|items| - 1] == MapSeq(init, key);
    }
  }

  /** The records of the group named `k`, none when there is no such group. */
  function Members<T, K>(g: Groups<T, K>, k: K): seq<T> {
    if k in g.members then g.members[k] else []
  }

  /** The group named `k` collects the records with key `k`, in input order. */
  lemma {:induction false} GroupByFilter<T, K>(items: seq<T>, key: T -> K, k: K)
    ensures Filter(items, HasKey(key, k)) == Members(GroupBy(items, key), k)
    decreases |items|
  {
    if items != [] {
      var n := |items| - 1;
      var init := items[..n];
      var x := items[n];
      GroupByFilter(init, key, k);
      assert items == init + [x];
      FilterAppend(init, [x], HasKey(key, k));
      assert Filter([x], HasKey(key, k)) == if key(x) == k then [x] else [];
    }
  }

  /** Each group holds exactly the records with its key, in input order. */
  lemma {:induction false} GroupByMembers<T, K>(items: seq<T>, key: T -> K, k: K)
    ensures k in GroupBy(items, key).members <==> exists i :: 0 <= i < |items| && key(items[i]) == k
    ensures Filter(items, HasKey(key, k)) ==
      if k in GroupBy(items, key).members then GroupBy(items, key).members[k] else []
  {
    GroupByFilter(items, key, k);
    var g := GroupBy(items, key);
    var kept := Filter(items, HasKey(key, k));
    if k in g.members {
      assert k in SetOf(g.keys);
      var i :| 0 <= i < |g.keys| && g.keys[i] == k;
      assert kept != [];
      assert kept[0] in items && key(kept[0]) == k;
      var j :| 0 <= j < |items| && items[j] == kept[0];
    } else {
      FilterMembers(items, HasKey(key, k));
    }
  }

  /** Updating a group that `ks` does not name leaves their total unchanged. */
  lemma {:induction false} SizeInOther<T, K>(g: Groups<T, K>, h: Groups<T, K>, ks: seq<K>)
    requires forall k :: k in ks ==> SizeIn(g)(k) == SizeIn(h)(k)
    ensures SumBy(ks, SizeIn(g)) == SumBy(ks, SizeIn(h))
    decreases |ks|
  {
    if ks != [] {
      SizeInOther(g, h, ks[1..]);
    }
  }

  /** Growing the group of a key listed once adds one to the total. */
  lemma {:induction false} SizeInGrow<T, K>(g: Groups<T, K>, h: Groups<T, K>, ks: seq<K>, k: K)
    requires NoDup(ks) && k in ks
    requires SizeIn(h)(k) == SizeIn(g)(k) + 1
    requires forall j :: j in ks && j != k ==> SizeIn(g)(j) == SizeIn(h)(j)
    ensures SumBy(ks, SizeIn(h)) == SumBy(ks, SizeIn(g)) + 1
    decreases |ks|
  {
    if ks[0] == k {
      assert k !in ks[1..];
      SizeInOther(g, h, ks[1..]);
    } else {
      assert NoDup(ks[1..]) by {
        forall i, j | 0 <= i < j < |ks[1..]| ensures ks[1..][i] != ks[1..][j] {
          assert ks[1..][i] == ks[i + 1] && ks[1..][j] == ks[j + 1];
        }
      }
      SizeInGrow(g, h, ks[1..], k);
    }
  }

  /** The groups together hold every record once. */
  lemma {:induction false} GroupBySizes<T, K>(items: seq<T>, key: T -> K)
    ensures SumBy(GroupBy(items, key).keys, SizeIn(GroupBy(items, key))) == |items|
    decreases |items|
  {
    if items != [] {
      var n := |items| - 1;
      var g := GroupBy(items[..n], key);
      var h := GroupBy(items, key);
      var k := key(items[n]);
      GroupBySizes(items[..n], key);
      if k in g.members {
        SizeInGrow(g, h, g.keys, k);
      } else {
        SumByAppend(g.keys, [k], SizeIn(h));
        SizeInOther(g, h, g.keys);
      }
    }
  }

  /** Some record has key `k` exactly when `k` names a group. */
  lemma KeyWitness<T, K>(items: seq<T>, key: T -> K, k: K) returns (j: nat)
    requires k in GroupBy(items, key).members
    ensures j < |items| && key(items[j]) == k
  {
    GroupByMembers(items, key, k);
    j :| 0 <= j < |items| && key(items[j]) == k;
  }

  /** The keys of the re-keyed groups are the encoded keys. */
  lemma {:induction false} GroupByRekeyKeys<T, K, L>(items: seq<T>, key: T -> K, f: K -> L, key2: T -> L)
    requires forall i :: 0 <= i < |items| ==> key2(items[i]) == f(key(items[i]))
    requires forall i, j :: 0 <= i < |items| && 0 <= j < |items| && f(key(items[i])) == f(key(items[j])) ==>
      key(items[i]) == key(items[j])
    ensures GroupBy(items, key2).keys == MapSeq(GroupBy(items, key).keys, f)
    decreases |items|
  {
    if items != [] {
      var n := |items| - 1;
      var init := items[..n];
      assert forall i :: 0 <= i < n ==> init[i] == items[i];
      GroupByRekeyKeys(init, key, f, key2);
      var g1 := GroupBy(init, key);
      var g2 := GroupBy(init, key2);
      var k := key(items[n]);
      if k in g1.members {
        var j := KeyWitness(init, key, k);
        assert key2(init[j]) == f(k);
        GroupByMembers(init, key2, f(k));
      } else if f(k) in g2.members {
        var j := KeyWitness(init, key2, f(k));
        assert key(items[j]) == k;
        GroupByMembers(init, key, k);
        assert false;
      } else {
        assert MapSeq(g1.keys + [k], f) == MapSeq(g1.keys, f) + [f(k)];
      }
    }
  }

  /** Grouping by a key given through an encoding `f` (`key2 = f o key`)
      that never merges two different keys of the records gives the same
      groups, under the encoded names. */
  lemma GroupByRekey<T, K, L>(items: seq<T>, key: T -> K, f: K -> L, key2: T -> L)
    requires forall i :: 0 <= i < |items| ==> key2(items[i]) == f(key(items[i]))
    requires forall i, j :: 0 <= i < |items| && 0 <= j < |items| && f(key(items[i])) == f(key(items[j])) ==>
      key(items[i]) == key(items[j])
    ensures GroupBy(items, key2).keys == MapSeq(GroupBy(items, key).keys, f)
    ensures forall i :: 0 <= i < |GroupBy(items, key).keys| ==>
      GroupBy(items, key2).members[f(GroupBy(items, key).keys[i])] == GroupBy(items, key).members[GroupBy(items, key).keys[i]]
  {
    GroupByRekeyKeys(items, key, f, key2);
    var g1 := GroupBy(items, key);
    var g2 := GroupBy(items, key2);
    forall i | 0 <= i < |g1.keys| ensures g2.members[f(g1.keys[i])] == g1.members[g1.keys[i]] {
      var k := g1.keys[i];
      assert k in SetOf(g1.keys);
      var j := KeyWitness(items, key, k);
      GroupByMembers(items, key, k);
      GroupByMembers(items, key2, f(k));
      FilterSame(items, HasKey(key, k), HasKey(key2, f(k)));
    }
  }

  /** The walk as the loop that performs it. */
  method GroupItems<T, K>(items: seq<T>, key: T -> K) returns (g: Groups<T, K>)
    ensures g == GroupBy(items, key)
  {
    var keys: seq<K> := [];
    var members: map<K, seq<T>> := map[];
    var i := 0;
    while i < |items|
      invariant 0 <= i <= |items|
      invariant Groups(keys, members) == GroupBy(items[..i], key)
    {
      ghost var before := Groups(keys, members);
      var k := key(items[i]);
      if k !in members {
        keys := keys + [k];
        members := members[k := []];
      }
      members := members[k := members[k] + [items[i]]];
      assert [] + [items[i]] == [items[i]];
      assert Groups(keys, members) == Add(before, items[i], key);
      assert items[..i + 1][..i] == items[..i];
      i := i + 1;
    }
    assert items[..i] == items;
    g := Groups(keys, members);
  }

  /** The same walk over a plain object `{}` tested with `!groups[k]`: a key
      that names an inherited property of `Object.prototype` finds a truthy
      non-array there, and the following `push` throws a `TypeError`
      (`None`). */
  function DictGroupBy<T>(items: seq<T>, key: T -> string): Option<Groups<T, string>>
    decreases |items|
  {
    if items == [] then Some(Groups([], map[]))
    else
      match DictGroupBy(items[..|items| - 1], key)
      case None => None
      case Some(g) =>
        var k := key(items[|items| - 1]);
        if k !in g.members && k in InheritedNames then None
        else Some(Add(g, items[|items| - 1], key))
  }

  /** The dictionary walk as the loop that performs it. */
  method DictGroupItems<T>(items: seq<T>, key: T -> string) returns (r: Option<Groups<T, string>>)
    ensures r == DictGroupBy(items, key)
  {
    var keys: seq<string> := [];
    var members: map<string, seq<T>> := map[];
    var i := 0;
    while i < |items|
      invariant 0 <= i <= |items|
      invariant DictGroupBy(items[..i], key) == Some(Groups(keys, members))
    {
      ghost var before := Groups(keys, members);
      var k := key(items[i]);
      assert items[..i + 1][..i] == items[..i];
      if k !in members {
        if k in InheritedNames {
          assert DictGroupBy(items[..i + 1], key) == None;
          DictGroupByFailed(items, key, i + 1);
          assert items[..|items|] == items;
          return None;
        }
        keys := keys + [k];
        members := members[k := []];
      }
      members := members[k := members[k] + [items[i]]];
      assert [] + [items[i]] == [items[i]];
      assert Groups(keys, members) == Add(before, items[i], key);
      i := i + 1;
    }
    assert items[..i] == items;
    r := Some(Groups(keys, members));
  }

  /** Once the walk has thrown, the rest of the records cannot undo it. */
  lemma {:induction false} DictGroupByFailed<T>(items: seq<T>, key: T -> string, n: nat)
    requires n <= |items| && DictGroupBy(items[..n], key) == None
    ensures DictGroupBy(items, key) == None
    decreases |items| - n
  {
    if n < |items| {
      assert items[..n + 1][..n] == items[..n];
      DictGroupByFailed(items, key, n + 1);
    } else {
      assert items[..n] == items;
    }
  }

  /** The dictionary walk throws as soon as one record's key is an inherited
      name, however ordinary the other records are. */
  lemma {:induction false} DictGroupByInherited<T>(items: seq<T>, key: T -> string, i: nat)
    requires i < |items| && key(items[i]) in InheritedNames
    ensures DictGroupBy(items, key) == None
  {
    var pre := items[..i + 1];
    assert pre[..i] == items[..i];
    DictNeverHoldsInherited(items[..i], key, key(items[i]));
    assert DictGroupBy(pre, key) == None;
    DictGroupByFailed(items, key, i + 1);
  }

  /** The dictionary walk never creates a group for an inherited name. */
  lemma {:induction false} DictNeverHoldsInherited<T>(items: seq<T>, key: T -> string, k: string)
    requires k in InheritedNames
    ensures DictGroupBy(items, key).Some? ==> k !in DictGroupBy(items, key).value.members
    decreases |items|
  {
    if items != [] {
      DictNeverHoldsInherited(items[..|items| - 1], key, k);
    }
  }

  /** When no key is an inherited name the dictionary walk is the `Map` walk. */
  lemma {:induction false} DictGroupByAgrees<T>(items: seq<T>, key: T -> string)
    ensures (forall i :: 0 <= i < |items| ==> key(items[i]) !in InheritedNames) ==>
      DictGroupBy(items, key) == Some(GroupBy(items, key))
    decreases |items|
  {
    if items != [] {
      var n := |items| - 1;
      DictGroupByAgrees(items[..n], key);
      if forall i :: 0 <= i < |items| ==> key(items[i]) !in InheritedNames {
        assert forall i :: 0 <= i < n ==> items[..n][i] == items[i];
        assert key(items[n]) !in InheritedNames;
      }
    }
  }
}
