/** The pivot trees of `usePivotTable` and `useOptimizedPivotTable`: the
    records are partitioned by the first field of a hierarchy, each group
    becomes a node with its counts, and the group is partitioned again by the
    next field, down to the last one. The two hooks share this builder and
    differ in the points a `Policy` names. */
module PivotTree {
  import opened Wrappers
  import opened Sequences
  import opened Sorting
  import opened Strings
  import opened JsObject
  import opened Records
  import opened Grouping

  /** The eight levels of `usePivotTable`. */
  const FullHierarchy: seq<string> := [MODELO, FUNCION, CODIGO, CAUSA, ACCION, ORIGEN, POSICION, COMENTARIO]

  /** The fields `useOptimizedPivotTable` slices its hierarchy from. */
  const OptimizedFields: seq<string> := [MODELO, FUNCION, CODIGO]

  /** The default `maxDepth` of `useOptimizedPivotTable`. */
  const DefaultMaxDepth := 3

  /** `Complete` is `usePivotTable`: groups in a `{}` listed by
      `Object.entries`, every level sorted, exact unique counts and the
      records kept at every node. `Optimized` is `useOptimizedPivotTable`:
      groups in a `Map`, only levels 0 and 1 sorted and counted exactly, and
      the records kept at the last level only. */
  datatype Policy = Complete | Optimized

  datatype RawData = NoRawData | RawItems(items: seq<Record>)

  /** `children`: `null`, or the child nodes. */
  datatype ChildList = NullChildren | ChildNodes(nodes: seq<PivotNode>)

  datatype PivotNode = PivotNode(
    id: string,
    level: nat,
    field: string,
    key: string,
    path: seq<string>,
    count: nat,
    uniqueCount: nat,
    isExpandable: bool,
    isExpanded: bool,
    children: ChildList,
    rawData: RawData)

  /** `item[field] || `(Sin ${field})`` */
  function FieldKey(field: string): Record -> string {
    r => OrElse(r, field, "(Sin " + field + ")")
  }

  /** `new Set(items.map(item => item.NS)).size` */
  function UniqueNs(items: seq<Record>): nat {
    |SetOf(MapSeq(items, NsOf))|
  }

  function CountOf(n: PivotNode): int {
    n.count
  }

  function LabelOf(n: PivotNode): string {
    n.key
  }

  /** The comparator `(a, b) => b.count - a.count` is negative exactly when
      `a` has the larger count. */
  predicate ByCountDesc(a: PivotNode, b: PivotNode) {
    a.count > b.count
  }

  /** Whether the policy sorts and counts exactly at this level. */
  predicate Exact(policy: Policy, level: nat) {
    policy == Complete || level < 2
  }

  /** `buildTree(items, level, path)` */
  function BuildTree(policy: Policy, h: seq<string>, items: seq<Record>, level: nat, path: seq<string>): seq<PivotNode>
    decreases |h| - level, 2
  {
    if level >= |h| then []
    else
      var g := GroupBy(items, FieldKey(h[level]));
      var order := ListingOrder(policy, g.keys);
      ListingOrderFacts(policy, g);
      var nodes := MakeNodes(policy, h, level, path, g, order);
      if Exact(policy, level) then SortBy(nodes, ByCountDesc) else nodes
  }

  /** The order the groups are listed in: `Object.entries` of the `{}`, or
      the insertion order of the `Map`. */
  function ListingOrder(policy: Policy, keys: seq<string>): seq<string> {
    if policy == Complete then OwnKeysOrder(keys) else keys
  }

  /** Either listing names every group once. */
  lemma ListingOrderFacts(policy: Policy, g: Groups<Record, string>)
    requires Valid(g)
    ensures multiset(ListingOrder(policy, g.keys)) == multiset(g.keys)
    ensures NoDup(ListingOrder(policy, g.keys))
    ensures forall i :: 0 <= i < |ListingOrder(policy, g.keys)| ==> ListingOrder(policy, g.keys)[i] in g.members
  {
    OwnKeysOrderFacts(g.keys);
    var order := ListingOrder(policy, g.keys);
    forall i | 0 <= i < |order| ensures order[i] in g.members {
      assert order[i] in multiset(order);
      assert order[i] in g.keys;
      assert order[i] in SetOf(g.keys);
    }
  }

  /** `Object.entries(groups).map(...)` over the listed keys. */
  function MakeNodes(policy: Policy, h: seq<string>, level: nat, path: seq<string>,
                     g: Groups<Record, string>, order: seq<string>): (r: seq<PivotNode>)
    requires level < |h|
    requires forall i :: 0 <= i < |order| ==> order[i] in g.members
    ensures |r| == |order|
    decreases |h| - level, 1, |order|
  {
    if order == [] then []
    else [MakeNode(policy, h, level, path, order[0], g.members[order[0]])]
         + MakeNodes(policy, h, level, path, g, order[1..])
  }

  /** The node for the group `group` of key `key`. */
  function MakeNode(policy: Policy, h: seq<string>, level: nat, path: seq<string>,
                    key: string, group: seq<Record>): PivotNode
    requires level < |h|
    decreases |h| - level, 0
  {
    var p := path + [key];
    var last := level == |h| - 1;
    PivotNode(
      Join(p, "|"), level, h[level], key, p, |group|,
      if Exact(policy, level) then UniqueNs(group) else |group|,
      !last, false,
      if !last && (policy == Complete || |group| > 0)
      then ChildNodes(BuildTree(policy, h, group, level + 1, p)) else NullChildren,
      if policy == Complete || last then RawItems(group) else NoRawData)
  }

  /** What every node a level produces satisfies. */
  ghost predicate NodeOk(policy: Policy, h: seq<string>, items: seq<Record>, level: nat, path: seq<string>, n: PivotNode)
    requires level < |h|
  {
    var group := Filter(items, HasKey(FieldKey(h[level]), n.key));
    var last := level == |h| - 1;
    n.level == level && n.field == h[level]
    && n.key != ""
    && n.path == path + [n.key] && n.id == Join(n.path, "|")
    && n.count == |group| && n.count >= 1
    && n.uniqueCount == (if Exact(policy, level) then UniqueNs(group) else n.count)
    && 1 <= n.uniqueCount <= n.count
    && n.isExpandable == !last && !n.isExpanded
    && n.children == (if last then NullChildren else ChildNodes(BuildTree(policy, h, group, level + 1, n.path)))
    && n.rawData == (if policy == Complete || last then RawItems(group) else NoRawData)
  }

  lemma FieldKeyNonEmpty(field: string, r: Record)
    ensures FieldKey(field)(r) != ""
  {
    OrElseFacts(r, field, "(Sin " + field + ")");
  }

  /** A node built for a key of the grouping describes that key's group. */
  lemma MakeNodeOk(policy: Policy, h: seq<string>, items: seq<Record>, level: nat, path: seq<string>, key: string)
    requires level < |h|
    requires key in GroupBy(items, FieldKey(h[level])).members
    ensures NodeOk(policy, h, items, level, path,
      MakeNode(policy, h, level, path, key, GroupBy(items, FieldKey(h[level])).members[key]))
  {
    var g := GroupBy(items, FieldKey(h[level]));
    var group := g.members[key];
    GroupByMembers(items, FieldKey(h[level]), key);
    var i :| 0 <= i < |g.keys| && g.keys[i] == key;
    assert group != [];
    assert group[0] in items;
    var j :| 0 <= j < |items| && items[j] == group[0];
    FieldKeyNonEmpty(h[level], items[j]);
    SetOfSize(MapSeq(group, NsOf));
  }

  /** The nodes of a level are those of its listed keys, one per key. */
  lemma {:induction false} MakeNodesAt(policy: Policy, h: seq<string>, level: nat, path: seq<string>,
                                       g: Groups<Record, string>, order: seq<string>)
    requires level < |h|
    requires forall i :: 0 <= i < |order| ==> order[i] in g.members
    ensures forall i :: 0 <= i < |order| ==>
      MakeNodes(policy, h, level, path, g, order)[i] == MakeNode(policy, h, level, path, order[i], g.members[order[i]])
    decreases |order|
  {
    if order != [] {
      var rest := order[1..];
      MakeNodesAt(policy, h, level, path, g, rest);
      var r := MakeNodes(policy, h, level, path, g, order);
      assert r[1..] == MakeNodes(policy, h, level, path, g, rest);
      forall i | 0 < i < |order|
        ensures r[i] == MakeNode(policy, h, level, path, order[i], g.members[order[i]])
      {
        assert r[i] == r[1..][i - 1] && order[i] == rest[i - 1];
      }
    }
  }

  /** The nodes of a level are labelled by the listed keys, in order. */
  lemma MakeNodesLabels(policy: Policy, h: seq<string>, level: nat, path: seq<string>,
                        g: Groups<Record, string>, order: seq<string>)
    requires level < |h|
    requires forall i :: 0 <= i < |order| ==> order[i] in g.members
    ensures MapSeq(MakeNodes(policy, h, level, path, g, order), LabelOf) == order
  {
    MakeNodesAt(policy, h, level, path, g, order);
  }

  /** The counts of the nodes of a level are the sizes of their groups. */
  lemma {:induction false} MakeNodesSum(policy: Policy, h: seq<string>, level: nat, path: seq<string>,
                                        g: Groups<Record, string>, order: seq<string>)
    requires level < |h|
    requires forall i :: 0 <= i < |order| ==> order[i] in g.members
    ensures SumBy(MakeNodes(policy, h, level, path, g, order), CountOf) == SumBy(order, SizeIn(g))
    decreases |order|
  {
    if order != [] {
      MakeNodesSum(policy, h, level, path, g, order[1..]);
      var r := MakeNodes(policy, h, level, path, g, order);
      assert r[1..] == MakeNodes(policy, h, level, path, g, order[1..]);
    }
  }

  /** Every node of a level is the node of one of its groups. */
  lemma LevelMember(policy: Policy, h: seq<string>, items: seq<Record>, level: nat, path: seq<string>, n: PivotNode)
    returns (k: string)
    requires level < |h|
    requires n in BuildTree(policy, h, items, level, path)
    ensures k in GroupBy(items, FieldKey(h[level])).members
    ensures n == MakeNode(policy, h, level, path, k, GroupBy(items, FieldKey(h[level])).members[k])
  {
    var g := GroupBy(items, FieldKey(h[level]));
    var order := ListingOrder(policy, g.keys);
    ListingOrderFacts(policy, g);
    var nodes := MakeNodes(policy, h, level, path, g, order);
    assert BuildTree(policy, h, items, level, path) ==
      if Exact(policy, level) then SortBy(nodes, ByCountDesc) else nodes;
    if Exact(policy, level) {
      SortByMembers(nodes, ByCountDesc, n);
    }
    assert n in nodes;
    var i :| 0 <= i < |nodes| && nodes[i] == n;
    MakeNodesAt(policy, h, level, path, g, order);
    k := order[i];
  }

  /** Every node of a level describes its group. */
  lemma BuildTreeNodes(policy: Policy, h: seq<string>, items: seq<Record>, level: nat, path: seq<string>)
    requires level < |h|
    ensures forall n :: n in BuildTree(policy, h, items, level, path) ==> NodeOk(policy, h, items, level, path, n)
  {
    forall n | n in BuildTree(policy, h, items, level, path)
      ensures NodeOk(policy, h, items, level, path, n)
    {
      var k := LevelMember(policy, h, items, level, path, n);
      MakeNodeOk(policy, h, items, level, path, k);
    }
  }

  /** The counts of a level add up to the number of records. */
  lemma BuildTreeCount(policy: Policy, h: seq<string>, items: seq<Record>, level: nat, path: seq<string>)
    requires level < |h|
    ensures SumBy(BuildTree(policy, h, items, level, path), CountOf) == |items|
  {
    var g := GroupBy(items, FieldKey(h[level]));
    var order := ListingOrder(policy, g.keys);
    ListingOrderFacts(policy, g);
    var nodes := MakeNodes(policy, h, level, path, g, order);
    MakeNodesSum(policy, h, level, path, g, order);
    SumByPermutation(order, g.keys, SizeIn(g));
    GroupBySizes(items, FieldKey(h[level]));
    if Exact(policy, level) {
      SortByTotal(nodes, ByCountDesc, CountOf);
    }
  }

  /** Sibling labels are distinct. */
  lemma BuildTreeLabelsDistinct(policy: Policy, h: seq<string>, items: seq<Record>, level: nat, path: seq<string>)
    requires level < |h|
    ensures KeysDistinct(BuildTree(policy, h, items, level, path), LabelOf)
  {
    var g := GroupBy(items, FieldKey(h[level]));
    var order := ListingOrder(policy, g.keys);
    ListingOrderFacts(policy, g);
    var nodes := MakeNodes(policy, h, level, path, g, order);
    MakeNodesLabels(policy, h, level, path, g, order);
    assert KeysDistinct(nodes, LabelOf) by {
      forall i, j | 0 <= i < j < |nodes| ensures LabelOf(nodes[i]) != LabelOf(nodes[j]) {
        assert MapSeq(nodes, LabelOf)[i] == order[i] && MapSeq(nodes, LabelOf)[j] == order[j];
      }
    }
    if Exact(policy, level) {
      SortByKeysDistinct(nodes, ByCountDesc, LabelOf);
    }
  }

  /** Every record's key labels a sibling, and every sibling's key is the
      key of some record. */
  lemma BuildTreeLabelsCover(policy: Policy, h: seq<string>, items: seq<Record>, level: nat, path: seq<string>, i: nat)
    requires level < |h| && i < |items|
    ensures exists n :: n in BuildTree(policy, h, items, level, path) && n.key == FieldKey(h[level])(items[i])
    ensures forall n :: n in BuildTree(policy, h, items, level, path) ==>
      exists j :: 0 <= j < |items| && n.key == FieldKey(h[level])(items[j])
  {
    BuildTreeKeysFromItems(policy, h, items, level, path);
    var g := GroupBy(items, FieldKey(h[level]));
    var order := ListingOrder(policy, g.keys);
    ListingOrderFacts(policy, g);
    var nodes := MakeNodes(policy, h, level, path, g, order);
    MakeNodesLabels(policy, h, level, path, g, order);
    var k := FieldKey(h[level])(items[i]);
    GroupByMembers(items, FieldKey(h[level]), k);
    assert k in g.members.Keys;
    assert k in multiset(order);
    var j :| 0 <= j < |order| && order[j] == k;
    assert MapSeq(nodes, LabelOf)[j] == k;
    if Exact(policy, level) {
      SortByMembers(nodes, ByCountDesc, nodes[j]);
    }
    assert nodes[j] in BuildTree(policy, h, items, level, path);
  }

  /** A node's key is the key of one of the records it groups. */
  lemma BuildTreeKeysFromItems(policy: Policy, h: seq<string>, items: seq<Record>, level: nat, path: seq<string>)
    requires level < |h|
    ensures forall n :: n in BuildTree(policy, h, items, level, path) ==>
      exists j :: 0 <= j < |items| && n.key == FieldKey(h[level])(items[j])
  {
    forall n | n in BuildTree(policy, h, items, level, path)
      ensures exists j :: 0 <= j < |items| && n.key == FieldKey(h[level])(items[j])
    {
      var k := LevelMember(policy, h, items, level, path, n);
      GroupByMembers(items, FieldKey(h[level]), k);
      assert n.key == k;
    }
  }

  lemma ByCountDescIsStrictWeakOrder()
    ensures StrictWeakOrder(ByCountDesc)
  {
  }

  /** Levels the policy sorts are ordered by count, largest first; the others
      keep the order in which their keys first appear in the records. */
  lemma BuildTreeOrder(policy: Policy, h: seq<string>, items: seq<Record>, level: nat, path: seq<string>)
    requires level < |h|
    ensures Exact(policy, level) ==> Sorted(BuildTree(policy, h, items, level, path), ByCountDesc)
    ensures !Exact(policy, level) ==>
      MapSeq(BuildTree(policy, h, items, level, path), LabelOf) == Distinct(MapSeq(items, FieldKey(h[level])))
  {
    var g := GroupBy(items, FieldKey(h[level]));
    var order := ListingOrder(policy, g.keys);
    ListingOrderFacts(policy, g);
    if Exact(policy, level) {
      ByCountDescIsStrictWeakOrder();
      SortBySorted(MakeNodes(policy, h, level, path, g, order), ByCountDesc);
    } else {
      MakeNodesLabels(policy, h, level, path, g, order);
      GroupByKeys(items, FieldKey(h[level]));
    }
  }

  /** The children of a node count its records again: their counts add up to
      the node's count. */
  lemma ChildrenSumToParent(policy: Policy, h: seq<string>, items: seq<Record>, level: nat, path: seq<string>, n: PivotNode)
    requires level < |h|
    requires n in BuildTree(policy, h, items, level, path)
    ensures n.children.ChildNodes? <==> level < |h| - 1
    ensures n.children.ChildNodes? ==> SumBy(n.children.nodes, CountOf) == n.count
  {
    BuildTreeNodes(policy, h, items, level, path);
    if level < |h| - 1 {
      BuildTreeCount(policy, h, Filter(items, HasKey(FieldKey(h[level]), n.key)), level + 1, n.path);
    }
  }

  /** The facts about a whole tree, from its top level. */
  lemma RootFacts(policy: Policy, h: seq<string>, data: seq<Record>)
    ensures h == [] ==> BuildTree(policy, h, data, 0, []) == []
    ensures h != [] ==>
      (forall n :: n in BuildTree(policy, h, data, 0, []) ==> NodeOk(policy, h, data, 0, [], n))
      && SumBy(BuildTree(policy, h, data, 0, []), CountOf) == |data|
      && KeysDistinct(BuildTree(policy, h, data, 0, []), LabelOf)
      && Sorted(BuildTree(policy, h, data, 0, []), ByCountDesc)
  {
    if h != [] {
      BuildTreeNodes(policy, h, data, 0, []);
      BuildTreeCount(policy, h, data, 0, []);
      BuildTreeLabelsDistinct(policy, h, data, 0, []);
      BuildTreeOrder(policy, h, data, 0, []);
    }
  }

  /** `usePivotTable(data)` */
  function UsePivotTable(data: seq<Record>): (r: seq<PivotNode>)
    ensures data == [] ==> r == []
    ensures forall n :: n in r ==> NodeOk(Complete, FullHierarchy, data, 0, [], n)
    ensures SumBy(r, CountOf) == |data|
    ensures KeysDistinct(r, LabelOf) && Sorted(r, ByCountDesc)
  {
    if data == [] then []
    else
      RootFacts(Complete, FullHierarchy, data);
      BuildTree(Complete, FullHierarchy, data, 0, [])
  }

  /** `array.slice(0, end)` on an array of length `len`: a negative end counts
      from the back. */
  function SliceEnd(len: nat, end: int): (r: nat)
    ensures r <= len
    ensures end >= 0 ==> r == if end < len then end else len
    ensures end < 0 ==> r == if len + end > 0 then len + end else 0
  {
    if end < 0 then (if len + end > 0 then len + end else 0)
    else if end < len then end else len
  }

  /** The fields `useOptimizedPivotTable(data, maxDepth)` groups by. */
  function OptimizedHierarchy(maxDepth: int): (h: seq<string>)
    ensures |h| <= 3 && h == OptimizedFields[..|h|]
    ensures maxDepth >= 0 ==> |h| == if maxDepth < 3 then maxDepth else 3
  {
    OptimizedFields[..SliceEnd(|OptimizedFields|, maxDepth)]
  }

  /** `useOptimizedPivotTable(data, maxDepth)` */
  function UseOptimizedPivotTable(data: seq<Record>, maxDepth: int): (r: seq<PivotNode>)
    ensures data == [] || OptimizedHierarchy(maxDepth) == [] ==> r == []
    ensures OptimizedHierarchy(maxDepth) != [] ==>
      (forall n :: n in r ==> NodeOk(Optimized, OptimizedHierarchy(maxDepth), data, 0, [], n))
      && SumBy(r, CountOf) == |data|
      && KeysDistinct(r, LabelOf) && Sorted(r, ByCountDesc)
  {
    if data == [] then []
    else
      RootFacts(Optimized, OptimizedHierarchy(maxDepth), data);
      BuildTree(Optimized, OptimizedHierarchy(maxDepth), data, 0, [])
  }

  /** A level has one node per distinct key of its records. */
  lemma BuildTreeSize(policy: Policy, h: seq<string>, items: seq<Record>, level: nat, path: seq<string>)
    requires level < |h|
    ensures |BuildTree(policy, h, items, level, path)| == |Distinct(MapSeq(items, FieldKey(h[level])))|
  {
    var g := GroupBy(items, FieldKey(h[level]));
    ListingOrderFacts(policy, g);
    assert |ListingOrder(policy, g.keys)| == |multiset(ListingOrder(policy, g.keys))| == |g.keys|;
    GroupByKeys(items, FieldKey(h[level]));
  }

  /** A single record makes a single root, keyed by its model, that counts it. */
  lemma OneRecordTree(r: Record)
    ensures |UsePivotTable([r])| == 1
    ensures UsePivotTable([r])[0].key == FieldKey(MODELO)(r)
    ensures UsePivotTable([r])[0].count == 1
  {
    var h := FullHierarchy;
    var t := BuildTree(Complete, h, [r], 0, []);
    assert UsePivotTable([r]) == t;
    assert h[0] == MODELO;
    var key := FieldKey(MODELO)(r);
    BuildTreeSize(Complete, h, [r], 0, []);
    assert MapSeq([r], FieldKey(MODELO)) == [key];
    assert Distinct([key]) == [key];
    BuildTreeLabelsCover(Complete, h, [r], 0, [], 0);
    BuildTreeCount(Complete, h, [r], 0, []);
    assert SumBy(t, CountOf) == t[0].count;
  }

  /** A repair whose model is literally `constructor` makes the `{}` walk of
      `usePivotTable` throw, while the grouping it evidently intends yields one
      node labelled `constructor` that counts the record. */
  lemma InheritedModelThrows()
    ensures DictGroupBy([map[MODELO := "constructor"]], FieldKey(MODELO)) == None
    ensures |UsePivotTable([map[MODELO := "constructor"]])| == 1
    ensures UsePivotTable([map[MODELO := "constructor"]])[0].key == "constructor"
    ensures UsePivotTable([map[MODELO := "constructor"]])[0].count == 1
  {
    var r: Record := map[MODELO := "constructor"];
    assert FieldKey(MODELO)(r) == "constructor";
    DictGroupByInherited([r], FieldKey(MODELO), 0);
    OneRecordTree(r);
  }
}
