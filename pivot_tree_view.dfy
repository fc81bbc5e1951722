/** `PivotTreeView`: a nested count of the records along the path model,
    function, failure code, cause, action, origin, position and (when there
    is one) comment, held in nested dictionaries, and the collapsible rows it
    is drawn as. */
module PivotTreeView {
  import opened Wrappers
  import opened Sequences
  import opened Sorting
  import opened Strings
  import opened JsObject
  import opened Records

  /** A node `{ count, children }`. */
  datatype Entry = Entry(count: nat, children: Level)

  /** A dictionary of nodes: its keys in creation order and its entries. */
  datatype Level = Level(keys: seq<string>, nodes: map<string, Entry>)

  const EmptyLevel := Level([], map[])

  /** The keys are listed once each and are exactly the entries, and every
      node below has been counted at least once. */
  ghost predicate WellFormed(l: Level)
    decreases l
  {
    NoDup(l.keys) && l.nodes.Keys == SetOf(l.keys)
    && forall k :: k in l.nodes ==> l.nodes[k].count >= 1 && WellFormed(l.nodes[k].children)
  }

  /** The path a record is counted along: the seven fields with their
      placeholders, then the comment when it is truthy. */
  function PathOf(r: Record): (p: seq<string>)
    ensures |p| == 7 || |p| == 8
    ensures forall i :: 0 <= i < |p| ==> p[i] != ""
  {
    [OrElse(r, MODELO, "(Sin modelo)"),
     OrElse(r, FUNCION, "(Sin función)"),
     OrElse(r, CODIGO, "(Sin código)"),
     OrElse(r, CAUSA, "(Sin causa)"),
     OrElse(r, ACCION, "(Sin acción)"),
     OrElse(r, ORIGEN, "(Sin origen)"),
     OrElse(r, POSICION, "(Sin posición)")]
    + (if Truthy(r, COMENTARIO) then [r[COMENTARIO]] else [])
  }

  /** Counting one record along `path`: each node on it is created when
      missing and has its count increased. */
  function Insert(l: Level, path: seq<string>): Level
    decreases |path|
  {
    if path == [] then l
    else
      var k := path[0];
      var e := if k in l.nodes then l.nodes[k] else Entry(0, EmptyLevel);
      Level(if k in l.nodes then l.keys else l.keys + [k],
            l.nodes[k := Entry(e.count + 1, Insert(e.children, path[1..]))])
  }

  /** The `forEach` over the records. */
  function Build(items: seq<Record>): Level
    decreases |items|
  {
    if items == [] then EmptyLevel
    else Insert(Build(items[..|items| - 1]), PathOf(items[|items| - 1]))
  }

  /** `p` is a prefix of `path`. */
  predicate IsPrefix(p: seq<string>, path: seq<string>) {
    |p| <= |path| && path[..|p|] == p
  }

  /** The count of the node at path `p`, 0 when there is no such node. */
  function CountAt(l: Level, p: seq<string>): nat
    requires p != []
    decreases |p|
  {
    if p[0] !in l.nodes then 0
    else if |p| == 1 then l.nodes[p[0]].count
    else CountAt(l.nodes[p[0]].children, p[1..])
  }

  /** Counting a record adds one to exactly the nodes on its path. */
  lemma {:induction false} InsertCount(l: Level, path: seq<string>, p: seq<string>)
    requires p != []
    ensures CountAt(Insert(l, path), p) == CountAt(l, p) + (if IsPrefix(p, path) then 1 else 0)
    decreases |path|
  {
    if path != [] && |p| > 1 && p[0] == path[0] {
      var k := path[0];
      var e := if k in l.nodes then l.nodes[k] else Entry(0, EmptyLevel);
      InsertCount(e.children, path[1..], p[1..]);
      if k !in l.nodes {
        EmptyCount(p[1..]);
      }
      assert IsPrefix(p, path) <==> IsPrefix(p[1..], path[1..]) by {
        if IsPrefix(p[1..], path[1..]) {
          assert path[..|p|] == [path[0]] + path[1..][..|p| - 1];
          assert p == [p[0]] + p[1..];
        }
        if IsPrefix(p, path) {
          assert path[1..][..|p| - 1] == path[..|p|][1..];
        }
      }
    } else if path != [] && p[0] == path[0] {
      assert IsPrefix(p, path);
    } else if path != [] && p[0] != path[0] && |p| <= |path| {
      assert path[..|p|][0] == path[0];
    }
  }

  lemma {:induction false} EmptyCount(p: seq<string>)
    requires p != []
    ensures CountAt(EmptyLevel, p) == 0
  {
  }

  /** Counting keeps the dictionaries well formed. */
  lemma {:induction false} InsertWellFormed(l: Level, path: seq<string>)
    requires WellFormed(l)
    ensures WellFormed(Insert(l, path))
    decreases |path|
  {
    if path != [] {
      var k := path[0];
      var e := if k in l.nodes then l.nodes[k] else Entry(0, EmptyLevel);
      InsertWellFormed(e.children, path[1..]);
      var r := Insert(l, path);
      if k !in l.nodes {
        assert k !in l.keys;
        assert SetOf(l.keys + [k]) == SetOf(l.keys) + {k};
      }
    }
  }

  /** `hierarchyData`: the count of every node is the number of records whose
      path passes through it. */
  lemma {:induction false} BuildCount(items: seq<Record>, p: seq<string>)
    requires p != []
    ensures CountAt(Build(items), p) == CountIf(items, (r: Record) => IsPrefix(p, PathOf(r)))
    decreases |items|
  {
    var through := (r: Record) => IsPrefix(p, PathOf(r));
    if items == [] {
      EmptyCount(p);
    } else {
      var n := |items| - 1;
      var init := items[..n];
      var path := PathOf(items[n]);
      BuildCount(init, p);
      InsertCount(Build(init), path, p);
      assert items == init + [items[n]];
      FilterAppend(init, [items[n]], through);
      assert Filter([items[n]], through) == if IsPrefix(p, path) then [items[n]] else [];
    }
  }

  /** The dictionaries of `hierarchyData` are well formed. */
  lemma {:induction false} BuildWellFormed(items: seq<Record>)
    ensures WellFormed(Build(items))
    decreases |items|
  {
    if items != [] {
      var n := |items| - 1;
      BuildWellFormed(items[..n]);
      InsertWellFormed(Build(items[..n]), PathOf(items[n]));
    }
  }

  /** The top-level nodes are the records' models (or the placeholder), in
      first-seen order. */
  lemma {:induction false} BuildKeys(items: seq<Record>)
    ensures Build(items).keys == Distinct(MapSeq(items, (r: Record) => PathOf(r)[0]))
    decreases |items|
  {
    if items != [] {
      var n := |items| - 1;
      BuildKeys(items[..n]);
      BuildWellFormed(items[..n]);
      assert MapSeq(items, (r: Record) => PathOf(r)[0])[..n] == MapSeq(items[..n], (r: Record) => PathOf(r)[0]);
      var l := Build(items[..n]);
      var k := PathOf(items[n])[0];
      assert k in l.nodes <==> k in SetOf(l.keys);
    }
  }

  /** The loop of `useMemo` that builds `hierarchyData`. */
  method HierarchyData(data: seq<Record>) returns (result: Level)
    ensures result == Build(data)
  {
    result := EmptyLevel;
    var i := 0;
    while i < |data|
      invariant 0 <= i <= |data|
      invariant result == Build(data[..i])
    {
      assert data[..i + 1][..i] == data[..i];
      result := Insert(result, PathOf(data[i]));
      i := i + 1;
    }
    assert data[..i] == data;
  }

  /** The same count in plain objects `{}`: a missing node is detected with
      `!children[k]`, so a key naming an inherited property of
      `Object.prototype` finds a function there. Increasing that function's
      `count` is harmless, but reading its `children` for the next field
      throws a `TypeError` (`None`); as the last key of a path it is silently
      left out of the listing. */
  function DictInsert(l: Level, path: seq<string>): Option<Level>
    decreases |path|
  {
    if path == [] then Some(l)
    else
      var k := path[0];
      if k !in l.nodes && k in InheritedNames then
        if |path| == 1 then Some(l) else None
      else
        var e := if k in l.nodes then l.nodes[k] else Entry(0, EmptyLevel);
        match DictInsert(e.children, path[1..])
        case None => None
        case Some(c) =>
          Some(Level(if k in l.nodes then l.keys else l.keys + [k], l.nodes[k := Entry(e.count + 1, c)]))
  }

  function DictBuild(items: seq<Record>): Option<Level>
    decreases |items|
  {
    if items == [] then Some(EmptyLevel)
    else
      match DictBuild(items[..|items| - 1])
      case None => None
      case Some(l) => DictInsert(l, PathOf(items[|items| - 1]))
  }

  /** No key on the path is inherited. */
  predicate OwnPath(path: seq<string>) {
    forall i :: 0 <= i < |path| ==> path[i] !in InheritedNames
  }

  /** The dictionaries never hold an inherited name. */
  ghost predicate NoInherited(l: Level)
    decreases l
  {
    forall k :: k in l.nodes ==> k !in InheritedNames && NoInherited(l.nodes[k].children)
  }

  lemma {:induction false} DictInsertAgrees(l: Level, path: seq<string>)
    requires OwnPath(path)
    ensures DictInsert(l, path) == Some(Insert(l, path))
    decreases |path|
  {
    if path != [] {
      var e := if path[0] in l.nodes then l.nodes[path[0]] else Entry(0, EmptyLevel);
      assert OwnPath(path[1..]) by {
        forall i | 0 <= i < |path[1..]| ensures path[1..][i] !in InheritedNames {
          assert path[1..][i] == path[i + 1];
        }
      }
      DictInsertAgrees(e.children, path[1..]);
    }
  }

  /** Without inherited names on any path the plain-object count is the
      count of the model. */
  lemma {:induction false} DictBuildAgrees(items: seq<Record>)
    requires forall i :: 0 <= i < |items| ==> OwnPath(PathOf(items[i]))
    ensures DictBuild(items) == Some(Build(items))
    decreases |items|
  {
    if items != [] {
      var n := |items| - 1;
      var init := items[..n];
      forall i | 0 <= i < |init| ensures OwnPath(PathOf(init[i])) {
        assert init[i] == items[i];
      }
      DictBuildAgrees(init);
      var path := PathOf(items[n]);
      assert OwnPath(path);
      DictInsertAgrees(Build(init), path);
      assert DictBuild(items) == DictInsert(Build(init), path);
    }
  }

  lemma {:induction false} DictBuildFailed(items: seq<Record>, n: nat)
    requires n <= |items| && DictBuild(items[..n]) == None
    ensures DictBuild(items) == None
    decreases |items| - n
  {
    if n < |items| {
      assert items[..n + 1][..n] == items[..n];
      DictBuildFailed(items, n + 1);
    } else {
      assert items[..n] == items;
    }
  }

  lemma {:induction false} DictBuildTopOwn(items: seq<Record>)
    ensures DictBuild(items).Some? ==> forall k :: k in DictBuild(items).value.nodes ==> k !in InheritedNames
    decreases |items|
  {
    if items != [] {
      DictBuildTopOwn(items[..|items| - 1]);
    }
  }

  lemma DictInsertInheritedHead(l: Level, path: seq<string>)
    requires |path| >= 2 && path[0] !in l.nodes && path[0] in InheritedNames
    ensures DictInsert(l, path) == None
  {
  }

  /** One record whose model (or the placeholder in its place) is an
      inherited name makes the plain-object count throw, however ordinary the
      others are. */
  lemma {:induction false} DictBuildInheritedModel(items: seq<Record>, i: nat)
    requires i < |items| && PathOf(items[i])[0] in InheritedNames
    ensures DictBuild(items) == None
  {
    var pre := items[..i + 1];
    assert pre[..i] == items[..i];
    assert pre[i] == items[i];
    DictBuildTopOwn(items[..i]);
    var path := PathOf(items[i]);
    if DictBuild(items[..i]).Some? {
      var l := DictBuild(items[..i]).value;
      assert path[0] !in l.nodes;
      DictInsertInheritedHead(l, path);
    }
    assert DictBuild(pre) == None;
    DictBuildFailed(items, i + 1);
  }

  /** The model has a node, counted at least once, for every prefix of every
      record's path. */
  lemma BuildHasPath(items: seq<Record>, i: nat, n: nat)
    requires i < |items| && 1 <= n <= |PathOf(items[i])|
    ensures CountAt(Build(items), PathOf(items[i])[..n]) >= 1
  {
    var p := PathOf(items[i])[..n];
    BuildCount(items, p);
    assert IsPrefix(p, PathOf(items[i]));
  }

  /** `(a, b) => b.count - a.count` on the entries of a dictionary. */
  function CountIn(l: Level): string -> int {
    k => if k in l.nodes then l.nodes[k].count else 0
  }

  function ByCountIn(l: Level): (string, string) -> bool {
    (a, b) => CountIn(l)(a) > CountIn(l)(b)
  }

  /** `Object.entries(level).sort(byCountDesc)`: the keys in listing order,
      then by count, largest first. */
  function Listing(l: Level): seq<string> {
    SortBy(OwnKeysOrder(l.keys), ByCountIn(l))
  }

  /** The listing names every node of a well-formed dictionary once, sorted
      by count. */
  lemma ListingFacts(l: Level)
    requires WellFormed(l)
    ensures NoDup(Listing(l)) && multiset(Listing(l)) == multiset(l.keys)
    ensures Sorted(Listing(l), ByCountIn(l))
    ensures forall i :: 0 <= i < |Listing(l)| ==> Listing(l)[i] in l.nodes
  {
    OwnKeysOrderFacts(l.keys);
    assert StrictWeakOrder(ByCountIn(l));
    SortBySorted(OwnKeysOrder(l.keys), ByCountIn(l));
    NoDupPermutation(l.keys, Listing(l));
    forall i | 0 <= i < |Listing(l)| ensures Listing(l)[i] in l.nodes {
      assert Listing(l)[i] in multiset(Listing(l));
      assert Listing(l)[i] in SetOf(l.keys);
    }
  }

  /** The captions of the levels. */
  const LevelLabels: seq<string> := ["MODELO", "FUNCION", "CODIGO DE FALLA REPARACION",
    "CAUSA DE REPARACION", "ACCION CORRECTIVA", "ORIGEN", "POSICION", "COMENTARIO"]

  function LevelLabel(level: nat): string {
    if level < |LevelLabels| then LevelLabels[level] else "DETALLE"
  }

  datatype Chevron = NoChevron | Right | Down

  /** A rendered node: its id, caption, key and count, its indentation
      `level * 20 + 8` pixels, its chevron, and bold type at the top level. */
  datatype Row = Row(id: string, caption: string, key: string, count: nat,
                     paddingLeft: nat, chevron: Chevron, bold: bool)

  /** `Object.keys(node.children || {}).length > 0` */
  predicate HasChildren(e: Entry) {
    e.children.nodes != map[]
  }

  /** `renderNode` over the keys `order[j..]` of `l`, whose ids start with
      `path`: each node's row, then its children's rows, listed and sorted
      the same way under the path `nodeId + "/"`, when it has children and
      is expanded. */
  function Rows(l: Level, order: seq<string>, j: nat, level: nat, path: string, expanded: set<string>): seq<Row>
    decreases l, |order| - j
  {
    if j >= |order| || order[j] !in l.nodes then []
    else
      var k := order[j];
      var e := l.nodes[k];
      var id := path + k;
      var open := HasChildren(e) && id in expanded;
      [Row(id, LevelLabel(level), k, e.count, level * 20 + 8,
           if !HasChildren(e) then NoChevron else if open then Down else Right, level == 0)]
      + (if open then Rows(e.children, Listing(e.children), 0, level + 1, id + "/", expanded) else [])
      + Rows(l, order, j + 1, level, path, expanded)
  }

  /** With nothing expanded only the listed nodes are shown, one row each,
      in listing order. */
  lemma {:induction false} RowsCollapsed(l: Level, order: seq<string>, j: nat, level: nat, path: string)
    requires j <= |order|
    requires forall i :: 0 <= i < |order| ==> order[i] in l.nodes
    ensures |Rows(l, order, j, level, path, {})| == |order| - j
    ensures forall i :: 0 <= i < |order| - j ==>
      Rows(l, order, j, level, path, {})[i].id == path + order[j + i]
      && Rows(l, order, j, level, path, {})[i].count == l.nodes[order[j + i]].count
      && Rows(l, order, j, level, path, {})[i].bold == (level == 0)
    decreases |order| - j
  {
    if j < |order| {
      RowsCollapsed(l, order, j + 1, level, path);
      var rest := Rows(l, order, j + 1, level, path, {});
      var r := Rows(l, order, j, level, path, {});
      assert r[1..] == rest;
      forall i | 0 < i < |order| - j
        ensures r[i].id == path + order[j + i] && r[i].count == l.nodes[order[j + i]].count
        ensures r[i].bold == (level == 0)
      {
        assert r[i] == rest[i - 1];
      }
    }
  }

  /** With nothing expanded the view shows the models, each once, in bold,
      largest count first. */
  lemma RenderCollapsed(data: seq<Record>)
    ensures |Rows(Build(data), Listing(Build(data)), 0, 0, "", {})| == |Build(data).keys|
    ensures forall i :: 0 <= i < |Build(data).keys| ==> Rows(Build(data), Listing(Build(data)), 0, 0, "", {})[i].bold
  {
    var h := Build(data);
    BuildWellFormed(data);
    ListingFacts(h);
    RowsCollapsed(h, Listing(h), 0, 0, "");
    assert |Listing(h)| == |multiset(Listing(h))| == |h.keys|;
  }

  /** The component's state: the ids of the expanded nodes. */
  class PivotTreeViewState {
    var expandedNodes: set<string>

    constructor()
      ensures expandedNodes == {}
    {
      expandedNodes := {};
    }

    /** `toggleNode(nodeId)` */
    method ToggleNode(nodeId: string)
      modifies this
      ensures expandedNodes == SetToggle(old(expandedNodes), nodeId)
    {
      var newSet := expandedNodes;
      if nodeId in newSet {
        newSet := newSet - {nodeId};
      } else {
        newSet := newSet + {nodeId};
      }
      expandedNodes := newSet;
    }

    /** The rows drawn for `data`. */
    function Render(data: seq<Record>): seq<Row>
      reads this
    {
      var h := Build(data);
      Rows(h, Listing(h), 0, 0, "", expandedNodes)
    }
  }
}
