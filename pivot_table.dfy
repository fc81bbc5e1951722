/** The collapsible tree view of `PivotTable`: the set of expanded node ids
    it keeps as state, the buttons that change it, and the rows it shows for
    a pivot tree. */
module PivotTable {
  import opened Sequences
  import opened Strings
  import opened Records
  import opened Grouping
  import opened PivotTree

  /** `node.children && node.children.length > 0` */
  predicate HasChildren(n: PivotNode) {
    n.children.ChildNodes? && |n.children.nodes| > 0
  }

  /** The nodes of `cl` from position `i` on that are still to be visited. */
  function Remaining(cl: ChildList, i: nat): nat {
    if cl.ChildNodes? && i < |cl.nodes| then |cl.nodes| - i else 0
  }

  /** The expanded ids that lie below `id`: those starting with `id + "|"`. */
  function Descendants(s: set<string>, id: string): set<string> {
    set x | x in s && StartsWith(x, id + "|")
  }

  /** The state after `toggleExpand(id)`: an expanded node is collapsed
      together with everything expanded below it; any other is expanded. */
  function Toggled(s: set<string>, id: string): set<string> {
    if id in s then s - Descendants(s, id) - {id} else s + {id}
  }

  /** Expanding adds exactly the node. Collapsing removes the node and every
      id below it, keeps every other id (`"A2"` survives collapsing `"A"`),
      and adds nothing. */
  lemma ToggledFacts(s: set<string>, id: string)
    ensures id !in s ==> forall x :: x in Toggled(s, id) <==> x in s || x == id
    ensures id in s ==> id !in Toggled(s, id) && Toggled(s, id) <= s
    ensures id in s ==> forall x :: x in Toggled(s, id) ==> !StartsWith(x, id + "|")
    ensures id in s ==> forall x :: x in s && x != id && !StartsWith(x, id + "|") ==> x in Toggled(s, id)
  {
  }

  /** Toggling twice expands the node again with its subtree collapsed, or
      gives back the original state when nothing below the node was
      expanded. */
  lemma ToggledTwice(s: set<string>, id: string)
    ensures id in s ==> Toggled(Toggled(s, id), id) == Toggled(s, id) + {id}
    ensures id !in s && Descendants(s, id) == {} ==> Toggled(Toggled(s, id), id) == s
  {
    if id !in s {
      var t := s + {id};
      assert !StartsWith(id, id + "|");
      assert Descendants(t, id) == Descendants(s, id);
    }
  }

  /** The ids of every node of the forest `cl` (from position `i`). */
  function AllIds(cl: ChildList, i: nat): set<string>
    decreases cl, Remaining(cl, i)
  {
    if cl.NullChildren? || i >= |cl.nodes| then {}
    else {cl.nodes[i].id} + AllIds(cl.nodes[i].children, 0) + AllIds(cl, i + 1)
  }

  /** The ids `collectIds` gathers: the nodes that have children. */
  function ExpandableIds(cl: ChildList, i: nat): (r: set<string>)
    ensures r <= AllIds(cl, i)
    decreases cl, Remaining(cl, i)
  {
    if cl.NullChildren? || i >= |cl.nodes| then {}
    else
      var n := cl.nodes[i];
      (if HasChildren(n) then {n.id} + ExpandableIds(n.children, 0) else {}) + ExpandableIds(cl, i + 1)
  }

  /** The number of nodes of the forest. */
  function Size(cl: ChildList, i: nat): nat
    decreases cl, Remaining(cl, i)
  {
    if cl.NullChildren? || i >= |cl.nodes| then 0
    else 1 + Size(cl.nodes[i].children, 0) + Size(cl, i + 1)
  }

  datatype Chevron = NoChevron | Right | Down

  /** One rendered node: its figures, its indentation `depth * 20 + 12`
      pixels, the chevron, and whether a click toggles it. */
  datatype Row = Row(id: string, field: string, key: string, count: nat, uniqueCount: nat,
                     level: nat, paddingLeft: nat, chevron: Chevron, clickable: bool)

  function RowOf(n: PivotNode, depth: nat, expanded: set<string>): (r: Row)
    ensures r.clickable <==> HasChildren(n)
    ensures r.chevron == Down <==> HasChildren(n) && n.id in expanded
    ensures r.chevron == NoChevron <==> !HasChildren(n)
  {
    Row(n.id, n.field, n.key, n.count, n.uniqueCount, n.level, depth * 20 + 12,
        if !HasChildren(n) then NoChevron else if n.id in expanded then Down else Right,
        HasChildren(n))
  }

  /** `renderNode` over the forest: each node's row, followed by its
      children's rows when it has children and is expanded. */
  function Rows(cl: ChildList, i: nat, depth: nat, expanded: set<string>): seq<Row>
    decreases cl, Remaining(cl, i)
  {
    if cl.NullChildren? || i >= |cl.nodes| then []
    else
      var n := cl.nodes[i];
      [RowOf(n, depth, expanded)]
      + (if HasChildren(n) && n.id in expanded then Rows(n.children, 0, depth + 1, expanded) else [])
      + Rows(cl, i + 1, depth, expanded)
  }

  /** Every node of the given level is shown, and nothing beyond the whole
      forest. */
  lemma {:induction false} RowsBounds(cl: ChildList, i: nat, depth: nat, expanded: set<string>)
    ensures Remaining(cl, i) <= |Rows(cl, i, depth, expanded)| <= Size(cl, i)
    decreases cl, Remaining(cl, i)
  {
    if cl.ChildNodes? && i < |cl.nodes| {
      RowsBounds(cl.nodes[i].children, 0, depth + 1, expanded);
      RowsBounds(cl, i + 1, depth, expanded);
    }
  }

  /** With every node that has children expanded, every node is shown. */
  lemma {:induction false} RowsAllExpanded(cl: ChildList, i: nat, depth: nat, expanded: set<string>)
    requires ExpandableIds(cl, i) <= expanded
    ensures |Rows(cl, i, depth, expanded)| == Size(cl, i)
    decreases cl, Remaining(cl, i)
  {
    if cl.ChildNodes? && i < |cl.nodes| {
      var n := cl.nodes[i];
      RowsAllExpanded(cl, i + 1, depth, expanded);
      if HasChildren(n) {
        RowsAllExpanded(n.children, 0, depth + 1, expanded);
      } else {
        assert Size(n.children, 0) == 0;
      }
    }
  }

  /** With nothing expanded only the given level is shown, one row per node
      in order. */
  lemma {:induction false} RowsCollapsed(cl: ChildList, i: nat, depth: nat)
    requires cl.ChildNodes? && i <= |cl.nodes|
    ensures Rows(cl, i, depth, {}) == MapSeq(cl.nodes[i..], n => RowOf(n, depth, {}))
    decreases |cl.nodes| - i
  {
    if i < |cl.nodes| {
      RowsCollapsed(cl, i + 1, depth);
      assert cl.nodes[i..][1..] == cl.nodes[i + 1..];
    }
  }

  /** Every node of the forest extends the path of its parent by its own
      key, and its id is that path joined with `|`. */
  ghost predicate Named(cl: ChildList, path: seq<string>)
    decreases cl
  {
    cl.ChildNodes? ==> forall j :: 0 <= j < |cl.nodes| ==>
      cl.nodes[j].path == path + [cl.nodes[j].key]
      && cl.nodes[j].id == Join(cl.nodes[j].path, "|")
      && Named(cl.nodes[j].children, cl.nodes[j].path)
  }

  /** The trees the pivot hooks build are named by their paths. */
  lemma {:induction false} BuildTreeNamed(policy: Policy, h: seq<string>, items: seq<Record>, level: nat, path: seq<string>)
    ensures Named(ChildNodes(BuildTree(policy, h, items, level, path)), path)
    decreases |h| - level
  {
    if level < |h| {
      var nodes := BuildTree(policy, h, items, level, path);
      BuildTreeNodes(policy, h, items, level, path);
      forall j | 0 <= j < |nodes|
        ensures nodes[j].path == path + [nodes[j].key] && nodes[j].id == Join(nodes[j].path, "|")
        ensures Named(nodes[j].children, nodes[j].path)
      {
        var c := nodes[j];
        assert c in nodes;
        assert NodeOk(policy, h, items, level, path, c);
        if level < |h| - 1 {
          BuildTreeNamed(policy, h, Filter(items, HasKey(FieldKey(h[level]), c.key)), level + 1, c.path);
        }
      }
    }
  }

  /** Below a named path every id starts with the path's id and `|`. */
  lemma {:induction false} NamedIdsBelow(cl: ChildList, i: nat, path: seq<string>)
    requires path != [] && Named(cl, path)
    ensures forall x :: x in AllIds(cl, i) ==> StartsWith(x, Join(path, "|") + "|")
    decreases cl, Remaining(cl, i)
  {
    if cl.ChildNodes? && i < |cl.nodes| {
      var c := cl.nodes[i];
      var prefix := Join(path, "|") + "|";
      JoinSnoc(path, c.key, "|");
      assert c.id == prefix + c.key;
      NamedIdsBelow(c.children, 0, c.path);
      forall x | x in AllIds(c.children, 0) ensures StartsWith(x, prefix) {
        StartsWithTransitive(x, c.id + "|", prefix);
      }
      NamedIdsBelow(cl, i + 1, path);
    }
  }

  /** Collapsing a node of a pivot tree leaves nothing of its subtree
      expanded, and nothing outside the subtree is collapsed with it unless its
      own id starts with the node's id and `|`. */
  lemma CollapseClosesSubtree(policy: Policy, h: seq<string>, items: seq<Record>, level: nat,
                              path: seq<string>, n: PivotNode, expanded: set<string>)
    requires level < |h|
    requires n in BuildTree(policy, h, items, level, path) && n.id in expanded
    ensures n.id !in Toggled(expanded, n.id)
    ensures forall x :: x in AllIds(n.children, 0) ==> x !in Toggled(expanded, n.id)
  {
    BuildTreeNamed(policy, h, items, level, path);
    var nodes := BuildTree(policy, h, items, level, path);
    var j :| 0 <= j < |nodes| && nodes[j] == n;
    NamedIdsBelow(n.children, 0, n.path);
    ToggledFacts(expanded, n.id);
  }

  /** What the component shows. */
  datatype View = Spinner | NoData | Table(rows: seq<Row>, rootCount: nat)

  /** The component's state: the ids of the expanded nodes. */
  class PivotTableState {
    var expandedNodes: set<string>

    constructor()
      ensures expandedNodes == {}
    {
      expandedNodes := {};
    }

    /** The spinner while loading, the empty message for no data, and the
        rows of the tree with the number of top-level groups otherwise. */
    function Render(data: seq<PivotNode>, loading: bool): (v: View)
      reads this
      ensures loading ==> v == Spinner
      ensures !loading && data == [] ==> v == NoData
      ensures v.Table? ==> v.rootCount == |data| && |data| <= |v.rows| <= Size(ChildNodes(data), 0)
    {
      RowsBounds(ChildNodes(data), 0, 0, expandedNodes);
      if loading then Spinner
      else if data == [] then NoData
      else Table(Rows(ChildNodes(data), 0, 0, expandedNodes), |data|)
    }

    /** `toggleExpand(nodeId)` */
    method ToggleExpand(nodeId: string)
      modifies this
      ensures expandedNodes == Toggled(old(expandedNodes), nodeId)
    {
      var s := expandedNodes;
      if nodeId in s {
        var toRemove := Descendants(s, nodeId);
        ghost var all := toRemove;
        while toRemove != {}
          invariant toRemove <= all
          invariant s == expandedNodes - (all - toRemove)
          decreases |toRemove|
        {
          var x :| x in toRemove;
          s := s - {x};
          toRemove := toRemove - {x};
        }
        s := s - {nodeId};
      } else {
        s := s + {nodeId};
      }
      expandedNodes := s;
    }

    /** "Contraer Todo" */
    method CollapseAll()
      modifies this
      ensures expandedNodes == {}
    {
      expandedNodes := {};
    }

    /** "Expandir Todo": every node with children is expanded. */
    method ExpandAll(data: seq<PivotNode>)
      modifies this
      ensures expandedNodes == ExpandableIds(ChildNodes(data), 0)
    {
      var allIds := CollectIds(ChildNodes(data), {});
      expandedNodes := allIds;
    }
  }

  /** `collectIds(nodes)`, adding to the ids gathered so far. */
  method CollectIds(cl: ChildList, acc: set<string>) returns (r: set<string>)
    ensures r == acc + ExpandableIds(cl, 0)
    decreases cl
  {
    r := acc;
    if cl.NullChildren? {
      return;
    }
    var i := 0;
    while i < |cl.nodes|
      invariant 0 <= i <= |cl.nodes|
      invariant r + ExpandableIds(cl, i) == acc + ExpandableIds(cl, 0)
    {
      var n := cl.nodes[i];
      if HasChildren(n) {
        r := r + {n.id};
        r := CollectIds(n.children, r);
      }
      i := i + 1;
    }
  }

  /** After "Expandir Todo" every node of the tree is shown; after
      "Contraer Todo" only the top-level groups are. */
  lemma ExpandAllShowsAll(data: seq<PivotNode>)
    ensures |Rows(ChildNodes(data), 0, 0, ExpandableIds(ChildNodes(data), 0))| == Size(ChildNodes(data), 0)
    ensures Rows(ChildNodes(data), 0, 0, {}) == MapSeq(data, n => RowOf(n, 0, {}))
  {
    RowsAllExpanded(ChildNodes(data), 0, 0, ExpandableIds(ChildNodes(data), 0));
    RowsCollapsed(ChildNodes(data), 0, 0);
    assert data[0..] == data;
  }
}
