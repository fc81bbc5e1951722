/** `usePivotData`: a two-level tree of the readings, one node per model in
    order of first appearance, holding one detail child per reading of that
    model with details; and the list of expanded node ids. */
module PivotData {
  import opened Sequences
  import opened Filters

  /** A child node: `detail-<model>-<details>`, named by the details. */
  datatype Detail = Detail(id: string, name: string)

  /** A model node: `model-<model>`, named by the model. */
  datatype ModelNode = ModelNode(id: string, name: string, children: seq<Detail>)

  function ModelId(m: string): string {
    "model-" + m
  }

  /** The child a reading with details adds to its model's node. */
  function DetailOf(x: Reading): Detail {
    Detail("detail-" + x.model + "-" + x.details, x.details)
  }

  predicate HasDetails(m: string, x: Reading) {
    x.model == m && x.details != ""
  }

  /** The models, each once, in order of first appearance. */
  function ModelsOf(data: seq<Reading>): seq<string> {
    Distinct(MapSeq(data, (x: Reading) => x.model))
  }

  /** The children of model `m`: one per reading of `m` with details, in the
      readings' order. */
  function DetailsOf(data: seq<Reading>, m: string): seq<Detail> {
    MapSeq(Filter(data, x => HasDetails(m, x)), DetailOf)
  }

  /** The node of model `m`. */
  function NodeOf(data: seq<Reading>, m: string): ModelNode {
    ModelNode(ModelId(m), m, DetailsOf(data, m))
  }

  /** The tree `pivotTree` describes: the node of each model, models in
      order of first appearance. */
  function PivotTree(data: seq<Reading>): seq<ModelNode> {
    MapSeq(ModelsOf(data), m => NodeOf(data, m))
  }

  /** No data, no tree. */
  lemma PivotTreeEmpty()
    ensures PivotTree([]) == []
  {
  }

  /** The nodes are named by the distinct models, in order of first
      appearance, and every model of the data has one. */
  lemma PivotTreeNames(data: seq<Reading>)
    ensures MapSeq(PivotTree(data), (n: ModelNode) => n.name) == ModelsOf(data)
    ensures forall m :: m in ModelsOf(data) <==> exists i :: 0 <= i < |data| && data[i].model == m
  {
    var ms := MapSeq(data, (x: Reading) => x.model);
    forall m ensures m in ModelsOf(data) <==> exists i :: 0 <= i < |data| && data[i].model == m {
      if m in ModelsOf(data) {
        var j :| 0 <= j < |ModelsOf(data)| && ModelsOf(data)[j] == m;
        var i :| 0 <= i < |ms| && ms[i] == m;
        assert data[i].model == m;
      }
      if exists i :: 0 <= i < |data| && data[i].model == m {
        var i :| 0 <= i < |data| && data[i].model == m;
        assert ms[i] == m;
      }
    }
  }

  /** Node ids are `model-<model>` and pairwise distinct. */
  lemma PivotTreeIds(data: seq<Reading>)
    ensures forall j :: 0 <= j < |PivotTree(data)| ==> PivotTree(data)[j].id == "model-" + PivotTree(data)[j].name
    ensures forall j, k :: 0 <= j < k < |PivotTree(data)| ==> PivotTree(data)[j].id != PivotTree(data)[k].id
  {
    var t := PivotTree(data);
    var ms := ModelsOf(data);
    forall j, k | 0 <= j < k < |t| ensures t[j].id != t[k].id {
      assert ms[j] != ms[k];
      assert t[j].id[6..] == ms[j];
      assert t[k].id[6..] == ms[k];
    }
  }

  /** A model's node has one child per reading of that model with details,
      so no more children than readings. */
  lemma PivotTreeChildren(data: seq<Reading>, j: nat)
    requires j < |PivotTree(data)|
    ensures |PivotTree(data)[j].children| == CountIf(data, x => HasDetails(PivotTree(data)[j].name, x))
    ensures |PivotTree(data)[j].children| <= |data|
  {
  }

  /** A model no reading has has no children. */
  lemma DetailsOfAbsent(data: seq<Reading>, m: string)
    requires m !in ModelsOf(data)
    ensures DetailsOf(data, m) == []
  {
    PivotTreeNames(data);
    FilterNone(data, x => HasDetails(m, x));
  }

  /** Adding a reading adds the node of a new model at the end, and one
      child at the end of its model's node when it has details. */
  lemma PivotTreeSnoc(data: seq<Reading>, x: Reading)
    ensures ModelsOf(data + [x]) ==
      if x.model in ModelsOf(data) then ModelsOf(data) else ModelsOf(data) + [x.model]
    ensures forall m ::
      DetailsOf(data + [x], m) == DetailsOf(data, m) + (if HasDetails(m, x) then [DetailOf(x)] else [])
  {
    ModelsSnoc(data, x);
    forall m ensures DetailsOf(data + [x], m) ==
      DetailsOf(data, m) + (if HasDetails(m, x) then [DetailOf(x)] else [])
    {
      DetailsSnoc(data, x, m);
    }
  }

  lemma ModelsSnoc(data: seq<Reading>, x: Reading)
    ensures ModelsOf(data + [x]) ==
      if x.model in ModelsOf(data) then ModelsOf(data) else ModelsOf(data) + [x.model]
  {
    var before := MapSeq(data, (x: Reading) => x.model);
    assert MapSeq(data + [x], (x: Reading) => x.model) == before + [x.model];
    assert (before + [x.model])[..|before|] == before;
  }

  lemma DetailsSnoc(data: seq<Reading>, x: Reading, m: string)
    ensures DetailsOf(data + [x], m) == DetailsOf(data, m) + (if HasDetails(m, x) then [DetailOf(x)] else [])
  {
    var p := y => HasDetails(m, y);
    FilterAppend(data, [x], p);
    assert Filter([x], p) == if p(x) then [x] else [];
    var kept := Filter(data, p);
    assert MapSeq(kept + Filter([x], p), DetailOf) == MapSeq(kept, DetailOf) + MapSeq(Filter([x], p), DetailOf);
  }

  /** The body of the loop of `pivotTree` for one reading: creates the
      model's node when the `modelMap` does not have it, then appends the
      reading's child when it has details. */
  method AddReading(tree: seq<ModelNode>, index: map<string, nat>, x: Reading)
    returns (tree': seq<ModelNode>, index': map<string, nat>)
    requires forall m :: m in index ==> index[m] < |tree| && tree[index[m]].name == m
    requires forall j :: 0 <= j < |tree| ==> tree[j].name in index && index[tree[j].name] == j
    ensures x.model in index ==> index' == index && |tree'| == |tree|
    ensures x.model !in index ==>
      && index' == index[x.model := |tree|] && |tree'| == |tree| + 1
      && tree'[|tree|] == ModelNode(ModelId(x.model), x.model, if x.details != "" then [DetailOf(x)] else [])
    ensures forall m :: m in index' ==> index'[m] < |tree'| && tree'[index'[m]].name == m
    ensures forall j :: 0 <= j < |tree'| ==> tree'[j].name in index' && index'[tree'[j].name] == j
    ensures forall j :: 0 <= j < |tree| ==> tree'[j].id == tree[j].id && tree'[j].name == tree[j].name
    ensures forall j :: 0 <= j < |tree| ==>
      tree'[j].children == tree[j].children + (if HasDetails(tree[j].name, x) then [DetailOf(x)] else [])
  {
    tree', index' := tree, index;
    if x.model !in index' {
      index' := index'[x.model := |tree'|];
      tree' := tree' + [ModelNode(ModelId(x.model), x.model, [])];
    }
    var k := index'[x.model];
    if x.details != "" {
      tree' := tree'[k := tree'[k].(children := tree'[k].children + [DetailOf(x)])];
    }
  }

  /** One step of the loop: the tree of the readings so far, with the
      changes `AddReading` makes, is the tree of one more reading. */
  lemma AddReadingTree(data: seq<Reading>, x: Reading, before: seq<ModelNode>, after: seq<ModelNode>)
    requires before == PivotTree(data)
    requires x.model in ModelsOf(data) ==> |after| == |before|
    requires x.model !in ModelsOf(data) ==>
      |after| == |before| + 1
      && after[|before|] == ModelNode(ModelId(x.model), x.model, if x.details != "" then [DetailOf(x)] else [])
    requires forall j :: 0 <= j < |before| ==> after[j].id == before[j].id && after[j].name == before[j].name
    requires forall j :: 0 <= j < |before| ==>
      after[j].children == before[j].children + (if HasDetails(before[j].name, x) then [DetailOf(x)] else [])
    ensures after == PivotTree(data + [x])
  {
    ModelsSnoc(data, x);
    var ms := ModelsOf(data);
    var ms' := ModelsOf(data + [x]);
    assert |after| == |ms'|;
    forall j | 0 <= j < |after| ensures after[j] == NodeOf(data + [x], ms'[j]) {
      if j < |before| {
        assert ms'[j] == ms[j] && before[j] == NodeOf(data, ms[j]);
        OldNodeStep(data, x, before[j], after[j], ms[j]);
      } else {
        DetailsOfAbsent(data, x.model);
        DetailsSnoc(data, x, x.model);
        assert ms'[j] == x.model;
      }
    }
  }

  /** An existing node, with the reading's child appended when it has one,
      is the node of that model over one more reading. */
  lemma OldNodeStep(data: seq<Reading>, x: Reading, node: ModelNode, node': ModelNode, m: string)
    requires node == NodeOf(data, m)
    requires node'.id == node.id && node'.name == node.name
    requires node'.children == node.children + (if HasDetails(m, x) then [DetailOf(x)] else [])
    ensures node' == NodeOf(data + [x], m)
  {
    DetailsSnoc(data, x, m);
  }

  /** `pivotTree`: the loop over the readings with the `modelMap` from a
      model to its node, here an index into the tree. */
  method BuildPivotTree(data: seq<Reading>) returns (tree: seq<ModelNode>)
    ensures tree == PivotTree(data)
  {
    tree := [];
    if |data| == 0 {
      return;
    }
    var index: map<string, nat> := map[];
    var i := 0;
    while i < |data|
      invariant 0 <= i <= |data|
      invariant tree == PivotTree(data[..i])
      invariant forall m :: m in index <==> m in ModelsOf(data[..i])
      invariant forall m :: m in index ==> index[m] < |tree| && tree[index[m]].name == m
      invariant forall j :: 0 <= j < |tree| ==> tree[j].name in index && index[tree[j].name] == j
    {
      var x := data[i];
      TakeSnoc(data, i);
      ModelsSnoc(data[..i], x);
      var before := tree;
      tree, index := AddReading(tree, index, x);
      AddReadingTree(data[..i], x, before, tree);
      i := i + 1;
    }
    assert data[..i] == data;
  }

  /** The hook's state: the ids of the expanded nodes. */
  class PivotDataState {
    var expandedNodes: seq<string>

    constructor ()
      ensures expandedNodes == []
    {
      expandedNodes := [];
    }

    /** `toggleNode(id)`: drops every occurrence of an expanded id, and
        appends one that is not expanded. */
    method ToggleNode(id: string)
      modifies this
      ensures expandedNodes == ListToggle(old(expandedNodes), id)
    {
      expandedNodes := if id in expandedNodes then RemoveAll(expandedNodes, id) else expandedNodes + [id];
    }
  }
}
