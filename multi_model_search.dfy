/** `MultiModelSearch`: a drop-down of checkboxes over the records' models,
    narrowed by a search term. The selection belongs to the parent; each
    handler's new selection, passed to `onChange`, is returned here. */
module MultiModelSearch {
  import opened Wrappers
  import opened Sequences
  import opened Strings
  import opened Sorting
  import opened Records
  import ModelSearch

  /** `filteredModels`: the available models, and with a term only those
      containing it regardless of case. */
  function FilteredModels(data: seq<Record>, term: string): seq<string> {
    if term == "" then DistinctModels(data)
    else Filter(DistinctModels(data), m => ModelSearch.Matches(term, m))
  }

  /** The list shown is sorted and without repeats; it holds exactly the
      non-empty models of the records that contain the term, and all of
      them when there is no term. */
  lemma FilteredModelsFacts(data: seq<Record>, term: string)
    ensures term == "" ==> FilteredModels(data, term) == DistinctModels(data)
    ensures IsSubsequence(FilteredModels(data, term), DistinctModels(data))
    ensures Sorted(FilteredModels(data, term), Less) && NoDup(FilteredModels(data, term))
    ensures forall m :: m in FilteredModels(data, term) <==>
      && m != "" && (exists i :: 0 <= i < |data| && ModelOf(data[i]) == Some(m))
      && (term != "" ==> ModelSearch.Matches(term, m))
  {
    var all := DistinctModels(data);
    var p := m => ModelSearch.Matches(term, m);
    DistinctModelsFacts(data);
    FilterIsSubsequence(all, p);
    FilterSorted(all, p, Less);
    FilterNoDup(all, p);
    FilterMembers(all, p);
    if term == "" {
      forall m | m in all ensures p(m) {
        IncludesEmpty(Lower(m));
      }
      FilterAll(all, p);
    }
  }

  /** `handleModelToggle(model)`: a selected model is dropped, every copy of
      it, the rest keeping their order and their number of copies; another
      one is appended. */
  function HandleModelToggle(selected: seq<string>, model: string): (r: seq<string>)
    ensures model in selected ==>
      model !in r && IsSubsequence(r, selected) && forall m :: m != model ==> (m in r <==> m in selected)
    ensures model in selected ==> multiset(r) == multiset(selected)[model := 0]
    ensures model !in selected ==> r == selected + [model]
  {
    RemoveAllMultiset(selected, model);
    ListToggle(selected, model)
  }

  /** `handleRemoveModel(model)`: every copy of the model is dropped, the
      rest keep their order and their number of copies. */
  function HandleRemoveModel(selected: seq<string>, model: string): (r: seq<string>)
    ensures model !in r && IsSubsequence(r, selected)
    ensures forall m :: m != model ==> (m in r <==> m in selected)
    ensures multiset(r) == multiset(selected)[model := 0]
    ensures model !in selected ==> r == selected
  {
    RemoveAllMultiset(selected, model);
    if model in selected then RemoveAll(selected, model)
    else RemoveAllAbsent(selected, model); RemoveAll(selected, model)
  }

  /** `handleClearAll()` */
  function HandleClearAll(): seq<string> {
    []
  }

  /** The "select all" option: deselects everything when as many models are
      selected as are listed, and otherwise selects the listed ones. */
  function SelectAll(selected: seq<string>, filtered: seq<string>): seq<string> {
    if |selected| == |filtered| then HandleClearAll() else filtered
  }

  /** The "select all" checkbox is ticked. */
  predicate AllChecked(selected: seq<string>, filtered: seq<string>) {
    |selected| == |filtered| && |filtered| > 0
  }

  /** For a selection drawn from the listed models without repeats, equal
      counts mean every listed model is selected. */
  lemma CountTestMeansAll(selected: seq<string>, filtered: seq<string>)
    requires NoDup(selected) && NoDup(filtered)
    requires forall i :: 0 <= i < |selected| ==> selected[i] in filtered
    ensures |selected| == |filtered| <==> forall m :: m in filtered ==> m in selected
  {
    SetOfNoDup(selected);
    SetOfNoDup(filtered);
    if forall m :: m in filtered ==> m in selected {
      assert SetOf(selected) == SetOf(filtered);
    }
    if |selected| == |filtered| {
      SubsetSameSize(selected, filtered);
    }
  }

  /** For such a selection the option does what its label says: the box is
      ticked exactly when every listed model is selected (and some model is
      listed); choosing it then deselects everything, and otherwise selects
      exactly the listed models. */
  lemma SelectAllFacts(selected: seq<string>, filtered: seq<string>)
    requires NoDup(selected) && NoDup(filtered)
    requires forall i :: 0 <= i < |selected| ==> selected[i] in filtered
    ensures AllChecked(selected, filtered) <==> filtered != [] && forall m :: m in filtered ==> m in selected
    ensures (forall m :: m in filtered ==> m in selected) ==> SelectAll(selected, filtered) == []
    ensures !(forall m :: m in filtered ==> m in selected) ==> SelectAll(selected, filtered) == filtered
  {
    CountTestMeansAll(selected, filtered);
  }

  /** The count test alone decides: a selection of as many models as are
      listed, none of them listed, is cleared rather than replaced. */
  lemma SelectAllByCount()
    ensures SelectAll(["A"], ["B"]) == []
    ensures AllChecked(["A"], ["B"])
  {
  }

  /** The badge of `model`: `data.filter(item => item.MODELO === model).length`. */
  lemma BadgeCount(data: seq<Record>, model: string)
    ensures CountWithModel(data, model) == CountIf(data, r => ModelOf(r) == Some(model))
  {
    CountWithModelIsCountIf(data, model);
  }

  lemma {:induction false} CountWithModelIsCountIf(data: seq<Record>, model: string)
    ensures CountWithModel(data, model) == |Filter(data, r => ModelOf(r) == Some(model))|
    decreases |data|
  {
    if data != [] {
      CountWithModelIsCountIf(data[1..], model);
    }
  }

  /** A listed model's badge counts at least one record. */
  lemma BadgePositive(data: seq<Record>, term: string, model: string)
    requires model in FilteredModels(data, term)
    ensures CountWithModel(data, model) >= 1
  {
    FilteredModelsFacts(data, term);
    CountWithModelPositive(data, model);
  }
}
