/** `ModelSearch`: a text box suggesting at most ten models that contain the
    typed term, once the term has three characters. The chosen model is
    passed to the parent through `onChange`, returned here. */
module ModelSearch {
  import opened Sequences
  import opened Strings
  import opened Sorting
  import opened Records

  const MIN_TERM: nat := 3
  const MAX_SUGGESTIONS: nat := 10

  /** `model.toLowerCase().includes(searchTerm.toLowerCase())` */
  predicate Matches(term: string, model: string) {
    Includes(Lower(model), Lower(term))
  }

  /** The suggestion effect's list for `term` over the sorted `models`:
      nothing below three characters, else the first ten matches. */
  function Suggestions(models: seq<string>, term: string): seq<string> {
    if |term| < MIN_TERM then []
    else
      var hits := Filter(models, m => Matches(term, m));
      if |hits| <= MAX_SUGGESTIONS then hits else hits[..MAX_SUGGESTIONS]
  }

  /** A short term suggests nothing. Otherwise the suggestions are the
      first ten matching models (all of them when there are at most ten),
      each a match of the list, in the list's order and so sorted and
      without repeats when the list is. On a sorted list no match that sorts
      before a suggestion is left out. */
  lemma SuggestionsFacts(models: seq<string>, term: string)
    ensures |term| < MIN_TERM ==> Suggestions(models, term) == []
    ensures |Suggestions(models, term)| <= MAX_SUGGESTIONS
    ensures forall m :: m in Suggestions(models, term) ==> m in models && Matches(term, m)
    ensures |term| >= MIN_TERM ==>
      |Suggestions(models, term)| == Min(CountIf(models, m => Matches(term, m)), MAX_SUGGESTIONS)
    ensures |term| >= MIN_TERM && CountIf(models, m => Matches(term, m)) <= MAX_SUGGESTIONS ==>
      forall m :: m in models && Matches(term, m) ==> m in Suggestions(models, term)
    ensures |term| >= MIN_TERM ==>
      Suggestions(models, term) ==
        Filter(models, m => Matches(term, m))[..Min(CountIf(models, m => Matches(term, m)), MAX_SUGGESTIONS)]
    ensures Sorted(models, Less) ==> Sorted(Suggestions(models, term), Less)
    ensures Sorted(models, Less) && |term| >= MIN_TERM ==>
      forall m, s :: m in models && Matches(term, m) && s in Suggestions(models, term) && Less(m, s) ==>
        m in Suggestions(models, term)
    ensures NoDup(models) ==> NoDup(Suggestions(models, term))
  {
    var p := m => Matches(term, m);
    var hits := Filter(models, p);
    FilterMembers(models, p);
    if |term| >= MIN_TERM {
      assert Suggestions(models, term) == hits[..Min(|hits|, MAX_SUGGESTIONS)];
      PrefixMembers(hits, Min(|hits|, MAX_SUGGESTIONS));
    }
    if Sorted(models, Less) {
      FilterSorted(models, p, Less);
      PrefixSorted(hits, Min(|hits|, MAX_SUGGESTIONS));
      if |term| >= MIN_TERM {
        SortedPrefixFirst(hits, Min(|hits|, MAX_SUGGESTIONS));
      }
    }
    if NoDup(models) {
      FilterNoDup(models, p);
    }
  }

  /** The elements of a prefix are elements of the list. */
  lemma PrefixMembers(xs: seq<string>, n: nat)
    requires n <= |xs|
    ensures forall x :: x in xs[..n] ==> x in xs
  {
    forall x | x in xs[..n] ensures x in xs {
      var k :| 0 <= k < n && xs[..n][k] == x;
      assert xs[k] == x;
    }
  }

  /** A prefix of a sorted list is sorted. */
  lemma PrefixSorted(xs: seq<string>, n: nat)
    requires n <= |xs| && Sorted(xs, Less)
    ensures Sorted(xs[..n], Less)
  {
  }

  /** In a sorted list, whatever sorts before an element of a prefix is in
      the prefix. */
  lemma SortedPrefixFirst(xs: seq<string>, n: nat)
    requires n <= |xs| && Sorted(xs, Less)
    ensures forall m, s :: m in xs && s in xs[..n] && Less(m, s) ==> m in xs[..n]
  {
    forall m, s | m in xs && s in xs[..n] && Less(m, s) ensures m in xs[..n] {
      var j :| 0 <= j < n && xs[..n][j] == s;
      var k :| 0 <= k < |xs| && xs[k] == m;
      assert xs[j] == s;
      assert k <= j;
      assert xs[..n][k] == m;
    }
  }

  function Min(a: nat, b: nat): nat {
    if a <= b then a else b
  }

  /** A model, typed as the search term, matches itself. */
  lemma MatchesItself(model: string)
    ensures Matches(model, model)
  {
    assert StartsWith(Lower(model), Lower(model));
  }

  /** The value effect's term: the parent's value, except that the "all
      models" choice and an empty value show an empty box. */
  function TermForValue(value: string): string {
    if value != "" && value != AllModels then value else ""
  }

  /** The component's state. */
  class ModelSearchState {
    var allModels: seq<string>
    var searchTerm: string
    var suggestions: seq<string>
    var isOpen: bool

    /** The list is open only with something to show. */
    predicate Valid()
      reads this
    {
      isOpen ==> suggestions != []
    }

    /** A fresh component over `data`: `allModels` is the sorted list of
        the records' distinct non-empty models. */
    constructor (data: seq<Record>)
      ensures Valid()
      ensures allModels == DistinctModels(data)
      ensures searchTerm == "" && suggestions == [] && !isOpen
    {
      allModels := DistinctModels(data);
      searchTerm := "";
      suggestions := [];
      isOpen := false;
    }

    /** The effect on `value`: the term follows the parent's value. */
    method SyncValue(value: string)
      modifies this
      ensures searchTerm == TermForValue(value)
      ensures allModels == old(allModels) && suggestions == old(suggestions) && isOpen == old(isOpen)
    {
      if value != "" && value != AllModels {
        searchTerm := value;
      } else {
        searchTerm := "";
      }
    }

    /** Typing in the box. */
    method SetSearchTerm(term: string)
      modifies this
      ensures searchTerm == term
      ensures allModels == old(allModels) && suggestions == old(suggestions) && isOpen == old(isOpen)
    {
      searchTerm := term;
    }

    /** The effect on `searchTerm`: recomputes the suggestions, and opens
        the list exactly when there are any. */
    method RefreshSuggestions()
      modifies this
      ensures Valid()
      ensures suggestions == Suggestions(allModels, searchTerm)
      ensures isOpen <==> suggestions != []
      ensures allModels == old(allModels) && searchTerm == old(searchTerm)
    {
      suggestions := Suggestions(allModels, searchTerm);
      isOpen := |suggestions| > 0;
    }

    /** `handleSelect(model)` followed by the effect on `searchTerm`, which
        runs again because the term changed to the chosen model: the list
        is open again whenever the model matches anything. When the term
        already was the model the effect does not run and the list stays
        closed. */
    method HandleSelectAsWritten(model: string) returns (emitted: string)
      modifies this
      ensures Valid()
      ensures emitted == model && searchTerm == model
      ensures old(searchTerm) != model ==>
        suggestions == Suggestions(allModels, model) && (isOpen <==> suggestions != [])
      ensures old(searchTerm) == model ==> !isOpen && suggestions == old(suggestions)
      ensures allModels == old(allModels)
    {
      var before := searchTerm;
      emitted := model;
      searchTerm := model;
      isOpen := false;
      if before != model {
        RefreshSuggestions();
      }
    }

    /** `handleSelect(model)` as intended: emits the model, shows it in the
        box, and leaves the list closed. */
    method HandleSelect(model: string) returns (emitted: string)
      modifies this
      ensures Valid()
      ensures emitted == model && searchTerm == model && !isOpen
      ensures allModels == old(allModels) && suggestions == old(suggestions)
    {
      emitted := model;
      searchTerm := model;
      isOpen := false;
    }

    /** `handleClear()`: emits the "all models" choice, empties the box and
        closes the list. */
    method HandleClear() returns (emitted: string)
      modifies this
      ensures Valid()
      ensures emitted == AllModels && searchTerm == "" && !isOpen
      ensures allModels == old(allModels) && suggestions == old(suggestions)
    {
      emitted := AllModels;
      searchTerm := "";
      isOpen := false;
    }
  }

  /** As written, choosing any suggested model of three or more characters
      that differs from the typed term leaves the list open: the model
      matches itself, so the effect finds a suggestion. */
  lemma SelectReopens(models: seq<string>, model: string)
    requires model in models && |model| >= MIN_TERM
    ensures Suggestions(models, model) != []
  {
    MatchesItself(model);
    SuggestionsFacts(models, model);
    var p := m => Matches(model, m);
    FilterMembers(models, p);
    assert model in Filter(models, p);
  }
}
