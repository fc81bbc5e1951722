/** `useFilters`: the sample of dated DPHU readings the hook filters, the
    options offered for its selectors, the filter values chosen, and the
    readings they keep. */
module Filters {
  import opened Wrappers
  import opened Sequences
  import opened Strings
  import opened Records

  /** A sample reading: its ISO `YYYY-MM-DD` date, its model and its defect
      details. The DPHU figure is not modelled. */
  datatype Reading = Reading(date: string, model: string, details: string)

  /** The hook's fixed sample data. */
  const MockData: seq<Reading> := [
    Reading("2025-01-01", "Modelo A", "Defecto 1"),
    Reading("2025-01-02", "Modelo B", "Defecto 1"),
    Reading("2025-01-03", "Modelo A", "Defecto 2")
  ]

  const START_DATE := "startDate"
  const END_DATE := "endDate"
  const SELECTED_MODEL := "selectedModel"

  /** The initial filter object, where every filter is unset. */
  const NoFilters: Record := map[START_DATE := "", END_DATE := "", SELECTED_MODEL := ""]

  /** `filters[name]`, where `undefined` reads as unset like `""`. */
  function Setting(filters: Record, name: string): string {
    if name in filters then filters[name] else ""
  }

  /** The date test of `handleFilterApply`: on or after the start date when
      one is set, and on or before the end date when one is set. ISO dates
      order as their strings do. */
  predicate InRange(filters: Record, x: Reading) {
    (Setting(filters, START_DATE) == "" || LessEq(Setting(filters, START_DATE), x.date))
    && (Setting(filters, END_DATE) == "" || LessEq(x.date, Setting(filters, END_DATE)))
  }

  /** The model test: no model selected, or exactly the selected one. */
  predicate ModelMatch(filters: Record, x: Reading) {
    Setting(filters, SELECTED_MODEL) == "" || x.model == Setting(filters, SELECTED_MODEL)
  }

  predicate Matches(filters: Record, x: Reading) {
    InRange(filters, x) && ModelMatch(filters, x)
  }

  /** `items.filter(...)` with the predicate of `handleFilterApply`. */
  function Apply(items: seq<Reading>, filters: Record): seq<Reading> {
    Filter(items, x => Matches(filters, x))
  }

  /** No filter is set. */
  predicate NoneSet(filters: Record) {
    Setting(filters, START_DATE) == "" && Setting(filters, END_DATE) == ""
    && Setting(filters, SELECTED_MODEL) == ""
  }

  /** The kept readings are, in their order, exactly the readings dated
      within the set bounds whose model is the selected one when a model is
      selected; with nothing set every reading is kept, and applying the
      filters again keeps them all. */
  lemma ApplyFacts(items: seq<Reading>, filters: Record)
    ensures IsSubsequence(Apply(items, filters), items)
    ensures forall x :: x in Apply(items, filters) <==>
      x in items
      && (Setting(filters, START_DATE) != "" ==> LessEq(Setting(filters, START_DATE), x.date))
      && (Setting(filters, END_DATE) != "" ==> LessEq(x.date, Setting(filters, END_DATE)))
      && (Setting(filters, SELECTED_MODEL) != "" ==> x.model == Setting(filters, SELECTED_MODEL))
    ensures NoneSet(filters) ==> Apply(items, filters) == items
    ensures Apply(Apply(items, filters), filters) == Apply(items, filters)
  {
    var p := x => Matches(filters, x);
    FilterIsSubsequence(items, p);
    FilterMembers(items, p);
    FilterAll(items, p);
    FilterIdempotent(items, p);
  }

  /** The dates of the readings. */
  function Dates(items: seq<Reading>): seq<string> {
    MapSeq(items, (x: Reading) => x.date)
  }

  /** `Math.min(...dates)`, on ISO dates. */
  function Earliest(ds: seq<string>): string
    requires ds != []
    decreases |ds|
  {
    if |ds| == 1 then ds[0]
    else
      var m := Earliest(ds[1..]);
      if LessEq(ds[0], m) then ds[0] else m
  }

  /** `Math.max(...dates)`, on ISO dates. */
  function Latest(ds: seq<string>): string
    requires ds != []
    decreases |ds|
  {
    if |ds| == 1 then ds[0]
    else
      var m := Latest(ds[1..]);
      if LessEq(m, ds[0]) then ds[0] else m
  }

  /** The earliest date is one of the dates and no date precedes it. */
  lemma {:induction false} EarliestFacts(ds: seq<string>)
    requires ds != []
    ensures Earliest(ds) in ds
    ensures forall i :: 0 <= i < |ds| ==> LessEq(Earliest(ds), ds[i])
    decreases |ds|
  {
    if |ds| == 1 {
      LessIrreflexive(ds[0]);
    } else {
      var m := Earliest(ds[1..]);
      EarliestFacts(ds[1..]);
      LessTrichotomy(ds[0], m);
      forall i | 0 <= i < |ds| ensures LessEq(Earliest(ds), ds[i]) {
        if i == 0 {
          LessIrreflexive(ds[0]);
          LessAsymmetric(ds[0], m);
        } else {
          assert ds[i] == ds[1..][i - 1];
          LessTransitive(ds[i], ds[0], m);
        }
      }
    }
  }

  /** The latest date is one of the dates and no date follows it. */
  lemma {:induction false} LatestFacts(ds: seq<string>)
    requires ds != []
    ensures Latest(ds) in ds
    ensures forall i :: 0 <= i < |ds| ==> LessEq(ds[i], Latest(ds))
    decreases |ds|
  {
    if |ds| == 1 {
      LessIrreflexive(ds[0]);
    } else {
      var m := Latest(ds[1..]);
      LatestFacts(ds[1..]);
      LessTrichotomy(ds[0], m);
      forall i | 0 <= i < |ds| ensures LessEq(ds[i], Latest(ds)) {
        if i == 0 {
          LessIrreflexive(ds[0]);
          LessAsymmetric(ds[0], m);
        } else {
          assert ds[i] == ds[1..][i - 1];
          LessTransitive(m, ds[0], ds[i]);
        }
      }
    }
  }

  /** `filterOptions`: the first and last date and the distinct models. */
  datatype FilterOptions = FilterOptions(minDate: string, maxDate: string, uniqueModels: seq<string>)

  /** `filterOptions` computed from `items`; `None` when there are no items,
      where `toISOString` of the date of `Math.min()` throws. */
  function Options(items: seq<Reading>): Option<FilterOptions> {
    if items == [] then None
    else Some(FilterOptions(Earliest(Dates(items)), Latest(Dates(items)),
                            Distinct(MapSeq(items, (x: Reading) => x.model))))
  }

  /** The options exist exactly for non-empty data; then the first and last
      dates are dates of readings bounding every reading's date, and the
      models are each model of the data once. */
  lemma OptionsFacts(items: seq<Reading>)
    ensures Options(items).None? <==> items == []
    ensures Options(items).Some? ==>
      var o := Options(items).value;
      && (exists i :: 0 <= i < |items| && items[i].date == o.minDate)
      && (exists i :: 0 <= i < |items| && items[i].date == o.maxDate)
      && (forall i :: 0 <= i < |items| ==> LessEq(o.minDate, items[i].date) && LessEq(items[i].date, o.maxDate))
      && NoDup(o.uniqueModels)
      && (forall m :: m in o.uniqueModels <==> exists i :: 0 <= i < |items| && items[i].model == m)
  {
    if items != [] {
      var ds := Dates(items);
      EarliestFacts(ds);
      LatestFacts(ds);
      var ms := MapSeq(items, (x: Reading) => x.model);
      forall m ensures m in Distinct(ms) <==> exists i :: 0 <= i < |items| && items[i].model == m {
        if m in Distinct(ms) {
          var k :| 0 <= k < |Distinct(ms)| && Distinct(ms)[k] == m;
          var j :| 0 <= j < |ms| && ms[j] == m;
          assert items[j].model == m;
        }
        if exists i :: 0 <= i < |items| && items[i].model == m {
          var i :| 0 <= i < |items| && items[i].model == m;
          assert ms[i] == m;
        }
      }
    }
  }

  /** The hook's state: the filter object and the readings shown. */
  class FiltersState {
    var filters: Record
    var filteredData: seq<Reading>

    constructor ()
      ensures filters == NoFilters && filteredData == MockData
    {
      filters := NoFilters;
      filteredData := MockData;
    }

    /** `handleFilterChange(name, value)`: sets the named filter and leaves
        the others and the shown readings as they were. */
    method HandleFilterChange(name: string, value: string)
      modifies this
      ensures filters == old(filters)[name := value]
      ensures forall other :: other != name ==> Setting(filters, other) == Setting(old(filters), other)
      ensures filteredData == old(filteredData)
    {
      filters := filters[name := value];
    }

    /** `handleFilterApply()`: shows the sample readings the current filters
        keep. */
    method HandleFilterApply()
      modifies this
      ensures filteredData == Apply(MockData, filters)
      ensures filters == old(filters)
    {
      filteredData := Apply(MockData, filters);
    }

    /** `clearFilters()`: unsets every filter and shows all readings. */
    method ClearFilters()
      modifies this
      ensures filters == NoFilters && filteredData == MockData
    {
      filters := NoFilters;
      filteredData := MockData;
    }
  }

  /** After `clearFilters` (and initially) the readings shown are what
      applying the filters would show. */
  lemma ClearedIsApplied()
    ensures Apply(MockData, NoFilters) == MockData
    ensures NoneSet(NoFilters)
  {
    ApplyFacts(MockData, NoFilters);
  }
}
