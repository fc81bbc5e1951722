/** `AdvancedPivotTable`: the records grouped by their eight descriptive
    fields, filtered by per-column texts, sorted by a column, and rendered
    with expandable detail rows. */
module AdvancedPivot {
  import opened Wrappers
  import opened Sequences
  import opened Strings
  import opened Sorting
  import opened JsObject
  import opened Records
  import opened Grouping
  import opened CompositeKey

  /** The grouping fields, in column order. */
  const Fields: seq<string> := [MODELO, FUNCION, CODIGO, CAUSA, ACCION, ORIGEN, POSICION, COMENTARIO]
  const FieldSet: set<string> := {MODELO, FUNCION, CODIGO, CAUSA, ACCION, ORIGEN, POSICION, COMENTARIO}
  /** The column that sorts by the number of records. */
  const COUNT := "count"
  const NoValue := "(Sin valor)"
  const Separator := "|"

  /** `safeValue(item, field)`: a missing field reads `(Sin valor)`, a
      present one its trimmed text (an empty text stays empty). */
  function SafeValue(r: Record, f: string): string {
    if f in r then Trim(r[f]) else NoValue
  }

  function SafeValues(r: Record): (vs: seq<string>)
    ensures |vs| == 8
  {
    [SafeValue(r, MODELO), SafeValue(r, FUNCION), SafeValue(r, CODIGO), SafeValue(r, CAUSA),
     SafeValue(r, ACCION), SafeValue(r, ORIGEN), SafeValue(r, POSICION), SafeValue(r, COMENTARIO)]
  }

  /** The eight values under their field names. */
  function Labelled(vs: seq<string>): (m: map<string, string>)
    requires |vs| == 8
    ensures m.Keys == FieldSet
    ensures forall i :: 0 <= i < 8 ==> m[Fields[i]] == vs[i]
  {
    map[MODELO := vs[0], FUNCION := vs[1], CODIGO := vs[2], CAUSA := vs[3],
        ACCION := vs[4], ORIGEN := vs[5], POSICION := vs[6], COMENTARIO := vs[7]]
  }

  /** Labelling loses nothing: different values give different rows. */
  lemma LabelledInjective(vs: seq<string>, ws: seq<string>)
    requires |vs| == 8 && |ws| == 8
    ensures Labelled(vs) == Labelled(ws) <==> vs == ws
  {
    if Labelled(vs) == Labelled(ws) {
      forall i | 0 <= i < 8 ensures vs[i] == ws[i] {
        assert Labelled(vs)[Fields[i]] == vs[i];
      }
    }
  }

  /** A group of the table: its eight values, `count` and `items`. */
  datatype GroupRow = GroupRow(fields: map<string, string>, count: nat, items: seq<Record>)

  /** The row of a group: the values of the record that created it, and the
      records themselves. */
  function RowOf(group: seq<Record>): GroupRow
    requires group != []
  {
    GroupRow(Labelled(SafeValues(group[0])), |group|, group)
  }

  /** `pivotData` as written: the joined values name the groups of a `{}`,
      listed with `Object.values`. */
  function PivotDataAsWritten(data: seq<Record>): seq<GroupRow> {
    var g := GroupBy(data, JoinKey(SafeValues, Separator));
    JoinKeyObject(data, SafeValues, Separator);
    KeysInMembers(g);
    RowsFor(g, OwnKeysOrder(g.keys), RowOf)
  }

  /** `pivotData` as intended: one group per combination of the eight values. */
  function PivotData(data: seq<Record>): seq<GroupRow> {
    var g := GroupBy(data, SafeValues);
    KeysInMembers(g);
    RowsFor(g, g.keys, RowOf)
  }

  /** Each row holds all the records showing its values, in input order, and
      counts them. */
  lemma PivotRowFacts(data: seq<Record>, i: nat)
    requires i < |PivotData(data)|
    ensures PivotData(data)[i].count == |PivotData(data)[i].items| >= 1
    ensures PivotData(data)[i].items
      == Filter(data, (r: Record) => Labelled(SafeValues(r)) == PivotData(data)[i].fields)
  {
    var g := GroupBy(data, SafeValues);
    KeysInMembers(g);
    RowsForAt(g, g.keys, RowOf, i);
    var k := g.keys[i];
    GroupByMembers(data, SafeValues, k);
    var group := g.members[k];
    assert HasKey(SafeValues, k)(group[0]);
    var p := (r: Record) => Labelled(SafeValues(r)) == Labelled(k);
    forall r ensures p(r) == HasKey(SafeValues, k)(r) {
      LabelledInjective(SafeValues(r), k);
    }
    FilterSame(data, p, HasKey(SafeValues, k));
  }

  /** Row `i` is labelled with the `i`-th combination of values. */
  lemma RowFields(data: seq<Record>, i: nat)
    requires i < |GroupBy(data, SafeValues).keys|
    ensures |PivotData(data)| == |GroupBy(data, SafeValues).keys|
    ensures |GroupBy(data, SafeValues).keys[i]| == 8
    ensures PivotData(data)[i].fields == Labelled(GroupBy(data, SafeValues).keys[i])
  {
    var g := GroupBy(data, SafeValues);
    KeysInMembers(g);
    RowsForAt(g, g.keys, RowOf, i);
    GroupByMembers(data, SafeValues, g.keys[i]);
    assert HasKey(SafeValues, g.keys[i])(g.members[g.keys[i]][0]);
  }

  /** The rows are the distinct value combinations of the records, in
      first-seen order, and their counts add up to the number of records. */
  lemma PivotRowsFacts(data: seq<Record>)
    ensures |PivotData(data)| == |Distinct(MapSeq(data, SafeValues))|
    ensures forall i :: 0 <= i < |PivotData(data)| ==>
      |Distinct(MapSeq(data, SafeValues))[i]| == 8
      && PivotData(data)[i].fields == Labelled(Distinct(MapSeq(data, SafeValues))[i])
    ensures SumBy(PivotData(data), (row: GroupRow) => row.count) == |data|
  {
    var g := GroupBy(data, SafeValues);
    var rows := PivotData(data);
    KeysInMembers(g);
    GroupByKeys(data, SafeValues);
    forall i | 0 <= i < |rows| ensures |g.keys[i]| == 8 && rows[i].fields == Labelled(g.keys[i]) {
      RowFields(data, i);
    }
    RowsForCounts(g, g.keys, RowOf, (row: GroupRow) => row.count);
    GroupBySizes(data, SafeValues);
  }

  /** When no value holds `|` the table as written has the intended rows. */
  lemma AsWrittenAgrees(data: seq<Record>)
    requires Clean(data, SafeValues, Separator, 8)
    ensures PivotDataAsWritten(data) == PivotData(data)
  {
    var g1 := GroupBy(data, SafeValues);
    var g2 := GroupBy(data, JoinKey(SafeValues, Separator));
    JoinKeyObject(data, SafeValues, Separator);
    JoinKeyRekey(data, SafeValues, Separator, 8);
    KeysInMembers(g1);
    forall i | 0 <= i < |g1.keys| ensures Join(g1.keys[i], Separator) in g2.members {
      assert MapSeq(g1.keys, (xs: seq<string>) => Join(xs, Separator))[i] == Join(g1.keys[i], Separator);
      assert Join(g1.keys[i], Separator) in SetOf(g2.keys);
    }
    RowsForRekey(g1, g2, g1.keys, (xs: seq<string>) => Join(xs, Separator), RowOf);
  }

  /** A record with only an origin and a position has no other field. */
  lemma OnlyOriginPosition(r: Record)
    requires r.Keys == {ORIGEN, POSICION}
    ensures SafeValue(r, MODELO) == NoValue && SafeValue(r, FUNCION) == NoValue
    ensures SafeValue(r, CODIGO) == NoValue && SafeValue(r, CAUSA) == NoValue
    ensures SafeValue(r, ACCION) == NoValue && SafeValue(r, COMENTARIO) == NoValue
  {
  }

  /** The values of a record that has only an origin and a position. */
  lemma OriginPositionValues(r: Record, o: string, p: string)
    requires r.Keys == {ORIGEN, POSICION} && r[ORIGEN] == o && r[POSICION] == p
    requires Trim(o) == o && Trim(p) == p
    ensures SafeValues(r) == [NoValue, NoValue, NoValue, NoValue, NoValue, o, p, NoValue]
  {
    OnlyOriginPosition(r);
  }

  lemma SampleTrims()
    ensures Trim("a|a") == "a|a" && Trim("a") == "a"
  {
    TrimOfTrimmed("a|a");
    TrimOfTrimmed("a");
  }

  /** The two records of `CollidingKeys`: different values, one joined key. */
  lemma CollidingValues(a: Record, b: Record)
    requires a.Keys == {ORIGEN, POSICION} && a[ORIGEN] == "a|a" && a[POSICION] == "a"
    requires b.Keys == {ORIGEN, POSICION} && b[ORIGEN] == "a" && b[POSICION] == "a|a"
    ensures SafeValues(a) != SafeValues(b)
    ensures JoinKey(SafeValues, Separator)(a) == JoinKey(SafeValues, Separator)(b)
  {
    SampleTrims();
    OriginPositionValues(a, "a|a", "a");
    OriginPositionValues(b, "a", "a|a");
    CollidingJoins([NoValue, NoValue, NoValue, NoValue, NoValue, "a|a", "a", NoValue],
                   [NoValue, NoValue, NoValue, NoValue, NoValue, "a", "a|a", NoValue]);
  }

  /** The two records' value lists differ but join to one key. */
  lemma CollidingJoins(va: seq<string>, vb: seq<string>)
    requires va == [NoValue, NoValue, NoValue, NoValue, NoValue, "a|a", "a", NoValue]
    requires vb == [NoValue, NoValue, NoValue, NoValue, NoValue, "a", "a|a", NoValue]
    ensures va != vb && Join(va, Separator) == Join(vb, Separator)
  {
    assert va[5] != vb[5];
    assert va[..5] == vb[..5];
    assert va[5..] == ["a|a", "a", NoValue];
    assert vb[5..] == ["a", "a|a", NoValue];
    CollidingTails(NoValue);
    JoinSuffix(va, vb, Separator, 5);
  }

  /** `a|a`, `a` and `a`, `a|a` join to the same key before any last piece. */
  lemma CollidingTails(c: string)
    ensures Join(["a|a", "a", c], Separator) == Join(["a", "a|a", c], Separator)
  {
    var xs := ["a|a", "a", c];
    var ys := ["a", "a|a", c];
    assert xs[1..] == ["a", c] && ys[1..] == ["a|a", c];
    assert ["a", c][1..] == [c] && ["a|a", c][1..] == [c];
    assert Join(["a", c], Separator) == "a" + Separator + c;
    assert Join(["a|a", c], Separator) == "a|a" + Separator + c;
    assert Join(xs, Separator) == "a|a" + Separator + Join(["a", c], Separator);
    assert Join(ys, Separator) == "a" + Separator + Join(["a|a", c], Separator);
    assert "a|a" + Separator + ("a" + Separator + c) == "a" + Separator + ("a|a" + Separator + c);
  }

  lemma SampleRecords(a: Record, b: Record)
    requires a == map[ORIGEN := "a|a", POSICION := "a"]
    requires b == map[ORIGEN := "a", POSICION := "a|a"]
    ensures a.Keys == {ORIGEN, POSICION} && a[ORIGEN] == "a|a" && a[POSICION] == "a"
    ensures b.Keys == {ORIGEN, POSICION} && b[ORIGEN] == "a" && b[POSICION] == "a|a"
  {
  }

  /** Two repairs that differ in origin and position, `"a|a"`/`"a"` and
      `"a"`/`"a|a"`, get the same joined key, so the table as written shows
      one group of two labelled with the first one's values; the intended
      grouping shows each. */
  lemma CollidingKeys()
    ensures var a := map[ORIGEN := "a|a", POSICION := "a"];
            var b := map[ORIGEN := "a", POSICION := "a|a"];
            |PivotDataAsWritten([a, b])| == 1
            && PivotDataAsWritten([a, b])[0].count == 2
            && PivotDataAsWritten([a, b])[0].fields == Labelled(SafeValues(a))
            && |PivotData([a, b])| == 2
  {
    var a := map[ORIGEN := "a|a", POSICION := "a"];
    var b := map[ORIGEN := "a", POSICION := "a|a"];
    SampleRecords(a, b);
    CollidingValues(a, b);
    var key := JoinKey(SafeValues, Separator);
    GroupByTwo(a, b, key);
    GroupByTwo(a, b, SafeValues);
    JoinKeyObject([a, b], SafeValues, Separator);
    var g := GroupBy([a, b], key);
    KeysInMembers(g);
    RowsForAt(g, g.keys, RowOf, 0);
  }

  // Filtering

  /** A row passes when every non-empty filter text occurs in the row's
      field, ignoring case. */
  predicate Passes(row: GroupRow, filters: map<string, string>) {
    forall f :: f in filters && filters[f] != "" ==>
      f in row.fields && Includes(Lower(row.fields[f]), Lower(filters[f]))
  }

  /** The loop of the filter callback: returns `false` at the first non-empty
      filter the row's field does not contain. */
  method MatchesFilters(row: GroupRow, filters: map<string, string>) returns (ok: bool)
    ensures ok == Passes(row, filters)
  {
    var todo := filters.Keys;
    while todo != {}
      invariant todo <= filters.Keys
      invariant forall f :: f in filters && f !in todo && filters[f] != "" ==>
        f in row.fields && Includes(Lower(row.fields[f]), Lower(filters[f]))
      decreases todo
    {
      var f :| f in todo;
      if filters[f] != "" && !(f in row.fields && Includes(Lower(row.fields[f]), Lower(filters[f]))) {
        return false;
      }
      todo := todo - {f};
    }
    return true;
  }

  /** `filteredData` */
  function FilterRows(rows: seq<GroupRow>, filters: map<string, string>): seq<GroupRow> {
    Filter(rows, (row: GroupRow) => Passes(row, filters))
  }

  /** Filtering keeps, in order, exactly the rows that pass every filter;
      with no non-empty filter it keeps them all, and filtering again changes
      nothing. */
  lemma FilterRowsFacts(rows: seq<GroupRow>, filters: map<string, string>)
    ensures IsSubsequence(FilterRows(rows, filters), rows)
    ensures forall row :: row in FilterRows(rows, filters) <==> row in rows && Passes(row, filters)
    ensures (forall f :: f in filters ==> filters[f] == "") ==> FilterRows(rows, filters) == rows
    ensures FilterRows(FilterRows(rows, filters), filters) == FilterRows(rows, filters)
  {
    var p := (row: GroupRow) => Passes(row, filters);
    FilterIsSubsequence(rows, p);
    FilterAll(rows, p);
    FilterIdempotent(rows, p);
    forall row | row in FilterRows(rows, filters) ensures row in rows && Passes(row, filters) {
      var k :| 0 <= k < |FilterRows(rows, filters)| && FilterRows(rows, filters)[k] == row;
    }
    forall row | row in rows && Passes(row, filters) ensures row in FilterRows(rows, filters) {
      var k :| 0 <= k < |rows| && rows[k] == row;
    }
  }

  // Sorting

  /** `sortConfig`: the column and whether the direction is `asc`. */
  datatype SortConfig = SortConfig(key: string, asc: bool)

  const InitialSort := SortConfig(COUNT, false)

  /** The text of a column; a row of this table has every field. */
  function Cell(row: GroupRow, f: string): string {
    if f in row.fields then row.fields[f] else ""
  }

  /** The comparator is negative for `(a, b)`: by count, or by the column's
      text with JavaScript's `<`, in the configured direction. */
  function Before(c: SortConfig): (GroupRow, GroupRow) -> bool {
    (a: GroupRow, b: GroupRow) =>
      if c.key == COUNT then (if c.asc then a.count < b.count else b.count < a.count)
      else if c.asc then Less(Cell(a, c.key), Cell(b, c.key))
      else Less(Cell(b, c.key), Cell(a, c.key))
  }

  /** Every configuration gives a comparator the sort can rely on. */
  lemma BeforeIsStrictWeakOrder(c: SortConfig)
    ensures StrictWeakOrder(Before(c))
  {
    if c.key != COUNT {
      LessIsStrictWeakOrder();
      var before := Before(c);
      forall x, y | before(x, y) ensures !before(y, x) {
        LessAsymmetric(Cell(x, c.key), Cell(y, c.key));
        LessAsymmetric(Cell(y, c.key), Cell(x, c.key));
      }
      forall x, y, z | !before(x, y) && !before(y, z) ensures !before(x, z) {
        var cx, cy, cz := Cell(x, c.key), Cell(y, c.key), Cell(z, c.key);
        assert !Less(cx, cy) && !Less(cy, cz) ==> !Less(cx, cz);
        assert !Less(cz, cy) && !Less(cy, cx) ==> !Less(cz, cx);
      }
    }
  }

  /** `requestSort(key)`: a second click on the same column turns ascending
      into descending; any other click sorts ascending by the clicked column. */
  function RequestSort(c: SortConfig, key: string): (r: SortConfig)
    ensures r.key == key
    ensures !r.asc <==> c.key == key && c.asc
  {
    SortConfig(key, !(c.key == key && c.asc))
  }

  /** Clicking a column twice in a row flips its direction, and a third
      click restores the first one's order. */
  lemma RequestSortTwice(c: SortConfig, key: string)
    ensures RequestSort(RequestSort(c, key), key) == SortConfig(key, !RequestSort(c, key).asc)
    ensures RequestSort(RequestSort(RequestSort(c, key), key), key) == RequestSort(c, key)
  {
  }

  /** `sortedData`: the filtered rows, stably sorted. */
  function SortedRows(rows: seq<GroupRow>, filters: map<string, string>, c: SortConfig): seq<GroupRow> {
    SortBy(FilterRows(rows, filters), Before(c))
  }

  /** The sorted rows are a reordering of the filtered rows in the
      configured order; by default the largest groups come first. */
  lemma SortedRowsFacts(rows: seq<GroupRow>, filters: map<string, string>, c: SortConfig)
    ensures multiset(SortedRows(rows, filters, c)) == multiset(FilterRows(rows, filters))
    ensures Sorted(SortedRows(rows, filters, c), Before(c))
    ensures c == InitialSort ==> forall i, j :: 0 <= i < j < |SortedRows(rows, filters, c)| ==>
      SortedRows(rows, filters, c)[i].count >= SortedRows(rows, filters, c)[j].count
  {
    BeforeIsStrictWeakOrder(c);
    SortBySorted(FilterRows(rows, filters), Before(c));
  }

  // Rendering

  datatype Chevron = NoChevron | Right | Down

  /** The panel under an expanded row: `Detalles - n NS encontrados` (or
      `encontrado` for one) and the records. */
  datatype Details = Details(count: nat, plural: bool, items: seq<Record>)

  /** One rendered group: its key, the eight cells, its count, its chevron
      and, when expanded, its details. */
  datatype ViewRow = ViewRow(rowKey: string, cells: seq<string>, count: nat,
                             chevron: Chevron, details: Option<Details>)

  /** The table: `n grupos encontrados`, then the rows (none shows
      `No se encontraron datos para esta combinación de filtros`). */
  datatype TableView = TableView(groupCount: nat, rows: seq<ViewRow>)

  /** `row-${rowIndex}` */
  function RowKey(i: nat): string {
    "row-" + NatToString(i)
  }

  /** Row keys name their index: distinct positions never share a key. */
  lemma RowKeyInjective(i: nat, j: nat)
    ensures RowKey(i) == RowKey(j) <==> i == j
  {
    if RowKey(i) == RowKey(j) {
      assert NatToString(i) == RowKey(i)[4..];
      assert NatToString(j) == RowKey(j)[4..];
      NatToStringInjective(i, j);
    }
  }

  function ViewRowOf(row: GroupRow, i: nat, expanded: set<string>): ViewRow {
    var open := RowKey(i) in expanded;
    ViewRow(RowKey(i), MapSeq(Fields, (f: string) => Cell(row, f)), row.count,
            if |row.items| > 1 then (if open then Down else Right) else NoChevron,
            if open then Some(Details(row.count, row.count > 1, row.items)) else None)
  }

  function ViewOf(rows: seq<GroupRow>, expanded: set<string>): (v: TableView) {
    TableView(|rows|, seq(|rows|, i requires 0 <= i < |rows| => ViewRowOf(rows[i], i, expanded)))
  }

  /** Each group is rendered in place with its cells and count; the chevron
      appears exactly for groups of more than one record and points down
      exactly when expanded; details show exactly for expanded rows, with
      the plural wording exactly for more than one record. */
  lemma ViewFacts(rows: seq<GroupRow>, expanded: set<string>, i: nat)
    requires i < |rows|
    ensures ViewOf(rows, expanded).groupCount == |ViewOf(rows, expanded).rows| == |rows|
    ensures ViewOf(rows, expanded).rows[i].count == rows[i].count
    ensures forall k :: 0 <= k < 8 ==> ViewOf(rows, expanded).rows[i].cells[k] == Cell(rows[i], Fields[k])
    ensures (ViewOf(rows, expanded).rows[i].chevron != NoChevron) <==> |rows[i].items| > 1
    ensures (ViewOf(rows, expanded).rows[i].chevron == Down) <==> |rows[i].items| > 1 && RowKey(i) in expanded
    ensures ViewOf(rows, expanded).rows[i].details.Some? <==> RowKey(i) in expanded
    ensures ViewOf(rows, expanded).rows[i].details.Some? ==>
      ViewOf(rows, expanded).rows[i].details.value.items == rows[i].items
      && (ViewOf(rows, expanded).rows[i].details.value.plural <==> rows[i].count > 1)
  {
  }

  /** Opening or closing one row leaves every other row as it was. */
  lemma ToggleOneRow(rows: seq<GroupRow>, expanded: set<string>, i: nat, j: nat)
    requires i < |rows| && j < |rows| && i != j
    ensures ViewOf(rows, SetToggle(expanded, RowKey(i))).rows[j] == ViewOf(rows, expanded).rows[j]
    ensures ViewOf(rows, SetToggle(expanded, RowKey(i))).rows[i].details.Some?
      <==> ViewOf(rows, expanded).rows[i].details.None?
  {
    RowKeyInjective(i, j);
    assert RowKey(j) in SetToggle(expanded, RowKey(i)) <==> RowKey(j) in expanded;
  }

  /** The component's state. */
  class AdvancedPivotTableState {
    var expandedGroups: set<string>
    var sortConfig: SortConfig
    var filters: map<string, string>
    var showFilters: map<string, bool>

    /** Filters and the sort column are always among the table's columns. */
    ghost predicate Valid()
      reads this
    {
      filters.Keys <= FieldSet && (sortConfig.key in FieldSet || sortConfig.key == COUNT)
    }

    constructor ()
      ensures Valid()
      ensures expandedGroups == {} && sortConfig == InitialSort && filters == map[] && showFilters == map[]
    {
      expandedGroups := {};
      sortConfig := InitialSort;
      filters := map[];
      showFilters := map[];
    }

    /** A column header's sort button. */
    method RequestSortBy(key: string)
      requires Valid() && (key in FieldSet || key == COUNT)
      modifies this
      ensures Valid()
      ensures sortConfig == RequestSort(old(sortConfig), key)
      ensures expandedGroups == old(expandedGroups) && filters == old(filters) && showFilters == old(showFilters)
    {
      sortConfig := RequestSort(sortConfig, key);
    }

    /** A click on a row. */
    method ToggleGroup(key: string)
      requires Valid()
      modifies this
      ensures Valid()
      ensures expandedGroups == SetToggle(old(expandedGroups), key)
      ensures sortConfig == old(sortConfig) && filters == old(filters) && showFilters == old(showFilters)
    {
      expandedGroups := SetToggle(expandedGroups, key);
    }

    /** A column header's filter button: `!prev[field]`, so a column never
        toggled before opens. */
    method ToggleFilter(field: string)
      requires Valid() && field in FieldSet
      modifies this
      ensures Valid()
      ensures showFilters == old(showFilters)[field := !(field in old(showFilters) && old(showFilters)[field])]
      ensures expandedGroups == old(expandedGroups) && sortConfig == old(sortConfig) && filters == old(filters)
    {
      showFilters := showFilters[field := !(field in showFilters && showFilters[field])];
    }

    /** Typing in a column's filter box. */
    method HandleFilterChange(field: string, value: string)
      requires Valid() && field in FieldSet
      modifies this
      ensures Valid()
      ensures filters == old(filters)[field := value]
      ensures expandedGroups == old(expandedGroups) && sortConfig == old(sortConfig) && showFilters == old(showFilters)
    {
      filters := filters[field := value];
    }

    /** What the component shows for `data`. */
    function Render(data: seq<Record>): TableView
      reads this
    {
      ViewOf(SortedRows(PivotData(data), filters, sortConfig), expandedGroups)
    }
  }

  /** The rendered table lists, sorted, exactly the groups that pass the
      filters, and before anything is clicked the largest groups come first
      and nothing is expanded. */
  lemma RenderFacts(s: AdvancedPivotTableState, data: seq<Record>)
    ensures s.Render(data).groupCount == |FilterRows(PivotData(data), s.filters)|
    ensures s.expandedGroups == {} ==>
      forall i :: 0 <= i < |s.Render(data).rows| ==> s.Render(data).rows[i].details.None?
  {
    var rows := SortedRows(PivotData(data), s.filters, s.sortConfig);
    assert s.Render(data) == ViewOf(rows, s.expandedGroups);
  }
}
