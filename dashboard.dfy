/** `DPHUDashboard`: the page that loads the repair records through the
    spreadsheet hook, keeps the chosen filters, applies them whenever they
    or the records change, and exports the filtered records as CSV text. */
module Dashboard {
  import opened Wrappers
  import opened Sequences
  import opened Strings
  import opened Records
  import opened Http
  import opened SheetsApi

  const FECHA_DESDE := "fecha_desde"
  const FECHA_HASTA := "fecha_hasta"
  const MODELO_FILTER := "modelo"

  /** The initial filter object, and the one `clearFilters` restores. */
  const InitialFilters: Record := map[FECHA_DESDE := "", FECHA_HASTA := "", MODELO_FILTER := AllModels]

  /** `filters[name]`, where `undefined` reads as unset like `""`. */
  function Setting(filters: Record, name: string): string {
    if name in filters then filters[name] else ""
  }

  /** The filter object as the hook's `applyFilters` reads it. */
  function AsSheetFilters(filters: Record): SheetFilters {
    SheetFilters(Setting(filters, FECHA_DESDE), Setting(filters, FECHA_HASTA), Setting(filters, MODELO_FILTER))
  }

  /** The initial filters restrict nothing, so applying them shows every
      record. */
  lemma InitialFiltersShowAll(allData: seq<Record>)
    ensures AsSheetFilters(InitialFilters) == SheetsApi.NoFilters
    ensures Filtered(allData, AsSheetFilters(InitialFilters)) == allData
  {
    FilteredFacts(allData, AsSheetFilters(InitialFilters));
  }

  /** The names the hook `useGoogleSheetsAPI` returns. */
  const SheetsApiExports: set<string> := {
    "allData", "filteredData", "loading", "loadingMore", "error", "hasMoreData", "totalAvailable",
    "fetchLatestData", "loadMoreHistoricalData", "applyFilters", "getUniqueModels"
  }

  /** The message of the `TypeError` of calling a name that is `undefined`. */
  function NotAFunction(name: string): string {
    name + " is not a function"
  }

  /** The dashboard takes `fetchAllData` and `loadingProgress` from the
      hook, which returns neither: the load it means is `fetchLatestData`. */
  lemma DashboardNamesMissing()
    ensures "fetchAllData" !in SheetsApiExports && "loadingProgress" !in SheetsApiExports
    ensures "fetchLatestData" in SheetsApiExports
  {
  }

  /** The dashboard's state: its filter object, and the hook it uses. */
  class DashboardState {
    var filters: Record
    const api: SheetsApiState

    ghost predicate Valid()
      reads this, api
    {
      api.Valid()
    }

    constructor ()
      ensures Valid() && fresh(api)
      ensures filters == InitialFilters
      ensures api.allData == [] && api.filteredData == [] && api.error == None
    {
      filters := InitialFilters;
      api := new SheetsApiState();
    }

    /** The mount effect as written: it calls `fetchAllData`, which is
        `undefined`, so it throws and nothing is loaded. */
    method MountAsWritten() returns (thrown: Option<string>)
      ensures thrown == Some(NotAFunction("fetchAllData"))
    {
      if "fetchAllData" in SheetsApiExports {
        thrown := None;
      } else {
        thrown := Some(NotAFunction("fetchAllData"));
      }
    }

    /** The mount effect as intended: loads the latest page through the
        hook. */
    method Mount(fetch: string -> Reply)
      requires Valid()
      modifies api
      ensures Valid()
      ensures filters == old(filters)
      ensures api.currentPage == 1
      ensures LatestOutcome(fetch(PageQuery(1))).Failed? ==>
        api.error == Some(LatestOutcome(fetch(PageQuery(1))).message) && api.allData == [] && api.filteredData == []
      ensures LatestOutcome(fetch(PageQuery(1))).Loaded? ==>
        var b := LatestOutcome(fetch(PageQuery(1))).body;
        api.error == None && api.allData == DataOf(b) && api.filteredData == api.allData
        && api.hasMoreData == b.hasMore && api.totalAvailable == b.total
    {
      api.FetchLatestData(fetch);
    }

    /** The effect on `filters` and `allData`: with records loaded, shows
        the records the filters keep; with none, does nothing. */
    method ApplyFiltersEffect()
      requires Valid()
      modifies api
      ensures Valid()
      ensures filters == old(filters) && api.allData == old(api.allData) && api.error == old(api.error)
      ensures |api.allData| > 0 ==> api.filteredData == Filtered(api.allData, AsSheetFilters(filters))
      ensures |api.allData| == 0 ==> api.filteredData == old(api.filteredData)
    {
      if |api.allData| > 0 {
        api.ApplyFilters(AsSheetFilters(filters));
      }
    }

    /** `handleFilterChange(name, value)`: sets the named filter and leaves
        the others as they were. */
    method HandleFilterChange(name: string, value: string)
      modifies this
      ensures filters == old(filters)[name := value]
      ensures forall other :: other != name ==> Setting(filters, other) == Setting(old(filters), other)
    {
      filters := filters[name := value];
    }

    /** `clearFilters()` */
    method ClearFilters()
      modifies this
      ensures filters == InitialFilters
    {
      filters := InitialFilters;
    }
  }

  /** The exported columns, in order. */
  const CsvHeaders: seq<string> := [MODELO, NS, FUNCION, CODIGO, CAUSA, ACCION, ORIGEN, POSICION, COMENTARIO, FECHA]

  /** One cell: the value, or nothing when it is falsy, between double
      quotes; quotes inside the value are not doubled. */
  function CsvField(item: Record, header: string): string {
    "\"" + OrElse(item, header, "") + "\""
  }

  /** One record's line: its ten cells joined by commas. */
  function CsvLine(item: Record): string {
    Join(MapSeq(CsvHeaders, h => CsvField(item, h)), ",")
  }

  /** The header line. */
  function CsvHeaderLine(): string {
    Join(CsvHeaders, ",")
  }

  /** `csvRows.join('\n')`: the header line, then one line per record. */
  function CsvContent(data: seq<Record>): string {
    Join([CsvHeaderLine()] + MapSeq(data, CsvLine), "\n")
  }

  /** No exported value of the record contains `c`. */
  predicate ValuesAvoid(item: Record, c: char) {
    forall h :: h in CsvHeaders && h in item ==> c !in item[h]
  }

  /** A join of pieces and a separator that all avoid `c` avoids `c`. */
  lemma {:induction false} JoinAvoids(xs: seq<string>, sep: string, c: char)
    requires c !in sep
    requires forall i :: 0 <= i < |xs| ==> c !in xs[i]
    ensures c !in Join(xs, sep)
    decreases |xs|
  {
    if |xs| > 1 {
      JoinAvoids(xs[1..], sep, c);
    }
  }

  /** The cells of a record whose values avoid `c` avoid `c`, when `c` is
      not the quote. */
  lemma CellsAvoid(item: Record, c: char)
    requires ValuesAvoid(item, c) && c != '"'
    ensures forall i :: 0 <= i < |CsvHeaders| ==> c !in CsvField(item, CsvHeaders[i])
  {
    forall i | 0 <= i < |CsvHeaders| ensures c !in CsvField(item, CsvHeaders[i]) {
      var h := CsvHeaders[i];
      var v := OrElse(item, h, "");
      assert c !in v;
      assert CsvField(item, h) == ['"'] + v + ['"'];
    }
  }

  /** When no value holds a comma, a line splits back into its ten cells,
      each the value (or nothing) between quotes. */
  lemma CsvLineFields(item: Record)
    requires ValuesAvoid(item, ',')
    ensures |Split(CsvLine(item), ',')| == |CsvHeaders| == 10
    ensures forall i :: 0 <= i < |CsvHeaders| ==>
      Split(CsvLine(item), ',')[i] == "\"" + (if Truthy(item, CsvHeaders[i]) then item[CsvHeaders[i]] else "") + "\""
  {
    var cells := MapSeq(CsvHeaders, h => CsvField(item, h));
    CellsAvoid(item, ',');
    SplitJoin(cells, ',');
  }

  /** The header line has no line break. */
  lemma HeaderNoLineBreak()
    ensures '\n' !in CsvHeaderLine()
  {
    JoinAvoids(CsvHeaders, ",", '\n');
  }

  /** A line avoids every character but the quote and the comma that the
      record's values avoid. */
  lemma LineAvoids(item: Record, c: char)
    requires ValuesAvoid(item, c) && c != '"' && c != ','
    ensures c !in CsvLine(item)
  {
    CellsAvoid(item, c);
    JoinAvoids(MapSeq(CsvHeaders, h => CsvField(item, h)), ",", c);
  }

  /** When no value holds a line break, the text splits into the header
      line and one line per record, in order: `filteredData.length + 1`
      lines. */
  lemma {:induction false} CsvContentLines(data: seq<Record>)
    requires forall k :: 0 <= k < |data| ==> ValuesAvoid(data[k], '\n')
    ensures Split(CsvContent(data), '\n') == [CsvHeaderLine()] + MapSeq(data, CsvLine)
    ensures |Split(CsvContent(data), '\n')| == |data| + 1
  {
    var lines := [CsvHeaderLine()] + MapSeq(data, CsvLine);
    forall i | 0 <= i < |lines| ensures '\n' !in lines[i] {
      if i == 0 {
        HeaderNoLineBreak();
      } else {
        LineAvoids(data[i - 1], '\n');
      }
    }
    SplitJoin(lines, '\n');
  }

  /** A quote inside a value is written as it is, so that cell ends early
      for a CSV reader. */
  lemma QuotesNotEscaped()
    ensures CsvField(map[MODELO := "A\"B"], MODELO) == "\"A\"B\""
  {
  }
}
