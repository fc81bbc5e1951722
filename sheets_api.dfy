/** `useGoogleSheetsAPI`: loads the latest 5000 repair records, pages further
    back on request, and filters the loaded records by date range and model. */
module SheetsApi {
  import opened Wrappers
  import opened Sequences
  import opened Strings
  import opened Sorting
  import opened Records
  import opened Http

  /** The query of page `page`: `?page=<page>&limit=5000`. */
  function PageQuery(page: nat): string {
    "?page=" + NatToString(page) + "&limit=5000"
  }

  /** Different pages are different queries. */
  lemma PageQueryInjective(p: nat, q: nat)
    ensures PageQuery(p) == PageQuery(q) <==> p == q
  {
    if PageQuery(p) == PageQuery(q) {
      var a, b := NatToString(p), NatToString(q);
      assert PageQuery(p) == "?page=" + a + "&limit=5000";
      assert PageQuery(q) == "?page=" + b + "&limit=5000";
      assert |a| == |b|;
      assert a == PageQuery(p)[6..6 + |a|];
      assert b == PageQuery(q)[6..6 + |b|];
      NatToStringInjective(p, q);
    }
  }

  /** The dashboard's filters: `fecha_desde`, `fecha_hasta` (ISO dates, `""`
      when unset) and `modelo`. */
  datatype SheetFilters = SheetFilters(fechaDesde: string, fechaHasta: string, modelo: string)

  const NoFilters := SheetFilters("", "", AllModels)

  /** The filters restrict nothing. */
  predicate Unrestricted(f: SheetFilters) {
    f.fechaDesde == "" && f.fechaHasta == "" && (f.modelo == "" || f.modelo == AllModels)
  }

  /** `item.FECHA_REPARACION >= d`: a missing date compares false. */
  predicate OnOrAfter(r: Record, d: string) {
    FECHA in r && LessEq(d, r[FECHA])
  }

  /** `item.FECHA_REPARACION <= d` */
  predicate OnOrBefore(r: Record, d: string) {
    FECHA in r && LessEq(r[FECHA], d)
  }

  /** `item.MODELO === m` */
  predicate ModelIs(r: Record, m: string) {
    MODELO in r && r[MODELO] == m
  }

  /** The record satisfies every filter that is set. */
  predicate Keeps(f: SheetFilters, r: Record) {
    (f.fechaDesde != "" ==> OnOrAfter(r, f.fechaDesde))
    && (f.fechaHasta != "" ==> OnOrBefore(r, f.fechaHasta))
    && (f.modelo != "" && f.modelo != AllModels ==> ModelIs(r, f.modelo))
  }

  /** `applyFilters(filters)`: one `filter` per filter that is set, in turn. */
  function Filtered(allData: seq<Record>, f: SheetFilters): seq<Record> {
    var a := if f.fechaDesde != "" then Filter(allData, (r: Record) => OnOrAfter(r, f.fechaDesde)) else allData;
    var b := if f.fechaHasta != "" then Filter(a, (r: Record) => OnOrBefore(r, f.fechaHasta)) else a;
    if f.modelo != "" && f.modelo != AllModels then Filter(b, (r: Record) => ModelIs(r, f.modelo)) else b
  }

  /** The chain of filters keeps exactly the records that satisfy all the
      filters that are set, in their order. */
  lemma FilteredKeeps(allData: seq<Record>, f: SheetFilters)
    ensures Filtered(allData, f) == Filter(allData, (r: Record) => Keeps(f, r))
  {
    var p1 := (r: Record) => f.fechaDesde != "" ==> OnOrAfter(r, f.fechaDesde);
    var p2 := (r: Record) => f.fechaHasta != "" ==> OnOrBefore(r, f.fechaHasta);
    var p3 := (r: Record) => f.modelo != "" && f.modelo != AllModels ==> ModelIs(r, f.modelo);
    var p12 := (r: Record) => p1(r) && p2(r);
    var all := (r: Record) => Keeps(f, r);
    FilterSame(allData, p1, p1);
    var a := if f.fechaDesde != "" then Filter(allData, (r: Record) => OnOrAfter(r, f.fechaDesde)) else allData;
    assert a == Filter(allData, p1) by {
      if f.fechaDesde != "" {
        FilterSame(allData, (r: Record) => OnOrAfter(r, f.fechaDesde), p1);
      } else {
        FilterAll(allData, p1);
      }
    }
    var b := if f.fechaHasta != "" then Filter(a, (r: Record) => OnOrBefore(r, f.fechaHasta)) else a;
    assert b == Filter(a, p2) by {
      if f.fechaHasta != "" {
        FilterSame(a, (r: Record) => OnOrBefore(r, f.fechaHasta), p2);
      } else {
        FilterAll(a, p2);
      }
    }
    FilterFilter(allData, p1, p2, p12);
    var c := Filtered(allData, f);
    assert c == Filter(b, p3) by {
      if f.modelo != "" && f.modelo != AllModels {
        FilterSame(b, (r: Record) => ModelIs(r, f.modelo), p3);
      } else {
        FilterAll(b, p3);
      }
    }
    FilterFilter(allData, p12, p3, all);
  }

  /** Filtering keeps an order-preserving selection of the records: every
      record kept satisfies the filters, every record that does is kept;
      unrestricted filters keep everything, and filtering again changes
      nothing. */
  lemma FilteredFacts(allData: seq<Record>, f: SheetFilters)
    ensures IsSubsequence(Filtered(allData, f), allData)
    ensures forall r :: r in Filtered(allData, f) <==> r in allData && Keeps(f, r)
    ensures Unrestricted(f) ==> Filtered(allData, f) == allData
    ensures Filtered(Filtered(allData, f), f) == Filtered(allData, f)
  {
    var p := (r: Record) => Keeps(f, r);
    FilteredKeeps(allData, f);
    FilteredKeeps(Filtered(allData, f), f);
    FilterIsSubsequence(allData, p);
    FilterIdempotent(allData, p);
    FilterAll(allData, p);
    var kept := Filtered(allData, f);
    forall r ensures r in kept <==> r in allData && Keeps(f, r) {
      if r in kept {
        var k :| 0 <= k < |kept| && kept[k] == r;
      }
      if r in allData && Keeps(f, r) {
        var k :| 0 <= k < |allData| && allData[k] == r;
      }
    }
  }

  /** The outcome of a request: the error it throws, or the body it loads. */
  datatype Outcome = Failed(message: string) | Loaded(body: Body)

  /** `fetchLatestData`'s checks: a rejected request, a status that is not
      ok (`HTTP <status>: <statusText>`), a body that does not parse, and a
      body carrying `error` all throw. */
  function LatestOutcome(reply: Reply): (o: Outcome)
    ensures o.Loaded? <==> reply.Response? && reply.ok && reply.json.Parsed? && reply.json.body.error == ""
    ensures reply.Response? && !reply.ok ==> o == Failed("HTTP " + NatToString(reply.status) + ": " + reply.statusText)
    ensures reply.NetworkError? ==> o == Failed(reply.message)
    ensures reply.Response? && reply.ok && reply.json.Malformed? ==> o == Failed(reply.json.message)
    ensures reply.Response? && reply.ok && reply.json.Parsed? && reply.json.body.error != "" ==>
      o == Failed(reply.json.body.error)
    ensures o.Loaded? ==> o.body == reply.json.body
  {
    match reply
    case NetworkError(m) => Failed(m)
    case Response(ok, status, statusText, json) =>
      if !ok then Failed("HTTP " + NatToString(status) + ": " + statusText)
      else BodyOutcome(json)
  }

  /** `loadMoreHistoricalData`'s checks: the same, except that the status is
      never looked at. */
  function MoreOutcome(reply: Reply): (o: Outcome)
    ensures o.Loaded? <==> reply.Response? && reply.json.Parsed? && reply.json.body.error == ""
    ensures reply.Response? && reply.ok ==> o == LatestOutcome(reply)
    ensures reply.Response? && reply.json.Parsed? && reply.json.body.error != "" ==>
      o == Failed(reply.json.body.error)
    ensures o.Loaded? ==> o.body == reply.json.body
  {
    match reply
    case NetworkError(m) => Failed(m)
    case Response(_, _, _, json) => BodyOutcome(json)
  }

  function BodyOutcome(json: Json): Outcome {
    match json
    case Malformed(m) => Failed(m)
    case Parsed(b) => if b.error != "" then Failed(b.error) else Loaded(b)
  }

  /** A page the server answers with status 500 and a JSON body without
      `error` stops a fresh load but is appended by "load more". */
  lemma StatusIgnoredByLoadMore(b: Body)
    requires b.error == ""
    ensures LatestOutcome(Response(false, 500, "Internal Server Error", Parsed(b))).Failed?
    ensures MoreOutcome(Response(false, 500, "Internal Server Error", Parsed(b))) == Loaded(b)
  {
  }

  /** The hook's state. */
  class SheetsApiState {
    var allData: seq<Record>
    var filteredData: seq<Record>
    var loading: bool
    var loadingMore: bool
    var error: Option<string>
    var hasMoreData: bool
    var currentPage: nat
    var totalAvailable: nat

    /** Between calls nothing is in flight. */
    ghost predicate Valid()
      reads this
    {
      !loading && !loadingMore
    }

    constructor ()
      ensures Valid()
      ensures allData == [] && filteredData == [] && error == None
      ensures !hasMoreData && currentPage == 1 && totalAvailable == 0
    {
      allData := [];
      filteredData := [];
      loading := false;
      loadingMore := false;
      error := None;
      hasMoreData := false;
      currentPage := 1;
      totalAvailable := 0;
    }

    /** `fetchLatestData()`: clears the records, asks for page 1, and on
        success shows what it got; on failure the records stay cleared and
        `error` holds the message. */
    method FetchLatestData(fetch: string -> Reply)
      requires Valid()
      modifies this
      ensures Valid()
      ensures currentPage == 1
      ensures LatestOutcome(fetch(PageQuery(1))).Failed? ==>
        error == Some(LatestOutcome(fetch(PageQuery(1))).message)
        && allData == [] && filteredData == []
        && hasMoreData == old(hasMoreData) && totalAvailable == old(totalAvailable)
      ensures LatestOutcome(fetch(PageQuery(1))).Loaded? ==>
        var b := LatestOutcome(fetch(PageQuery(1))).body;
        error == None && allData == DataOf(b) && filteredData == allData
        && hasMoreData == b.hasMore && totalAvailable == b.total
    {
      loading := true;
      error := None;
      allData := [];
      filteredData := [];
      currentPage := 1;
      var reply := fetch(PageQuery(1));
      var outcome := LatestOutcome(reply);
      if outcome.Failed? {
        error := Some(outcome.message);
      } else {
        var processed := DataOf(outcome.body);
        allData := processed;
        filteredData := processed;
        hasMoreData := outcome.body.hasMore;
        totalAvailable := outcome.body.total;
      }
      loading := false;
    }

    /** `loadMoreHistoricalData()`: nothing when there is no more data or a
        load is in flight; otherwise asks for the next page, and on success
        appends it, shows all the records and moves to that page; on
        failure keeps the records and the page and sets `error`. */
    method LoadMoreHistoricalData(fetch: string -> Reply)
      requires Valid()
      modifies this
      ensures Valid()
      ensures !old(hasMoreData) ==>
        allData == old(allData) && filteredData == old(filteredData) && error == old(error)
        && currentPage == old(currentPage) && hasMoreData == old(hasMoreData)
      ensures old(hasMoreData) && MoreOutcome(fetch(PageQuery(old(currentPage) + 1))).Failed? ==>
        error == Some(MoreOutcome(fetch(PageQuery(old(currentPage) + 1))).message)
        && allData == old(allData) && filteredData == old(filteredData)
        && currentPage == old(currentPage) && hasMoreData == old(hasMoreData)
      ensures old(hasMoreData) && MoreOutcome(fetch(PageQuery(old(currentPage) + 1))).Loaded? ==>
        var b := MoreOutcome(fetch(PageQuery(old(currentPage) + 1))).body;
        allData == old(allData) + DataOf(b) && filteredData == allData
        && hasMoreData == b.hasMore && currentPage == old(currentPage) + 1 && error == old(error)
      ensures totalAvailable == old(totalAvailable)
    {
      if !hasMoreData || loadingMore {
        return;
      }
      loadingMore := true;
      var reply := fetch(PageQuery(currentPage + 1));
      var outcome := MoreOutcome(reply);
      if outcome.Failed? {
        error := Some(outcome.message);
      } else {
        var combined := allData + DataOf(outcome.body);
        allData := combined;
        filteredData := combined;
        hasMoreData := outcome.body.hasMore;
        currentPage := currentPage + 1;
      }
      loadingMore := false;
    }

    /** `applyFilters(filters)` */
    method ApplyFilters(f: SheetFilters)
      requires Valid()
      modifies this
      ensures Valid()
      ensures filteredData == Filtered(allData, f)
      ensures allData == old(allData) && error == old(error) && currentPage == old(currentPage)
      ensures hasMoreData == old(hasMoreData) && totalAvailable == old(totalAvailable)
    {
      filteredData := Filtered(allData, f);
    }

    /** `getUniqueModels()` */
    function GetUniqueModels(): seq<string>
      reads this
    {
      DistinctModels(allData)
    }
  }
}
