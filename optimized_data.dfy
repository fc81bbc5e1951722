/** `useOptimizedData`: loads repair records a page of 1000 at a time, from
    spreadsheet row 60116 on, keeping only the records with a serial
    number (NS). */
module OptimizedData {
  import opened Wrappers
  import opened Sequences
  import opened Strings
  import opened Records
  import opened Http
  import opened SheetsApi

  const ITEMS_PER_PAGE: nat := 1000
  const FIRST_OFFSET: nat := 60116

  /** `60116 + ((page - 1) * ITEMS_PER_PAGE)` */
  function Offset(page: int): int {
    FIRST_OFFSET + (page - 1) * ITEMS_PER_PAGE
  }

  /** The query parameters of `buildUrl(page, filters)`, in order: the
      offset, the limit, `ns_not_empty`, then each date bound that is set. */
  function BuildParams(page: int, f: SheetFilters): (ps: seq<(string, string)>)
    ensures |ps| >= 3
    ensures ps[0] == ("offset", IntToString(Offset(page)))
    ensures ps[1] == ("limit", "1000") && ps[2] == ("ns_not_empty", "true")
    ensures ("fecha_reparacion_gte", f.fechaDesde) in ps <==> f.fechaDesde != ""
    ensures ("fecha_reparacion_lte", f.fechaHasta) in ps <==> f.fechaHasta != ""
    ensures |ps| == 3 + (if f.fechaDesde != "" then 1 else 0) + (if f.fechaHasta != "" then 1 else 0)
  {
    var base := [("offset", IntToString(Offset(page))), ("limit", "1000"), ("ns_not_empty", "true")];
    var withFrom := if f.fechaDesde != "" then base + [("fecha_reparacion_gte", f.fechaDesde)] else base;
    if f.fechaHasta != "" then withFrom + [("fecha_reparacion_lte", f.fechaHasta)] else withFrom
  }

  /** One parameter as `name=value`. */
  function Param(p: (string, string)): string {
    p.0 + "=" + p.1
  }

  /** `buildUrl(page, filters)`, without the service address: `?` and the
      parameters joined by `&` (the date values need no escaping). */
  function BuildUrl(page: int, f: SheetFilters): string {
    "?" + Join(MapSeq(BuildParams(page, f), Param), "&")
  }

  /** Consecutive pages ask for consecutive, non-overlapping row ranges. */
  lemma OffsetFacts(p: int, q: int)
    ensures Offset(1) == FIRST_OFFSET
    ensures Offset(p + 1) == Offset(p) + ITEMS_PER_PAGE
    ensures p < q ==> Offset(p) + ITEMS_PER_PAGE <= Offset(q)
  {
  }

  /** `item.NS && item.NS.trim() !== ''` */
  predicate HasSerial(r: Record) {
    Truthy(r, NS) && Trim(r[NS]) != ""
  }

  /** The records of a page that are kept. */
  function ValidRows(data: seq<Record>): seq<Record> {
    Filter(data, HasSerial)
  }

  /** The kept records are the records with a non-blank NS, in their
      order, and keeping them again changes nothing. */
  lemma ValidRowsFacts(data: seq<Record>)
    ensures IsSubsequence(ValidRows(data), data)
    ensures forall r :: r in ValidRows(data) <==> r in data && HasSerial(r)
    ensures ValidRows(ValidRows(data)) == ValidRows(data)
  {
    FilterIsSubsequence(data, HasSerial);
    FilterIdempotent(data, HasSerial);
    FilterMembers(data, HasSerial);
  }

  /** The message of the `TypeError` thrown by `result.data.filter` when the
      reply has no `data`. */
  const MissingData := "Cannot read properties of undefined (reading 'filter')"

  /** `loadPage`'s checks: a rejected request, a status that is not ok
      (`HTTP error! status: <status>`), a body that does not parse, a body
      carrying `error` and a body without `data` all throw. */
  function PageOutcome(reply: Reply): (o: Outcome)
    ensures reply.Response? && !reply.ok ==> o == Failed("HTTP error! status: " + NatToString(reply.status))
    ensures o.Loaded? <==>
      reply.Response? && reply.ok && reply.json.Parsed? && reply.json.body.error == "" && reply.json.body.data.Some?
    ensures o.Loaded? ==> o.body == reply.json.body
    ensures reply.NetworkError? ==> o == Failed(reply.message)
    ensures reply.Response? && reply.ok && reply.json.Malformed? ==> o == Failed(reply.json.message)
    ensures reply.Response? && reply.ok && reply.json.Parsed? && reply.json.body.error != "" ==>
      o == Failed(reply.json.body.error)
    ensures reply.Response? && reply.ok && reply.json.Parsed? && reply.json.body.error == "" && reply.json.body.data.None? ==>
      o == Failed(MissingData)
  {
    match reply
    case NetworkError(m) => Failed(m)
    case Response(ok, status, _, json) =>
      if !ok then Failed("HTTP error! status: " + NatToString(status))
      else match BodyOutcome(json)
        case Failed(m) => Failed(m)
        case Loaded(b) => if b.data.None? then Failed(MissingData) else Loaded(b)
  }

  /** The hook's state. */
  class OptimizedDataState {
    var data: seq<Record>
    var loading: bool
    var error: Option<string>
    var hasMore: bool
    var currentPage: int

    constructor ()
      ensures data == [] && !loading && error == None && hasMore && currentPage == 1
    {
      data := [];
      loading := false;
      error := None;
      hasMore := true;
      currentPage := 1;
    }

    /** `loadPage(page, filters)`: on success appends the page's records
        with an NS, takes the reply's `hasMore`, moves to `page` and returns
        the reply; on failure sets `error`, changes nothing else and returns
        `null`. */
    method LoadPage(fetch: string -> Reply, page: int, f: SheetFilters) returns (result: Option<Body>)
      modifies this
      ensures var o := PageOutcome(fetch(BuildUrl(page, f)));
        && (o.Failed? ==>
              result == None && error == Some(o.message)
              && data == old(data) && hasMore == old(hasMore) && currentPage == old(currentPage))
        && (o.Loaded? ==>
              result == Some(o.body) && error == old(error)
              && data == old(data) + ValidRows(o.body.data.value)
              && hasMore == o.body.hasMore && currentPage == page)
      ensures loading == old(loading)
    {
      var reply := fetch(BuildUrl(page, f));
      var outcome := PageOutcome(reply);
      if outcome.Failed? {
        error := Some(outcome.message);
        return None;
      }
      var validData := ValidRows(outcome.body.data.value);
      data := data + validData;
      hasMore := outcome.body.hasMore;
      currentPage := page;
      return Some(outcome.body);
    }

    /** `loadData(filters)`: clears the records and the error, goes back to
        page 1 with more to come, and loads page 1. */
    method LoadData(fetch: string -> Reply, f: SheetFilters)
      modifies this
      ensures var o := PageOutcome(fetch(BuildUrl(1, f)));
        && (o.Failed? ==> data == [] && error == Some(o.message) && hasMore && currentPage == 1)
        && (o.Loaded? ==>
              data == ValidRows(o.body.data.value) && error == None
              && hasMore == o.body.hasMore && currentPage == 1)
      ensures !loading
    {
      loading := true;
      data := [];
      error := None;
      currentPage := 1;
      hasMore := true;
      var _ := LoadPage(fetch, 1, f);
      loading := false;
    }

    /** `loadMore(filters)`: loads the page after the current one, whether
        or not `hasMore` says there is one. */
    method LoadMore(fetch: string -> Reply, f: SheetFilters) returns (result: Option<Body>)
      modifies this
      ensures var o := PageOutcome(fetch(BuildUrl(old(currentPage) + 1, f)));
        && (o.Failed? ==>
              result == None && error == Some(o.message)
              && data == old(data) && hasMore == old(hasMore) && currentPage == old(currentPage))
        && (o.Loaded? ==>
              result == Some(o.body) && error == old(error)
              && data == old(data) + ValidRows(o.body.data.value)
              && hasMore == o.body.hasMore && currentPage == old(currentPage) + 1)
      ensures loading == old(loading)
    {
      result := LoadPage(fetch, currentPage + 1, f);
    }
  }
}
