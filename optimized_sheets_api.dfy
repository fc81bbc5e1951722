/** `useOptimizedGoogleSheetsAPI`: asks the service how many rows there
    are, loads them in chunks of 5000 starting at spreadsheet row 60116,
    has each chunk normalised by the data-processing worker, and filters the
    loaded records by date range and model. */
module OptimizedSheetsApi {
  import opened Wrappers
  import opened Sequences
  import opened Strings
  import opened Sorting
  import opened Records
  import opened Http
  import opened SheetsApi
  import opened DataProcessor

  const CHUNK_SIZE: nat := 5000
  /** The spreadsheet row the first chunk starts at. */
  const FIRST_ROW: nat := 60116

  /** `Math.ceil(totalRows / CHUNK_SIZE)` */
  function TotalChunks(totalRows: nat): nat {
    (totalRows + CHUNK_SIZE - 1) / CHUNK_SIZE
  }

  /** The chunks cover the rows, and the last chunk is not empty. */
  lemma TotalChunksFacts(totalRows: nat)
    ensures TotalChunks(totalRows) * CHUNK_SIZE >= totalRows
    ensures TotalChunks(totalRows) > 0 ==> (TotalChunks(totalRows) - 1) * CHUNK_SIZE < totalRows
    ensures totalRows == 0 <==> TotalChunks(totalRows) == 0
  {
  }

  /** `60116 + (chunk * CHUNK_SIZE)` */
  function StartRow(chunk: nat): nat {
    FIRST_ROW + chunk * CHUNK_SIZE
  }

  /** Consecutive chunks ask for adjacent, non-overlapping row ranges. */
  lemma StartRowFacts(c: nat, d: nat)
    ensures StartRow(c + 1) == StartRow(c) + CHUNK_SIZE
    ensures c < d ==> StartRow(c) + CHUNK_SIZE <= StartRow(d)
    ensures StartRow(c) == StartRow(d) <==> c == d
  {
  }

  const InfoQuery := "?action=info"

  /** `?startRow=<startRow>&limit=5000` */
  function ChunkQuery(chunk: nat): string {
    "?startRow=" + NatToString(StartRow(chunk)) + "&limit=5000"
  }

  /** The message of the `TypeError` thrown by `totalRows.toLocaleString()`
      when the info reply has no `totalRows`. */
  const MissingTotalRows := "Cannot read properties of undefined (reading 'toLocaleString')"

  /** The outcome of the info request: its error, or the number of rows. */
  datatype InfoOutcome = InfoFailed(message: string) | Rows(totalRows: nat)

  /** The info request's checks: a rejected request, a status that is not
      ok, a body that does not parse and a missing `totalRows` all throw;
      the body's `error` is not looked at. */
  function Info(reply: Reply): (o: InfoOutcome)
    ensures reply.Response? && !reply.ok ==>
      o == InfoFailed("Error obteniendo información: " + NatToString(reply.status))
    ensures o.Rows? <==> reply.Response? && reply.ok && reply.json.Parsed? && reply.json.body.totalRows.Some?
    ensures o.Rows? ==> o.totalRows == reply.json.body.totalRows.value
    ensures reply.NetworkError? ==> o == InfoFailed(reply.message)
    ensures reply.Response? && reply.ok && reply.json.Malformed? ==> o == InfoFailed(reply.json.message)
    ensures reply.Response? && reply.ok && reply.json.Parsed? && reply.json.body.totalRows.None? ==>
      o == InfoFailed(MissingTotalRows)
  {
    match reply
    case NetworkError(m) => InfoFailed(m)
    case Response(ok, status, _, json) =>
      if !ok then InfoFailed("Error obteniendo información: " + NatToString(status))
      else match json
        case Malformed(m) => InfoFailed(m)
        case Parsed(b) => if b.totalRows.None? then InfoFailed(MissingTotalRows) else Rows(b.totalRows.value)
  }

  /** The checks on the reply for chunk `chunk` (numbered from 0): a
      rejected request, a status that is not ok (`Error en lote <chunk+1>:
      <status>`), a body that does not parse and a body carrying `error` all
      throw. */
  function ChunkOutcome(reply: Reply, chunk: nat): (o: Outcome)
    ensures reply.Response? && !reply.ok ==>
      o == Failed("Error en lote " + NatToString(chunk + 1) + ": " + NatToString(reply.status))
    ensures o.Loaded? <==> reply.Response? && reply.ok && reply.json.Parsed? && reply.json.body.error == ""
    ensures reply.NetworkError? ==> o == Failed(reply.message)
    ensures reply.Response? && reply.ok && reply.json.Malformed? ==> o == Failed(reply.json.message)
    ensures reply.Response? && reply.ok && reply.json.Parsed? && reply.json.body.error != "" ==>
      o == Failed(reply.json.body.error)
    ensures o.Loaded? ==> o.body == reply.json.body
  {
    match reply
    case NetworkError(m) => Failed(m)
    case Response(ok, status, _, json) =>
      if !ok then Failed("Error en lote " + NatToString(chunk + 1) + ": " + NatToString(status))
      else BodyOutcome(json)
  }

  /** The page is the last one: no `data`, or fewer than 5000 rows. */
  predicate LastPage(b: Body) {
    b.data.None? || |b.data.value| < CHUNK_SIZE
  }

  /** What the worker hands back for a chunk's rows: nothing for an empty
      or missing `data`, otherwise its answer to `PROCESS_CHUNK`. */
  function Processed(b: Body, chunk: nat, totalChunks: nat): seq<Record> {
    if b.data.Some? && |b.data.value| > 0 then
      var reply := OnMessage(Message(PROCESS_CHUNK, b.data.value, chunk + 1, totalChunks));
      reply.value.data
    else []
  }

  /** The worker answers with the chunk's rows normalised. */
  lemma ProcessedIsNormalized(b: Body, chunk: nat, totalChunks: nat)
    ensures Processed(b, chunk, totalChunks) == NormalizeRows(DataOf(b))
  {
    if b.data.None? || |b.data.value| == 0 {
      NormalizeRowsFacts(DataOf(b));
    }
  }

  /** What a load produces: the rows appended, the error it ended with, and
      the chunks it asked for. */
  datatype LoadOutcome = LoadOutcome(loaded: seq<Record>, error: Option<string>, requested: seq<nat>)

  /** The chunk loop from chunk `c` on. */
  function Chunks(fetch: string -> Reply, totalChunks: nat, c: nat): LoadOutcome
    decreases totalChunks - c
  {
    if c >= totalChunks then LoadOutcome([], None, [])
    else
      match ChunkOutcome(fetch(ChunkQuery(c)), c)
      case Failed(m) => LoadOutcome([], Some(m), [c])
      case Loaded(b) =>
        var here := Processed(b, c, totalChunks);
        if LastPage(b) then LoadOutcome(here, None, [c])
        else
          var rest := Chunks(fetch, totalChunks, c + 1);
          LoadOutcome(here + rest.loaded, rest.error, [c] + rest.requested)
  }

  /** One turn of the loop. */
  lemma ChunksStep(fetch: string -> Reply, totalChunks: nat, c: nat)
    requires c < totalChunks
    ensures var o := ChunkOutcome(fetch(ChunkQuery(c)), c);
      && (o.Failed? ==> Chunks(fetch, totalChunks, c) == LoadOutcome([], Some(o.message), [c]))
      && (o.Loaded? && LastPage(o.body) ==>
            Chunks(fetch, totalChunks, c) == LoadOutcome(Processed(o.body, c, totalChunks), None, [c]))
      && (o.Loaded? && !LastPage(o.body) ==>
            var rest := Chunks(fetch, totalChunks, c + 1);
            Chunks(fetch, totalChunks, c)
              == LoadOutcome(Processed(o.body, c, totalChunks) + rest.loaded, rest.error, [c] + rest.requested))
  {
  }

  /** `fetchAllDataOptimized`: the info request, then the chunk loop. */
  function FetchAll(fetch: string -> Reply): LoadOutcome {
    match Info(fetch(InfoQuery))
    case InfoFailed(m) => LoadOutcome([], Some(m), [])
    case Rows(n) => Chunks(fetch, TotalChunks(n), 0)
  }

  /** Chunk `k` came back without error and full (at least 5000 rows). */
  predicate Full(fetch: string -> Reply, k: nat) {
    var o := ChunkOutcome(fetch(ChunkQuery(k)), k);
    o.Loaded? && !LastPage(o.body)
  }

  /** The loop asks for chunks `c`, `c + 1`, ... in turn and never for
      more than `totalChunks`; every chunk before the last one asked for
      came back full and without error, so the loop stops at the first
      short page, and an error can only come from the last chunk asked
      for. */
  lemma {:induction false} ChunksFacts(fetch: string -> Reply, totalChunks: nat, c: nat)
    requires c <= totalChunks
    ensures c + |Chunks(fetch, totalChunks, c).requested| <= totalChunks
    ensures forall i :: 0 <= i < |Chunks(fetch, totalChunks, c).requested| ==>
      Chunks(fetch, totalChunks, c).requested[i] == c + i
    ensures forall k :: c <= k < c + |Chunks(fetch, totalChunks, c).requested| - 1 ==> Full(fetch, k)
    ensures Chunks(fetch, totalChunks, c).error.Some? ==> Chunks(fetch, totalChunks, c).requested != []
    decreases totalChunks - c
  {
    ChunksRequested(fetch, totalChunks, c);
    ChunksFullBefore(fetch, totalChunks, c);
    ChunksErrorRequested(fetch, totalChunks, c);
  }

  lemma {:induction false} ChunksRequested(fetch: string -> Reply, totalChunks: nat, c: nat)
    requires c <= totalChunks
    ensures c + |Chunks(fetch, totalChunks, c).requested| <= totalChunks
    ensures forall i :: 0 <= i < |Chunks(fetch, totalChunks, c).requested| ==>
      Chunks(fetch, totalChunks, c).requested[i] == c + i
    decreases totalChunks - c
  {
    if c < totalChunks {
      ChunksShape(fetch, totalChunks, c);
      if Full(fetch, c) {
        ChunksRequested(fetch, totalChunks, c + 1);
        var req := Chunks(fetch, totalChunks, c).requested;
        var rest := Chunks(fetch, totalChunks, c + 1).requested;
        forall i | 0 <= i < |req| ensures req[i] == c + i {
          if i > 0 {
            assert req[i] == rest[i - 1];
          }
        }
      }
    }
  }

  lemma {:induction false} ChunksFullBefore(fetch: string -> Reply, totalChunks: nat, c: nat)
    requires c <= totalChunks
    ensures forall k :: c <= k < c + |Chunks(fetch, totalChunks, c).requested| - 1 ==> Full(fetch, k)
    decreases totalChunks - c
  {
    if c < totalChunks {
      ChunksShape(fetch, totalChunks, c);
      if Full(fetch, c) {
        ChunksFullBefore(fetch, totalChunks, c + 1);
        var n := |Chunks(fetch, totalChunks, c + 1).requested|;
        assert |Chunks(fetch, totalChunks, c).requested| == n + 1;
        forall k | c <= k < c + n ensures Full(fetch, k) {
          if k > c {
            assert c + 1 <= k < c + 1 + n - 1;
          }
        }
      }
    }
  }

  lemma {:induction false} ChunksErrorRequested(fetch: string -> Reply, totalChunks: nat, c: nat)
    requires c <= totalChunks
    ensures Chunks(fetch, totalChunks, c).error.Some? ==> Chunks(fetch, totalChunks, c).requested != []
    decreases totalChunks - c
  {
    if c < totalChunks {
      ChunksShape(fetch, totalChunks, c);
    }
  }

  /** The chunks a step asks for: only `c` unless chunk `c` is full, and
      then `c` and the rest, which also decide the error. */
  lemma ChunksShape(fetch: string -> Reply, totalChunks: nat, c: nat)
    requires c < totalChunks
    ensures !Full(fetch, c) ==> Chunks(fetch, totalChunks, c).requested == [c]
    ensures Full(fetch, c) ==>
      && Chunks(fetch, totalChunks, c).requested == [c] + Chunks(fetch, totalChunks, c + 1).requested
      && Chunks(fetch, totalChunks, c).error == Chunks(fetch, totalChunks, c + 1).error
  {
    ChunksStep(fetch, totalChunks, c);
  }

  /** When every chunk comes back full and without error, all
      `totalChunks` are asked for and nothing fails. */
  lemma {:induction false} ChunksAllFull(fetch: string -> Reply, totalChunks: nat, c: nat)
    requires c <= totalChunks
    requires forall k :: c <= k < totalChunks ==> Full(fetch, k)
    ensures Chunks(fetch, totalChunks, c).error == None
    ensures |Chunks(fetch, totalChunks, c).requested| == totalChunks - c
    decreases totalChunks - c
  {
    if c < totalChunks {
      assert Full(fetch, c);
      ChunksAllFull(fetch, totalChunks, c + 1);
    }
  }

  /** The filter of the date bounds: a record without a date fails it. */
  predicate InDateRange(f: SheetFilters, r: Record) {
    Truthy(r, FECHA)
    && (f.fechaDesde != "" ==> !Less(r[FECHA], f.fechaDesde))
    && (f.fechaHasta != "" ==> !Less(f.fechaHasta, r[FECHA]))
  }

  /** The record satisfies the filters. */
  predicate OptKeeps(f: SheetFilters, r: Record) {
    (f.fechaDesde != "" || f.fechaHasta != "" ==> InDateRange(f, r))
    && (f.modelo != "" && f.modelo != AllModels ==> ModelIs(r, f.modelo))
  }

  /** `applyFilters(filters)`: one date filter when either bound is set,
      then the model filter. */
  function OptFiltered(allData: seq<Record>, f: SheetFilters): seq<Record> {
    var a := if f.fechaDesde != "" || f.fechaHasta != "" then Filter(allData, (r: Record) => InDateRange(f, r)) else allData;
    if f.modelo != "" && f.modelo != AllModels then Filter(a, (r: Record) => ModelIs(r, f.modelo)) else a
  }

  /** The filters keep an order-preserving selection: exactly the records
      that satisfy them. A record without a date is dropped as soon as
      either bound is set. Unrestricted filters keep everything, and
      filtering again changes nothing. */
  lemma OptFilteredFacts(allData: seq<Record>, f: SheetFilters)
    ensures OptFiltered(allData, f) == Filter(allData, (r: Record) => OptKeeps(f, r))
    ensures IsSubsequence(OptFiltered(allData, f), allData)
    ensures forall r :: r in OptFiltered(allData, f) <==> r in allData && OptKeeps(f, r)
    ensures f.fechaDesde != "" || f.fechaHasta != "" ==>
      forall r :: r in OptFiltered(allData, f) ==> Truthy(r, FECHA)
    ensures Unrestricted(f) ==> OptFiltered(allData, f) == allData
    ensures OptFiltered(OptFiltered(allData, f), f) == OptFiltered(allData, f)
  {
    OptFilteredKeeps(allData, f);
    OptFilteredKeeps(OptFiltered(allData, f), f);
    var p := (r: Record) => OptKeeps(f, r);
    FilterIsSubsequence(allData, p);
    FilterIdempotent(allData, p);
    FilterAll(allData, p);
    var kept := OptFiltered(allData, f);
    forall r ensures r in kept <==> r in allData && OptKeeps(f, r) {
      if r in kept {
        var k :| 0 <= k < |kept| && kept[k] == r;
      }
      if r in allData && OptKeeps(f, r) {
        var k :| 0 <= k < |allData| && allData[k] == r;
      }
    }
  }

  lemma OptFilteredKeeps(allData: seq<Record>, f: SheetFilters)
    ensures OptFiltered(allData, f) == Filter(allData, (r: Record) => OptKeeps(f, r))
  {
    var p1 := (r: Record) => f.fechaDesde != "" || f.fechaHasta != "" ==> InDateRange(f, r);
    var p2 := (r: Record) => f.modelo != "" && f.modelo != AllModels ==> ModelIs(r, f.modelo);
    var all := (r: Record) => OptKeeps(f, r);
    var a := if f.fechaDesde != "" || f.fechaHasta != "" then Filter(allData, (r: Record) => InDateRange(f, r)) else allData;
    assert a == Filter(allData, p1) by {
      if f.fechaDesde != "" || f.fechaHasta != "" {
        FilterSame(allData, (r: Record) => InDateRange(f, r), p1);
      } else {
        FilterAll(allData, p1);
      }
    }
    assert OptFiltered(allData, f) == Filter(a, p2) by {
      if f.modelo != "" && f.modelo != AllModels {
        FilterSame(a, (r: Record) => ModelIs(r, f.modelo), p2);
      } else {
        FilterAll(a, p2);
      }
    }
    FilterFilter(allData, p1, p2, all);
  }

  /** On records that all carry a date, this filter and the one of
      `useGoogleSheetsAPI` agree. */
  lemma OptFilteredAgrees(allData: seq<Record>, f: SheetFilters)
    requires forall i :: 0 <= i < |allData| ==> Truthy(allData[i], FECHA)
    ensures OptFiltered(allData, f) == Filtered(allData, f)
  {
    OptFilteredKeeps(allData, f);
    FilteredKeeps(allData, f);
    forall i | 0 <= i < |allData| ensures OptKeeps(f, allData[i]) == Keeps(f, allData[i]) {
      var r := allData[i];
      LessTrichotomy(r[FECHA], f.fechaDesde);
      LessTrichotomy(r[FECHA], f.fechaHasta);
    }
    FilterSame(allData, (r: Record) => OptKeeps(f, r), (r: Record) => Keeps(f, r));
  }

  /** A record with an empty date and only an upper bound set: the filter of
      `useGoogleSheetsAPI` keeps it (`"" <= hasta`), this one drops it. */
  lemma EmptyDateDiverges(hasta: string)
    requires hasta != ""
    ensures var r := map[FECHA := ""];
            var f := SheetFilters("", hasta, AllModels);
            Filtered([r], f) == [r] && OptFiltered([r], f) == []
  {
    var r := map[FECHA := ""];
    var f := SheetFilters("", hasta, AllModels);
    FilteredKeeps([r], f);
    OptFilteredKeeps([r], f);
    assert LessEq("", hasta);
    assert Keeps(f, r) && !OptKeeps(f, r);
  }

  /** `getUniqueModels()`: `'Todos los Modelos'` first, then the models. */
  function UniqueModels(allData: seq<Record>): seq<string> {
    if |allData| == 0 then [AllModels] else [AllModels] + DistinctModels(allData)
  }

  /** `.filter(Boolean)` after appending one element appends it when truthy. */
  lemma {:induction false} TruthyValuesSnoc(s: seq<Option<string>>, x: Option<string>)
    ensures TruthyValues(s + [x]) == TruthyValues(s) + (if x.Some? && x.value != "" then [x.value] else [])
    decreases |s|
  {
    if s == [] {
      assert [] + [x] == [x];
    } else {
      assert (s + [x])[1..] == s[1..] + [x];
      TruthyValuesSnoc(s[1..], x);
    }
  }

  /** The truthy models of `data`, each once, in first-seen order: the
      insertion order of the hook's `modelsSet`. */
  function SeenModels(data: seq<Record>): seq<string> {
    TruthyValues(Distinct(MapSeq(data, ModelOf)))
  }

  /** Adding a record adds its model at the end when it is truthy and not
      yet seen, and nothing otherwise. */
  lemma SeenModelsSnoc(data: seq<Record>, row: Record)
    ensures SeenModels(data + [row]) ==
      if Truthy(row, MODELO) && row[MODELO] !in SeenModels(data) then SeenModels(data) + [row[MODELO]]
      else SeenModels(data)
  {
    var before := MapSeq(data, ModelOf);
    var x := ModelOf(row);
    assert MapSeq(data + [row], ModelOf) == before + [x];
    var d := Distinct(before);
    assert (before + [x])[..|before|] == before;
    assert Distinct(before + [x]) == if x in d then d else d + [x];
    TruthyValuesSnoc(d, x);
    if Truthy(row, MODELO) {
      assert x in d <==> row[MODELO] in SeenModels(data);
    }
  }

  /** The hook's state. */
  class OptimizedSheetsApiState {
    var allData: seq<Record>
    var filteredData: seq<Record>
    var loading: bool
    var error: Option<string>

    constructor ()
      ensures allData == [] && filteredData == [] && !loading && error == None
    {
      allData := [];
      filteredData := [];
      loading := false;
      error := None;
    }

    /** `workerRef.current.onmessage`: a processed chunk is appended to the
        records; a worker error ends the load with that message. */
    method OnWorkerMessage(reply: WorkerReply)
      modifies this
      ensures reply.ChunkProcessed? ==>
        allData == old(allData) + reply.data && error == old(error) && loading == old(loading)
      ensures reply.WorkerError? ==>
        allData == old(allData) && error == Some(reply.message) && !loading
      ensures filteredData == old(filteredData)
    {
      match reply
      case ChunkProcessed(data, _, _) =>
        allData := allData + data;
      case WorkerError(m) =>
        error := Some(m);
        loading := false;
    }

    /** `fetchAllDataOptimized()`: clears the records and the error, then
        runs the info request and the chunk loop; the records end as the
        chunks loaded before any error, and `error` holds the error. The
        filtered records are not touched. */
    method FetchAllDataOptimized(fetch: string -> Reply)
      modifies this
      ensures allData == FetchAll(fetch).loaded && error == FetchAll(fetch).error
      ensures filteredData == old(filteredData) && !loading
    {
      loading := true;
      error := None;
      allData := [];
      var reply := fetch(InfoQuery);
      var info := Info(reply);
      if info.InfoFailed? {
        error := Some(info.message);
      } else {
        LoadChunks(fetch, TotalChunks(info.totalRows));
        assert allData == [] + Chunks(fetch, TotalChunks(info.totalRows), 0).loaded;
      }
      loading := false;
    }

    /** The chunk loop: asks for the chunks in turn, and stops at an error
        or a short page. */
    method LoadChunks(fetch: string -> Reply, totalChunks: nat)
      requires error == None
      modifies this
      ensures allData == old(allData) + Chunks(fetch, totalChunks, 0).loaded
      ensures error == Chunks(fetch, totalChunks, 0).error
      ensures filteredData == old(filteredData) && loading == old(loading)
    {
      ghost var final := Chunks(fetch, totalChunks, 0);
      var chunk := 0;
      while chunk < totalChunks
        invariant chunk <= totalChunks
        invariant error == None
        invariant allData + Chunks(fetch, totalChunks, chunk).loaded == old(allData) + final.loaded
        invariant Chunks(fetch, totalChunks, chunk).error == final.error
        invariant filteredData == old(filteredData) && loading == old(loading)
        decreases totalChunks - chunk
      {
        ghost var before := allData;
        ChunksStep(fetch, totalChunks, chunk);
        var stop := LoadChunk(fetch, totalChunks, chunk);
        if stop {
          assert allData + [] == allData;
          break;
        }
        ghost var o := ChunkOutcome(fetch(ChunkQuery(chunk)), chunk);
        assert o.Loaded?;
        ghost var here := Processed(o.body, chunk, totalChunks);
        assert allData == before + here;
        AppendAssoc(before, here, Chunks(fetch, totalChunks, chunk + 1).loaded);
        chunk := chunk + 1;
      }
    }

    /** One turn of the loop: asks for chunk `chunk`, hands a non-empty
        answer to the worker and appends what it returns; says whether the
        loop stops here. */
    method LoadChunk(fetch: string -> Reply, totalChunks: nat, chunk: nat) returns (stop: bool)
      requires error == None
      modifies this
      ensures var o := ChunkOutcome(fetch(ChunkQuery(chunk)), chunk);
        && stop == !Full(fetch, chunk)
        && allData == old(allData) + (if o.Loaded? then Processed(o.body, chunk, totalChunks) else [])
        && error == (if o.Failed? then Some(o.message) else None)
      ensures filteredData == old(filteredData) && loading == old(loading)
    {
      var reply := fetch(ChunkQuery(chunk));
      var outcome := ChunkOutcome(reply, chunk);
      if outcome.Failed? {
        error := Some(outcome.message);
        return true;
      }
      var result := outcome.body;
      if result.data.Some? && |result.data.value| > 0 {
        var answer := OnMessage(Message(PROCESS_CHUNK, result.data.value, chunk + 1, totalChunks));
        OnWorkerMessage(answer.value);
      }
      stop := result.data.None? || |result.data.value| < CHUNK_SIZE;
    }

    /** `applyFilters(filters)` */
    method ApplyFilters(f: SheetFilters)
      modifies this
      ensures filteredData == OptFiltered(allData, f)
      ensures allData == old(allData) && error == old(error) && loading == old(loading)
    {
      filteredData := OptFiltered(allData, f);
    }

    /** `getUniqueModels()`: collects the truthy models into a set in
        first-seen order, then sorts them behind `'Todos los Modelos'`. */
    method GetUniqueModels() returns (models: seq<string>)
      ensures models == UniqueModels(allData)
    {
      if |allData| == 0 {
        return [AllModels];
      }
      var seen: set<string> := {};
      var order: seq<string> := [];
      var i := 0;
      while i < |allData|
        invariant i <= |allData|
        invariant order == SeenModels(allData[..i])
        invariant seen == SetOf(order)
      {
        var row := allData[i];
        assert allData[..i + 1] == allData[..i] + [row];
        SeenModelsSnoc(allData[..i], row);
        if MODELO in row && row[MODELO] != "" && row[MODELO] !in seen {
          SetOfSnoc(order, row[MODELO]);
          order := order + [row[MODELO]];
          seen := seen + {row[MODELO]};
        }
        i := i + 1;
      }
      assert allData[..i] == allData;
      models := [AllModels] + SortBy(order, Less);
    }
  }
}
