/** The data-processing worker: it answers a `PROCESS_CHUNK` message with
    the chunk's records, each with its ten text columns trimmed. */
module DataProcessor {
  import opened Wrappers
  import opened Sequences
  import opened Strings
  import opened Records

  /** The ten columns the worker normalises. `FECHA_REPARACION` is not one
      of them. */
  const NormalizedFields: set<string> :=
    {MODELO, NS, POSICION, FUNCION, CODIGO, CAUSA, ACCION, ORIGEN, REPARADOR, COMENTARIO}

  /** `row.F?.trim() || ''` */
  function TrimmedOrEmpty(r: Record, f: string): string {
    if f in r then Trim(r[f]) else ""
  }

  /** `{...row, F: row.F?.trim() || '', ...}` for the columns `fields`. */
  function NormalizeWith(r: Record, fields: set<string>): Record {
    r + Normalized(r, fields)
  }

  /** The normalised record has the record's columns and the listed ones;
      each listed column holds its trimmed value, or `""` when absent, and
      so is already trimmed; every other column is copied unchanged. */
  lemma NormalizeWithFacts(r: Record, fields: set<string>)
    ensures NormalizeWith(r, fields).Keys == r.Keys + fields
    ensures forall f :: f in fields ==>
      NormalizeWith(r, fields)[f] == (if f in r then Trim(r[f]) else "")
    ensures forall f :: f in r && f !in fields ==> NormalizeWith(r, fields)[f] == r[f]
    ensures forall f :: f in fields ==> Trim(NormalizeWith(r, fields)[f]) == NormalizeWith(r, fields)[f]
  {
    forall f | f in fields
      ensures Trim(NormalizeWith(r, fields)[f]) == NormalizeWith(r, fields)[f]
    {
      if f in r {
        TrimIdempotent(r[f]);
      }
    }
  }

  /** The listed columns' new values, which `NormalizeWith` lays over the
      record. */
  function Normalized(r: Record, fields: set<string>): map<string, string> {
    map f | f in fields :: TrimmedOrEmpty(r, f)
  }

  /** Normalising a normalised record changes nothing. */
  lemma NormalizeWithIdempotent(r: Record, fields: set<string>)
    ensures NormalizeWith(NormalizeWith(r, fields), fields) == NormalizeWith(r, fields)
  {
    NormalizedAgain(r, fields);
    UnionTwice(r, Normalized(r, fields));
  }

  /** Laying the same map over a record twice is laying it once. */
  lemma UnionTwice(r: Record, m: map<string, string>)
    ensures (r + m) + m == r + m
  {
  }

  /** The new values of a normalised record are its own values. */
  lemma NormalizedAgain(r: Record, fields: set<string>)
    ensures Normalized(r + Normalized(r, fields), fields) == Normalized(r, fields)
  {
    var m := Normalized(r, fields);
    forall f | f in fields ensures TrimmedOrEmpty(r + m, f) == m[f] {
      if f in r {
        TrimIdempotent(r[f]);
      } else {
        assert Trim("") == "";
      }
    }
  }

  /** The worker's normalisation of one record. */
  function NormalizeRow(r: Record): Record {
    NormalizeWith(r, NormalizedFields)
  }

  /** `data.map(row => ...)` */
  function NormalizeRows(data: seq<Record>): seq<Record> {
    MapSeq(data, NormalizeRow)
  }

  /** No record is dropped or moved: the `i`-th output row is the `i`-th
      input row normalised, even when its NS is empty. */
  lemma NormalizeRowsFacts(data: seq<Record>)
    ensures |NormalizeRows(data)| == |data|
    ensures forall i :: 0 <= i < |data| ==> NormalizeRows(data)[i] == NormalizeRow(data[i])
  {
  }

  /** Normalising twice is normalising once. */
  lemma NormalizeRowsIdempotent(data: seq<Record>)
    ensures NormalizeRows(NormalizeRows(data)) == NormalizeRows(data)
  {
    var n := NormalizeRows(data);
    NormalizeRowsFacts(data);
    NormalizeRowsFacts(n);
    forall i | 0 <= i < |data| ensures NormalizeRows(n)[i] == n[i] {
      NormalizeWithIdempotent(data[i], NormalizedFields);
    }
  }

  /** Normalising rows one batch at a time is normalising them together. */
  lemma NormalizeRowsAppend(a: seq<Record>, b: seq<Record>)
    ensures NormalizeRows(a + b) == NormalizeRows(a) + NormalizeRows(b)
  {
    NormalizeRowsFacts(a);
    NormalizeRowsFacts(b);
    NormalizeRowsFacts(a + b);
  }

  /** A message to the worker: its `type`, and the chunk it carries. */
  datatype Message = Message(kind: string, data: seq<Record>, chunk: nat, totalChunks: nat)

  /** The worker's reply. */
  datatype WorkerReply =
    | ChunkProcessed(data: seq<Record>, chunk: nat, totalChunks: nat)
    | WorkerError(message: string)

  const PROCESS_CHUNK := "PROCESS_CHUNK"

  /** `self.onmessage`: a `PROCESS_CHUNK` message is answered with its
      records normalised and its chunk numbers echoed; any other message
      gets no answer. */
  function OnMessage(m: Message): (reply: Option<WorkerReply>)
    ensures m.kind != PROCESS_CHUNK <==> reply == None
    ensures m.kind == PROCESS_CHUNK ==>
      reply == Some(ChunkProcessed(NormalizeRows(m.data), m.chunk, m.totalChunks))
  {
    if m.kind == PROCESS_CHUNK then Some(ChunkProcessed(NormalizeRows(m.data), m.chunk, m.totalChunks))
    else None
  }
}
