/** The part of a Google Apps Script web-app reply the data hooks read. The
    network itself is not modelled: each `fetch` is given as a reply value. */
module Http {
  import opened Wrappers
  import opened Records

  /** The fields of a JSON reply body: `error` (`""` when absent or empty),
      `data`, `hasMore` (`false` when absent), `total` (`0` when absent) and
      `totalRows`. */
  datatype Body = Body(error: string, data: Option<seq<Record>>, hasMore: bool, total: nat,
                       totalRows: Option<nat>)

  /** `await response.json()`: the parsed body, or the message of the
      parse error it throws. */
  datatype Json = Malformed(message: string) | Parsed(body: Body)

  /** `await fetch(url)`: a rejected request with its error message, or a
      response with its status. */
  datatype Reply = NetworkError(message: string) | Response(ok: bool, status: nat, statusText: string, json: Json)

  /** `result.data || []` */
  function DataOf(b: Body): seq<Record> {
    if b.data.Some? then b.data.value else []
  }
}
