/**
 * The request layer's view of the HTTP library, as plain values: the JSON a
 * response decodes to, the response record the client inspects, and the request
 * the client hands over. Nothing here sends anything.
 */
module Http {

  /** The values `json.loads` can produce (JSON numbers limited to integers). */
  datatype Json =
    | JNull
    | JBool(b: bool)
    | JInt(i: int)
    | JString(s: string)
    | JArray(items: seq<Json>)
    | JObject(fields: map<string, Json>)

  /** What `r.json()` does with the body: it decodes, or it raises JSONDecodeError. */
  datatype Body = Parsed(json: Json) | Unparseable(text: string)

  /**
   * A response as the client sees it: `r.ok`, `r.status_code`, the body and
   * the response headers.
   */
  datatype Response = Response(ok: bool, status: int, body: Body, headers: map<string, string>)

  /** The payload handed to the library: none, `json.dumps(value)`, or ready text. */
  datatype Payload = NoData | Dumps(value: Json) | Serialized(text: string)

  /** One outgoing call: verb, full URL, query parameters, headers and payload. */
  datatype Request = Request(
    verb: string,
    url: string,
    params: map<string, string>,
    headers: map<string, string>,
    data: Payload)

  /** The library's `Response.ok`: false exactly for the 4xx and 5xx statuses. */
  predicate RequestsOk(status: int)
  {
    !(400 <= status < 600)
  }

  /** A response whose `ok` flag is the one the library computes from its status. */
  predicate Consistent(resp: Response)
  {
    resp.ok == RequestsOk(resp.status)
  }
}
