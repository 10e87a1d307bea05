/** The HTTP exchange with the upstream REST API, as values: the request a
    client builds and the reply it is handed back. */
module Http {
  import opened Results
  import opened JsonValues

  datatype Method = GET | POST | PATCH

  type Headers = seq<(string, string)>

  /** One outbound request. `query` holds parameters the HTTP library
      appends to the URL; `body` is the JSON document sent, if any. */
  datatype Request = Request(
    verb: Method,
    url: string,
    query: Fields,
    headers: Headers,
    body: Option<Json>)

  /** The text of a reply body: a JSON document, nothing at all, or text
      that is not JSON. */
  datatype Payload = Parsed(value: Json) | Blank | Malformed

  /** What the network gives back for one request. */
  datatype Reply = Answer(status: int, payload: Payload) | Unreachable(reason: string)
}
