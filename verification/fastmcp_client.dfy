/** The upstream client of the FastMCP host (`FivetranClient` in
    src/fivetran_mcp/fivetran_api.py): typed arguments, query parameters
    kept apart from the path, and a reply that must have a success status
    before its body is read. */
module FastClient {
  import opened Results
  import opened JsonValues
  import opened Http
  import opened Py
  import BasicAuth

  const BaseUrl: string := "https://api.fivetran.com"

  /** A client is its fixed `Authorization` value. */
  datatype Client = Client(authorization: string)

  /** `FivetranClient(api_key, api_secret)`. */
  function Connect(apiKey: string, apiSecret: string): (c: Client)
    ensures ':' !in apiKey ==> BasicAuth.Credentials(c.authorization) == Some((apiKey, apiSecret))
  {
    // Both branches build the same client; the split only lets the round
    // trip be proved for the keys it holds for.
    if ':' in apiKey then Client(BasicAuth.Header(apiKey, apiSecret))
    else
      BasicAuth.HeaderRoundTrip(apiKey, apiSecret);
      Client(BasicAuth.Header(apiKey, apiSecret))
  }

  /** The default headers of the underlying HTTP client. */
  function HeadersOf(c: Client): Headers {
    [("Authorization", c.authorization), ("Content-Type", "application/json")]
  }

  /** `_request(method, path, params=..., json=...)` as the request it sends. */
  function Build(c: Client, m: Method, path: string, params: Fields, body: Option<Json>): (r: Request)
    ensures r.verb == m && r.url == BaseUrl + path && r.query == params && r.body == body
    ensures r.headers == HeadersOf(c)
  {
    Request(m, BaseUrl + path, params, HeadersOf(c), body)
  }

  /** `_request`'s reading of the reply: any status outside 2xx raises
      before the body is looked at; then the body must be JSON, an empty
      one included. */
  function Receive(reply: Reply): (r: Outcome<Json>)
    ensures r.Ok? <==> reply.Answer? && 200 <= reply.status < 300 && reply.payload.Parsed?
    ensures r.Ok? ==> r.value == reply.payload.value
    ensures reply.Answer? && !(200 <= reply.status < 300) ==> r == Err(HttpStatusError(reply.status))
  {
    match reply
    case Unreachable(reason) => Err(TransportError(reason))
    case Answer(status, payload) =>
      if !(200 <= status < 300) then Err(HttpStatusError(status))
      else
        match payload
        case Parsed(v) => Ok(v)
        case _ => Err(JsonDecodeError)
  }

  /** The query of the list operations: `limit` always, `cursor` only when
      it is a non-empty string. */
  function Paging(limit: int, cursor: Option<string>): (q: Fields)
    ensures |q| >= 1 && q[0] == ("limit", Num(limit))
    ensures Has(Obj(q), "cursor") <==> cursor.Some? && |cursor.value| > 0
    ensures Has(Obj(q), "cursor") ==> Field(Obj(q), "cursor") == Str(cursor.value)
    ensures forall i :: 0 <= i < |q| ==> q[i].0 in {"limit", "cursor"}
  {
    if cursor.Some? && |cursor.value| > 0 then
      var q := [("limit", Num(limit)), ("cursor", Str(cursor.value))];
      assert DistinctKeys(q);
      FieldAt(q, 1);
      q
    else
      var q := [("limit", Num(limit))];
      assert Lookup(q[1..], "cursor") == None;
      q
  }

  function ConnectionPath(id: string): string {
    "/v1/connections/" + id
  }

  function ListConnections(c: Client, limit: int, cursor: Option<string>): Request {
    Build(c, GET, "/v1/connections", Paging(limit, cursor), None)
  }

  function GetConnection(c: Client, id: string): Request {
    Build(c, GET, ConnectionPath(id), [], None)
  }

  function TriggerSync(c: Client, id: string, force: bool): Request {
    Build(c, POST, ConnectionPath(id) + "/sync", [], Some(Obj([("force", Bool(force))])))
  }

  /** The resync body is `{"scope": scope}` for a non-empty scope and is
      left out entirely otherwise. */
  function TriggerResync(c: Client, id: string, scope: Option<Json>): (r: Request)
    ensures r.body.Some? <==> scope.Some? && Truthy(scope.value)
    ensures r.body.Some? ==> r.body.value == Obj([("scope", scope.value)])
  {
    var body := if scope.Some? && Truthy(scope.value) then Some(Obj([("scope", scope.value)])) else None;
    Build(c, POST, ConnectionPath(id) + "/resync", [], body)
  }

  function UpdateConnection(c: Client, id: string, updates: Fields): Request {
    Build(c, PATCH, ConnectionPath(id), [], Some(Obj(updates)))
  }

  function PauseConnection(c: Client, id: string): Request {
    UpdateConnection(c, id, [("paused", Bool(true))])
  }

  function ResumeConnection(c: Client, id: string): Request {
    UpdateConnection(c, id, [("paused", Bool(false))])
  }

  function ListGroups(c: Client, limit: int, cursor: Option<string>): Request {
    Build(c, GET, "/v1/groups", Paging(limit, cursor), None)
  }

  function ListConnectionsInGroup(c: Client, groupId: string, limit: int, cursor: Option<string>): Request {
    Build(c, GET, "/v1/groups/" + groupId + "/connections", Paging(limit, cursor), None)
  }

  function ResyncTables(c: Client, id: string, tables: seq<string>): Request {
    Build(c, POST, ConnectionPath(id) + "/schemas/tables/resync", [], Some(Obj([("schema", StrArray(tables))])))
  }

  function TestConnection(c: Client, id: string): Request {
    Build(c, POST, ConnectionPath(id) + "/test", [], None)
  }

  // ---------------------------------------------------------------------
  // Properties

  /** The strings of a JSON string array, the inverse of `StrArray`. */
  function Strings(j: Json): Option<seq<string>> {
    if j.Arr? && forall i :: 0 <= i < |j.items| ==> j.items[i].Str? then
      Some(seq(|j.items|, i requires 0 <= i < |j.items| && j.items[i].Str? => j.items[i].s))
    else None
  }

  /** `resync_tables` sends the caller's list as it stands under `schema`:
      reading the strings back gives exactly the names passed, duplicates
      and dot-less names included. */
  lemma ResyncTablesVerbatim(c: Client, id: string, tables: seq<string>)
    ensures var r := ResyncTables(c, id, tables);
            && r.verb == POST && r.query == []
            && r.body.Some? && r.body.value.Obj? && Keys(r.body.value.fields) == ["schema"]
            && Strings(Field(r.body.value, "schema")) == Some(tables)
  {
    var body := Obj([("schema", StrArray(tables))]);
    FieldAt(body.fields, 0);
    assert Strings(StrArray(tables)).value == tables;
  }

  /** Pause and resume are the same `PATCH` of the connection, differing
      only in the one `paused` flag they send. */
  lemma PauseResumePatch(c: Client, id: string)
    ensures PauseConnection(c, id).verb == PATCH && ResumeConnection(c, id).verb == PATCH
    ensures PauseConnection(c, id).url == ResumeConnection(c, id).url == BaseUrl + "/v1/connections/" + id
    ensures PauseConnection(c, id).query == ResumeConnection(c, id).query == []
    ensures PauseConnection(c, id).body == Some(Obj([("paused", Bool(true))]))
    ensures ResumeConnection(c, id).body == Some(Obj([("paused", Bool(false))]))
    ensures PauseConnection(c, id) == ResumeConnection(c, id).(body := Some(Obj([("paused", Bool(true))])))
  {
  }

  /** A failing status is raised whatever the body holds, so no part of an
      error reply is ever returned as data. */
  lemma FailureStatusRaises(status: int, p1: Payload, p2: Payload)
    requires !(200 <= status < 300)
    ensures Receive(Answer(status, p1)) == Receive(Answer(status, p2)) == Err(HttpStatusError(status))
  {
  }
}
