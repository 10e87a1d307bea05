/** `on_fetch` of the Workers host (cloudflare/src/worker.py): the route is
    the last path segment of the URL, and `execute` runs one tool behind a
    fixed sequence of checks. The worker's environment and the upstream
    reply are parameters. */
module Routing {
  import opened Results
  import opened JsonValues
  import opened Http
  import opened Py
  import opened Text
  import opened Registry
  import WorkerClient
  import WorkerDispatch

  /** An incoming request: its method, full URL and body text. */
  datatype Incoming = Incoming(verb: string, url: string, body: Payload)

  /** The two secrets bound to the worker, `None` when unbound. */
  datatype Env = Env(apiKey: Option<string>, apiSecret: Option<string>)

  /** A response: status, headers, and the JSON document of the body, or
      `None` for the empty body. */
  datatype Response = Response(status: int, headers: Headers, body: Option<Json>)

  /** The response together with the upstream request made to produce it. */
  datatype Served = Served(response: Response, upstream: Option<Request>)

  const JsonHeaders: Headers := [("Content-Type", "application/json")]

  const CorsHeaders: Headers :=
    [("Access-Control-Allow-Origin", "*"),
     ("Access-Control-Allow-Methods", "GET, POST, OPTIONS"),
     ("Access-Control-Allow-Headers", "Content-Type")]

  const HealthBody: Json := Obj([("status", Str("ok")), ("server", Str("Fivetran MCP Server"))])

  const InfoBody: Json :=
    Obj([("name", Str("Fivetran MCP Server")), ("version", Str("0.3.0")),
         ("protocol", Str("mcp")), ("transport", Str("streamable-http"))])

  const MissingTool: string := "Missing 'tool' field"

  const MissingCredentials: string := "FIVETRAN_API_KEY and FIVETRAN_API_SECRET must be configured"

  /** `json_response(data, status)`. */
  function JsonResponse(data: Json, status: int): Response {
    Response(status, JsonHeaders, Some(data))
  }

  function ErrorResponse(message: string, status: int): Response {
    JsonResponse(Obj([("error", Str(message))]), status)
  }

  /** `url.split("?")[0].rstrip("/").split("/")[-1] if "/" in url else ""`. */
  function PathOf(url: string): (p: string)
    ensures '/' !in p
    ensures '/' !in url ==> p == ""
  {
    if '/' in url then AfterLast(RStrip(BeforeFirst(url, '?'), '/'), '/') else ""
  }

  /** A set secret: `getattr(env, name, None)` is truthy. */
  predicate Bound(secret: Option<string>) {
    secret.Some? && |secret.value| > 0
  }

  /** The `execute` route once its method and path have matched. */
  function ExecuteRoute(body: Payload, env: Env, reply: Reply): (s: Served)
    ensures s.response.status in {200, 400, 500}
    ensures s.upstream.Some? ==> Bound(env.apiKey) && Bound(env.apiSecret)
  {
    match body
    case Blank => Served(ErrorResponse("Invalid JSON", 400), None)
    case Malformed => Served(ErrorResponse("Invalid JSON", 400), None)
    case Parsed(data) =>
      match Get(data, "tool", Null)
      case Err(e) => Served(ErrorResponse(Message(e), 500), None)
      case Ok(tool) =>
        // `data` is a dict once its `tool` was read, so this `get` cannot raise.
        var args := if Has(data, "arguments") then Field(data, "arguments") else Obj([]);
        if !Truthy(tool) then Served(ErrorResponse(MissingTool, 400), None)
        else if !Hashable(tool) then
          Served(ErrorResponse("unhashable type: '" + TypeName(tool) + "'", 500), None)
        else if !tool.Str? || Find(tool.s).None? then
          Served(ErrorResponse("Unknown tool: " + Show(tool), 400), None)
        else if !Bound(env.apiKey) || !Bound(env.apiSecret) then
          Served(ErrorResponse(MissingCredentials, 500), None)
        else
          var client := WorkerClient.Client(env.apiKey.value, env.apiSecret.value);
          var d := WorkerDispatch.ExecuteNamed(client, tool.s, args, reply);
          match d.outcome
          case Ok(result) => Served(JsonResponse(Obj([("result", result)]), 200), d.request)
          case Err(JsonDecodeError) => Served(ErrorResponse("Invalid JSON", 400), d.request)
          case Err(e) => Served(ErrorResponse(Message(e), 500), d.request)
  }

  /** `on_fetch(request, env)`, with `reply` as the upstream answer to the
      request a tool makes, if it makes one. */
  function OnFetch(req: Incoming, env: Env, reply: Reply): (s: Served)
    ensures s.response.status in {200, 204, 400, 404, 500}
    ensures s.upstream.Some? ==> req.verb == "POST" && PathOf(req.url) == "execute"
    ensures s.upstream.Some? ==> Bound(env.apiKey) && Bound(env.apiSecret)
  {
    var path := PathOf(req.url);
    if req.verb == "OPTIONS" then Served(Response(204, CorsHeaders, None), None)
    else if path == "" || path == "health" then Served(JsonResponse(HealthBody, 200), None)
    else if path == "mcp" then Served(JsonResponse(InfoBody, 200), None)
    else if path == "tools" then Served(JsonResponse(Obj([("tools", ToolsJson())]), 200), None)
    else if path == "execute" && req.verb == "POST" then ExecuteRoute(req.body, env, reply)
    else Served(ErrorResponse("Not found", 404), None)
  }

  // ---------------------------------------------------------------------
  // Properties

  /** The route is the last non-empty segment before the query: trailing
      slashes and everything from the first `?` on are ignored. */
  lemma {:induction false} PathOfSegment(prefix: string, segment: string, slashes: string, query: string)
    requires '/' !in segment && '?' !in segment && '?' !in prefix && '?' !in slashes
    requires |segment| > 0
    requires forall i :: 0 <= i < |slashes| ==> slashes[i] == '/'
    requires query == [] || query[0] == '?'
    ensures PathOf(prefix + "/" + segment + slashes + query) == segment
  {
    var url := prefix + "/" + segment + slashes + query;
    var beforeQuery := prefix + "/" + segment + slashes;
    assert url == beforeQuery + query;
    assert '?' !in beforeQuery;
    if query == [] {
      assert BeforeFirst(url, '?') == beforeQuery;
    } else {
      SplitFirstUnique(beforeQuery, query[1..], '?');
      assert url == beforeQuery + ['?'] + query[1..];
    }
    RStripSlashes(prefix + "/" + segment, slashes);
    AfterLastSegment(prefix, segment);
    assert url[|prefix|] == '/';
  }

  lemma {:induction false} RStripSlashes(s: string, slashes: string)
    requires |s| > 0 && s[|s| - 1] != '/'
    requires forall i :: 0 <= i < |slashes| ==> slashes[i] == '/'
    ensures RStrip(s + slashes, '/') == s
  {
    if |slashes| > 0 {
      var shorter := slashes[..|slashes| - 1];
      assert (s + slashes)[..|s + slashes| - 1] == s + shorter;
      RStripSlashes(s, shorter);
    } else {
      assert s + slashes == s;
    }
  }

  lemma {:induction false} AfterLastSegment(prefix: string, segment: string)
    requires '/' !in segment
    ensures AfterLast(prefix + "/" + segment, '/') == segment
  {
    if |segment| == 0 {
      assert prefix + "/" + segment == prefix + "/";
    } else {
      var last := segment[|segment| - 1];
      var shorter := segment[..|segment| - 1];
      assert (prefix + "/" + segment)[..|prefix + "/" + segment| - 1] == prefix + "/" + shorter;
      AfterLastSegment(prefix, shorter);
      assert shorter + [last] == segment;
    }
  }

  /** A preflight is answered with 204, the CORS headers and an empty body
      whatever the path, and never reaches upstream. */
  lemma PreflightAnswered(req: Incoming, env: Env, reply: Reply)
    requires req.verb == "OPTIONS"
    ensures OnFetch(req, env, reply) == Served(Response(204, CorsHeaders, None), None)
  {
  }

  /** The root and `health` paths answer 200 with the health document for
      every method but `OPTIONS`. */
  lemma HealthAnswered(req: Incoming, env: Env, reply: Reply)
    requires req.verb != "OPTIONS" && PathOf(req.url) in {"", "health"}
    ensures OnFetch(req, env, reply) == Served(JsonResponse(HealthBody, 200), None)
  {
  }

  /** `execute` with any method but `POST` (or `OPTIONS`) is not found. */
  lemma ExecuteNeedsPost(req: Incoming, env: Env, reply: Reply)
    requires PathOf(req.url) == "execute" && req.verb != "POST" && req.verb != "OPTIONS"
    ensures OnFetch(req, env, reply) == Served(ErrorResponse("Not found", 404), None)
  {
  }

  /** The fixed routes are the only ones: any other path is not found. */
  lemma OtherPathsNotFound(req: Incoming, env: Env, reply: Reply)
    requires req.verb != "OPTIONS"
    requires PathOf(req.url) !in {"", "health", "mcp", "tools", "execute"}
    ensures OnFetch(req, env, reply).response == ErrorResponse("Not found", 404)
  {
  }

  /** A body that is not JSON, and a missing or unknown tool, are rejected
      with 400 before the credentials are looked at: the answer is the same
      for every environment and every upstream reply, and nothing is sent
      upstream. */
  lemma BadCallsRejectedFirst(body: Payload, env1: Env, reply1: Reply, env2: Env, reply2: Reply)
    requires
      || !body.Parsed?
      || (body.value.Obj? && !Truthy(Field(body.value, "tool")))
      || (body.value.Obj? && Field(body.value, "tool").Str? && Truthy(Field(body.value, "tool"))
          && Find(Field(body.value, "tool").s).None?)
    ensures ExecuteRoute(body, env1, reply1) == ExecuteRoute(body, env2, reply2)
    ensures ExecuteRoute(body, env1, reply1).response.status == 400
    ensures ExecuteRoute(body, env1, reply1).upstream.None?
  {
    if body.Parsed? && body.value.Obj? {
      LookupFinds(body.value.fields, "tool");
    }
  }

  /** A registered tool with a secret unbound or empty is answered 500 and
      nothing is sent upstream. */
  lemma CredentialsRequired(body: Payload, env: Env, reply: Reply)
    requires body.Parsed? && body.value.Obj?
    requires Field(body.value, "tool").Str? && Find(Field(body.value, "tool").s).Some?
    requires !Bound(env.apiKey) || !Bound(env.apiSecret)
    ensures ExecuteRoute(body, env, reply) == Served(ErrorResponse(MissingCredentials, 500), None)
  {
    LookupFinds(body.value.fields, "tool");
    var t := Find(Field(body.value, "tool").s).value;
    assert Name(t) != "";
  }

  /** The unknown-tool object of `execute_tool` never reaches a caller: a
      200 from `execute` always wraps a result without an `error` key. */
  lemma NoUnknownToolResult(body: Payload, env: Env, reply: Reply)
    ensures var r := ExecuteRoute(body, env, reply).response;
            r.status == 200 ==>
              && r.body.Some? && r.body.value.Obj? && Keys(r.body.value.fields) == ["result"]
              && r.body.value.fields[0].1.Obj? && !Has(r.body.value.fields[0].1, "error")
  {
    if ExecuteRoute(body, env, reply).response.status == 200 {
      var data := body.value;
      var tool := Get(data, "tool", Null).value;
      var args := if Has(data, "arguments") then Field(data, "arguments") else Obj([]);
      var client := WorkerClient.Client(env.apiKey.value, env.apiSecret.value);
      WorkerDispatch.ErrorKeyIffUnknown(client, tool.s, args, reply);
    }
  }

  /** An upstream reply that is not JSON is reported to the caller as
      invalid JSON, with status 400, although the caller's own body was
      valid. */
  lemma UpstreamGarbageLooksLikeBadInput(body: Payload, env: Env, status: int)
    requires body.Parsed? && body.value.Obj?
    requires Field(body.value, "tool").Str?
    requires Find(Field(body.value, "tool").s).Some?
    requires Bound(env.apiKey) && Bound(env.apiSecret)
    requires WorkerDispatch.Call(WorkerClient.Client(env.apiKey.value, env.apiSecret.value),
                                 Find(Field(body.value, "tool").s).value,
                                 if Has(body.value, "arguments") then Field(body.value, "arguments") else Obj([])).Ok?
    ensures ExecuteRoute(body, env, Answer(status, Malformed)).response == ErrorResponse("Invalid JSON", 400)
    ensures ExecuteRoute(body, env, Answer(status, Malformed)).upstream.Some?
  {
    LookupFinds(body.value.fields, "tool");
    var t := Find(Field(body.value, "tool").s).value;
    assert Name(t) != "";
  }
}
