/** The tools of the FastMCP host (src/fivetran_mcp/server.py). The framework
    hands each tool typed arguments, with the signature's defaults filled
    in when the caller omits one; the process environment, the cached
    client and the upstream reply are parameters. */
module FastServer {
  import opened Results
  import opened JsonValues
  import opened Http
  import opened Py
  import Normalise
  import FastClient

  /** `limit` and `force` are `None` when the caller leaves them out. */
  datatype Call =
    | ListConnections(limit: Option<int>, groupId: Option<string>)
    | GetConnectionStatus(connectionId: string)
    | TriggerSync(connectionId: string, force: Option<bool>)
    | TriggerResync(connectionId: string)
    | ResyncTables(connectionId: string, tables: seq<string>)
    | PauseConnection(connectionId: string)
    | ResumeConnection(connectionId: string)
    | ListGroups(limit: Option<int>)

  const DefaultLimit: int := 100

  function LimitOf(limit: Option<int>): int {
    if limit.Some? then limit.value else DefaultLimit
  }

  // ---------------------------------------------------------------------
  // `_get_client`

  type Environ = map<string, string>

  const KeyVar: string := "FIVETRAN_SYNC_API_KEY"
  const FallbackKeyVar: string := "FIVETRAN_API_KEY"
  const SecretVar: string := "FIVETRAN_SYNC_API_SECRET"
  const FallbackSecretVar: string := "FIVETRAN_API_SECRET"

  const MissingCredentials: string :=
    "FIVETRAN_SYNC_API_KEY and FIVETRAN_SYNC_API_SECRET "
    + "(or FIVETRAN_API_KEY and FIVETRAN_API_SECRET) environment variables are required"

  /** `os.environ.get(primary) or os.environ.get(fallback)`: the primary
      value unless it is unset or empty, else whatever the fallback holds. */
  function Setting(env: Environ, primary: string, fallback: string): Option<string> {
    if primary in env && |env[primary]| > 0 then Some(env[primary])
    else if fallback in env then Some(env[fallback])
    else None
  }

  predicate Usable(v: Option<string>) {
    v.Some? && |v.value| > 0
  }

  /** `_get_client()`: the cached client if there is one, otherwise a new
      one from the environment, which then becomes the cached client. */
  function GetClient(cache: Option<FastClient.Client>, env: Environ): (r: Outcome<FastClient.Client>)
    ensures cache.Some? ==> r == Ok(cache.value)
    ensures cache.None? ==>
              (r.Ok? <==> Usable(Setting(env, KeyVar, FallbackKeyVar)) && Usable(Setting(env, SecretVar, FallbackSecretVar)))
    ensures r.Err? ==> r.error == ValueError(MissingCredentials)
  {
    if cache.Some? then Ok(cache.value)
    else
      var key := Setting(env, KeyVar, FallbackKeyVar);
      var secret := Setting(env, SecretVar, FallbackSecretVar);
      if !Usable(key) || !Usable(secret) then Err(ValueError(MissingCredentials))
      else Ok(FastClient.Connect(key.value, secret.value))
  }

  // ---------------------------------------------------------------------
  // Requests and result shaping

  /** The one upstream request each tool makes. */
  function RequestOf(c: FastClient.Client, call: Call): Request {
    match call
    case ListConnections(limit, groupId) =>
      if groupId.Some? && |groupId.value| > 0 then
        FastClient.ListConnectionsInGroup(c, groupId.value, LimitOf(limit), None)
      else FastClient.ListConnections(c, LimitOf(limit), None)
    case GetConnectionStatus(id) => FastClient.GetConnection(c, id)
    case TriggerSync(id, force) =>
      FastClient.TriggerSync(c, id, if force.Some? then force.value else false)
    case TriggerResync(id) => FastClient.TriggerResync(c, id, None)
    case ResyncTables(id, tables) => FastClient.ResyncTables(c, id, tables)
    case PauseConnection(id) => FastClient.PauseConnection(c, id)
    case ResumeConnection(id) => FastClient.ResumeConnection(c, id)
    case ListGroups(limit) => FastClient.ListGroups(c, LimitOf(limit), None)
  }

  const DetailKeys: seq<string> :=
    ["id", "schema", "service", "group_id", "paused", "sync_frequency", "schedule_type",
     "status", "tasks", "warnings", "succeeded_at", "failed_at"]

  const DetailStateKeys: seq<string> :=
    ["sync_state", "setup_state", "update_state", "is_historical_sync", "rescheduled_for"]

  /** The five-key status object of `get_connection_status`. */
  function StateObject(status: Json): (j: Json)
    ensures j.Obj? && Keys(j.fields) == DetailStateKeys
    ensures forall k :: k in DetailStateKeys ==> Field(j, k) == Field(status, k)
  {
    var fields := [
      ("sync_state", Field(status, "sync_state")),
      ("setup_state", Field(status, "setup_state")),
      ("update_state", Field(status, "update_state")),
      ("is_historical_sync", Field(status, "is_historical_sync")),
      ("rescheduled_for", Field(status, "rescheduled_for"))];
    FieldAt(fields, 0);
    FieldAt(fields, 1);
    FieldAt(fields, 2);
    FieldAt(fields, 3);
    FieldAt(fields, 4);
    Obj(fields)
  }

  lemma DetailKeysDistinct()
    ensures Distinct(DetailKeys)
  {
  }

  /** The twelve-key detail object; tasks and warnings are given raw. */
  function DetailObject(data: Json, status: Json, tasks: Json, warnings: Json): (j: Json)
    ensures j.Obj? && Keys(j.fields) == DetailKeys
    ensures Field(j, "status") == StateObject(status)
    ensures Field(j, "tasks") == tasks && Field(j, "warnings") == warnings
    ensures Field(j, "id") == Field(data, "id") && Field(j, "schema") == Field(data, "schema")
    ensures Field(j, "service") == Field(data, "service") && Field(j, "group_id") == Field(data, "group_id")
    ensures Field(j, "paused") == Field(data, "paused")
    ensures Field(j, "sync_frequency") == Field(data, "sync_frequency")
    ensures Field(j, "schedule_type") == Field(data, "schedule_type")
    ensures Field(j, "succeeded_at") == Field(data, "succeeded_at") && Field(j, "failed_at") == Field(data, "failed_at")
  {
    var fields := [
      ("id", Field(data, "id")),
      ("schema", Field(data, "schema")),
      ("service", Field(data, "service")),
      ("group_id", Field(data, "group_id")),
      ("paused", Field(data, "paused")),
      ("sync_frequency", Field(data, "sync_frequency")),
      ("schedule_type", Field(data, "schedule_type")),
      ("status", StateObject(status)),
      ("tasks", tasks),
      ("warnings", warnings),
      ("succeeded_at", Field(data, "succeeded_at")),
      ("failed_at", Field(data, "failed_at"))];
    assert Keys(fields) == DetailKeys;
    DetailKeysDistinct();
    DistinctKeysOf(fields);
    FieldAt(fields, 0); FieldAt(fields, 1); FieldAt(fields, 2); FieldAt(fields, 3);
    FieldAt(fields, 4); FieldAt(fields, 5); FieldAt(fields, 6); FieldAt(fields, 7);
    FieldAt(fields, 8); FieldAt(fields, 9); FieldAt(fields, 10); FieldAt(fields, 11);
    Obj(fields)
  }

  /** `get_connection_status`: it raises exactly when the reply is not a
      dict, or its `data` or their `status` is present but not one; tasks and
      warnings pass through as the upstream sent them, `[]` when absent. */
  function StatusDetail(result: Json): (r: Outcome<Json>)
    ensures r.Ok? <==> result.Obj? && Normalise.DataOf(result).Obj? && Normalise.DetailStatusOf(result).Obj?
    ensures r.Ok? ==> r.value.Obj? && Keys(r.value.fields) == DetailKeys
    ensures r.Ok? ==> Field(r.value, "status").Obj? && Keys(Field(r.value, "status").fields) == DetailStateKeys
  {
    var data :- Get(result, "data", Obj([]));
    var status :- Get(data, "status", Obj([]));
    var _ :- Get(status, "sync_state", Null);
    var tasks := if Has(status, "tasks") then Field(status, "tasks") else Arr([]);
    var warnings := if Has(status, "warnings") then Field(status, "warnings") else Arr([]);
    Ok(DetailObject(data, status, tasks, warnings))
  }

  /** The fixed message of each acknowledging tool, used when the upstream
      reply carries none. */
  function DefaultMessage(call: Call): string {
    match call
    case TriggerSync(_, _) => "Sync triggered successfully"
    case TriggerResync(_) => "Historical resync triggered successfully"
    case ResyncTables(_, _) => "Table resync triggered successfully"
    case PauseConnection(_) => "Connection paused successfully"
    case ResumeConnection(_) => "Connection resumed successfully"
    case _ => ""
  }

  /** The acknowledgement of the three trigger tools. */
  function TriggerAck(message: Json, id: string, tables: Option<seq<string>>): (j: Json)
    ensures j.Obj? && Field(j, "success") == Bool(true)
    ensures Field(j, "message") == message && Field(j, "connection_id") == Str(id)
    ensures Keys(j.fields) == ["success", "message", "connection_id"] + (if tables.Some? then ["tables"] else [])
    ensures tables.Some? ==> Field(j, "tables") == StrArray(tables.value)
  {
    var fields := [("success", Bool(true)), ("message", message), ("connection_id", Str(id))]
      + (if tables.Some? then [("tables", StrArray(tables.value))] else []);
    assert DistinctKeys(fields);
    FieldAt(fields, 0);
    FieldAt(fields, 1);
    FieldAt(fields, 2);
    if tables.Some? then FieldAt(fields, 3); Obj(fields) else Obj(fields)
  }

  /** The acknowledgement of pause and resume. */
  function PauseAck(id: string, paused: Json, message: string): (j: Json)
    ensures j.Obj? && Keys(j.fields) == ["success", "connection_id", "paused", "message"]
    ensures Field(j, "success") == Bool(true) && Field(j, "connection_id") == Str(id)
    ensures Field(j, "paused") == paused && Field(j, "message") == Str(message)
  {
    var fields := [("success", Bool(true)), ("connection_id", Str(id)), ("paused", paused), ("message", Str(message))];
    FieldAt(fields, 0);
    FieldAt(fields, 1);
    FieldAt(fields, 2);
    FieldAt(fields, 3);
    Obj(fields)
  }

  /** The value a tool returns once its request returned `result`. */
  function Shape(call: Call, result: Json): Outcome<Json> {
    match call
    case ListConnections(_, _) => Normalise.ConnectionList(result)
    case GetConnectionStatus(_) => StatusDetail(result)
    case TriggerSync(id, _) =>
      var message :- Get(result, "message", Str(DefaultMessage(call)));
      Ok(TriggerAck(message, id, None))
    case TriggerResync(id) =>
      var message :- Get(result, "message", Str(DefaultMessage(call)));
      Ok(TriggerAck(message, id, None))
    case ResyncTables(id, tables) =>
      var message :- Get(result, "message", Str(DefaultMessage(call)));
      Ok(TriggerAck(message, id, Some(tables)))
    case PauseConnection(id) =>
      var data :- Get(result, "data", Obj([]));
      var paused :- Get(data, "paused", Bool(true));
      Ok(PauseAck(id, paused, DefaultMessage(call)))
    case ResumeConnection(id) =>
      var data :- Get(result, "data", Obj([]));
      var paused :- Get(data, "paused", Bool(false));
      Ok(PauseAck(id, paused, DefaultMessage(call)))
    case ListGroups(_) => Normalise.GroupList(result)
  }

  /** One tool invocation: the client cache afterwards, the request made,
      and the value returned or the exception raised. */
  datatype Invocation = Invocation(cache: Option<FastClient.Client>, request: Option<Request>, outcome: Outcome<Json>)

  function Invoke(cache: Option<FastClient.Client>, env: Environ, call: Call, reply: Reply): (v: Invocation)
    ensures GetClient(cache, env).Err? ==> v == Invocation(cache, None, Err(GetClient(cache, env).error))
    ensures GetClient(cache, env).Ok? ==>
              v.cache == Some(GetClient(cache, env).value) &&
              v.request == Some(RequestOf(GetClient(cache, env).value, call))
    ensures reply.Answer? && !(200 <= reply.status < 300) && v.request.Some? ==>
              v.outcome == Err(HttpStatusError(reply.status))
  {
    match GetClient(cache, env)
    case Err(e) => Invocation(cache, None, Err(e))
    case Ok(client) =>
      var request := RequestOf(client, call);
      match FastClient.Receive(reply)
      case Err(e) => Invocation(Some(client), Some(request), Err(e))
      case Ok(result) => Invocation(Some(client), Some(request), Shape(call, result))
  }

  // ---------------------------------------------------------------------
  // Properties

  /** The `FIVETRAN_SYNC_*` variables win when set and non-empty; the plain
      ones are the fallback; an empty or missing final value raises. */
  lemma CredentialPrecedence(env: Environ)
    ensures KeyVar in env && |env[KeyVar]| > 0 ==> Setting(env, KeyVar, FallbackKeyVar) == Some(env[KeyVar])
    ensures (KeyVar !in env || |env[KeyVar]| == 0) ==>
              Setting(env, KeyVar, FallbackKeyVar) ==
                (if FallbackKeyVar in env then Some(env[FallbackKeyVar]) else None)
    ensures GetClient(None, env).Err? <==>
              !Usable(Setting(env, KeyVar, FallbackKeyVar)) || !Usable(Setting(env, SecretVar, FallbackSecretVar))
  {
  }

  /** Once a client is cached it is used for every later call, whatever
      the environment says, and it stays cached. */
  lemma CachedClientIsKept(c: FastClient.Client, env: Environ, call: Call, reply: Reply)
    ensures Invoke(Some(c), env, call, reply).cache == Some(c)
    ensures Invoke(Some(c), env, call, reply).request == Some(RequestOf(c, call))
  {
  }

  /** A client built from the environment is cached even when the call it
      was built for then fails upstream. */
  lemma ClientCachedOnFirstUse(env: Environ, call: Call, reply: Reply)
    requires GetClient(None, env).Ok?
    ensures Invoke(None, env, call, reply).cache.Some?
    ensures Invoke(Invoke(None, env, call, reply).cache, map[], call, reply) == Invoke(None, env, call, reply)
  {
  }

  /** `list_connections` asks for one group's connections exactly when
      `group_id` is a non-empty string, always with a `limit` that defaults
      to 100, and reshapes the reply as the Workers host does. */
  lemma ListConnectionsRoute(c: FastClient.Client, limit: Option<int>, groupId: Option<string>, result: Json)
    ensures var r := RequestOf(c, ListConnections(limit, groupId));
            && (r.url == FastClient.BaseUrl + "/v1/connections" <==> !(groupId.Some? && |groupId.value| > 0))
            && r.query == [("limit", Num(if limit.Some? then limit.value else 100))]
    ensures Shape(ListConnections(limit, groupId), result) == Normalise.ConnectionList(result)
  {
    if groupId.Some? && |groupId.value| > 0 {
      var url := RequestOf(c, ListConnections(limit, groupId)).url;
      var plain := FastClient.BaseUrl + "/v1/connections";
      assert url[|FastClient.BaseUrl| + 4] != plain[|FastClient.BaseUrl| + 4];
    }
  }

  /** `trigger_sync` POSTs `{"force": force}` to the connection's `sync`
      endpoint, with `force` false when the caller leaves it out. */
  lemma TriggerSyncRequest(c: FastClient.Client, id: string, force: Option<bool>)
    ensures var r := RequestOf(c, TriggerSync(id, force));
            && r.verb == POST && r.url == FastClient.BaseUrl + "/v1/connections/" + id + "/sync"
            && r.query == [] && r.body.Some? && r.body.value.Obj? && Keys(r.body.value.fields) == ["force"]
    ensures force.None? ==> Field(RequestOf(c, TriggerSync(id, force)).body.value, "force") == Bool(false)
    ensures force.Some? ==> Field(RequestOf(c, TriggerSync(id, force)).body.value, "force") == Bool(force.value)
  {
    var f := if force.Some? then force.value else false;
    FieldAt([("force", Bool(f))], 0);
  }

  /** Every tool's request goes to version 1 of the API under the base URL
      and carries the client's `Authorization` and a JSON content type. */
  lemma RequestsAuthorised(c: FastClient.Client, call: Call)
    ensures var r := RequestOf(c, call);
            var prefix := FastClient.BaseUrl + "/v1/";
            && |r.url| > |prefix| && r.url[..|prefix|] == prefix
            && r.headers == [("Authorization", c.authorization), ("Content-Type", "application/json")]
  {
  }

  /** `get_connection_status` passes `tasks` and `warnings` through
      unchanged, `[]` when absent, copies five status fields, and copies
      the other nine values from the connection `data`. */
  lemma StatusDetailPassThrough(result: Json)
    requires StatusDetail(result).Ok?
    ensures var out := StatusDetail(result).value;
            var status := Normalise.DetailStatusOf(result);
            && Field(out, "tasks") == Normalise.ListOf(status, "tasks")
            && Field(out, "warnings") == Normalise.ListOf(status, "warnings")
            && Field(out, "status") == StateObject(status)
    ensures var out := StatusDetail(result).value;
            var data := Normalise.DataOf(result);
            && Field(out, "id") == Field(data, "id") && Field(out, "schema") == Field(data, "schema")
            && Field(out, "service") == Field(data, "service") && Field(out, "group_id") == Field(data, "group_id")
            && Field(out, "paused") == Field(data, "paused")
            && Field(out, "sync_frequency") == Field(data, "sync_frequency")
            && Field(out, "schedule_type") == Field(data, "schedule_type")
            && Field(out, "succeeded_at") == Field(data, "succeeded_at") && Field(out, "failed_at") == Field(data, "failed_at")
  {
    var data := Normalise.DataOf(result);
    var status := Normalise.DetailStatusOf(result);
    assert Get(result, "data", Obj([])) == Ok(data);
    assert Get(data, "status", Obj([])) == Ok(status);
    assert StatusDetail(result).value ==
             DetailObject(data, status, Normalise.ListOf(status, "tasks"), Normalise.ListOf(status, "warnings"));
  }

  /** The trigger tools report success, echo the connection id (and the
      tables), and prefer the upstream `message` to their fixed text. */
  lemma TriggerAckMessage(call: Call, result: Json)
    requires call.TriggerSync? || call.TriggerResync? || call.ResyncTables?
    requires result.Obj?
    ensures Shape(call, result).Ok?
    ensures var out := Shape(call, result).value;
            && Field(out, "success") == Bool(true)
            && Field(out, "connection_id") == Str(call.connectionId)
            && Field(out, "message") ==
                 (if Has(result, "message") then Field(result, "message") else Str(DefaultMessage(call)))
            && (call.ResyncTables? ==> Field(out, "tables") == StrArray(call.tables))
  {
  }

  /** Pause and resume report `paused` as the upstream `data` has it,
      defaulting to true for pause and false for resume. */
  lemma PausedFromUpstream(call: Call, result: Json)
    requires call.PauseConnection? || call.ResumeConnection?
    requires result.Obj? && (Has(result, "data") ==> Field(result, "data").Obj?)
    ensures Shape(call, result).Ok?
    ensures var data := if Has(result, "data") then Field(result, "data") else Obj([]);
            Field(Shape(call, result).value, "paused") ==
              (if Has(data, "paused") then Field(data, "paused") else Bool(call.PauseConnection?))
  {
  }

  /** An error status reaches the caller as an exception, never as a
      shaped result: nothing of the reply's body is returned. */
  lemma ErrorStatusRaises(cache: Option<FastClient.Client>, env: Environ, call: Call, status: int, payload: Payload)
    requires !(200 <= status < 300) && GetClient(cache, env).Ok?
    ensures Invoke(cache, env, call, Answer(status, payload)).outcome == Err(HttpStatusError(status))
  {
  }
}
