/** `execute_tool` of the Workers host (cloudflare/src/worker.py): each tool
    reads its arguments, makes exactly one upstream request, and reshapes
    the reply. The reply is a parameter: whatever the network hands back
    for the request that was built. */
module WorkerDispatch {
  import opened Results
  import opened JsonValues
  import opened Http
  import opened Py
  import opened Registry
  import opened Normalise
  import WorkerClient

  /** What one tool execution did: the upstream request it issued, if it got
      that far, and the value it returned or the exception it raised. */
  datatype Dispatch = Dispatch(request: Option<Request>, outcome: Outcome<Json>)

  /** The request a tool makes, built from its raw arguments. Arguments are
      read in the order the source reads them, so the first failing read is
      the exception raised; nothing is validated against the schema. */
  function Call(c: WorkerClient.Client, t: Tool, args: Json): (r: Outcome<Request>)
  {
    match t
    case ListConnections =>
      var limit :- Get(args, "limit", Num(100));
      var groupId :- Get(args, "group_id", Null);
      Ok(if Truthy(groupId) then WorkerClient.ListConnectionsInGroup(c, groupId, limit)
         else WorkerClient.ListConnections(c, limit))
    case GetConnectionStatus =>
      var id :- Subscript(args, "connection_id");
      Ok(WorkerClient.GetConnection(c, id))
    case TriggerSync =>
      var id :- Subscript(args, "connection_id");
      var force :- Get(args, "force", Bool(false));
      Ok(WorkerClient.TriggerSync(c, id, force))
    case TriggerResync =>
      var id :- Subscript(args, "connection_id");
      Ok(WorkerClient.TriggerResync(c, id))
    case ResyncTables =>
      var id :- Subscript(args, "connection_id");
      var tables :- Subscript(args, "tables");
      WorkerClient.ResyncTables(c, id, tables)
    case PauseConnection =>
      var id :- Subscript(args, "connection_id");
      Ok(WorkerClient.PauseConnection(c, id))
    case ResumeConnection =>
      var id :- Subscript(args, "connection_id");
      Ok(WorkerClient.ResumeConnection(c, id))
    case ListGroups =>
      var limit :- Get(args, "limit", Num(100));
      Ok(WorkerClient.ListGroups(c, limit))
    case TestConnection =>
      var id :- Subscript(args, "connection_id");
      Ok(WorkerClient.TestConnection(c, id))
    case GetSchema =>
      var id :- Subscript(args, "connection_id");
      Ok(WorkerClient.GetSchema(c, id))
    case ListTables =>
      var id :- Subscript(args, "connection_id");
      Ok(WorkerClient.GetSchema(c, id))
    case ReloadSchema =>
      var id :- Subscript(args, "connection_id");
      Ok(WorkerClient.ReloadSchema(c, id))
  }

  /** The tools whose output is a fixed acknowledgement: the upstream
      reply's content never reaches the caller. */
  predicate IsAck(t: Tool) {
    t in {TriggerSync, TriggerResync, ResyncTables, PauseConnection, ResumeConnection, ReloadSchema}
  }

  /** Reference table: the keys of each tool's result, in order. */
  function OutputKeys(t: Tool): seq<string> {
    match t
    case ListConnections => ["connections", "count"]
    case GetConnectionStatus =>
      ["id", "schema", "service", "group_id", "paused", "status", "tasks", "warnings",
       "succeeded_at", "failed_at"]
    case TriggerSync => ["success", "message", "connection_id"]
    case TriggerResync => ["success", "message", "connection_id"]
    case ResyncTables => ["success", "message", "connection_id", "tables"]
    case PauseConnection => ["success", "connection_id", "paused", "message"]
    case ResumeConnection => ["success", "connection_id", "paused", "message"]
    case ListGroups => ["groups", "count"]
    case TestConnection => ["connection_id", "overall_status", "passed_count", "failed_count", "tests"]
    case GetSchema => ["connection_id", "schema_change_handling", "schemas"]
    case ListTables => ["connection_id", "tables", "count"]
    case ReloadSchema => ["success", "connection_id", "message"]
  }

  /** The acknowledgement text of each acknowledging tool. */
  function AckMessage(t: Tool): string
    requires IsAck(t)
  {
    match t
    case TriggerSync => "Sync triggered successfully"
    case TriggerResync => "Historical resync triggered successfully"
    case ResyncTables => "Table resync triggered successfully"
    case PauseConnection => "Connection paused successfully"
    case ResumeConnection => "Connection resumed successfully"
    case ReloadSchema => "Schema reload triggered successfully"
  }

  /** The acknowledgement object of an acknowledging tool. */
  function Ack(t: Tool, id: Json, tables: Json): (j: Json)
    requires IsAck(t)
    ensures j.Obj? && Keys(j.fields) == OutputKeys(t)
    ensures Field(j, "success") == Bool(true)
    ensures Field(j, "connection_id") == id
    ensures Field(j, "message") == Str(AckMessage(t))
    ensures t == PauseConnection ==> Field(j, "paused") == Bool(true)
    ensures t == ResumeConnection ==> Field(j, "paused") == Bool(false)
    ensures t == ResyncTables ==> Field(j, "tables") == tables
  {
    var success := ("success", Bool(true));
    var message := ("message", Str(AckMessage(t)));
    var connection := ("connection_id", id);
    var fields :=
      match t
      case PauseConnection => [success, connection, ("paused", Bool(true)), message]
      case ResumeConnection => [success, connection, ("paused", Bool(false)), message]
      case ReloadSchema => [success, connection, message]
      case ResyncTables => [success, message, connection, ("tables", tables)]
      case _ => [success, message, connection];
    assert DistinctKeys(fields);
    FieldAt(fields, 0);
    FieldAt(fields, 1);
    FieldAt(fields, 2);
    if |fields| > 3 then FieldAt(fields, 3); Obj(fields) else Obj(fields)
  }

  /** The value `execute_tool` returns once the upstream call has returned
      `result`. */
  function Shape(t: Tool, args: Json, result: Json): (r: Outcome<Json>)
    ensures r.Ok? ==> r.value.Obj? && Keys(r.value.fields) == OutputKeys(t)
  {
    match t
    case ListConnections => ConnectionList(result)
    case GetConnectionStatus => StatusDetail(result)
    case ListGroups => GroupList(result)
    case TestConnection =>
      var id :- Subscript(args, "connection_id");
      TestReport(id, result)
    case GetSchema =>
      var id :- Subscript(args, "connection_id");
      SchemaReport(id, result)
    case ListTables =>
      var id :- Subscript(args, "connection_id");
      TableList(id, result)
    case ResyncTables =>
      var id :- Subscript(args, "connection_id");
      var tables :- Subscript(args, "tables");
      Ok(Ack(t, id, tables))
    case _ =>
      var id :- Subscript(args, "connection_id");
      Ok(Ack(t, id, Null))
  }

  /** `execute_tool(client, name, args)` for a registered tool, with
      `reply` as the network's answer to the one request it makes. */
  function Execute(c: WorkerClient.Client, t: Tool, args: Json, reply: Reply): (d: Dispatch)
    ensures d.request.Some? <==> Call(c, t, args).Ok?
    ensures d.request.Some? ==> d.request == Some(Call(c, t, args).value)
    ensures d.request.None? ==> d.outcome == Err(Call(c, t, args).error)
    ensures d.outcome.Ok? ==> d.outcome.value.Obj? && Keys(d.outcome.value.fields) == OutputKeys(t)
  {
    match Call(c, t, args)
    case Err(e) => Dispatch(None, Err(e))
    case Ok(request) =>
      match WorkerClient.Receive(reply)
      case Err(e) => Dispatch(Some(request), Err(e))
      case Ok(result) => Dispatch(Some(request), Shape(t, args, result))
  }

  /** `execute_tool` for any name: a name outside the registry returns an
      error object instead of raising. */
  function ExecuteNamed(c: WorkerClient.Client, name: string, args: Json, reply: Reply): (d: Dispatch)
    ensures Find(name).None? ==> d == Dispatch(None, Ok(Obj([("error", Str("Unknown tool: " + name))])))
    ensures Find(name).Some? ==> d == Execute(c, Find(name).value, args, reply)
  {
    match Find(name)
    case Some(t) => Execute(c, t, args, reply)
    case None => Dispatch(None, Ok(Obj([("error", Str("Unknown tool: " + name))])))
  }

  // ---------------------------------------------------------------------
  // Properties

  /** No tool result has an `error` key. */
  lemma NoErrorKey(t: Tool)
    ensures "error" !in OutputKeys(t)
  {
  }

  /** A result of `execute_tool` carries an `error` key exactly when the
      name is not registered, and then no request is made. */
  lemma ErrorKeyIffUnknown(c: WorkerClient.Client, name: string, args: Json, reply: Reply)
    requires ExecuteNamed(c, name, args, reply).outcome.Ok?
    ensures Has(ExecuteNamed(c, name, args, reply).outcome.value, "error") <==> Find(name).None?
    ensures Find(name).None? ==> ExecuteNamed(c, name, args, reply).request.None?
  {
    var out := ExecuteNamed(c, name, args, reply).outcome.value;
    LookupFinds(out.fields, "error");
    if Find(name).Some? {
      NoErrorKey(Find(name).value);
    }
  }

  /** A call that honours the published schema always reaches the
      upstream API. */
  lemma WellTypedIssuesRequest(c: WorkerClient.Client, t: Tool, args: Json)
    requires WellTyped(t, args)
    ensures Call(c, t, args).Ok?
    ensures Execute(c, t, args, Answer(200, Blank)).request.Some?
  {
    if t == ResyncTables {
      var p := Params(t)[1];
      assert p in Params(t) && p.name == "tables";
      assert "tables" in Required(t);
      var tables := Field(args, "tables");
      assert HasKind(tables, StringArrayKind);
      assert WorkerClient.StringItems(tables.items).Ok?;
    }
  }

  /** An object that lacks a required key makes the tool raise `KeyError`
      for one of its missing required keys before any request is built. */
  lemma MissingRequiredRaises(c: WorkerClient.Client, t: Tool, args: Json, reply: Reply, k: string)
    requires args.Obj? && k in Required(t) && !Has(args, k)
    ensures Call(c, t, args).Err?
    ensures Call(c, t, args).error.KeyError?
    ensures Call(c, t, args).error.key in Required(t) && !Has(args, Call(c, t, args).error.key)
    ensures Execute(c, t, args, reply).request.None?
  {
  }

  /** `list_connections` asks for one group's connections exactly when
      `group_id` is truthy; on either route a missing `limit` asks for
      100. */
  lemma ListConnectionsRoute(c: WorkerClient.Client, args: Json)
    requires args.Obj?
    ensures Call(c, ListConnections, args).Ok?
    ensures var url := Call(c, ListConnections, args).value.url;
            var prefix := WorkerClient.BaseUrl + "/groups/";
            (|url| >= |prefix| && url[..|prefix|] == prefix) <==> Has(args, "group_id") && Truthy(Field(args, "group_id"))
    ensures !Has(args, "limit") && !Has(args, "group_id") ==>
              Call(c, ListConnections, args).value.url == WorkerClient.BaseUrl + "/connections?limit=100"
    ensures !Has(args, "limit") && Has(args, "group_id") && Truthy(Field(args, "group_id")) ==>
              Call(c, ListConnections, args).value.url ==
                WorkerClient.BaseUrl + "/groups/" + Show(Field(args, "group_id")) + "/connectors?limit=100"
  {
    var prefix := WorkerClient.BaseUrl + "/groups/";
    var plain := WorkerClient.BaseUrl + "/connections?limit=";
    assert plain[|WorkerClient.BaseUrl| + 2] != prefix[|WorkerClient.BaseUrl| + 2];
    assert Show(Num(100)) == "100";
  }

  /** `trigger_sync` always sends `{"force": ...}`, even when `force` is
      false, since a one-key dictionary is truthy; `force` defaults to
      false only when absent. */
  lemma TriggerSyncBody(c: WorkerClient.Client, args: Json)
    requires args.Obj? && Has(args, "connection_id")
    ensures Call(c, TriggerSync, args).Ok?
    ensures Call(c, TriggerSync, args).value.body ==
              Some(Obj([("force", if Has(args, "force") then Field(args, "force") else Bool(false))]))
  {
  }

  /** The acknowledging tools never look at the reply: whatever status and
      JSON body (or empty body) comes back, the result is the same
      `success: true` acknowledgement echoing the connection id. */
  lemma AckIgnoresReply(c: WorkerClient.Client, t: Tool, args: Json, s1: int, p1: Payload, s2: int, p2: Payload)
    requires IsAck(t) && Call(c, t, args).Ok?
    requires !p1.Malformed? && !p2.Malformed?
    ensures Execute(c, t, args, Answer(s1, p1)).outcome.Ok?
    ensures Execute(c, t, args, Answer(s1, p1)).outcome == Execute(c, t, args, Answer(s2, p2)).outcome
    ensures Field(Execute(c, t, args, Answer(s1, p1)).outcome.value, "success") == Bool(true)
    ensures Field(Execute(c, t, args, Answer(s1, p1)).outcome.value, "connection_id") == Field(args, "connection_id")
  {
  }

  /** Text that is not JSON in the upstream reply raises the decoder's
      error after the request was made. */
  lemma MalformedReplyRaisesDecodeError(c: WorkerClient.Client, t: Tool, args: Json, status: int)
    requires Call(c, t, args).Ok?
    ensures Execute(c, t, args, Answer(status, Malformed)) == Dispatch(Some(Call(c, t, args).value), Err(JsonDecodeError))
  {
  }
}
