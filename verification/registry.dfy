/** The `TOOLS` table of the Workers host (cloudflare/src/worker.py): a
    closed set of twelve tools, each with its parameter schema. */
module Registry {
  import opened Results
  import opened JsonValues

  datatype Tool =
    | ListConnections
    | GetConnectionStatus
    | TriggerSync
    | TriggerResync
    | ResyncTables
    | PauseConnection
    | ResumeConnection
    | ListGroups
    | TestConnection
    | GetSchema
    | ListTables
    | ReloadSchema

  /** The tools in the order `TOOLS` lists them. */
  const AllTools: seq<Tool> :=
    [ListConnections, GetConnectionStatus, TriggerSync, TriggerResync, ResyncTables,
     PauseConnection, ResumeConnection, ListGroups, TestConnection, GetSchema,
     ListTables, ReloadSchema]

  function Name(t: Tool): string {
    match t
    case ListConnections => "list_connections"
    case GetConnectionStatus => "get_connection_status"
    case TriggerSync => "trigger_sync"
    case TriggerResync => "trigger_resync"
    case ResyncTables => "resync_tables"
    case PauseConnection => "pause_connection"
    case ResumeConnection => "resume_connection"
    case ListGroups => "list_groups"
    case TestConnection => "test_connection"
    case GetSchema => "get_schema"
    case ListTables => "list_tables"
    case ReloadSchema => "reload_schema"
  }

  function Names(): seq<string> {
    seq(|AllTools|, i requires 0 <= i < |AllTools| => Name(AllTools[i]))
  }

  /** `name in TOOLS`, giving the tool it names. */
  function Find(name: string): (r: Option<Tool>)
    ensures r.Some? ==> Name(r.value) == name
  {
    if name == "list_connections" then Some(ListConnections)
    else if name == "get_connection_status" then Some(GetConnectionStatus)
    else if name == "trigger_sync" then Some(TriggerSync)
    else if name == "trigger_resync" then Some(TriggerResync)
    else if name == "resync_tables" then Some(ResyncTables)
    else if name == "pause_connection" then Some(PauseConnection)
    else if name == "resume_connection" then Some(ResumeConnection)
    else if name == "list_groups" then Some(ListGroups)
    else if name == "test_connection" then Some(TestConnection)
    else if name == "get_schema" then Some(GetSchema)
    else if name == "list_tables" then Some(ListTables)
    else if name == "reload_schema" then Some(ReloadSchema)
    else None
  }

  /** The position of each tool in `AllTools`. */
  function Position(t: Tool): (i: nat)
    ensures i < |AllTools| && AllTools[i] == t
  {
    match t
    case ListConnections => 0
    case GetConnectionStatus => 1
    case TriggerSync => 2
    case TriggerResync => 3
    case ResyncTables => 4
    case PauseConnection => 5
    case ResumeConnection => 6
    case ListGroups => 7
    case TestConnection => 8
    case GetSchema => 9
    case ListTables => 10
    case ReloadSchema => 11
  }

  lemma FindName(t: Tool)
    ensures Find(Name(t)) == Some(t)
  {
  }

  lemma NamesDistinct()
    ensures forall i, j :: 0 <= i < j < |AllTools| ==> Name(AllTools[i]) != Name(AllTools[j])
  {
    forall i, j | 0 <= i < j < |AllTools|
      ensures Name(AllTools[i]) != Name(AllTools[j])
    {
      FindName(AllTools[i]);
      FindName(AllTools[j]);
    }
  }

  /** The registry is closed and its names are a key set: every tool is
      listed once, and a name is found exactly when it is a listed name. */
  lemma RegistryIsClosed()
    ensures |AllTools| == 12
    ensures forall t :: t in AllTools
    ensures forall i, j :: 0 <= i < j < |AllTools| ==> Name(AllTools[i]) != Name(AllTools[j])
    ensures forall t :: Find(Name(t)) == Some(t)
    ensures forall name :: Find(name).Some? <==> name in Names()
  {
    NamesDistinct();
    forall t
      ensures t in AllTools && Find(Name(t)) == Some(t)
    {
      assert AllTools[Position(t)] == t;
      FindName(t);
    }
    forall name
      ensures Find(name).Some? <==> name in Names()
    {
      if name in Names() {
        var i :| 0 <= i < |AllTools| && Names()[i] == name;
        FindName(AllTools[i]);
      }
      if Find(name).Some? {
        var t := Find(name).value;
        assert Names()[Position(t)] == name;
      }
    }
  }

  datatype Kind = StringKind | IntegerKind | BooleanKind | StringArrayKind

  /** One entry of `properties`: its name, type, default and description. */
  datatype Param = Param(name: string, kind: Kind, default: Option<Json>, description: string)

  const ConnectionIdParam: Param :=
    Param("connection_id", StringKind, None, "The unique identifier of the connection")

  function Params(t: Tool): seq<Param> {
    match t
    case ListConnections =>
      [Param("limit", IntegerKind, Some(Num(100)), "Maximum number of connections to return"),
       Param("group_id", StringKind, None, "Optional group ID to filter connections")]
    case TriggerSync =>
      [ConnectionIdParam,
       Param("force", BooleanKind, Some(Bool(false)), "Force sync even if one is in progress")]
    case ResyncTables =>
      [ConnectionIdParam,
       Param("tables", StringArrayKind, None, "List of table names (schema.table)")]
    case ListGroups =>
      [Param("limit", IntegerKind, Some(Num(100)), "Maximum number of groups to return")]
    case _ => [ConnectionIdParam]
  }

  function Required(t: Tool): seq<string> {
    match t
    case ListConnections => []
    case ListGroups => []
    case ResyncTables => ["connection_id", "tables"]
    case _ => ["connection_id"]
  }

  function Description(t: Tool): string {
    match t
    case ListConnections => "List all Fivetran connections in the account"
    case GetConnectionStatus => "Get detailed status for a specific Fivetran connection"
    case TriggerSync => "Trigger a data sync for a Fivetran connection"
    case TriggerResync => "Trigger a full historical resync for a connection"
    case ResyncTables => "Resync specific tables within a connection"
    case PauseConnection => "Pause a Fivetran connection"
    case ResumeConnection => "Resume a paused Fivetran connection"
    case ListGroups => "List all Fivetran groups (destinations)"
    case TestConnection => "Test a Fivetran connection to diagnose issues"
    case GetSchema => "Get complete schema configuration for a connection"
    case ListTables => "List all tables in a connection with sync status"
    case ReloadSchema => "Reload schema configuration from the source"
  }

  /** Every required name is a declared parameter. */
  lemma RequiredAreDeclared(t: Tool)
    ensures forall r :: r in Required(t) ==> exists p :: p in Params(t) && p.name == r
  {
    match t
    case ResyncTables =>
      assert Params(t)[0].name == "connection_id" && Params(t)[1].name == "tables";
    case ListConnections =>
    case ListGroups =>
    case _ =>
      assert Params(t)[0].name == "connection_id";
  }

  /** A JSON value of the declared type. */
  predicate HasKind(v: Json, k: Kind) {
    match k
    case StringKind => v.Str?
    case IntegerKind => v.Num?
    case BooleanKind => v.Bool?
    case StringArrayKind => v.Arr? && forall i :: 0 <= i < |v.items| ==> v.items[i].Str?
  }

  /** A call that honours the schema: an object holding every required key,
      each declared parameter that is present having its declared type. The
      host does not check this; it is what a well-formed caller sends. */
  predicate WellTyped(t: Tool, args: Json) {
    && args.Obj?
    && (forall r :: r in Required(t) ==> Has(args, r))
    && forall p :: p in Params(t) && Has(args, p.name) ==>
         HasKind(Field(args, p.name), p.kind)
  }

  function KindJson(k: Kind): Fields {
    match k
    case StringKind => [("type", Str("string"))]
    case IntegerKind => [("type", Str("integer"))]
    case BooleanKind => [("type", Str("boolean"))]
    case StringArrayKind => [("type", Str("array")), ("items", Obj([("type", Str("string"))]))]
  }

  function ParamJson(p: Param): Json {
    Obj(KindJson(p.kind)
        + (if p.default.Some? then [("default", p.default.value)] else [])
        + [("description", Str(p.description))])
  }

  /** `TOOLS[name]`: description and a JSON-schema `parameters` object whose
      `required` list is present only for tools that have one. */
  function Definition(t: Tool): Json {
    Obj([("description", Str(Description(t))), ("parameters", Obj(Parameters(t)))])
  }

  function PropertiesJson(t: Tool): Json {
    var ps := Params(t);
    Obj(seq(|ps|, i requires 0 <= i < |ps| => (ps[i].name, ParamJson(ps[i]))))
  }

  function Parameters(t: Tool): Fields {
    SchemaObject(PropertiesJson(t), Required(t))
  }

  function SchemaObject(properties: Json, required: seq<string>): Fields {
    [("type", Str("object")), ("properties", properties)]
      + (if |required| > 0 then [("required", StrArray(required))] else [])
  }

  lemma SchemaObjectRequired(properties: Json, required: seq<string>)
    ensures |required| > 0 ==> Field(Obj(SchemaObject(properties, required)), "required") == StrArray(required)
    ensures |required| == 0 ==> "required" !in Keys(SchemaObject(properties, required))
  {
    var ps := SchemaObject(properties, required);
    if |required| > 0 {
      assert ps[2] == ("required", StrArray(required));
      assert DistinctKeys(ps);
      FieldAt(ps, 2);
    } else {
      assert Keys(ps) == ["type", "properties"];
    }
  }

  lemma DefinitionParameters(description: string, parameters: Fields)
    ensures Field(Obj([("description", Str(description)), ("parameters", Obj(parameters))]), "parameters")
            == Obj(parameters)
  {
    var fs := [("description", Str(description)), ("parameters", Obj(parameters))];
    assert DistinctKeys(fs);
    FieldAt(fs, 1);
  }

  /** The `TOOLS` dictionary, as the `tools` endpoint returns it. */
  function ToolsJson(): (j: Json)
    ensures j.Obj? && Keys(j.fields) == Names()
  {
    Obj(seq(|AllTools|, i requires 0 <= i < |AllTools| => (Name(AllTools[i]), Definition(AllTools[i]))))
  }

  /** The `tools` endpoint publishes each tool's definition under its
      name. */
  lemma PublishedUnderName(t: Tool)
    ensures Field(ToolsJson(), Name(t)) == Definition(t)
  {
    NamesDistinct();
    var j := ToolsJson();
    assert j.fields[Position(t)] == (Name(t), Definition(t));
    assert DistinctKeys(j.fields);
    FieldAt(j.fields, Position(t));
  }

  /** Each published definition lists exactly the tool's required
      parameters, and omits the `required` key when there are none. */
  lemma PublishedRequired(t: Tool)
    ensures |Required(t)| > 0 ==>
              Field(Field(Definition(t), "parameters"), "required") == StrArray(Required(t))
    ensures |Required(t)| == 0 ==>
              "required" !in ObjKeys(Field(Definition(t), "parameters"))
  {
    DefinitionParameters(Description(t), Parameters(t));
    SchemaObjectRequired(PropertiesJson(t), Required(t));
  }
}
