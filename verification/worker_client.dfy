/** The upstream client of the Workers host (`FivetranClient` in
    cloudflare/src/worker.py): one request per operation, built from the
    raw argument values the dispatcher hands it. */
module WorkerClient {
  import opened Results
  import opened JsonValues
  import opened Http
  import opened Py
  import Text
  import BasicAuth

  const BaseUrl: string := "https://api.fivetran.com/v1"

  datatype Client = Client(apiKey: string, apiSecret: string)

  function Authorization(c: Client): string {
    BasicAuth.Header(c.apiKey, c.apiSecret)
  }

  function HeadersOf(c: Client): Headers {
    [("Authorization", Authorization(c)),
     ("Content-Type", "application/json"),
     ("Accept", "application/json")]
  }

  /** `_request`: the body is sent only when the data is truthy. */
  function Send(c: Client, m: Method, path: string, data: Option<Json>): (r: Request)
    ensures r.url == BaseUrl + path && r.verb == m && r.query == []
    ensures r.body.Some? <==> data.Some? && Truthy(data.value)
    ensures r.body.Some? ==> r.body == data
    ensures ("Authorization", Authorization(c)) in r.headers
  {
    Request(m, BaseUrl + path, [], HeadersOf(c),
            if data.Some? && Truthy(data.value) then data else None)
  }

  /** `_request`'s reading of the reply: the status is never looked at, an
      empty body reads as `{}`, and text that is not JSON raises. */
  function Receive(reply: Reply): (r: Outcome<Json>)
    ensures reply.Answer? && reply.payload.Blank? ==> r == Ok(Obj([]))
    ensures reply.Answer? && reply.payload.Parsed? ==> r == Ok(reply.payload.value)
    ensures reply.Answer? && reply.payload.Malformed? ==> r == Err(JsonDecodeError)
    ensures reply.Unreachable? ==> r.Err? && !r.error.JsonDecodeError?
  {
    match reply
    case Unreachable(reason) => Err(TransportError(reason))
    case Answer(_, Blank) => Ok(Obj([]))
    case Answer(_, Parsed(v)) => Ok(v)
    case Answer(_, Malformed) => Err(JsonDecodeError)
  }

  function ConnectorPath(id: Json): string {
    "/connectors/" + Show(id)
  }

  function ListConnections(c: Client, limit: Json): Request {
    Send(c, GET, "/connections?limit=" + Show(limit), None)
  }

  function ListConnectionsInGroup(c: Client, groupId: Json, limit: Json): Request {
    Send(c, GET, "/groups/" + Show(groupId) + "/connectors?limit=" + Show(limit), None)
  }

  function GetConnection(c: Client, id: Json): Request {
    Send(c, GET, ConnectorPath(id), None)
  }

  function TriggerSync(c: Client, id: Json, force: Json): Request {
    Send(c, POST, ConnectorPath(id) + "/sync", Some(Obj([("force", force)])))
  }

  function TriggerResync(c: Client, id: Json): Request {
    Send(c, POST, ConnectorPath(id) + "/resync", None)
  }

  function PauseConnection(c: Client, id: Json): Request {
    Send(c, PATCH, ConnectorPath(id), Some(Obj([("paused", Bool(true))])))
  }

  function ResumeConnection(c: Client, id: Json): Request {
    Send(c, PATCH, ConnectorPath(id), Some(Obj([("paused", Bool(false))])))
  }

  function ListGroups(c: Client, limit: Json): Request {
    Send(c, GET, "/groups?limit=" + Show(limit), None)
  }

  function TestConnection(c: Client, id: Json): Request {
    Send(c, POST, ConnectorPath(id) + "/test", None)
  }

  function GetSchema(c: Client, id: Json): Request {
    Send(c, GET, ConnectorPath(id) + "/schemas", None)
  }

  function GetTableColumns(c: Client, id: Json, schema: Json, table: Json): Request {
    Send(c, GET, ConnectorPath(id) + "/schemas/" + Show(schema) + "/tables/" + Show(table) + "/columns", None)
  }

  function ReloadSchema(c: Client, id: Json): Request {
    Send(c, POST, ConnectorPath(id) + "/schemas/reload", None)
  }

  // ---------------------------------------------------------------------
  // Grouping of "schema.table" names for resync_tables

  /** `table_objects` as an ordered list: schema name to the table names
      under it, both in first-insertion order. */
  type Groups = seq<(string, seq<string>)>

  function Schemas(g: Groups): seq<string> {
    seq(|g|, i requires 0 <= i < |g| => g[i].0)
  }

  /** The tables grouped under schema `s` (none when `s` is absent). */
  function TablesOf(g: Groups, s: string): seq<string> {
    if |g| == 0 then []
    else if g[0].0 == s then g[0].1
    else TablesOf(g[1..], s)
  }

  /** What a dictionary guarantees: no schema twice, no table twice. */
  predicate WellGrouped(g: Groups) {
    && Distinct(Schemas(g))
    && forall i :: 0 <= i < |g| ==> Distinct(g[i].1)
  }

  lemma SchemasCons(h: (string, seq<string>), g: Groups)
    ensures Schemas([h] + g) == [h.0] + Schemas(g)
  {
  }

  lemma DistinctCons(x: string, xs: seq<string>)
    ensures Distinct([x] + xs) <==> x !in xs && Distinct(xs)
  {
    if x !in xs && Distinct(xs) {
      forall i, j | 0 <= i < j < |[x] + xs|
        ensures ([x] + xs)[i] != ([x] + xs)[j]
      {
        if i > 0 {
          assert ([x] + xs)[i] == xs[i - 1] && ([x] + xs)[j] == xs[j - 1];
        } else {
          assert ([x] + xs)[j] in xs;
        }
      }
    }
    if Distinct([x] + xs) {
      forall i, j | 0 <= i < j < |xs|
        ensures xs[i] != xs[j]
      {
        assert xs[i] == ([x] + xs)[i + 1] && xs[j] == ([x] + xs)[j + 1];
      }
      forall k | 0 <= k < |xs|
        ensures xs[k] != x
      {
        assert ([x] + xs)[0] == x && ([x] + xs)[k + 1] == xs[k];
      }
    }
  }

  lemma DistinctSnoc(xs: seq<string>, x: string)
    ensures Distinct(xs) && x !in xs ==> Distinct(xs + [x])
  {
  }

  /** One loop step: add the schema if it is new, then set the table key
      (a table already present keeps its place). */
  function AddTable(g: Groups, s: string, t: string): (r: Groups)
    requires WellGrouped(g)
    ensures WellGrouped(r)
    ensures forall x :: x in Schemas(r) <==> x in Schemas(g) || x == s
    ensures forall x :: x != s ==> TablesOf(r, x) == TablesOf(g, x)
    ensures forall u :: u in TablesOf(r, s) <==> u in TablesOf(g, s) || u == t
    decreases |g|
  {
    if |g| == 0 then
      assert Schemas([(s, [t])]) == [s];
      [(s, [t])]
    else
      assert g == [g[0]] + g[1..];
      SchemasCons(g[0], g[1..]);
      DistinctCons(g[0].0, Schemas(g[1..]));
      if g[0].0 == s then
        var ts := if t in g[0].1 then g[0].1 else g[0].1 + [t];
        DistinctSnoc(g[0].1, t);
        SchemasCons((s, ts), g[1..]);
        [(s, ts)] + g[1..]
      else
        var rest := AddTable(g[1..], s, t);
        SchemasCons(g[0], rest);
        DistinctCons(g[0].0, Schemas(rest));
        [g[0]] + rest
  }

  /** `names[i]` is the dotted name `s.t`, split at its first dot. */
  predicate Names(names: seq<string>, i: int, s: string, t: string)
    requires 0 <= i < |names|
  {
    Text.SplitFirst(names[i], '.') == Some((s, t))
  }

  /** The loop of `resync_tables` over names that are all strings. */
  function GroupNames(names: seq<string>): (g: Groups)
    ensures WellGrouped(g)
    decreases |names|
  {
    if |names| == 0 then []
    else
      match Text.SplitFirst(names[|names| - 1], '.')
      case None => GroupNames(names[..|names| - 1])
      case Some((s, t)) => AddTable(GroupNames(names[..|names| - 1]), s, t)
  }

  /** A schema is a key exactly when some dotted name has it as its head,
      and a table sits under it exactly when some name splits into the two:
      names without a dot leave no trace and repeats collapse. */
  lemma {:induction false} GroupNamesMembership(names: seq<string>)
    ensures forall s :: s in Schemas(GroupNames(names)) <==>
              exists i, t :: 0 <= i < |names| && Names(names, i, s, t)
    ensures forall s, t :: t in TablesOf(GroupNames(names), s) <==>
              exists i :: 0 <= i < |names| && Names(names, i, s, t)
    decreases |names|
  {
    if |names| > 0 {
      var pre := names[..|names| - 1];
      var last := |names| - 1;
      var g0 := GroupNames(pre);
      var g := GroupNames(names);
      GroupNamesMembership(pre);
      assert forall i :: 0 <= i < |pre| ==> pre[i] == names[i];
      forall s, t
        ensures t in TablesOf(g, s) <==> exists i :: 0 <= i < |names| && Names(names, i, s, t)
      {
        var fromPre := exists i :: 0 <= i < |pre| && Names(pre, i, s, t);
        assert fromPre <==> exists i :: 0 <= i < |names| - 1 && Names(names, i, s, t) by {
          if fromPre {
            var i :| 0 <= i < |pre| && Names(pre, i, s, t);
            assert Names(names, i, s, t);
          }
          if exists i :: 0 <= i < |names| - 1 && Names(names, i, s, t) {
            var i :| 0 <= i < |names| - 1 && Names(names, i, s, t);
            assert Names(pre, i, s, t);
          }
        }
        match Text.SplitFirst(names[last], '.')
        case None =>
          assert g == g0;
          assert !Names(names, last, s, t);
        case Some((s0, t0)) =>
          assert g == AddTable(g0, s0, t0);
          assert Names(names, last, s0, t0);
      }
      forall s
        ensures s in Schemas(g) <==> exists i, t :: 0 <= i < |names| && Names(names, i, s, t)
      {
        var fromPre := exists i, t :: 0 <= i < |pre| && Names(pre, i, s, t);
        assert fromPre <==> exists i, t :: 0 <= i < |names| - 1 && Names(names, i, s, t) by {
          if fromPre {
            var i, t :| 0 <= i < |pre| && Names(pre, i, s, t);
            assert Names(names, i, s, t);
          }
          if exists i, t :: 0 <= i < |names| - 1 && Names(names, i, s, t) {
            var i, t :| 0 <= i < |names| - 1 && Names(names, i, s, t);
            assert Names(pre, i, s, t);
          }
        }
        match Text.SplitFirst(names[last], '.')
        case None =>
          assert g == g0;
          assert forall t :: !Names(names, last, s, t);
        case Some((s0, t0)) =>
          assert g == AddTable(g0, s0, t0);
          assert Names(names, last, s0, t0);
      }
    }
  }

  /** `for table in tables`: every element must be a string (anything else
      has no `split`). */
  function TableNames(tables: Json): (r: Outcome<seq<string>>)
  {
    var items :- Iter(tables);
    StringItems(items)
  }

  function StringItems(items: seq<Json>): (r: Outcome<seq<string>>)
    ensures r.Ok? <==> forall i :: 0 <= i < |items| ==> items[i].Str?
    ensures r.Ok? ==> |r.value| == |items|
    ensures r.Ok? ==> forall i :: 0 <= i < |items| ==> items[i] == Str(r.value[i])
  {
    if |items| == 0 then Ok([])
    else if !items[0].Str? then Err(AttributeError(TypeName(items[0]), "split"))
    else
      var rest :- StringItems(items[1..]);
      Ok([items[0].s] + rest)
  }

  function TablesJson(ts: seq<string>): Json {
    Obj(seq(|ts|, i requires 0 <= i < |ts| => (ts[i], Obj([]))))
  }

  /** `table_objects` as the JSON object sent upstream. */
  function GroupsJson(g: Groups): (j: Json)
    ensures j.Obj? && Keys(j.fields) == Schemas(g)
  {
    Obj(seq(|g|, i requires 0 <= i < |g| => (g[i].0, Obj([("tables", TablesJson(g[i].1))]))))
  }

  lemma {:induction false} TablesOfIndex(g: Groups, i: int)
    requires Distinct(Schemas(g)) && 0 <= i < |g|
    ensures TablesOf(g, g[i].0) == g[i].1
  {
    if i > 0 {
      assert g == [g[0]] + g[1..];
      SchemasCons(g[0], g[1..]);
      DistinctCons(g[0].0, Schemas(g[1..]));
      assert g[i].0 == Schemas(g)[i] != Schemas(g)[0];
      TablesOfIndex(g[1..], i - 1);
    }
  }

  lemma GroupsJsonDistinct(g: Groups)
    requires Distinct(Schemas(g))
    ensures DistinctKeys(GroupsJson(g).fields)
  {
    assert Keys(GroupsJson(g).fields) == Schemas(g);
  }

  lemma GroupsJsonField(g: Groups, k: int)
    requires Distinct(Schemas(g)) && 0 <= k < |g|
    ensures Field(GroupsJson(g), g[k].0) == Obj([("tables", TablesJson(g[k].1))])
  {
    GroupsJsonDistinct(g);
    FieldAt(GroupsJson(g).fields, k);
  }

  lemma TablesJsonField(ts: seq<string>, t: string)
    requires t in ts
    ensures Field(TablesJson(ts), t) == Obj([])
  {
    var tj := TablesJson(ts);
    var n :| 0 <= n < |ts| && ts[n] == t;
    assert Keys(tj.fields)[n] == t;
    LookupFinds(tj.fields, t);
    var v := Lookup(tj.fields, t).value;
    var m :| 0 <= m < |tj.fields| && tj.fields[m] == (t, v);
  }

  /** One grouped name `s.t` is found at `schemas[s]["tables"][t]` with the
      empty object as its value. */
  lemma GroupedNameIsPresent(g: Groups, s: string, t: string)
    requires WellGrouped(g) && t in TablesOf(g, s)
    ensures Field(Field(Field(GroupsJson(g), s), "tables"), t) == Obj([])
  {
    if s !in Schemas(g) {
      TablesAbsent(g, s);
    }
    var k :| 0 <= k < |g| && g[k].0 == s;
    TablesOfIndex(g, k);
    GroupsJsonField(g, k);
    TablesJsonField(g[k].1, t);
  }

  /** The body `resync_tables` sends: every name `s.t` ends up as
      `schemas[s]["tables"][t] == {}` (split at the first dot, so `t` may
      contain dots), no schema key occurs twice, and every schema key is the
      head of some dotted name. */
  lemma ResyncBody(names: seq<string>)
    ensures DistinctKeys(GroupsJson(GroupNames(names)).fields)
    ensures forall i, s, t :: 0 <= i < |names| && Names(names, i, s, t) ==>
              Field(Field(Field(GroupsJson(GroupNames(names)), s), "tables"), t) == Obj([])
    ensures forall s :: s in ObjKeys(GroupsJson(GroupNames(names))) ==>
              exists i, t :: 0 <= i < |names| && Names(names, i, s, t)
  {
    var g := GroupNames(names);
    GroupNamesMembership(names);
    GroupsJsonDistinct(g);
    forall i, s, t | 0 <= i < |names| && Names(names, i, s, t)
      ensures Field(Field(Field(GroupsJson(g), s), "tables"), t) == Obj([])
    {
      GroupedNameIsPresent(g, s, t);
    }
  }

  lemma {:induction false} TablesAbsent(g: Groups, s: string)
    requires s !in Schemas(g)
    ensures TablesOf(g, s) == []
  {
    if |g| > 0 {
      assert g == [g[0]] + g[1..];
      SchemasCons(g[0], g[1..]);
      TablesAbsent(g[1..], s);
    }
  }

  function ResyncTables(c: Client, id: Json, tables: Json): Outcome<Request> {
    var names :- TableNames(tables);
    Ok(Send(c, POST, ConnectorPath(id) + "/schemas/tables/resync",
            Some(Obj([("schemas", GroupsJson(GroupNames(names)))]))))
  }
}
