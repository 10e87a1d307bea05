/** The response normalisers: each reduces a raw upstream document to a
    fixed key set. Those of the Workers host live in `execute_tool`
    (cloudflare/src/worker.py); the connection summary, the connection list
    and the group list are written identically in both hosts. */
module Normalise {
  import opened Results
  import opened JsonValues
  import opened Py

  // ---------------------------------------------------------------------
  // Connection summary (`_extract_connection_summary`, both hosts)

  const SummaryKeys: seq<string> :=
    ["id", "schema", "service", "group_id", "paused",
     "sync_state", "setup_state", "is_historical_sync", "succeeded_at", "failed_at"]

  /** The summary keys read from the connection itself. */
  const ConnectionKeys: seq<string> :=
    ["id", "schema", "service", "group_id", "paused", "succeeded_at", "failed_at"]

  /** The summary keys read from its nested `status` object. */
  const StateKeys: seq<string> := ["sync_state", "setup_state", "is_historical_sync"]

  lemma SummaryKeysDistinct()
    ensures Distinct(SummaryKeys)
  {
  }

  /** `_extract_connection_summary(conn)`. It raises when `conn` is not a
      dict, or when `status` is present but not a dict (`None` included:
      the `{}` default applies only to an absent key). Otherwise the result
      has exactly the ten summary keys. */
  function ConnectionSummary(conn: Json): (r: Outcome<Json>)
    ensures r.Ok? <==> conn.Obj? && (Has(conn, "status") ==> Field(conn, "status").Obj?)
    ensures r.Ok? ==> r.value.Obj? && Keys(r.value.fields) == SummaryKeys && DistinctKeys(r.value.fields)
  {
    var status :- Get(conn, "status", Obj([]));
    var _ :- Get(status, "sync_state", Null);
    var fields := [
      ("id", Field(conn, "id")),
      ("schema", Field(conn, "schema")),
      ("service", Field(conn, "service")),
      ("group_id", Field(conn, "group_id")),
      ("paused", Field(conn, "paused")),
      ("sync_state", Field(status, "sync_state")),
      ("setup_state", Field(status, "setup_state")),
      ("is_historical_sync", Field(status, "is_historical_sync")),
      ("succeeded_at", Field(conn, "succeeded_at")),
      ("failed_at", Field(conn, "failed_at"))];
    SummaryKeysDistinct();
    DistinctKeysOf(fields);
    Ok(Obj(fields))
  }

  /** The status object the summary reads its three nested fields from. */
  function StatusOf(conn: Json): Json {
    if Has(conn, "status") then Field(conn, "status") else Obj([])
  }

  /** A summary carries the connection's own value under each of seven keys
      and the nested status value under the other three; an absent field
      reads as null. */
  lemma SummaryFields(conn: Json)
    requires ConnectionSummary(conn).Ok?
    ensures forall k :: k in ConnectionKeys ==> Field(ConnectionSummary(conn).value, k) == Field(conn, k)
    ensures forall k :: k in StateKeys ==> Field(ConnectionSummary(conn).value, k) == Field(StatusOf(conn), k)
  {
    var fields := ConnectionSummary(conn).value.fields;
    FieldAt(fields, 0); FieldAt(fields, 1); FieldAt(fields, 2); FieldAt(fields, 3); FieldAt(fields, 4);
    FieldAt(fields, 5); FieldAt(fields, 6); FieldAt(fields, 7); FieldAt(fields, 8); FieldAt(fields, 9);
  }

  /** With no `status` upstream the three nested fields are null. */
  lemma SummaryWithoutStatus(conn: Json)
    requires conn.Obj? && !Has(conn, "status")
    ensures ConnectionSummary(conn).Ok?
    ensures forall k :: k in StateKeys ==> Field(ConnectionSummary(conn).value, k) == Null
  {
    SummaryFields(conn);
  }

  /** The keys of the connection the summary reads. */
  const SummarySources: set<string> :=
    {"id", "schema", "service", "group_id", "paused", "status", "succeeded_at", "failed_at"}

  /** Upstream fields outside the documented ones never reach the summary:
      summarising the connection with every other key removed gives the
      same result. */
  lemma SummaryIgnoresExtraFields(fields: Fields)
    ensures ConnectionSummary(Obj(Restrict(fields, SummarySources))) == ConnectionSummary(Obj(fields))
  {
    forall k | k in SummarySources
      ensures Lookup(Restrict(fields, SummarySources), k) == Lookup(fields, k)
    {
      LookupRestrict(fields, SummarySources, k);
    }
  }

  /** `{"connections": [...], "count": len(connections)}` from the items of
      the upstream `data` object. */
  function ConnectionList(result: Json): (r: Outcome<Json>)
    ensures r.Ok? ==> r.value.Obj? && Keys(r.value.fields) == ["connections", "count"]
    ensures r.Ok? ==> Field(r.value, "connections").Arr?
    ensures r.Ok? ==> Field(r.value, "count") == Num(|Field(r.value, "connections").items|)
  {
    var data :- Get(result, "data", Obj([]));
    var raw :- Get(data, "items", Arr([]));
    var items :- Iter(raw);
    var connections :- MapAll(ConnectionSummary, items);
    var fields := [("connections", Arr(connections)), ("count", Num(|connections|))];
    FieldAt(fields, 0);
    FieldAt(fields, 1);
    Ok(Obj(fields))
  }

  /** The list output holds one summary per upstream item, in order, and
      fails exactly when one of the items cannot be summarised. */
  lemma ConnectionListItems(result: Json, items: seq<Json>)
    requires result.Obj? && Field(result, "data").Obj?
    requires Field(Field(result, "data"), "items") == Arr(items)
    ensures ConnectionList(result).Ok? <==> forall i :: 0 <= i < |items| ==> ConnectionSummary(items[i]).Ok?
    ensures ConnectionList(result).Ok? ==>
              && |Field(ConnectionList(result).value, "connections").items| == |items|
              && forall i :: 0 <= i < |items| ==>
                   ConnectionSummary(items[i]) == Ok(Field(ConnectionList(result).value, "connections").items[i])
  {
    if ConnectionList(result).Ok? {
      var connections := MapAll(ConnectionSummary, items).value;
      FieldAt([("connections", Arr(connections)), ("count", Num(|connections|))], 0);
    }
  }

  // ---------------------------------------------------------------------
  // Groups (`list_groups`, both hosts)

  const GroupKeys: seq<string> := ["id", "name", "created_at"]

  /** One group reduced to `{id, name, created_at}`. */
  function GroupEntry(g: Json): (r: Outcome<Json>)
    ensures r.Ok? <==> g.Obj?
    ensures r.Ok? ==> r.value.Obj? && Keys(r.value.fields) == GroupKeys
    ensures r.Ok? ==> forall k :: k in GroupKeys ==> Field(r.value, k) == Field(g, k)
  {
    var _ :- Get(g, "id", Null);
    var fields := [("id", Field(g, "id")), ("name", Field(g, "name")), ("created_at", Field(g, "created_at"))];
    FieldAt(fields, 0);
    FieldAt(fields, 1);
    FieldAt(fields, 2);
    Ok(Obj(fields))
  }

  /** `{"groups": [...], "count": len(groups)}`: every group reduced to
      `{id, name, created_at}`. */
  function GroupList(result: Json): (r: Outcome<Json>)
    ensures r.Ok? ==> r.value.Obj? && Keys(r.value.fields) == ["groups", "count"]
    ensures r.Ok? ==> Field(r.value, "groups").Arr?
    ensures r.Ok? ==> Field(r.value, "count") == Num(|Field(r.value, "groups").items|)
    ensures r.Ok? ==> forall i :: 0 <= i < |Field(r.value, "groups").items| ==>
              Field(r.value, "groups").items[i].Obj? &&
              Keys(Field(r.value, "groups").items[i].fields) == GroupKeys
  {
    var data :- Get(result, "data", Obj([]));
    var raw :- Get(data, "items", Arr([]));
    var items :- Iter(raw);
    var groups :- MapAll(GroupEntry, items);
    var fields := [("groups", Arr(groups)), ("count", Num(|groups|))];
    FieldAt(fields, 0);
    FieldAt(fields, 1);
    Ok(Obj(fields))
  }

  /** The group list holds one `{id, name, created_at}` entry per upstream
      item, in order, and fails exactly when one of the items is not a
      dict. */
  lemma GroupListItems(result: Json, items: seq<Json>)
    requires result.Obj? && Field(result, "data").Obj?
    requires Field(Field(result, "data"), "items") == Arr(items)
    ensures GroupList(result).Ok? <==> forall i :: 0 <= i < |items| ==> items[i].Obj?
    ensures GroupList(result).Ok? ==>
              && |Field(GroupList(result).value, "groups").items| == |items|
              && forall i :: 0 <= i < |items| ==>
                   GroupEntry(items[i]) == Ok(Field(GroupList(result).value, "groups").items[i])
  {
    if GroupList(result).Ok? {
      var groups := MapAll(GroupEntry, items).value;
      FieldAt([("groups", Arr(groups)), ("count", Num(|groups|))], 0);
    }
  }

  // ---------------------------------------------------------------------
  // Connection status detail (Workers `get_connection_status`)

  const DetailKeys: seq<string> :=
    ["id", "schema", "service", "group_id", "paused", "status", "tasks", "warnings",
     "succeeded_at", "failed_at"]

  const DetailStateKeys: seq<string> := ["sync_state", "setup_state", "update_state", "is_historical_sync"]

  lemma DetailKeysDistinct()
    ensures Distinct(DetailKeys)
  {
  }

  const EntryKeys: seq<string> := ["code", "message", "details"]

  /** One task or warning reshaped to `{code, message, details}`; any other
      field is dropped. */
  function Entry(e: Json): (r: Outcome<Json>)
    ensures r.Ok? <==> e.Obj?
    ensures r.Ok? ==> r.value.Obj? && Keys(r.value.fields) == EntryKeys
    ensures r.Ok? ==> forall k :: k in EntryKeys ==> Field(r.value, k) == Field(e, k)
  {
    var _ :- Get(e, "code", Null);
    var fields := [("code", Field(e, "code")), ("message", Field(e, "message")), ("details", Field(e, "details"))];
    FieldAt(fields, 0);
    FieldAt(fields, 1);
    FieldAt(fields, 2);
    Ok(Obj(fields))
  }

  /** The reshaped entries of a task or warning list. */
  function Entries(list: Json): (r: Outcome<seq<Json>>)
    ensures r.Ok? ==> AllEntries(r.value)
    ensures list == Arr([]) ==> r == Ok([])
  {
    var items :- Iter(list);
    MapAll(Entry, items)
  }

  /** The four-key status object of the detail. */
  function StateObject(status: Json): (j: Json)
    ensures j.Obj? && Keys(j.fields) == DetailStateKeys
    ensures forall k :: k in DetailStateKeys ==> Field(j, k) == Field(status, k)
  {
    var fields := [
      ("sync_state", Field(status, "sync_state")),
      ("setup_state", Field(status, "setup_state")),
      ("update_state", Field(status, "update_state")),
      ("is_historical_sync", Field(status, "is_historical_sync"))];
    FieldAt(fields, 0);
    FieldAt(fields, 1);
    FieldAt(fields, 2);
    FieldAt(fields, 3);
    Obj(fields)
  }

  /** The ten-key detail object built from the connection `data`, its
      `status` object and the reshaped task and warning lists. */
  function DetailObject(data: Json, status: Json, tasks: seq<Json>, warnings: seq<Json>): (j: Json)
    ensures j.Obj? && Keys(j.fields) == DetailKeys
    ensures Field(j, "status") == StateObject(status)
    ensures Field(j, "tasks") == Arr(tasks)
    ensures Field(j, "warnings") == Arr(warnings)
    ensures Field(j, "id") == Field(data, "id") && Field(j, "schema") == Field(data, "schema")
    ensures Field(j, "service") == Field(data, "service") && Field(j, "group_id") == Field(data, "group_id")
    ensures Field(j, "paused") == Field(data, "paused")
    ensures Field(j, "succeeded_at") == Field(data, "succeeded_at") && Field(j, "failed_at") == Field(data, "failed_at")
  {
    var fields := [
      ("id", Field(data, "id")),
      ("schema", Field(data, "schema")),
      ("service", Field(data, "service")),
      ("group_id", Field(data, "group_id")),
      ("paused", Field(data, "paused")),
      ("status", StateObject(status)),
      ("tasks", Arr(tasks)),
      ("warnings", Arr(warnings)),
      ("succeeded_at", Field(data, "succeeded_at")),
      ("failed_at", Field(data, "failed_at"))];
    assert Keys(fields) == DetailKeys;
    DetailKeysDistinct();
    DistinctKeysOf(fields);
    FieldAt(fields, 0); FieldAt(fields, 1); FieldAt(fields, 2); FieldAt(fields, 3); FieldAt(fields, 4);
    FieldAt(fields, 5); FieldAt(fields, 6); FieldAt(fields, 7); FieldAt(fields, 8); FieldAt(fields, 9);
    Obj(fields)
  }

  /** Every element is a reshaped task or warning. */
  predicate AllEntries(xs: seq<Json>) {
    forall i :: 0 <= i < |xs| ==> xs[i].Obj? && Keys(xs[i].fields) == EntryKeys
  }

  /** The Workers `get_connection_status` result: ten keys, a four-key
      status object, and tasks and warnings each reshaped to
      `{code, message, details}`. */
  function StatusDetail(result: Json): (r: Outcome<Json>)
    ensures r.Ok? ==> r.value.Obj? && Keys(r.value.fields) == DetailKeys
    ensures r.Ok? ==> Field(r.value, "status").Obj? && Keys(Field(r.value, "status").fields) == DetailStateKeys
    ensures r.Ok? ==> Field(r.value, "tasks").Arr? && AllEntries(Field(r.value, "tasks").items)
    ensures r.Ok? ==> Field(r.value, "warnings").Arr? && AllEntries(Field(r.value, "warnings").items)
  {
    var data :- Get(result, "data", Obj([]));
    var status :- Get(data, "status", Obj([]));
    var rawTasks :- Get(status, "tasks", Arr([]));
    var tasks :- Entries(rawTasks);
    // `status` is a dict once its `tasks` were read, so this `get` cannot raise.
    var rawWarnings := if Has(status, "warnings") then Field(status, "warnings") else Arr([]);
    var warnings :- Entries(rawWarnings);
    Ok(DetailObject(data, status, tasks, warnings))
  }

  /** Without an upstream `status` the detail has empty task and warning
      lists and a status object whose four values are null. */
  lemma DetailWithoutStatus(result: Json)
    requires result.Obj? && Field(result, "data").Obj?
    requires !Has(Field(result, "data"), "status")
    ensures StatusDetail(result).Ok?
    ensures Field(StatusDetail(result).value, "tasks") == Arr([])
    ensures Field(StatusDetail(result).value, "warnings") == Arr([])
    ensures forall k :: k in DetailStateKeys ==> Field(Field(StatusDetail(result).value, "status"), k) == Null
  {
  }

  /** The `data` object of a reply, `{}` when absent. */
  function DataOf(result: Json): Json {
    if Has(result, "data") then Field(result, "data") else Obj([])
  }

  /** The `status` object inside a reply's `data`, `{}` when absent. */
  function DetailStatusOf(result: Json): Json {
    var data := DataOf(result);
    if Has(data, "status") then Field(data, "status") else Obj([])
  }

  /** `obj.get(k, [])` on a dict. */
  function ListOf(obj: Json, k: string): Json {
    if Has(obj, k) then Field(obj, k) else Arr([])
  }

  /** The detail reshapes each upstream task and warning, one entry per
      item and in order, failing exactly when one of them is not a dict. */
  lemma StatusDetailItems(result: Json, ts: seq<Json>, ws: seq<Json>)
    requires result.Obj? && DataOf(result).Obj? && DetailStatusOf(result).Obj?
    requires Iter(ListOf(DetailStatusOf(result), "tasks")) == Ok(ts)
    requires Iter(ListOf(DetailStatusOf(result), "warnings")) == Ok(ws)
    ensures StatusDetail(result).Ok? <==>
              (forall i :: 0 <= i < |ts| ==> ts[i].Obj?) && (forall i :: 0 <= i < |ws| ==> ws[i].Obj?)
    ensures StatusDetail(result).Ok? ==>
              var out := StatusDetail(result).value;
              && |Field(out, "tasks").items| == |ts|
              && (forall i :: 0 <= i < |ts| ==> Entry(ts[i]) == Ok(Field(out, "tasks").items[i]))
              && |Field(out, "warnings").items| == |ws|
              && (forall i :: 0 <= i < |ws| ==> Entry(ws[i]) == Ok(Field(out, "warnings").items[i]))
  {
    var data := DataOf(result);
    var status := DetailStatusOf(result);
    assert Get(result, "data", Obj([])) == Ok(data);
    assert Get(data, "status", Obj([])) == Ok(status);
    assert Get(status, "tasks", Arr([])) == Ok(ListOf(status, "tasks"));
    assert Entries(ListOf(status, "tasks")) == MapAll(Entry, ts);
    assert Entries(ListOf(status, "warnings")) == MapAll(Entry, ws);
    if StatusDetail(result).Ok? {
      var tasks := MapAll(Entry, ts).value;
      var warnings := MapAll(Entry, ws).value;
      assert StatusDetail(result).value == DetailObject(data, status, tasks, warnings);
    }
  }

  /** A successful detail is the detail object of the reply's `data` and
      `status` with some reshaped task and warning lists. */
  lemma StatusDetailUnfold(result: Json) returns (tasks: seq<Json>, warnings: seq<Json>)
    requires StatusDetail(result).Ok?
    ensures StatusDetail(result).value == DetailObject(DataOf(result), DetailStatusOf(result), tasks, warnings)
  {
    var data := DataOf(result);
    var status := DetailStatusOf(result);
    assert Get(result, "data", Obj([])) == Ok(data);
    assert Get(data, "status", Obj([])) == Ok(status);
    assert Get(status, "tasks", Arr([])) == Ok(ListOf(status, "tasks"));
    tasks := Entries(ListOf(status, "tasks")).value;
    warnings := Entries(ListOf(status, "warnings")).value;
  }

  /** Every value of the detail other than tasks and warnings is copied
      from the upstream `data` or from its `status`. */
  lemma StatusDetailCopies(result: Json)
    requires StatusDetail(result).Ok?
    ensures var out := StatusDetail(result).value;
            var data := DataOf(result);
            && Field(out, "id") == Field(data, "id") && Field(out, "schema") == Field(data, "schema")
            && Field(out, "service") == Field(data, "service") && Field(out, "group_id") == Field(data, "group_id")
            && Field(out, "paused") == Field(data, "paused")
            && Field(out, "succeeded_at") == Field(data, "succeeded_at") && Field(out, "failed_at") == Field(data, "failed_at")
    ensures Field(StatusDetail(result).value, "status") == StateObject(DetailStatusOf(result))
  {
    var tasks, warnings := StatusDetailUnfold(result);
  }

  // ---------------------------------------------------------------------
  // Connection test (Workers `test_connection`)

  const TestKeys: seq<string> := ["title", "status", "message"]

  const ReportKeys: seq<string> := ["connection_id", "overall_status", "passed_count", "failed_count", "tests"]

  /** One setup test reshaped to `{title, status, message}`; the status
      defaults to `"UNKNOWN"` only when the key is absent. */
  function TestEntry(t: Json): (r: Outcome<Json>)
    ensures r.Ok? <==> t.Obj?
    ensures r.Ok? ==> r.value.Obj? && Keys(r.value.fields) == TestKeys
    ensures r.Ok? ==> Field(r.value, "title") == Field(t, "title")
    ensures r.Ok? ==> Field(r.value, "message") == Field(t, "message")
    ensures r.Ok? ==> Field(r.value, "status") == if Has(t, "status") then Field(t, "status") else Str("UNKNOWN")
  {
    var status :- Get(t, "status", Str("UNKNOWN"));
    var fields := [("title", Field(t, "title")), ("status", status), ("message", Field(t, "message"))];
    FieldAt(fields, 0);
    FieldAt(fields, 1);
    FieldAt(fields, 2);
    Ok(Obj(fields))
  }

  /** `sum(1 for t in tests if t["status"] == s)`. */
  function CountStatus(tests: seq<Json>, s: string): (n: nat)
    ensures n <= |tests|
    ensures n > 0 <==> exists i :: 0 <= i < |tests| && Field(tests[i], "status") == Str(s)
  {
    if |tests| == 0 then 0
    else
      assert forall i :: 1 <= i < |tests| ==> tests[i] == tests[1..][i - 1];
      (if Field(tests[0], "status") == Str(s) then 1 else 0) + CountStatus(tests[1..], s)
  }

  /** A test is counted at most once: passed and failed together never
      exceed the number of tests. */
  lemma {:induction false} CountsDisjoint(tests: seq<Json>, a: string, b: string)
    requires a != b
    ensures CountStatus(tests, a) + CountStatus(tests, b) <= |tests|
  {
    if |tests| > 0 {
      CountsDisjoint(tests[1..], a, b);
    }
  }

  function Verdict(passed: nat, failed: nat): string {
    if failed == 0 && passed > 0 then "PASSED" else "FAILED"
  }

  /** The Workers `test_connection` result. */
  function TestReport(connectionId: Json, result: Json): (r: Outcome<Json>)
    ensures r.Ok? ==> r.value.Obj? && Keys(r.value.fields) == ReportKeys
    ensures r.Ok? ==> Field(r.value, "connection_id") == connectionId
    ensures r.Ok? ==> Field(r.value, "tests").Arr?
    ensures r.Ok? ==> Field(r.value, "passed_count") == Num(CountStatus(Field(r.value, "tests").items, "PASSED"))
    ensures r.Ok? ==> Field(r.value, "failed_count") == Num(CountStatus(Field(r.value, "tests").items, "FAILED"))
    ensures r.Ok? ==> (Field(r.value, "overall_status") ==
                        Str(Verdict(CountStatus(Field(r.value, "tests").items, "PASSED"),
                                    CountStatus(Field(r.value, "tests").items, "FAILED"))))
    ensures r.Ok? ==> forall i :: 0 <= i < |Field(r.value, "tests").items| ==>
              Field(r.value, "tests").items[i].Obj? && Keys(Field(r.value, "tests").items[i].fields) == TestKeys
  {
    var data :- Get(result, "data", Obj([]));
    var raw :- Get(data, "setup_tests", Arr([]));
    var items :- Iter(raw);
    var tests :- MapAll(TestEntry, items);
    var passed := CountStatus(tests, "PASSED");
    var failed := CountStatus(tests, "FAILED");
    var fields := [
      ("connection_id", connectionId),
      ("overall_status", Str(Verdict(passed, failed))),
      ("passed_count", Num(passed)),
      ("failed_count", Num(failed)),
      ("tests", Arr(tests))];
    FieldAt(fields, 0);
    FieldAt(fields, 1);
    FieldAt(fields, 2);
    FieldAt(fields, 3);
    FieldAt(fields, 4);
    Ok(Obj(fields))
  }

  /** The overall status is `"PASSED"` exactly when no reshaped test failed
      and at least one passed, so an empty test list reports `"FAILED"`;
      and the two counts never exceed the number of tests. */
  lemma TestVerdict(connectionId: Json, result: Json)
    requires TestReport(connectionId, result).Ok?
    ensures var out := TestReport(connectionId, result).value;
            var tests := Field(out, "tests").items;
            && (Field(out, "overall_status") == Str("PASSED") <==>
                 (exists i :: 0 <= i < |tests| && Field(tests[i], "status") == Str("PASSED")) &&
                 (forall i :: 0 <= i < |tests| ==> Field(tests[i], "status") != Str("FAILED")))
            && (|tests| == 0 ==> Field(out, "overall_status") == Str("FAILED"))
            && CountStatus(tests, "PASSED") + CountStatus(tests, "FAILED") <= |tests|
  {
    var out := TestReport(connectionId, result).value;
    var tests := Field(out, "tests").items;
    CountsDisjoint(tests, "PASSED", "FAILED");
  }

  /** The report reshapes each upstream setup test, one entry per item and
      in order, failing exactly when one of them is not a dict; so the
      counts and the verdict are taken over the upstream tests. */
  lemma TestReportItems(connectionId: Json, result: Json, ts: seq<Json>)
    requires result.Obj? && DataOf(result).Obj?
    requires Iter(ListOf(DataOf(result), "setup_tests")) == Ok(ts)
    ensures TestReport(connectionId, result).Ok? <==> forall i :: 0 <= i < |ts| ==> ts[i].Obj?
    ensures TestReport(connectionId, result).Ok? ==>
              var tests := Field(TestReport(connectionId, result).value, "tests").items;
              && |tests| == |ts|
              && forall i :: 0 <= i < |ts| ==> TestEntry(ts[i]) == Ok(tests[i])
  {
    if TestReport(connectionId, result).Ok? {
      var tests := MapAll(TestEntry, ts).value;
      var passed := CountStatus(tests, "PASSED");
      var failed := CountStatus(tests, "FAILED");
      FieldAt([("connection_id", connectionId),
               ("overall_status", Str(Verdict(passed, failed))),
               ("passed_count", Num(passed)),
               ("failed_count", Num(failed)),
               ("tests", Arr(tests))], 4);
    }
  }

  // ---------------------------------------------------------------------
  // Schema and tables (Workers `get_schema` and `list_tables`)

  /** The Workers `get_schema` result; `schemas` is passed through as the
      upstream sent it, `{}` when it sent none. */
  function SchemaReport(connectionId: Json, result: Json): (r: Outcome<Json>)
    ensures r.Ok? <==> result.Obj? && (Has(result, "data") ==> Field(result, "data").Obj?)
    ensures r.Ok? ==> r.value.Obj?
    ensures r.Ok? ==> Keys(r.value.fields) == ["connection_id", "schema_change_handling", "schemas"]
    ensures r.Ok? ==> Field(r.value, "connection_id") == connectionId
    ensures r.Ok? ==> (Field(r.value, "schemas") ==
                        if Has(Field(result, "data"), "schemas") then Field(Field(result, "data"), "schemas")
                        else Obj([]))
  {
    var data :- Get(result, "data", Obj([]));
    var schemas :- Get(data, "schemas", Obj([]));
    var fields := [
      ("connection_id", connectionId),
      ("schema_change_handling", Field(data, "schema_change_handling")),
      ("schemas", schemas)];
    FieldAt(fields, 0);
    FieldAt(fields, 2);
    Ok(Obj(fields))
  }

  const RowKeys: seq<string> := ["schema", "table", "full_name", "enabled", "sync_mode"]

  /** What a `list_tables` row says about table `t` of schema `s` whose
      upstream metadata is `data`. */
  predicate RowOf(row: Json, s: string, t: string, data: Json) {
    && row.Obj? && Keys(row.fields) == RowKeys
    && Field(row, "schema") == Str(s)
    && Field(row, "table") == Str(t)
    && Field(row, "full_name") == Str(s + "." + t)
    && Field(row, "enabled") == (if Has(data, "enabled") then Field(data, "enabled") else Bool(false))
    && Field(row, "sync_mode") == Field(data, "sync_mode")
  }

  /** One `list_tables` row; the table metadata must be a dict. */
  function TableRow(s: string, t: string, data: Json): (r: Outcome<Json>)
    ensures r.Ok? <==> data.Obj?
    ensures r.Ok? ==> RowOf(r.value, s, t, data)
  {
    var enabled :- Get(data, "enabled", Bool(false));
    var fields := [
      ("schema", Str(s)),
      ("table", Str(t)),
      ("full_name", Str(s + "." + t)),
      ("enabled", enabled),
      ("sync_mode", Field(data, "sync_mode"))];
    FieldAt(fields, 0);
    FieldAt(fields, 0);
    FieldAt(fields, 1);
    FieldAt(fields, 2);
    FieldAt(fields, 3);
    FieldAt(fields, 4);
    Ok(Obj(fields))
  }

  /** The inner loop over one schema's `tables.items()`. */
  function TableRows(s: string, tables: Fields): (r: Outcome<seq<Json>>)
    ensures r.Ok? ==> |r.value| == |tables|
    ensures r.Ok? ==> forall i :: 0 <= i < |tables| ==> RowOf(r.value[i], s, tables[i].0, tables[i].1)
  {
    if |tables| == 0 then Ok([])
    else
      var row :- TableRow(s, tables[0].0, tables[0].1);
      var rest :- TableRows(s, tables[1..]);
      assert forall i :: 1 <= i < |tables| ==> tables[i] == tables[1..][i - 1];
      Ok([row] + rest)
  }

  /** The tables of one schema's metadata, `{}` when it lists none. */
  function SchemaTables(schemaData: Json): Outcome<Fields> {
    var raw :- Get(schemaData, "tables", Obj([]));
    Items(raw)
  }

  /** The outer loop over `schemas.items()`. */
  function AllRows(schemas: Fields): Outcome<seq<Json>> {
    if |schemas| == 0 then Ok([])
    else
      var tables :- SchemaTables(schemas[0].1);
      var rows :- TableRows(schemas[0].0, tables);
      var rest :- AllRows(schemas[1..]);
      Ok(rows + rest)
  }

  /** Reference order: every (schema, table, metadata) triple, schema by
      schema and, within a schema, table by table, in insertion order. */
  function Flatten(schemas: Fields): seq<(string, string, Json)> {
    if |schemas| == 0 then []
    else
      var tables := if SchemaTables(schemas[0].1).Ok? then SchemaTables(schemas[0].1).value else [];
      seq(|tables|, i requires 0 <= i < |tables| => (schemas[0].0, tables[i].0, tables[i].1))
        + Flatten(schemas[1..])
  }

  /** Row `i` of `list_tables` describes the `i`-th table in schema-then-
      table insertion order; there is one row per table. */
  lemma {:induction false} RowsFollowFlatten(schemas: Fields)
    requires AllRows(schemas).Ok?
    ensures |AllRows(schemas).value| == |Flatten(schemas)|
    ensures forall i :: 0 <= i < |Flatten(schemas)| ==>
              RowOf(AllRows(schemas).value[i], Flatten(schemas)[i].0, Flatten(schemas)[i].1, Flatten(schemas)[i].2)
  {
    if |schemas| > 0 {
      RowsFollowFlatten(schemas[1..]);
      var tables := SchemaTables(schemas[0].1).value;
      var rows := TableRows(schemas[0].0, tables).value;
      var rest := AllRows(schemas[1..]).value;
      assert AllRows(schemas).value == rows + rest;
      var head := seq(|tables|, i requires 0 <= i < |tables| => (schemas[0].0, tables[i].0, tables[i].1));
      assert Flatten(schemas) == head + Flatten(schemas[1..]);
      forall i | 0 <= i < |Flatten(schemas)|
        ensures RowOf(AllRows(schemas).value[i], Flatten(schemas)[i].0, Flatten(schemas)[i].1, Flatten(schemas)[i].2)
      {
        if i < |rows| {
          assert (rows + rest)[i] == rows[i];
        } else {
          assert (rows + rest)[i] == rest[i - |rows|];
          assert Flatten(schemas)[i] == Flatten(schemas[1..])[i - |head|];
        }
      }
    }
  }

  /** The Workers `list_tables` result. */
  function TableList(connectionId: Json, result: Json): (r: Outcome<Json>)
    ensures r.Ok? ==> r.value.Obj? && Keys(r.value.fields) == ["connection_id", "tables", "count"]
    ensures r.Ok? ==> Field(r.value, "tables").Arr?
    ensures r.Ok? ==> Field(r.value, "count") == Num(|Field(r.value, "tables").items|)
  {
    var data :- Get(result, "data", Obj([]));
    var schemas :- Get(data, "schemas", Obj([]));
    var pairs :- Items(schemas);
    var rows :- AllRows(pairs);
    var fields := [("connection_id", connectionId), ("tables", Arr(rows)), ("count", Num(|rows|))];
    FieldAt(fields, 1);
    FieldAt(fields, 2);
    Ok(Obj(fields))
  }

  /** The schemas a `list_tables` call walks: `{}` when the upstream sent none. */
  function UpstreamSchemas(result: Json): Fields {
    var schemas := Field(Field(result, "data"), "schemas");
    if schemas.Obj? then schemas.fields else []
  }

  /** Every `list_tables` row is the `i`-th table in insertion order, with
      `full_name == schema + "." + table` and `enabled` defaulting to false;
      `count` is the number of tables across all schemas. */
  lemma TableListRows(connectionId: Json, result: Json)
    requires TableList(connectionId, result).Ok?
    ensures var out := TableList(connectionId, result).value;
            var flat := Flatten(UpstreamSchemas(result));
            && Field(out, "count") == Num(|flat|)
            && |Field(out, "tables").items| == |flat|
            && forall i :: 0 <= i < |flat| ==>
                 RowOf(Field(out, "tables").items[i], flat[i].0, flat[i].1, flat[i].2)
  {
    var data := Get(result, "data", Obj([])).value;
    var schemas := Get(data, "schemas", Obj([])).value;
    RowsFollowFlatten(schemas.fields);
    var out := TableList(connectionId, result).value;
    FieldAt(out.fields, 1);
    assert UpstreamSchemas(result) == schemas.fields;
  }
}
