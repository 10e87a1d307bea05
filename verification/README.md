# Fivetran MCP tool dispatch, in Dafny

This project models the part of the Fivetran MCP server that turns a tool call into one request to the Fivetran REST API and reshapes the reply. The code exists in two hosts:

- The Cloudflare Workers host (`cloudflare/src/worker.py`) has:
  - its own `FivetranClient`;
  - the `TOOLS` registry of twelve tools;
  - the `execute_tool` dispatcher with its response normalisers;
  - the `on_fetch` router.
- The FastMCP host has:
  - the tool functions of `src/fivetran_mcp/server.py`, with `_get_client`;
  - the httpx-based client of `src/fivetran_mcp/fivetran_api.py`.

The model works on values, not on a network.

- JSON is the datatype `JsonValues.Json`. Objects are ordered association lists, so Python's insertion order and `dict.get` carry over as they are. The default of `dict.get` applies only to an absent key, never to a key whose value is `null`.
- The Python runtime errors the code can hit are values of `Py.PyError`: `AttributeError`, `KeyError`, `TypeError`, the JSON decoder's error, a transport failure, an HTTP status error and `ValueError`. Every operation returns a `Py.Outcome`.
- The upstream reply is a parameter (`Http.Reply`): a status plus a parsed, empty or non-JSON body, or no answer at all. So is the worker's environment, and so are the process environment and the cached client of the FastMCP host.

Modules:

- `Results`, `Bytes`, `Text`: option and result types, bytes, and the string operations the code uses (`split(c, 1)`, `rstrip`, `split(c)[-1]`, `str(int)`).
- `JsonValues`, `Py`: JSON values, lookups, and the Python operations used on them (`get`, `[]`, `items()`, iteration, truthiness, `str()`).
- `Base64`, `Utf8`, `BasicAuth`:
  - the base 64 encoding of section 4 of RFC 4648;
  - UTF-8 as in RFC 3629;
  - the `Basic` credentials of section 2 of RFC 7617.

  Each has its decode round trip.
- `Http`: requests and replies.
- `WorkerClient`: the Workers client. This covers paths, bodies, reading the reply, and the grouping of `"schema.table"` names for `resync_tables`.
- `Registry`: the `TOOLS` table, and the schema JSON it publishes.
- `Normalise`: the response normalisers. The connection summary, the connection list and the group list are shared by both hosts.
- `WorkerDispatch`: `execute_tool`. `Routing`: `on_fetch`.
- `FastClient`: the FastMCP client. `FastServer`: the FastMCP tools and `_get_client`.

## Model

| member | source | states |
|---|---|---|
| BasicAuth.Header | cloudflare/src/worker.py:24-28 | the `Authorization` value starts with the `Basic ` scheme |
| BasicAuth.HeaderRoundTrip | src/fivetran_mcp/fivetran_api.py:14-21 | decoding the header's token (base 64, then UTF-8) and splitting it at the first colon gives back the key and the secret, whenever the key has no colon |
| BasicAuth.ColonInKeyIsAmbiguous | cloudflare/src/worker.py:27 | a key containing a colon gives the same header as a shorter key whose secret starts with the rest of it, so such keys cannot be recovered |
| Base64.RoundTrip | cloudflare/src/worker.py:28 | decoding per section 4 of RFC 4648 inverts `b64encode` on every octet string |
| Base64.Encode | cloudflare/src/worker.py:28 | the encoding has `4 * ceil(n / 3)` characters |
| Utf8.RoundTrip | cloudflare/src/worker.py:28 | decoding inverts `str.encode()` on every string of Unicode scalar values |
| Text.SplitFirst | cloudflare/src/worker.py:65 | `split(".", 1)` has two parts exactly when the separator occurs, and splits at its first occurrence |
| Text.SplitFirstUnique | cloudflare/src/worker.py:65 | the split of `head + "." + tail` with a dot-free head is `(head, tail)`, even when `tail` contains dots |
| Py.GetDefaultOnlyWhenAbsent | cloudflare/src/worker.py:303 | `d.get(k, default)` gives the default only for an absent key; a key present with `None` gives `None` |
| Py.MapAll | cloudflare/src/worker.py:248 | a list comprehension succeeds exactly when every step does, keeps order and length, and otherwise raises the first step's exception |
| WorkerClient.Send | cloudflare/src/worker.py:30-41 | the request goes to `BASE_URL + path` with the client's `Authorization`; a body is sent exactly when the data is truthy, and then unchanged |
| WorkerClient.Receive | cloudflare/src/worker.py:43-45 | the status is never examined; an empty body reads as `{}`; text that is not JSON raises the decoder's error |
| WorkerClient.AddTable | cloudflare/src/worker.py:67-71 | one loop step adds the schema when new and the table under it, changes no other schema, and keeps both key levels duplicate-free |
| WorkerClient.GroupNamesMembership | cloudflare/src/worker.py:64-71 | a schema is a key exactly when some input splits with it as head, and a table sits under it exactly when some input splits into the two; inputs without a dot leave no trace and repeats collapse |
| WorkerClient.ResyncBody | cloudflare/src/worker.py:62-72 | every dotted input `s.t` gives `schemas[s]["tables"][t] == {}`, split at the first dot; schema keys are distinct and each comes from a dotted input |
| WorkerClient.StringItems | cloudflare/src/worker.py:64-65 | iterating the tables succeeds exactly when every element is a string, and yields them in order |
| Registry.RegistryIsClosed | cloudflare/src/worker.py:97-219 | twelve tools, each listed once under a distinct name; a name is found exactly when it is a registered one |
| Registry.RequiredAreDeclared | cloudflare/src/worker.py:97-219 | every `required` name is a declared property of its tool |
| Registry.PublishedUnderName | cloudflare/src/worker.py:377-378 | the `tools` document holds each tool's definition under its name |
| Registry.PublishedRequired | cloudflare/src/worker.py:139-149 | a published definition lists exactly the tool's required parameters, and has no `required` key when there are none |
| Registry.ToolsJson | cloudflare/src/worker.py:97 | the keys of `TOOLS` are exactly the registered names, in order |
| Normalise.ConnectionSummary | cloudflare/src/worker.py:222-236 | the summary raises exactly when the connection is not a dict or its `status` is present and not a dict; otherwise it has exactly the ten documented keys |
| Normalise.SummaryFields | cloudflare/src/worker.py:224-235 | seven summary values are the connection's own, three are those of its `status` (`{}` when absent) |
| Normalise.SummaryWithoutStatus | cloudflare/src/worker.py:224 | with no `status`, `sync_state`, `setup_state` and `is_historical_sync` are null |
| Normalise.SummaryIgnoresExtraFields | src/fivetran_mcp/server.py:239-253 | removing every undocumented key from the connection leaves the summary unchanged |
| Normalise.ConnectionList | cloudflare/src/worker.py:248-249 | the output has keys `connections` and `count`, and `count` is the length of `connections` |
| Normalise.ConnectionListItems | cloudflare/src/worker.py:248 | the list fails exactly when some item cannot be summarised, and otherwise holds one summary per item, in order |
| Normalise.GroupEntry | cloudflare/src/worker.py:297 | a group becomes exactly `{id, name, created_at}`, with the group's values |
| Normalise.GroupList | src/fivetran_mcp/server.py:208-212 | every group is reduced to exactly `{id, name, created_at}` and `count` is the number of groups |
| Normalise.GroupListItems | cloudflare/src/worker.py:296-299 | the list holds one reduced entry per upstream item, in order, and fails exactly when some item is not a dict |
| Normalise.Entry | cloudflare/src/worker.py:255-256 | a task or warning becomes exactly `{code, message, details}` with its own values; other fields are dropped |
| Normalise.StateObject | cloudflare/src/worker.py:263-268 | the status object has exactly the four status keys, copied from the upstream status |
| Normalise.StatusDetail | cloudflare/src/worker.py:253-273 | the detail has exactly the ten keys, a four-key status object, and tasks and warnings reshaped to `{code, message, details}` |
| Normalise.DetailObject | cloudflare/src/worker.py:257-273 | the ten keys; `id`, `schema`, `service`, `group_id`, `paused`, `succeeded_at` and `failed_at` are copied from `data`; the status object, tasks and warnings are the ones given |
| Normalise.StatusDetailItems | cloudflare/src/worker.py:251-256 | one reshaped task per upstream task and one warning per upstream warning, in order; the detail fails exactly when one of them is not a dict |
| Normalise.StatusDetailCopies | cloudflare/src/worker.py:253-273 | the seven connection values come from `data` and the status object is built from `data.status` |
| Normalise.DetailWithoutStatus | cloudflare/src/worker.py:254-256 | with no `status`, tasks and warnings are empty and the four status values are null |
| Normalise.TestEntry | cloudflare/src/worker.py:303 | a test becomes exactly `{title, status, message}`; `status` is `"UNKNOWN"` only when the key is absent |
| Normalise.CountStatus | cloudflare/src/worker.py:304-305 | the count never exceeds the number of tests and is positive exactly when some test has that status |
| Normalise.CountsDisjoint | cloudflare/src/worker.py:304-305 | `passed_count + failed_count <= len(tests)` |
| Normalise.TestReport | cloudflare/src/worker.py:302-312 | the report has exactly its five keys, echoes the connection id, and its counts and verdict are those of the reshaped tests |
| Normalise.TestReportItems | cloudflare/src/worker.py:300-304 | one reshaped test per upstream setup test, in order; the report fails exactly when one of them is not a dict |
| Normalise.TestVerdict | cloudflare/src/worker.py:308 | `overall_status` is `"PASSED"` exactly when some test passed and none failed, so an empty list reports `"FAILED"` |
| Normalise.SchemaReport | cloudflare/src/worker.py:315-317 | the report fails exactly when the reply or its `data` is not a dict; `schemas` is the upstream value, or `{}` when absent |
| Normalise.TableRow | cloudflare/src/worker.py:325-331 | a row is `{schema, table, full_name, enabled, sync_mode}` with `full_name == schema + "." + table`, and `enabled` is false only when absent |
| Normalise.TableRows | cloudflare/src/worker.py:324-331 | one row per table of a schema, in insertion order |
| Normalise.RowsFollowFlatten | cloudflare/src/worker.py:321-331 | row `i` describes the `i`-th table in schema-then-table insertion order, and there is one row per table |
| Normalise.TableListRows | cloudflare/src/worker.py:320-332 | the `list_tables` rows follow that order, and `count` is the total number of tables across schemas |
| WorkerDispatch.Shape | cloudflare/src/worker.py:239-336 | every tool's result has exactly the keys of its reference key list |
| WorkerDispatch.Execute | cloudflare/src/worker.py:239-336 | a request is issued exactly when the arguments are read without error; a successful result has its tool's keys |
| WorkerDispatch.ExecuteNamed | cloudflare/src/worker.py:338-339 | an unregistered name returns `{"error": "Unknown tool: <name>"}` without a request |
| WorkerDispatch.Ack | cloudflare/src/worker.py:276-294 | an acknowledgement has `success: true`, the tool's fixed message, the connection id, and `paused` or `tables` where the tool has them |
| WorkerDispatch.ErrorKeyIffUnknown | cloudflare/src/worker.py:241-339 | a returned result has an `error` key exactly when the tool name is not registered |
| WorkerDispatch.WellTypedIssuesRequest | cloudflare/src/worker.py:97-219 | arguments that honour the published schema always reach the upstream API |
| WorkerDispatch.MissingRequiredRaises | cloudflare/src/worker.py:252-335 | a dict lacking a required key raises `KeyError` for a missing required key before any request |
| WorkerDispatch.ListConnectionsRoute | cloudflare/src/worker.py:241-247 | the group endpoint is used exactly when `group_id` is truthy; on both routes `limit` defaults to 100 |
| WorkerDispatch.TriggerSyncBody | cloudflare/src/worker.py:276 | `trigger_sync` always sends `{"force": ...}`, with `force` false only when absent |
| WorkerDispatch.AckIgnoresReply | cloudflare/src/worker.py:275-294 | the acknowledging tools return the same success object whatever status and JSON body come back |
| WorkerDispatch.MalformedReplyRaisesDecodeError | cloudflare/src/worker.py:45 | an upstream body that is not JSON raises the decoder's error after the request |
| Routing.PathOf | cloudflare/src/worker.py:352 | the route has no slash, and is empty when the URL has none |
| Routing.PathOfSegment | cloudflare/src/worker.py:352 | the route is the last segment before the query, whatever trailing slashes follow it |
| Routing.OnFetch | cloudflare/src/worker.py:348-409 | the status is one of 200, 204, 400, 404 and 500; an upstream request is made only for `POST` to `execute` with both secrets set |
| Routing.ExecuteRoute | cloudflare/src/worker.py:381-407 | `execute` answers 200, 400 or 500, and calls upstream only with both secrets set |
| Routing.PreflightAnswered | cloudflare/src/worker.py:355-361 | `OPTIONS` gets 204, the CORS headers and an empty body for every path |
| Routing.HealthAnswered | cloudflare/src/worker.py:364-365 | the root and `health` paths get the health document |
| Routing.ExecuteNeedsPost | cloudflare/src/worker.py:381 | `execute` with another method is not found |
| Routing.OtherPathsNotFound | cloudflare/src/worker.py:409 | every other path gets 404 |
| Routing.BadCallsRejectedFirst | cloudflare/src/worker.py:384-391 | a body that is not JSON, and a missing or unknown tool, get 400 whatever the environment and reply, with no upstream request |
| Routing.CredentialsRequired | cloudflare/src/worker.py:394-398 | a registered tool without both secrets gets 500 and no upstream request |
| Routing.NoUnknownToolResult | cloudflare/src/worker.py:390-402 | a 200 from `execute` wraps a result that has no `error` key, so the unknown-tool fallback never reaches a caller |
| Routing.UpstreamGarbageLooksLikeBadInput | cloudflare/src/worker.py:404-405 | an upstream body that is not JSON is answered as the caller's invalid JSON, with 400 |
| FastClient.Connect | src/fivetran_mcp/fivetran_api.py:14-23 | the client's `Authorization` decodes back to the key and the secret, whenever the key has no colon |
| FastClient.Receive | src/fivetran_mcp/fivetran_api.py:37-39 | a reply yields data exactly when its status is 2xx and its body is JSON; any other status raises with that status |
| FastClient.FailureStatusRaises | src/fivetran_mcp/fivetran_api.py:38 | an error status raises whatever the body, so nothing of it is returned |
| FastClient.Paging | src/fivetran_mcp/fivetran_api.py:45-47 | the query always has `limit`, and has `cursor` exactly when it is non-empty |
| FastClient.TriggerResync | src/fivetran_mcp/fivetran_api.py:68-75 | the body is `{"scope": scope}` when the scope is non-empty, and is absent otherwise |
| FastClient.PauseResumePatch | src/fivetran_mcp/fivetran_api.py:77-93 | pause and resume are the same `PATCH` of the connection, differing only in `{"paused": true}` or `{"paused": false}` |
| FastClient.ResyncTablesVerbatim | src/fivetran_mcp/fivetran_api.py:115-128 | the body is exactly `{"schema": tables}`, and reading it back gives the list passed |
| FastServer.GetClient | src/fivetran_mcp/server.py:220-236 | a cached client is returned unchanged; otherwise a client exists exactly when both chosen values are non-empty, and `ValueError` is raised when not |
| FastServer.CredentialPrecedence | src/fivetran_mcp/server.py:226-227 | `FIVETRAN_SYNC_*` wins when non-empty, and `FIVETRAN_*` is the fallback |
| FastServer.Invoke | src/fivetran_mcp/server.py:28-32 | a failed client lookup raises before any request; otherwise the client is cached and the tool's request is made, and an error status raises |
| FastServer.CachedClientIsKept | src/fivetran_mcp/server.py:223-224 | a cached client serves every later call whatever the environment, and stays cached |
| FastServer.ClientCachedOnFirstUse | src/fivetran_mcp/server.py:235-236 | a client built from the environment stays cached, even when the call fails upstream |
| FastServer.ListConnectionsRoute | src/fivetran_mcp/server.py:16-38 | the group endpoint is used exactly when `group_id` is non-empty; `limit` defaults to 100; the reply is reshaped as the Workers host does |
| FastServer.StateObject | src/fivetran_mcp/server.py:64-70 | the status object has exactly five keys, `rescheduled_for` included |
| FastServer.DetailObject | src/fivetran_mcp/server.py:56-75 | the detail has exactly twelve keys; the nine connection values, `sync_frequency` and `schedule_type` included, are copied from `data`; the status object, tasks and warnings are the ones given |
| FastServer.StatusDetail | src/fivetran_mcp/server.py:53-75 | it fails exactly when the reply is not a dict, or its `data` or their `status` is present but not one; otherwise the detail has its twelve keys and a five-key status object |
| FastServer.StatusDetailPassThrough | src/fivetran_mcp/server.py:53-75 | tasks and warnings pass through unchanged, `[]` when absent; the five status values come from `data.status` and the nine others from `data` |
| FastServer.TriggerSyncRequest | src/fivetran_mcp/fivetran_api.py:54-62 | `trigger_sync` POSTs `{"force": force}` to `/v1/connections/{id}/sync`, with `force` false when not given |
| FastServer.RequestsAuthorised | src/fivetran_mcp/fivetran_api.py:12-37 | every tool's request goes under `https://api.fivetran.com/v1/` with the client's `Authorization` and a JSON content type |
| FastServer.TriggerAck | src/fivetran_mcp/server.py:94-98 | an acknowledgement has `success: true`, the given message, and the connection id, plus `tables` when given |
| FastServer.TriggerAckMessage | src/fivetran_mcp/server.py:138-144 | the trigger tools prefer the upstream `message` to their fixed text, and echo the connection id and the tables |
| FastServer.PauseAck | src/fivetran_mcp/server.py:162-167 | pause and resume acknowledgements have exactly their four keys |
| FastServer.PausedFromUpstream | src/fivetran_mcp/server.py:160-167 | `paused` is the upstream `data.paused`, true for pause and false for resume when absent |
| FastServer.ErrorStatusRaises | src/fivetran_mcp/fivetran_api.py:37-39 | an error status reaches the caller as an exception, never as a shaped result |

## Left out

- A `JsonValues.Json` object may hold the same key twice, and lookup returns the first binding. `json.loads` never produces such an object: it keeps the last value. No property here depends on duplicate keys.
- A Python `str` may hold lone surrogates. Strings here are sequences of Unicode scalar values, so `Utf8.RoundTrip` says nothing about such strings, which `str.encode()` rejects.
- Normalise.StatusDetail: its own contract states the shape only; the reshaped tasks and warnings and the copied values are stated by `Normalise.StatusDetailItems` and `Normalise.StatusDetailCopies`, because stating them in the function's contract makes its proof too large.
- FastServer.StatusDetail: its own contract states when it fails and the shape; the values it carries are stated by `FastServer.StatusDetailPassThrough`, for the same reason.

- The transport is left out on both hosts:
  - Workers: `fetch`, `Response`, `Headers`, `to_js` and async plumbing.
  - FastMCP: the httpx client, its timeout and `close()`.
  - Both appear only as the requests built and the replies handed back.
- FastMCP registration, `mcp.run()` and `main` are framework glue. The framework supplies typed arguments and fills in signature defaults; the `Call` datatype takes over from there.
- `json.loads` and `json.dumps` are not modelled. Bodies arrive already parsed, empty, or as text that is not JSON. Floating-point numbers are not represented.
- Exception messages follow CPython's wording for the cases modelled. `repr` does not escape strings. The text of an httpx status error is not httpx's.
- `FastServer.Invoke`: it uses the client of `src/fivetran_mcp/fivetran_api.py`. `server.py` imports `FivetranClient` from `fivetran_mcp.client`, which is not part of this model.
- `WorkerClient.GetTableColumns` is built but never called by any tool, so no property is stated about it.
- Percent-encoding of path segments and query strings is not modelled. Paths hold `str()` of the raw argument, and FastMCP parameters stay structured.
- The `get_schema` output passes the upstream `schemas` value through as an opaque value.
- The FastMCP host forwards the upstream `tasks`, `warnings` and `message` values without checking their types. The model does the same; it states no typing for them.
- Behaviours of the code that the model keeps as written:
  - No tool validates its arguments. A missing required key raises `KeyError`, which becomes a 500.
  - A name without a dot is skipped by the Workers `resync_tables`; it is not an error.
  - The Workers client uses `/connectors/...` paths and `/groups/{id}/connectors`.
  - The FastMCP client raises on an empty body instead of reading it as `{}`.
