# MCP-over-HTTP tool server: the `POST /mcp` router

This project models the JSON-RPC router behind `POST /mcp` in the
"Simple MCP Server". The router reads a request's `method`, `id` and
`params` and answers with one of four envelopes:

- `initialize` answers with protocol version `2023-10-26` and a static
  catalog of two tools, `get_current_time` and `echo`.
- `callTool` dispatches on the tool name. The time tool reports the clock.
  The echo tool answers `You said: <message>`. Any other name gets an
  in-band `isError` result.
- `notifications/initialized` answers with the empty object.
- Anything else gets the JSON-RPC error -32601 "Method not found". That
  error carries `jsonrpc` but no `id`.

The repository holds two variants of the handler, and each gets its own
router:

- `RootServer` models `server.py`. An unparsable body is refused with HTTP
  400 before routing. A missing `params` or tool name is tolerated, and the
  name then reads as `None`.
- `ProjectServer` models `mcp-http-project/server.py`. It has no 400
  branch. It indexes `params` and `params.name` directly, so for `callTool`
  those are a precondition (`Admissible`).

`ProjectServer.AgreesWithRoot` proves that the two variants answer alike on
every request the second one accepts.

The modules:

- `Wrappers`: the `Option` type.
- `Json`: JSON values, with objects as ordered member lists.
- `Protocol`: the request and response envelopes and the wire constants.
- `Tools`: the tool catalog, the name-to-tool dispatch (a closed `Tool`
  datatype) and the invoker that both variants share.
- `RootServer` and `ProjectServer`: the two routers and endpoints.
  `RootServer` also holds the write-only `initialized` flag, as a `Server`
  state threaded through `Step` and `Run`.
- `Wire`: the JSON objects the handlers build, member for member, and a
  reader that recovers the response from them.

The wall clock is a parameter. It is the ISO timestamp string
`datetime.now().isoformat()` would return. In `Run`, a sequence gives one
reading per request.

Facts about the source that shape the model:

- `server.py` treats `params` and `params.name` as optional and reads an
  absent name as `None` (server.py:39, server.py:76).
- Both handlers answer `notifications/initialized` with `{}`
  (server.py:108, mcp-http-project/server.py:76).
- Ids may be integers or strings. A missing id and a `null` id are the same
  value (`None`), because `body.get("id")` cannot tell them apart.

## Model

| member | source | states |
|---|---|---|
| Tools.Lookup | server.py:79-91 | a tool name selects tool t exactly when it equals t's wire name; every other name, and an absent one, selects no tool |
| Tools.Descriptor | server.py:53-66 | each advertised descriptor carries the wire name the dispatcher compares against |
| Tools.Invoke | server.py:76-102 | every tool call yields exactly one content item, and `isError` is set exactly when the name selects no tool |
| Tools.CatalogMatchesDispatch | server.py:52-84 | the names `callTool` accepts are exactly the names `initialize` advertises; the catalog has two entries with distinct names |
| Tools.TimeToolReportsClock | server.py:79-81 | the time tool answers "Current time: " plus the clock; it ignores its arguments, and two answers are equal exactly when the clock readings are |
| Tools.EchoRepeatsMessage | server.py:84-86 | echo answers "You said: " plus the message, or "You said: no message" when the message is absent; two echo answers are equal exactly when the messages are, whatever the clock |
| Tools.EchoSchemaIsAdvisory | server.py:58-86 | the catalog marks `message` as required for echo, yet echo without arguments still succeeds |
| Tools.UnknownToolReported | server.py:89-96 | an unknown name gives the error item "Tool '<name>' not found.", independent of arguments and clock; two such answers are equal exactly when the rendered names are |
| Tools.AbsentNameReadsAsNone | server.py:76-91 | an absent tool name is reported as the tool "None", so it cannot be told apart from a tool literally named "None" |
| RootServer.Route | server.py:37-115 | a result envelope for exactly `initialize` and `callTool`, with jsonrpc "2.0" and the request id unchanged; `{}` for exactly `notifications/initialized`; the -32601 error for exactly every other or missing method; `initialize` carries the protocol version and catalog; `callTool` carries one item, flagged as an error exactly for an unknown tool |
| RootServer.Handle | server.py:25-115 | status 400 with "Invalid JSON" exactly for an unparsable body; every parsed body is routed and answered with 200 |
| RootServer.Step | server.py:13-45 | the reply never depends on the `initialized` flag; the flag is raised exactly by a routed `initialize` and is never lowered |
| RootServer.RunIsStateless | server.py:25-115 | over any sequence of requests, each reply is what that request gets on its own, and the final flag records only whether some `initialize` was routed |
| RootServer.InitializeAdvertisesCatalog | server.py:43-70 | `initialize` answers "2023-10-26" and the tools `get_current_time` then `echo`, whatever the params, echoing the id |
| RootServer.CallToolAnswers | server.py:74-104 | `callTool` answers jsonrpc "2.0" with the request id and one item: "Current time: " plus the clock, "You said: " plus the message or "no message", or the error "Tool '<name>' not found." for any other name, with arguments defaulting to empty |
| RootServer.MissingToolNameTolerated | server.py:37-96 | `callTool` without params or without a name gets the in-band error "Tool 'None' not found." with the request id |
| RootServer.EchoExample | server.py:84-102 | the echo call client.py:30 sends (id 3, message "Hello MCP!") renders to exactly the JSON object of server.py:98-102 |
| RootServer.InitializeExample | server.py:46-70 | an `initialize` call with id 1 renders to exactly the JSON object of server.py:46-70: version "2023-10-26", both descriptors with their descriptions and input schemas, in order |
| RootServer.NotificationAnsweredEmpty | server.py:106-108 | `notifications/initialized` is answered 200 with `{}`: no jsonrpc, no id |
| RootServer.UnknownMethodAnswered | server.py:110-115 | an unknown method is answered 200 with the -32601 "Method not found" object, which has no `id` member |
| RootServer.MissingIdSentAsNull | server.py:38-48 | a result envelope for a request without an id still carries `"id": null` |
| RootServer.MalformedRejected | server.py:30-35 | an unparsable body is answered 400 with `{"detail": "Invalid JSON"}` |
| ProjectServer.Route | mcp-http-project/server.py:15-79 | the same method routing, envelopes, catalog and tool outcomes as the top-level server, for requests whose `callTool` carries params with a name |
| ProjectServer.Handle | mcp-http-project/server.py:12-79 | every answer is sent with status 200 |
| ProjectServer.AgreesWithRoot | mcp-http-project/server.py:48-72 | on every request this variant accepts, in particular whenever `params.name` is present, its answer equals the top-level server's for the same body and clock |
| Wire.Encode | server.py:46-115 | the rendered object has an `id` member exactly for result envelopes, a `jsonrpc` member exactly for result and error envelopes, and no members exactly for the notification answer |
| Wire.DecodeEncode | server.py:46-115 | reading back a rendered response gives the response it came from |
| Wire.EncodeInjective | server.py:46-115 | two responses render to the same JSON object exactly when they are equal |

## Left out

- HTTP framework plumbing is left out, because it is I/O. This covers
  FastAPI app construction, route decorators, `JSONResponse` and
  `HTTPException`. Status and body are a plain `Reply` value. The 400 body
  `{"detail": ...}` is the framework's convention for `HTTPException`.
- The `GET /` home endpoint is left out. It returns a static informational
  object and holds no protocol logic.
- Logging is left out, because it is a side effect only.
- The real wall clock is left out, because it is nondeterministic. The
  time is a string parameter, and its ISO-8601 format is not checked.
- JSON text parsing is left out. The model starts from a parsed request,
  or the `Malformed` tag for a body that failed to parse.
- Ill-typed fields are left out. This covers a body that is not an object,
  a `null` or non-object `params` or `arguments`, and a non-string
  `method`, `name` or `message`. The source crashes on some of these,
  stringifies others with f-strings, or, where the taken branch does not
  read the field, answers as usual. An example of the last case is
  `"arguments": null` for the time tool or an unknown tool, or
  `"params": null` for `initialize`. It crashes on a
  non-object body (server.py:37, mcp-http-project/server.py:16), on a
  `null` or non-object `params` for `callTool` (server.py:76,
  mcp-http-project/server.py:49), on a `null` or non-object `arguments`
  for echo (server.py:85, mcp-http-project/server.py:57), and on a
  missing `params` or `name` in mcp-http-project/server.py:49. A
  non-string method behaves like an unknown method in both handlers,
  because it equals none of the literals.
- Ids other than integers, strings and `null` are left out.
- Crashes in `mcp-http-project/server.py` are left out. A `callTool`
  without `params` or `name` raises `KeyError`, and an unparsable body
  raises in `request.json()`. The framework turns both into HTTP 500.
  These inputs are excluded by `ProjectServer.Admissible` and by the input
  type rather than modelled.
- Concurrency on the global `initialized` flag is left out. The flag is
  written but never read, so `RootServer.Step` threads it sequentially.
  The flag of `mcp-http-project/server.py` behaves the same and is not
  modelled separately.
- `client.py` is left out. It is a network test client with no logic.
