/** The `POST /mcp` handler of the repository's top-level `server.py`: it
    rejects an unparsable body with 400, tolerates a missing `params` or
    tool name, and records (without ever reading) an `initialized` flag. */
module RootServer {
  import opened Wrappers
  import opened Protocol
  import opened Tools
  import opened Json
  import Wire

  /** What the framework hands the handler: a body that failed to parse as
      JSON, or the parsed request. */
  datatype Input = Malformed | Parsed(request: Request)

  /** The JSON-RPC router. `now` is the ISO timestamp the clock would give. */
  function Route(req: Request, now: string): (b: Body)
    ensures !b.DetailBody?
    ensures b.ResultBody? <==> req.methodName == Some(Initialize) || req.methodName == Some(CallTool)
    ensures b.ResultBody? ==> b.jsonrpc == JsonRpcVersion && b.id == req.id
    ensures b.EmptyBody? <==> req.methodName == Some(NotificationsInitialized)
    ensures b.ErrorBody? <==> !IsKnownMethod(req.methodName)
    ensures b.ErrorBody? ==> b == MethodNotFound
    ensures req.methodName == Some(Initialize) <==> b.ResultBody? && b.result.InitializeResult?
    ensures b.ResultBody? && b.result.InitializeResult? ==>
              b.result.protocolVersion == ProtocolVersion && b.result.tools == Catalog
    ensures req.methodName == Some(CallTool) ==>
              b.result.ToolResult? && |b.result.content| == 1
              && (b.result.isError <==> Lookup(req.params.GetOr(NoParams).name).None?)
  {
    if req.methodName == Some(Initialize) then
      ResultBody(JsonRpcVersion, req.id, InitializeResult(ProtocolVersion, Catalog))
    else if req.methodName == Some(CallTool) then
      var params := req.params.GetOr(NoParams);
      var args := params.arguments.GetOr(map[]);
      ResultBody(JsonRpcVersion, req.id, Invoke(params.name, args, now))
    else if req.methodName == Some(NotificationsInitialized) then
      EmptyBody
    else
      MethodNotFound
  }

  /** The endpoint: a malformed body is refused with 400 before routing;
      everything routed is answered with 200, errors included. */
  function Handle(input: Input, now: string): (r: Reply)
    ensures r.status == StatusBadRequest <==> input.Malformed?
    ensures r.status == StatusOk <==> input.Parsed?
    ensures input.Malformed? ==> r.body == DetailBody(InvalidJsonDetail)
    ensures input.Parsed? ==> r.body == Route(input.request, now)
  {
    match input
    case Malformed => Reply(StatusBadRequest, DetailBody(InvalidJsonDetail))
    case Parsed(req) => Reply(StatusOk, Route(req, now))
  }

  /** The process-wide state: only the write-only `initialized` flag. */
  datatype Server = Server(initialized: bool)

  predicate IsInitialize(input: Input) {
    input.Parsed? && input.request.methodName == Some(Initialize)
  }

  /** One request against the server: the reply never depends on the flag,
      and the flag is raised by a routed `initialize` and never lowered. */
  function Step(s: Server, input: Input, now: string): (res: (Server, Reply))
    ensures res.0.initialized <==> s.initialized || IsInitialize(input)
    ensures res.1 == Handle(input, now)
  {
    var reply := Handle(input, now);
    if IsInitialize(input) then (Server(true), reply) else (s, reply)
  }

  /** A run of requests, the i-th answered at clock reading `clock[i]`. */
  function Run(s: Server, inputs: seq<Input>, clock: seq<string>): (Server, seq<Reply>)
    requires |clock| == |inputs|
    decreases |inputs|
  {
    if |inputs| == 0 then (s, [])
    else
      var (s', r) := Step(s, inputs[0], clock[0]);
      var (s'', rs) := Run(s', inputs[1..], clock[1..]);
      (s'', [r] + rs)
  }

  /** Handling is stateless: over any run, each reply is what that request
      gets on its own, and the final flag only records whether some
      `initialize` was routed. */
  lemma {:induction false} RunIsStateless(s: Server, inputs: seq<Input>, clock: seq<string>)
    requires |clock| == |inputs|
    ensures |Run(s, inputs, clock).1| == |inputs|
    ensures forall i :: 0 <= i < |inputs| ==> Run(s, inputs, clock).1[i] == Handle(inputs[i], clock[i])
    ensures Run(s, inputs, clock).0.initialized <==>
              s.initialized || exists i :: 0 <= i < |inputs| && IsInitialize(inputs[i])
    decreases |inputs|
  {
    if |inputs| > 0 {
      var (s', r) := Step(s, inputs[0], clock[0]);
      RunIsStateless(s', inputs[1..], clock[1..]);
      var rest := Run(s', inputs[1..], clock[1..]);
      assert Run(s, inputs, clock) == (rest.0, [r] + rest.1);
      forall i | 0 <= i < |inputs|
        ensures Run(s, inputs, clock).1[i] == Handle(inputs[i], clock[i])
      {
        if i > 0 {
          assert inputs[1..][i - 1] == inputs[i];
          assert clock[1..][i - 1] == clock[i];
        }
      }
      if rest.0.initialized && !s.initialized && !IsInitialize(inputs[0]) {
        var j :| 0 <= j < |inputs[1..]| && IsInitialize(inputs[1..][j]);
        assert IsInitialize(inputs[j + 1]);
      }
      if exists i :: 0 <= i < |inputs| && IsInitialize(inputs[i]) {
        var i :| 0 <= i < |inputs| && IsInitialize(inputs[i]);
        if i > 0 {
          assert inputs[1..][i - 1] == inputs[i];
        }
      }
    }
  }

  /** `initialize` answers with the protocol version and the two-tool
      catalog, `get_current_time` then `echo`, whatever the `params`, and
      echoes the request id, a missing one included. */
  lemma InitializeAdvertisesCatalog(req: Request, now: string)
    requires req.methodName == Some(Initialize)
    ensures Route(req, now) == ResultBody("2.0", req.id, InitializeResult("2023-10-26", Catalog))
    ensures |Catalog| == 2 && Catalog[0].name == "get_current_time" && Catalog[1].name == "echo"
    ensures forall p :: Route(req.(params := p), now) == Route(req, now)
  {
  }

  /** `callTool` answers with the request id and one text item: the clock
      for the time tool, the message (or "no message") for echo, and the
      not-found error for any other name, arguments defaulting to `{}`. */
  lemma CallToolAnswers(req: Request, now: string)
    requires req.methodName == Some(CallTool)
    ensures var name := req.params.GetOr(NoParams).name;
            var args := req.params.GetOr(NoParams).arguments.GetOr(map[]);
            var b := Route(req, now);
            && b.ResultBody? && b.jsonrpc == "2.0" && b.id == req.id
            && (name == Some("get_current_time") ==> b.result == ToolResult([Text("Current time: " + now)], false))
            && (name == Some("echo") ==> b.result == ToolResult([Text("You said: " + MessageOf(args))], false))
            && (name != Some("get_current_time") && name != Some("echo") ==>
                  b.result == ToolResult([Text("Tool '" + Show(name) + "' not found.")], true))
  {
  }

  /** A `callTool` whose `params` or tool name is missing is answered, not
      refused: the tool name reads as "None" and the answer is an in-band
      tool error carrying the request id. */
  lemma MissingToolNameTolerated(req: Request, now: string)
    requires req.methodName == Some(CallTool)
    requires req.params.None? || req.params.value.name.None?
    ensures Route(req, now) == ResultBody("2.0", req.id, ToolResult([Text("Tool 'None' not found.")], true))
  {
    AbsentNameReadsAsNone(req.params.GetOr(NoParams).arguments.GetOr(map[]), now);
  }

  /** The echo call the test client sends (id 3, "Hello MCP!"), as answered on the wire. */
  lemma EchoExample(now: string)
    ensures Wire.Encode(Route(Request(Some("callTool"), Some(NumId(3)),
                                      Some(Params(Some("echo"), Some(map["message" := "Hello MCP!"])))), now))
            == JObj([("jsonrpc", JStr("2.0")), ("id", JNum(3)),
                     ("result", JObj([("content", JArr([JObj([("type", JStr("text")),
                                                              ("text", JStr("You said: Hello MCP!"))])])),
                                      ("isError", JBool(false))]))])
  {
    var content := [Text(EchoPrefix + "Hello MCP!")];
    assert EchoPrefix + "Hello MCP!" == "You said: Hello MCP!";
    assert Wire.EncodeAll(content, Wire.EncodeContent)
           == [JObj([("type", JStr("text")), ("text", JStr("You said: Hello MCP!"))])];
  }

  /** An `initialize` call with id 1, as answered on the wire: every
      descriptor field and schema member, in the source's order. */
  lemma InitializeExample(now: string)
    ensures Wire.Encode(Route(Request(Some("initialize"), Some(NumId(1)), None), now))
            == JObj([("jsonrpc", JStr("2.0")), ("id", JNum(1)),
                     ("result", JObj([
                       ("protocolVersion", JStr("2023-10-26")),
                       ("capabilities", JObj([("tools", JArr([
                         JObj([("name", JStr("get_current_time")),
                               ("description", JStr("Returns the current date and time in ISO format.")),
                               ("inputSchema", JObj([("type", JStr("object")),
                                                     ("properties", JObj([])),
                                                     ("required", JArr([]))]))]),
                         JObj([("name", JStr("echo")),
                               ("description", JStr("Echoes back the input message.")),
                               ("inputSchema", JObj([("type", JStr("object")),
                                                     ("properties", JObj([("message", JObj([("type", JStr("string"))]))])),
                                                     ("required", JArr([JStr("message")]))]))])]))]))]))])
  {
    var echo := Descriptor(Echo);
    assert Wire.EncodeAll(echo.inputSchema.properties, Wire.EncodeProperty)
           == [("message", JObj([("type", JStr("string"))]))];
    assert Wire.EncodeAll(echo.inputSchema.required, Wire.EncodeString) == [JStr("message")];
    assert Wire.EncodeAll(Catalog, Wire.EncodeTool)
           == [Wire.EncodeTool(Descriptor(GetCurrentTime)), Wire.EncodeTool(echo)];
  }

  /** `notifications/initialized` is answered by the empty object: no
      `jsonrpc`, no `id`. */
  lemma NotificationAnsweredEmpty(req: Request, now: string)
    requires req.methodName == Some(NotificationsInitialized)
    ensures Handle(Parsed(req), now) == Reply(200, EmptyBody)
    ensures Wire.Encode(Route(req, now)) == JObj([])
  {
  }

  /** Any other method, a missing one included, is answered with status 200
      and the JSON-RPC error -32601 "Method not found", which carries
      `jsonrpc` but not the request id. */
  lemma UnknownMethodAnswered(req: Request, now: string)
    requires !IsKnownMethod(req.methodName)
    ensures Handle(Parsed(req), now).status == 200
    ensures Wire.Encode(Route(req, now))
            == JObj([("jsonrpc", JStr("2.0")),
                     ("error", JObj([("code", JNum(-32601)), ("message", JStr("Method not found"))]))])
    ensures "id" !in Keys(Wire.Encode(Route(req, now)))
  {
  }

  /** A result envelope for a request without an id still has the `id`
      member, set to `null`. */
  lemma MissingIdSentAsNull(req: Request, now: string)
    requires req.id.None?
    requires req.methodName == Some(Initialize) || req.methodName == Some(CallTool)
    ensures Wire.Encode(Route(req, now)).fields[..2] == [("jsonrpc", JStr("2.0")), ("id", JNull)]
  {
  }

  /** An unparsable body never reaches the router: it gets status 400 and
      the framework's `{"detail": "Invalid JSON"}`. */
  lemma MalformedRejected(now: string)
    ensures Handle(Malformed, now).status == 400
    ensures Wire.Encode(Handle(Malformed, now).body) == JObj([("detail", JStr("Invalid JSON"))])
  {
  }
}
