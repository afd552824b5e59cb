/** The `POST /mcp` handler of `mcp-http-project/server.py`: the same
    routing as the top-level server, but with no 400 branch and with
    `params` and the tool name read by direct indexing. */
module ProjectServer {
  import opened Wrappers
  import opened Protocol
  import opened Tools
  import RootServer

  /** The requests the handler answers: a `callTool` must carry `params`
      with a `name`, which the source indexes without a default. */
  predicate Admissible(req: Request) {
    req.methodName == Some(CallTool) ==> req.params.Some? && req.params.value.name.Some?
  }

  /** The JSON-RPC router. `now` is the ISO timestamp the clock would give. */
  function Route(req: Request, now: string): (b: Body)
    requires Admissible(req)
    ensures !b.DetailBody?
    ensures b.ResultBody? <==> req.methodName == Some(Initialize) || req.methodName == Some(CallTool)
    ensures b.ResultBody? ==> b.jsonrpc == JsonRpcVersion && b.id == req.id
    ensures b.EmptyBody? <==> req.methodName == Some(NotificationsInitialized)
    ensures b.ErrorBody? <==> !IsKnownMethod(req.methodName)
    ensures b.ErrorBody? ==> b == MethodNotFound
    ensures req.methodName == Some(Initialize) <==> b.ResultBody? && b.result.InitializeResult?
    ensures b.ResultBody? && b.result.InitializeResult? ==>
              b.result.protocolVersion == ProtocolVersion && b.result.tools == Catalog
    ensures req.methodName == Some(CallTool) ==>
              b.result.ToolResult? && |b.result.content| == 1
              && (b.result.isError <==> Lookup(req.params.value.name).None?)
  {
    if req.methodName == Some(Initialize) then
      ResultBody(JsonRpcVersion, req.id, InitializeResult(ProtocolVersion, Catalog))
    else if req.methodName == Some(CallTool) then
      var toolName := req.params.value.name.value;
      var args := req.params.value.arguments.GetOr(map[]);
      ResultBody(JsonRpcVersion, req.id, Invoke(Some(toolName), args, now))
    else if req.methodName == Some(NotificationsInitialized) then
      EmptyBody
    else
      MethodNotFound
  }

  /** The endpoint: every answer is sent with status 200. */
  function Handle(req: Request, now: string): (r: Reply)
    requires Admissible(req)
    ensures r.status == StatusOk
    ensures r.body == Route(req, now)
  {
    Reply(StatusOk, Route(req, now))
  }

  /** On every request this variant accepts, in particular whenever
      `params.name` is present, it answers exactly as the top-level server
      does for the same parsed body and clock. */
  lemma AgreesWithRoot(req: Request, now: string)
    requires Admissible(req)
    ensures Route(req, now) == RootServer.Route(req, now)
    ensures Handle(req, now) == RootServer.Handle(RootServer.Parsed(req), now)
  {
  }
}
