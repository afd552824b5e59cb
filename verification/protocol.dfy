/** The request and response envelopes of the `POST /mcp` endpoint and the
    wire constants both server variants share. */
module Protocol {
  import opened Wrappers

  const JsonRpcVersion: string := "2.0"
  const ProtocolVersion: string := "2023-10-26"

  /** The method names the router recognises. */
  const Initialize: string := "initialize"
  const CallTool: string := "callTool"
  const NotificationsInitialized: string := "notifications/initialized"

  /** JSON-RPC "Method not found". */
  const MethodNotFoundCode: int := -32601
  const MethodNotFoundMessage: string := "Method not found"

  /** HTTP statuses: every in-protocol answer is 200, an unparsable body 400. */
  const StatusOk: int := 200
  const StatusBadRequest: int := 400
  const InvalidJsonDetail: string := "Invalid JSON"

  /** A JSON-RPC request id as the client sends it. */
  datatype Id = NumId(n: int) | StrId(s: string)

  /** The `arguments` mapping of a tool call; only string values are modelled. */
  type Arguments = map<string, string>

  /** The `params` object; each member may be absent. */
  datatype Params = Params(name: Option<string>, arguments: Option<Arguments>)

  /** The parsed request body. An absent `id` and an `id` of `null` are both `None`. */
  datatype Request = Request(methodName: Option<string>, id: Option<Id>, params: Option<Params>)

  /** The `params` the source falls back to when the member is absent: `{}`. */
  const NoParams: Params := Params(None, None)

  /** A JSON Schema fragment of `"type": "object"`: property names with their
      types, and the required property names. */
  datatype Schema = Schema(properties: seq<(string, string)>, required: seq<string>)

  datatype ToolDescriptor = ToolDescriptor(name: string, description: string, inputSchema: Schema)

  /** A content item `{"type": "text", "text": ...}`. */
  datatype Content = Text(text: string)

  /** The `result` member of a successful response. */
  datatype RpcResult =
    | InitializeResult(protocolVersion: string, tools: seq<ToolDescriptor>)
    | ToolResult(content: seq<Content>, isError: bool)

  datatype ErrorObject = ErrorObject(code: int, message: string)

  /** A response body: a result envelope, an error envelope (which carries no
      `id`), the empty object, or the framework's `{"detail": ...}` object. */
  datatype Body =
    | ResultBody(jsonrpc: string, id: Option<Id>, result: RpcResult)
    | ErrorBody(jsonrpc: string, error: ErrorObject)
    | EmptyBody
    | DetailBody(detail: string)

  datatype Reply = Reply(status: int, body: Body)

  /** The three method names with a dedicated branch. */
  predicate IsKnownMethod(m: Option<string>) {
    m == Some(Initialize) || m == Some(CallTool) || m == Some(NotificationsInitialized)
  }

  /** The fallback answer for any other method. */
  const MethodNotFound: Body :=
    ErrorBody(JsonRpcVersion, ErrorObject(MethodNotFoundCode, MethodNotFoundMessage))
}
