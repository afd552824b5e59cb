/** The JSON objects the handlers hand to the framework, member for member
    and in the order the source writes them, and a reader that recovers the
    response from them. */
module Wire {
  import opened Wrappers
  import opened Json
  import opened Protocol

  /** Renders each element of a list. */
  function EncodeAll<T, U>(xs: seq<T>, f: T -> U): (ys: seq<U>)
    ensures |ys| == |xs|
    ensures forall i :: 0 <= i < |xs| ==> ys[i] == f(xs[i])
    decreases |xs|
  {
    if |xs| == 0 then [] else [f(xs[0])] + EncodeAll(xs[1..], f)
  }

  /** Reads each element of a list, failing if any element fails. */
  function DecodeAll<T, U>(ys: seq<U>, g: U -> Option<T>): (r: Option<seq<T>>)
    ensures r.Some? ==> |r.value| == |ys|
    decreases |ys|
  {
    if |ys| == 0 then Some([])
    else
      var x :- g(ys[0]);
      var xs :- DecodeAll(ys[1..], g);
      Some([x] + xs)
  }

  /** A missing id is sent as `null`. */
  function EncodeId(id: Option<Id>): Json {
    match id
    case None => JNull
    case Some(NumId(n)) => JNum(n)
    case Some(StrId(s)) => JStr(s)
  }

  function DecodeId(j: Json): Option<Option<Id>> {
    match j
    case JNull => Some(None)
    case JNum(n) => Some(Some(NumId(n)))
    case JStr(s) => Some(Some(StrId(s)))
    case _ => None
  }

  function EncodeString(s: string): Json {
    JStr(s)
  }

  /** A schema property `"message": {"type": "string"}`. */
  function EncodeProperty(p: (string, string)): (string, Json) {
    (p.0, JObj([("type", JStr(p.1))]))
  }

  function DecodeProperty(m: (string, Json)): Option<(string, string)> {
    if Keys(m.1) == ["type"] then
      var ty :- Str(m.1.fields[0].1);
      Some((m.0, ty))
    else None
  }

  function EncodeSchema(s: Schema): Json {
    JObj([("type", JStr("object")),
          ("properties", JObj(EncodeAll(s.properties, EncodeProperty))),
          ("required", JArr(EncodeAll(s.required, EncodeString)))])
  }

  function DecodeSchema(j: Json): Option<Schema> {
    if Keys(j) == ["type", "properties", "required"] && j.fields[0].1 == JStr("object")
       && j.fields[1].1.JObj? && j.fields[2].1.JArr?
    then
      var properties :- DecodeAll(j.fields[1].1.fields, DecodeProperty);
      var required :- DecodeAll(j.fields[2].1.items, Str);
      Some(Schema(properties, required))
    else None
  }

  function EncodeTool(t: ToolDescriptor): Json {
    JObj([("name", JStr(t.name)),
          ("description", JStr(t.description)),
          ("inputSchema", EncodeSchema(t.inputSchema))])
  }

  function DecodeTool(j: Json): Option<ToolDescriptor> {
    if Keys(j) == ["name", "description", "inputSchema"] then
      var name :- Str(j.fields[0].1);
      var description :- Str(j.fields[1].1);
      var schema :- DecodeSchema(j.fields[2].1);
      Some(ToolDescriptor(name, description, schema))
    else None
  }

  function EncodeContent(c: Content): Json {
    JObj([("type", JStr("text")), ("text", JStr(c.text))])
  }

  function DecodeContent(j: Json): Option<Content> {
    if Keys(j) == ["type", "text"] && j.fields[0].1 == JStr("text") then
      var text :- Str(j.fields[1].1);
      Some(Text(text))
    else None
  }

  function EncodeResult(r: RpcResult): Json {
    match r
    case InitializeResult(version, tools) =>
      JObj([("protocolVersion", JStr(version)),
            ("capabilities", JObj([("tools", JArr(EncodeAll(tools, EncodeTool)))]))])
    case ToolResult(content, isError) =>
      JObj([("content", JArr(EncodeAll(content, EncodeContent))), ("isError", JBool(isError))])
  }

  function DecodeResult(j: Json): Option<RpcResult> {
    if Keys(j) == ["protocolVersion", "capabilities"] then
      var version :- Str(j.fields[0].1);
      var capabilities := j.fields[1].1;
      if Keys(capabilities) == ["tools"] && capabilities.fields[0].1.JArr? then
        var tools :- DecodeAll(capabilities.fields[0].1.items, DecodeTool);
        Some(InitializeResult(version, tools))
      else None
    else if Keys(j) == ["content", "isError"] && j.fields[0].1.JArr? then
      var content :- DecodeAll(j.fields[0].1.items, DecodeContent);
      var isError :- Bool(j.fields[1].1);
      Some(ToolResult(content, isError))
    else None
  }

  function EncodeError(e: ErrorObject): Json {
    JObj([("code", JNum(e.code)), ("message", JStr(e.message))])
  }

  function DecodeError(j: Json): Option<ErrorObject> {
    if Keys(j) == ["code", "message"] then
      var code :- Num(j.fields[0].1);
      var message :- Str(j.fields[1].1);
      Some(ErrorObject(code, message))
    else None
  }

  /** The response object. Only result envelopes carry `id`; the error
      envelope carries `jsonrpc` but no `id`; the notification answer is
      the empty object. */
  function Encode(b: Body): (j: Json)
    ensures j.JObj?
    ensures "id" in Keys(j) <==> b.ResultBody?
    ensures "jsonrpc" in Keys(j) <==> b.ResultBody? || b.ErrorBody?
    ensures Keys(j) == [] <==> b.EmptyBody?
  {
    match b
    case ResultBody(version, id, result) =>
      var j := JObj([("jsonrpc", JStr(version)), ("id", EncodeId(id)), ("result", EncodeResult(result))]);
      assert Keys(j) == ["jsonrpc", "id", "result"];
      j
    case ErrorBody(version, error) =>
      var j := JObj([("jsonrpc", JStr(version)), ("error", EncodeError(error))]);
      assert Keys(j) == ["jsonrpc", "error"];
      j
    case EmptyBody => JObj([])
    case DetailBody(detail) =>
      var j := JObj([("detail", JStr(detail))]);
      assert Keys(j) == ["detail"];
      j
  }

  function Decode(j: Json): Option<Body> {
    if Keys(j) == [] then
      if j.JObj? then Some(EmptyBody) else None
    else if Keys(j) == ["detail"] then
      var detail :- Str(j.fields[0].1);
      Some(DetailBody(detail))
    else if Keys(j) == ["jsonrpc", "id", "result"] then
      var version :- Str(j.fields[0].1);
      var id :- DecodeId(j.fields[1].1);
      var result :- DecodeResult(j.fields[2].1);
      Some(ResultBody(version, id, result))
    else if Keys(j) == ["jsonrpc", "error"] then
      var version :- Str(j.fields[0].1);
      var error :- DecodeError(j.fields[1].1);
      Some(ErrorBody(version, error))
    else None
  }

  /** Reading back a rendered list gives the list, when each element reads back. */
  lemma {:induction false} DecodeAllEncodeAll<T, U>(xs: seq<T>, f: T -> U, g: U -> Option<T>)
    requires forall i :: 0 <= i < |xs| ==> g(f(xs[i])) == Some(xs[i])
    ensures DecodeAll(EncodeAll(xs, f), g) == Some(xs)
    decreases |xs|
  {
    if |xs| > 0 {
      DecodeAllEncodeAll(xs[1..], f, g);
      assert EncodeAll(xs, f)[1..] == EncodeAll(xs[1..], f);
      assert [xs[0]] + xs[1..] == xs;
    }
  }

  lemma SchemaRoundTrip(s: Schema)
    ensures DecodeSchema(EncodeSchema(s)) == Some(s)
  {
    var j := EncodeSchema(s);
    assert Keys(j) == ["type", "properties", "required"];
    forall i | 0 <= i < |s.properties|
      ensures DecodeProperty(EncodeProperty(s.properties[i])) == Some(s.properties[i])
    {
      assert Keys(EncodeProperty(s.properties[i]).1) == ["type"];
    }
    DecodeAllEncodeAll(s.properties, EncodeProperty, DecodeProperty);
    DecodeAllEncodeAll(s.required, EncodeString, Str);
  }

  lemma ToolRoundTrip(t: ToolDescriptor)
    ensures DecodeTool(EncodeTool(t)) == Some(t)
  {
    assert Keys(EncodeTool(t)) == ["name", "description", "inputSchema"];
    SchemaRoundTrip(t.inputSchema);
  }

  lemma ResultRoundTrip(r: RpcResult)
    ensures DecodeResult(EncodeResult(r)) == Some(r)
  {
    var j := EncodeResult(r);
    match r
    case InitializeResult(version, tools) =>
      assert Keys(j) == ["protocolVersion", "capabilities"];
      assert Keys(j.fields[1].1) == ["tools"];
      forall i | 0 <= i < |tools|
        ensures DecodeTool(EncodeTool(tools[i])) == Some(tools[i])
      {
        ToolRoundTrip(tools[i]);
      }
      DecodeAllEncodeAll(tools, EncodeTool, DecodeTool);
    case ToolResult(content, isError) =>
      assert Keys(j) == ["content", "isError"];
      assert Keys(j) != ["protocolVersion", "capabilities"];
      forall i | 0 <= i < |content|
        ensures DecodeContent(EncodeContent(content[i])) == Some(content[i])
      {
        assert Keys(EncodeContent(content[i])) == ["type", "text"];
      }
      DecodeAllEncodeAll(content, EncodeContent, DecodeContent);
  }

  /** The rendered object determines the response: reading it back gives
      the response it was rendered from, so no two responses share a wire form. */
  lemma DecodeEncode(b: Body)
    ensures Decode(Encode(b)) == Some(b)
  {
    var j := Encode(b);
    match b
    case ResultBody(version, id, result) =>
      assert Keys(j) == ["jsonrpc", "id", "result"];
      ResultRoundTrip(result);
    case ErrorBody(version, error) =>
      assert Keys(j) == ["jsonrpc", "error"];
      assert Keys(j.fields[1].1) == ["code", "message"];
    case EmptyBody =>
    case DetailBody(detail) =>
      assert Keys(j) == ["detail"];
  }

  lemma EncodeInjective(b1: Body, b2: Body)
    ensures Encode(b1) == Encode(b2) <==> b1 == b2
  {
    if Encode(b1) == Encode(b2) {
      DecodeEncode(b1);
      DecodeEncode(b2);
    }
  }
}
