/** The closed two-entry tool catalog and the tool invoker that `callTool`
    dispatches to. Both server variants carry the same invoker text. */
module Tools {
  import opened Wrappers
  import opened Protocol

  datatype Tool = GetCurrentTime | Echo

  /** The wire name of each tool. */
  function Name(t: Tool): string {
    match t
    case GetCurrentTime => "get_current_time"
    case Echo => "echo"
  }

  /** The tool a `callTool` name selects, compared as the source compares
      strings; an unknown or absent name selects none. */
  function Lookup(name: Option<string>): (r: Option<Tool>)
    ensures forall t :: r == Some(t) <==> name == Some(Name(t))
  {
    if name == Some(Name(GetCurrentTime)) then Some(GetCurrentTime)
    else if name == Some(Name(Echo)) then Some(Echo)
    else None
  }

  /** The descriptor `initialize` advertises for a tool. */
  function Descriptor(t: Tool): (d: ToolDescriptor)
    ensures d.name == Name(t)
  {
    match t
    case GetCurrentTime =>
      ToolDescriptor(Name(t), "Returns the current date and time in ISO format.", Schema([], []))
    case Echo =>
      ToolDescriptor(Name(t), "Echoes back the input message.", Schema([("message", "string")], ["message"]))
  }

  /** The static catalog, in the order the source lists it. */
  const Catalog: seq<ToolDescriptor> := [Descriptor(GetCurrentTime), Descriptor(Echo)]

  const TimePrefix: string := "Current time: "
  const EchoPrefix: string := "You said: "
  const MissingMessage: string := "no message"

  /** How a Python f-string renders an optional string: `None` when absent. */
  function Show(name: Option<string>): string {
    match name
    case Some(s) => s
    case None => "None"
  }

  function NotFoundText(name: Option<string>): string {
    "Tool '" + Show(name) + "' not found."
  }

  /** `arguments.get("message", "no message")`. */
  function MessageOf(args: Arguments): string {
    if "message" in args then args["message"] else MissingMessage
  }

  /** Runs the tool `name` selects with the given arguments; `now` is the
      ISO timestamp the time tool reports. Every outcome, the unknown tool
      included, is a one-item tool result; only the unknown tool sets `isError`. */
  function Invoke(name: Option<string>, args: Arguments, now: string): (r: RpcResult)
    ensures r.ToolResult? && |r.content| == 1
    ensures r.isError <==> Lookup(name).None?
  {
    match Lookup(name)
    case Some(GetCurrentTime) => ToolResult([Text(TimePrefix + now)], false)
    case Some(Echo) => ToolResult([Text(EchoPrefix + MessageOf(args))], false)
    case None => ToolResult([Text(NotFoundText(name))], true)
  }

  /** A string framed by a fixed prefix and suffix determines what is inside. */
  lemma {:induction false} FrameInjective(p: string, a: string, b: string, s: string)
    requires p + a + s == p + b + s
    ensures a == b
  {
    var x := p + a + s;
    assert |a| == |b|;
    assert a == x[|p|..|p| + |a|];
    assert b == x[|p|..|p| + |b|];
  }

  /** The names `callTool` dispatches on are exactly the names `initialize`
      advertises, and the catalog lists each tool once. */
  lemma CatalogMatchesDispatch(n: string)
    ensures Lookup(Some(n)).Some? <==> exists i :: 0 <= i < |Catalog| && Catalog[i].name == n
    ensures |Catalog| == 2 && Catalog[0].name != Catalog[1].name
  {
    if Lookup(Some(n)).Some? {
      var t := Lookup(Some(n)).value;
      assert Catalog[if t == GetCurrentTime then 0 else 1].name == n;
    }
  }

  /** The time tool reports the clock it is given and nothing else: it ignores
      its arguments, and two calls agree exactly when their clocks agree. */
  lemma TimeToolReportsClock(args1: Arguments, args2: Arguments, now1: string, now2: string)
    ensures Invoke(Some("get_current_time"), args1, now1) == ToolResult([Text("Current time: " + now1)], false)
    ensures Invoke(Some("get_current_time"), args1, now1) == Invoke(Some("get_current_time"), args2, now2)
            <==> now1 == now2
  {
    if Invoke(Some("get_current_time"), args1, now1) == Invoke(Some("get_current_time"), args2, now2) {
      FrameInjective(TimePrefix, now1, now2, "");
    }
  }

  /** The echo tool answers "You said: " and the message, "no message" when
      the message is absent; two echo answers agree exactly when the messages
      do, whatever the clocks. */
  lemma EchoRepeatsMessage(args1: Arguments, args2: Arguments, now1: string, now2: string)
    ensures "message" in args1 ==>
            Invoke(Some("echo"), args1, now1) == ToolResult([Text("You said: " + args1["message"])], false)
    ensures "message" !in args1 ==>
            Invoke(Some("echo"), args1, now1) == ToolResult([Text("You said: no message")], false)
    ensures Invoke(Some("echo"), args1, now1) == Invoke(Some("echo"), args2, now2)
            <==> MessageOf(args1) == MessageOf(args2)
  {
    if "message" !in args1 {
      assert EchoPrefix + MessageOf(args1) == "You said: " + "no message";
      assert "You said: " + "no message" == "You said: no message";
    }
    if Invoke(Some("echo"), args1, now1) == Invoke(Some("echo"), args2, now2) {
      FrameInjective(EchoPrefix, MessageOf(args1), MessageOf(args2), "");
    }
  }

  /** The catalog declares `message` required for echo, but the invoker does
      not check it: an echo call without a message still succeeds. */
  lemma EchoSchemaIsAdvisory(now: string)
    ensures "message" in Catalog[1].inputSchema.required
    ensures Invoke(Some(Catalog[1].name), map[], now) == ToolResult([Text("You said: no message")], false)
  {
    assert Lookup(Some(Catalog[1].name)) == Some(Echo);
    assert EchoPrefix + MessageOf(map[]) == "You said: " + "no message";
    assert "You said: " + "no message" == "You said: no message";
  }

  /** Any name other than the two tools gives a one-item error result naming
      the tool, independent of arguments and clock; different names give
      different texts, except that an absent name reads as "None". */
  lemma UnknownToolReported(name1: Option<string>, name2: Option<string>,
                            args1: Arguments, args2: Arguments, now1: string, now2: string)
    requires Lookup(name1).None? && Lookup(name2).None?
    ensures Invoke(name1, args1, now1) == ToolResult([Text("Tool '" + Show(name1) + "' not found.")], true)
    ensures Invoke(name1, args1, now1) == Invoke(name2, args2, now2) <==> Show(name1) == Show(name2)
  {
    if Invoke(name1, args1, now1) == Invoke(name2, args2, now2) {
      FrameInjective("Tool '", Show(name1), Show(name2), "' not found.");
    }
  }

  /** An absent tool name and the literal name "None" are indistinguishable
      in the answer. */
  lemma AbsentNameReadsAsNone(args: Arguments, now: string)
    ensures Invoke(None, args, now) == Invoke(Some("None"), args, now)
    ensures Invoke(None, args, now).content == [Text("Tool 'None' not found.")]
  {
    assert NotFoundText(None) == "Tool '" + "None" + "' not found.";
    assert "Tool '" + "None" + "' not found." == "Tool 'None' not found.";
  }
}
