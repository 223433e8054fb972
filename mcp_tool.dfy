/** A tool of an MCP server, wrapped as a tool of the agent. */
module McpTool {
  import opened Common
  import opened Json
  import opened ToolBase
  import opened McpClient
  import Dict

  /**
   * `schema`: always an object schema; its properties and required list are the tool's own,
   * or empty when the tool's input schema has none.
   */
  function Schema(info: ToolInfo): (r: Object)
    ensures Dict.Keys(r) == ["type", "properties", "required"]
    ensures Dict.Get(r, "type") == Some(JStr("object"))
    ensures Dict.Get(r, "properties") == Some(
      if "properties" in Dict.Keys(info.inputSchema) then Dict.Get(info.inputSchema, "properties").value else JObj([]))
    ensures Dict.Get(r, "required") == Some(
      if "required" in Dict.Keys(info.inputSchema) then Dict.Get(info.inputSchema, "required").value else JArr([]))
  {
    var r := [("type", JStr("object")),
              ("properties", GetOr(info.inputSchema, "properties", JObj([]))),
              ("required", GetOr(info.inputSchema, "required", JArr([])))];
    assert Dict.Keys(r) == ["type", "properties", "required"] by {
      assert Dict.Keys(r)[0] == "type" && Dict.Keys(r)[1] == "properties" && Dict.Keys(r)[2] == "required";
    }
    assert Dict.Get(r, "required") == Some(r[2].1) by {
      assert r[1..][1..] == [r[2]];
      assert "type" != "required" && "properties" != "required";
      assert Dict.Get(r[1..][1..], "required") == Some(r[2].1);
      assert Dict.Get(r[1..], "required") == Dict.Get(r[1..][1..], "required");
    }
    r
  }

  const FailedPrefix := "MCP tool failed: "

  /**
   * `execute`'s mapping of the client's answer: a flagged error carries the output as its
   * message, anything else succeeds with it, and an exception becomes a failure message.
   */
  function Result(answer: Outcome<CallOutput>): (r: ToolResult)
    ensures r.success <==> answer.Ok? && !answer.value.isError
    ensures answer.Raised? ==> r == ErrorResult(FailedPrefix + answer.message)
    ensures answer.Ok? ==> (if answer.value.isError then r.error == Some(answer.value.output) else r.output == answer.value.output)
  {
    match answer
    case Raised(e) => ErrorResult(FailedPrefix + e)
    case Ok(o) => if o.isError then ErrorResult(o.output) else SuccessResult(o.output)
  }

  /**
   * The tool of an MCP server's tool under the agent-side name `name`. `call` is the client's
   * answer to a call of the server's tool with some arguments. Its kind is MCP and it counts as
   * mutating whatever the arguments, so the default confirmation always asks.
   */
  function AsTool(info: ToolInfo, name: string, call: (string, Object) -> Outcome<CallOutput>): (t: Tool)
    ensures t.name == name && t.description == info.description && t.kind == Mcp
    ensures t.schema == DictSchema(Schema(info))
  {
    Tool(name, info.description, Mcp, DictSchema(Schema(info)),
         (params: Object) => [],
         (params: Object) => true,
         (inv: Invocation) => Ok(DefaultConfirmation(name, true, inv)),
         (inv: Invocation) => Ok(Result(call(info.name, inv.params))))
  }

  /**
   * The wrapped tool accepts any arguments, counts as mutating whatever they are so the default
   * confirmation always asks, and runs by calling the server's tool of the same name.
   */
  lemma AsToolBehaviour(info: ToolInfo, name: string, call: (string, Object) -> Outcome<CallOutput>, inv: Invocation)
    ensures var t := AsTool(info, name, call);
      t.validate(inv.params) == [] && t.mutating(inv.params)
      && t.confirm(inv).Ok? && t.confirm(inv).value.Some? && t.confirm(inv).value.value.toolName == name
      && t.run(inv) == Ok(Result(call(info.name, inv.params)))
  {
  }

  /**
   * `execute` on a live client: `answer` is what the server answers to the call. A client that
   * is not connected fails with the server's name in the message.
   */
  method Execute(client: Client, info: ToolInfo, inv: Invocation, answer: Outcome<CallAnswer>) returns (r: ToolResult)
    ensures !client.session || client.status != Connected ==>
      r == ErrorResult(FailedPrefix + ("Not connected to server " + client.name))
    ensures client.session && client.status == Connected ==> match answer
      case Raised(m) => r == ErrorResult(FailedPrefix + m)
      case Ok(a) => (r.success == !a.isError
                     && (if a.isError then r.error else Some(r.output)) == Some(Join(ItemTexts(a.content), "\n")))
  {
    var called := client.CallTool(answer);
    r := Result(called);
    if client.session && client.status == Connected && answer.Ok? {
      assert called == Ok(CallOutput(Join(ItemTexts(answer.value.content), "\n"), answer.value.isError));
    }
  }
}
