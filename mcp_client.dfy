/**
 * One connection to an MCP server: its status, the tools the server listed, and tool calls over
 * the connection. The MCP library itself is abstract: what it answers is passed in.
 */
module McpClient {
  import opened Common
  import opened Json
  import opened Paths
  import Config
  import Dict

  datatype ServerStatus = Disconnected | Connecting | Connected | Error

  /** `MCPServerStatus` values. */
  function StatusValue(s: ServerStatus): string {
    match s
    case Disconnected => "disconnected"
    case Connecting => "connecting"
    case Connected => "connected"
    case Error => "error"
  }

  /** `MCPToolInfo`. */
  datatype ToolInfo = ToolInfo(name: string, description: string, inputSchema: Object, serverName: string)

  /** One tool as the server lists it; a missing `inputSchema` attribute is `None`. */
  datatype ListedTool = ListedTool(name: string, description: Option<string>, inputSchema: Option<Object>)

  /**
   * How an attempt to connect ends: the server's tool list, an exception with its message, or
   * cancellation by the caller's timeout while the attempt is still waiting.
   */
  datatype Attempt = Listed(tools: seq<ListedTool>) | Failed(message: string) | Cancelled

  /** One item of a tool call's content: text, or anything else by its `str`. */
  datatype ContentItem = TextItem(text: string) | OtherItem(repr: string)

  /** What the server answers to a tool call. */
  datatype CallAnswer = CallAnswer(content: seq<ContentItem>, isError: bool)

  /** The dictionary `call_tool` returns. */
  datatype CallOutput = CallOutput(output: string, isError: bool)

  /** The transport: a subprocess speaking over stdio, or server-sent events from a URL. */
  datatype Transport =
    | Stdio(command: string, args: seq<string>, env: seq<(string, string)>, cwd: Path)
    | Sse(url: Option<string>)

  /** The process environment with the server's variables laid over it, in order. */
  function Overlay(env: seq<(string, string)>, vars: seq<(string, string)>): (r: seq<(string, string)>)
    ensures forall k :: Dict.Get(r, k) == (if k in Dict.Keys(vars) then Dict.Get(vars, k) else Dict.Get(env, k))
    decreases |vars|
  {
    if vars == [] then env
    else
      var r := Overlay(Dict.Put(env, vars[|vars| - 1].0, vars[|vars| - 1].1), vars[..|vars| - 1]);
      OverlayLast(env, vars, r);
      r
  }

  lemma OverlayLast(env: seq<(string, string)>, vars: seq<(string, string)>, r: seq<(string, string)>)
    requires vars != []
    requires var last := vars[|vars| - 1];
      forall k :: Dict.Get(r, k) == (if k in Dict.Keys(vars[..|vars| - 1]) then Dict.Get(vars[..|vars| - 1], k)
                                     else Dict.Get(Dict.Put(env, last.0, last.1), k))
    ensures forall k :: Dict.Get(r, k) == (if k in Dict.Keys(vars) then Dict.Get(vars, k) else Dict.Get(env, k))
  {
    var init, last := vars[..|vars| - 1], vars[|vars| - 1];
    assert vars == init + [last];
    forall k ensures Dict.Get(r, k) == (if k in Dict.Keys(vars) then Dict.Get(vars, k) else Dict.Get(env, k)) {
      Dict.GetPut(env, last.0, last.1, k);
      Dict.GetConcat(init, [last], k);
    }
  }

  /** `_create_transport`: stdio exactly when a non-empty command is configured. */
  function CreateTransport(c: Config.McpServerConfig, cwd: Path, osEnv: seq<(string, string)>): (t: Transport)
    ensures t.Stdio? <==> Present(c.command)
    ensures t.Stdio? ==> (t.command == c.command.value && t.args == c.args
                          && t.cwd == (if c.cwd.Some? then c.cwd.value else cwd))
    ensures t.Sse? ==> t.url == c.url
  {
    if Present(c.command) then
      Stdio(c.command.value, c.args, Overlay(osEnv, c.env), if c.cwd.Some? then c.cwd.value else cwd)
    else Sse(c.url)
  }

  /** The record kept for a listed tool: no description is "", no schema attribute is `{}`. */
  function Info(t: ListedTool, server: string): (r: ToolInfo)
    ensures r.name == t.name && r.serverName == server
  {
    ToolInfo(t.name, if t.description.Some? then t.description.value else "",
             if t.inputSchema.Some? then t.inputSchema.value else [], server)
  }

  /** The tool dictionary after storing the listed tools one by one, later ones replacing earlier ones. */
  function Absorb(tools: seq<(string, ToolInfo)>, listed: seq<ListedTool>, server: string): seq<(string, ToolInfo)>
    decreases |listed|
  {
    if listed == [] then tools
    else
      var last := listed[|listed| - 1];
      Dict.Put(Absorb(tools, listed[..|listed| - 1], server), last.name, Info(last, server))
  }

  /** The names of the listed tools. */
  function Names(listed: seq<ListedTool>): (r: seq<string>)
    ensures |r| == |listed| && forall k :: 0 <= k < |listed| ==> r[k] == listed[k].name
  {
    if listed == [] then [] else [listed[0].name] + Names(listed[1..])
  }

  /** The last listed tool of a name. */
  function Latest(listed: seq<ListedTool>, k: string): (r: Option<ListedTool>)
    ensures r.None? <==> k !in Names(listed)
    ensures r.Some? ==> r.value.name == k && r.value in listed
    decreases |listed|
  {
    if listed == [] then None
    else if listed[|listed| - 1].name == k then Some(listed[|listed| - 1])
    else
      var r := Latest(listed[..|listed| - 1], k);
      assert Names(listed) == Names(listed[..|listed| - 1]) + [listed[|listed| - 1].name];
      r
  }

  /**
   * Every listed name is stored with the record of its last listing and this server's name;
   * tools not listed again keep their records.
   */
  lemma {:induction false} AbsorbGet(tools: seq<(string, ToolInfo)>, listed: seq<ListedTool>, server: string, k: string)
    ensures Dict.Get(Absorb(tools, listed, server), k)
            == if Latest(listed, k).Some? then Some(Info(Latest(listed, k).value, server)) else Dict.Get(tools, k)
    decreases |listed|
  {
    if listed != [] {
      var init, last := listed[..|listed| - 1], listed[|listed| - 1];
      AbsorbGet(tools, init, server, k);
      Dict.GetPut(Absorb(tools, init, server), last.name, Info(last, server), k);
    }
  }

  /** Storing listed tools keeps the dictionary keyed by tool name with one entry per name. */
  lemma {:induction false} AbsorbKeyed(tools: seq<(string, ToolInfo)>, listed: seq<ListedTool>, server: string)
    requires Keyed(tools, server)
    ensures Keyed(Absorb(tools, listed, server), server)
    decreases |listed|
  {
    if listed != [] {
      var init, last := listed[..|listed| - 1], listed[|listed| - 1];
      var before := Absorb(tools, init, server);
      AbsorbKeyed(tools, init, server);
      Dict.PutDistinct(before, last.name, Info(last, server));
      var after := Dict.Put(before, last.name, Info(last, server));
      Dict.PutMembers(before, last.name, Info(last, server));
      forall i | 0 <= i < |after| ensures after[i].1.name == after[i].0 && after[i].1.serverName == server {
        assert after[i] in after;
        if after[i] != (last.name, Info(last, server)) {
          var j :| 0 <= j < |before| && before[j] == after[i];
        }
      }
    }
  }

  /** A tool dictionary of one server: one entry per name, each stored under its own name. */
  predicate Keyed(tools: seq<(string, ToolInfo)>, server: string) {
    Dict.DistinctKeys(tools)
    && forall i :: 0 <= i < |tools| ==> tools[i].1.name == tools[i].0 && tools[i].1.serverName == server
  }

  /** The texts of a call's content items. */
  function ItemTexts(content: seq<ContentItem>): (r: seq<string>)
    ensures |r| == |content|
    ensures forall k :: 0 <= k < |content| ==> r[k] == (if content[k].TextItem? then content[k].text else content[k].repr)
  {
    if content == [] then []
    else [if content[0].TextItem? then content[0].text else content[0].repr] + ItemTexts(content[1..])
  }

  /** Items without line breaks, the last not empty, come back from the output one per line. */
  lemma OutputLines(content: seq<ContentItem>)
    requires content != []
    requires forall k :: 0 <= k < |content| ==> NoNewline(ItemTexts(content)[k])
    requires ItemTexts(content)[|content| - 1] != []
    ensures SplitLines(Join(ItemTexts(content), "\n")) == ItemTexts(content)
  {
    SplitLinesOfJoin(ItemTexts(content));
  }

  class Client {
    const name: string
    const config: Config.McpServerConfig
    const cwd: Path
    var status: ServerStatus
    /** Whether the library client object `_client` is set. */
    var session: bool
    var tools: seq<(string, ToolInfo)>

    ghost predicate Valid()
      reads this
    {
      Keyed(tools, name) && (status == Connected ==> session)
    }

    constructor (name: string, config: Config.McpServerConfig, cwd: Path)
      ensures this.name == name && this.config == config && this.cwd == cwd
      ensures status == Disconnected && !session && tools == [] && Valid()
    {
      this.name := name;
      this.config := config;
      this.cwd := cwd;
      status := Disconnected;
      session := false;
      tools := [];
    }

    /** The `tools` property: the stored records in insertion order. */
    function Tools(): seq<ToolInfo>
      reads this
    {
      Dict.Values(tools)
    }

    /**
     * `connect`: nothing when already connected. Otherwise the library client is created and
     * `attempt` says how opening it and listing the tools went: the listed tools are stored
     * and the status becomes connected; a failure sets the error status and is re-raised; a
     * cancellation leaves the status at connecting.
     */
    method Connect(attempt: Attempt) returns (r: Outcome<()>)
      requires Valid()
      modifies this`status, this`session, this`tools
      ensures Valid()
      ensures old(status) == Connected ==>
        r.Ok? && status == Connected && session == old(session) && tools == old(tools)
      ensures old(status) != Connected ==> session && match attempt
        case Listed(listed) => r.Ok? && status == Connected && tools == Absorb(old(tools), listed, name)
        case Failed(m) => r == Raised(m) && status == Error && tools == old(tools)
        case Cancelled => r == Raised("CancelledError") && status == Connecting && tools == old(tools)
    {
      if status == Connected {
        return Ok(());
      }
      status := Connecting;
      session := true;
      match attempt
      case Listed(listed) =>
        AbsorbKeyed(tools, listed, name);
        Store(listed);
        status := Connected;
        r := Ok(());
      case Failed(m) =>
        status := Error;
        r := Raised(m);
      case Cancelled =>
        r := Raised("CancelledError");
    }

    /** The loop of `connect` storing each listed tool under its name. */
    method Store(listed: seq<ListedTool>)
      modifies this`tools
      ensures tools == Absorb(old(tools), listed, name)
    {
      var i := 0;
      ghost var start := tools;
      while i < |listed|
        invariant 0 <= i <= |listed|
        invariant tools == Absorb(start, listed[..i], name)
      {
        assert listed[..i + 1][..i] == listed[..i];
        tools := Dict.Put(tools, listed[i].name, Info(listed[i], name));
        i := i + 1;
      }
      assert listed[..i] == listed;
    }

    /** `disconnect`: from any status, the library client is closed and dropped and the tools forgotten. */
    method Disconnect()
      modifies this`status, this`session, this`tools
      ensures status == Disconnected && !session && tools == [] && Valid()
    {
      session := false;
      tools := [];
      status := Disconnected;
    }

    /**
     * `call_tool`: refused unless connected with a library client; otherwise the server's
     * `answer` becomes the item texts joined by line breaks, with its error flag.
     */
    method CallTool(answer: Outcome<CallAnswer>) returns (r: Outcome<CallOutput>)
      ensures !session || status != Connected ==> r == Raised("Not connected to server " + name)
      ensures session && status == Connected ==> r == match answer
        case Raised(m) => Raised(m)
        case Ok(a) => Ok(CallOutput(Join(ItemTexts(a.content), "\n"), a.isError))
    {
      if !session || status != Connected {
        return Raised("Not connected to server " + name);
      }
      if answer.Raised? {
        return Raised(answer.message);
      }
      var content := answer.value.content;
      var output: seq<string> := [];
      var i := 0;
      while i < |content|
        invariant 0 <= i <= |content|
        invariant output == ItemTexts(content[..i])
      {
        ItemTextsSnoc(content[..i], content[i]);
        assert content[..i + 1] == content[..i] + [content[i]];
        output := output + [if content[i].TextItem? then content[i].text else content[i].repr];
        i := i + 1;
      }
      assert content[..i] == content;
      r := Ok(CallOutput(Join(output, "\n"), answer.value.isError));
    }
  }

  lemma ItemTextsSnoc(content: seq<ContentItem>, item: ContentItem)
    ensures ItemTexts(content + [item]) == ItemTexts(content) + [if item.TextItem? then item.text else item.repr]
  {
    var a, b := ItemTexts(content + [item]), ItemTexts(content) + [if item.TextItem? then item.text else item.repr];
    assert |a| == |b|;
    forall k | 0 <= k < |a| ensures a[k] == b[k] {
      if k < |content| {
        assert (content + [item])[k] == content[k];
      }
    }
  }
}
