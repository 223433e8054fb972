/**
 * The MCP manager: one client per enabled server of the configuration, connected at start-up,
 * whose tools are registered under `<server>__<tool>` names.
 */
module McpManager {
  import opened Common
  import opened Json
  import opened ToolBase
  import opened McpClient
  import Config
  import Dict
  import McpTool
  import Registry

  type Servers = seq<(string, Config.McpServerConfig)>

  /** The servers a client is made for: the enabled ones, each name once, in configuration order. */
  function Enabled(servers: Servers): (r: Servers)
    decreases |servers|
  {
    if servers == [] then []
    else
      var last := servers[|servers| - 1];
      var e := Enabled(servers[..|servers| - 1]);
      if last.1.enabled then Dict.Put(e, last.0, last.1) else e
  }

  /** Of a configuration that names each server once, exactly the enabled servers get a client. */
  lemma {:induction false} EnabledGet(servers: Servers, k: string)
    requires Dict.DistinctKeys(servers)
    ensures Dict.DistinctKeys(Enabled(servers))
    ensures Dict.Get(Enabled(servers), k)
            == if Dict.Get(servers, k).Some? && Dict.Get(servers, k).value.enabled then Dict.Get(servers, k) else None
    decreases |servers|
  {
    if servers != [] {
      var init, last := servers[..|servers| - 1], servers[|servers| - 1];
      assert servers == init + [last];
      assert Dict.DistinctKeys(init);
      EnabledGet(init, k);
      Dict.GetConcat(init, [last], k);
      assert last.0 !in Dict.Keys(init) by {
        forall j | 0 <= j < |init| ensures Dict.Keys(init)[j] != last.0 {
          assert servers[j] == init[j];
        }
      }
      if last.1.enabled {
        Dict.PutDistinct(Enabled(init), last.0, last.1);
        Dict.GetPut(Enabled(init), last.0, last.1, k);
        if k == last.0 {
          EnabledGet(init, last.0);
        }
      }
    }
  }

  /** The state a client is left in by one attempt to connect it from a fresh start. */
  ghost predicate Attempted(c: Client, a: Attempt)
    reads c
  {
    c.session
    && match a
       case Listed(listed) => c.status == Connected && c.tools == Absorb([], listed, c.name)
       case Failed(_) => c.status == Error && c.tools == []
       case Cancelled => c.status == Connecting && c.tools == []
  }

  /** What `get_all_servers` and `register_tools` see of one client. */
  datatype View = View(name: string, status: ServerStatus, tools: seq<ToolInfo>)

  /** The entry of `get_all_servers` for one client. */
  function ServerInfo(v: View): (r: Object)
    ensures Dict.Keys(r) == ["name", "status", "tools"]
    ensures r[0].1 == JStr(v.name) && r[1].1 == JStr(StatusValue(v.status)) && r[2].1 == JInt(|v.tools|)
  {
    [("name", JStr(v.name)), ("status", JStr(StatusValue(v.status))), ("tools", JInt(|v.tools|))]
  }

  /** The agent-side name of a server's tool. */
  function Qualified(server: string, tool: string): string {
    server + "__" + tool
  }

  /** The client's answer for one server, as the tool wrapping sees it. */
  function Caller(call: (string, string, Object) -> Outcome<CallOutput>, server: string): (string, Object) -> Outcome<CallOutput> {
    (tool: string, args: Object) => call(server, tool, args)
  }

  /** The tool registered for one tool of a server. */
  function Wrap(r: Registration, call: (string, string, Object) -> Outcome<CallOutput>): (t: Tool)
    ensures t.name == Qualified(r.server, r.info.name) && t.kind == Mcp
  {
    McpTool.AsTool(r.info, Qualified(r.server, r.info.name), Caller(call, r.server))
  }

  /** One tool to register: a server's name and one of its tools. */
  datatype Registration = Registration(server: string, info: ToolInfo)

  /** The registrations of one server, in the order of its tools. */
  function ToolsOf(server: string, tools: seq<ToolInfo>): (r: seq<Registration>)
    ensures |r| == |tools|
    decreases |tools|
  {
    if tools == [] then []
    else ToolsOf(server, tools[..|tools| - 1]) + [Registration(server, tools[|tools| - 1])]
  }

  lemma {:induction false} ToolsOfAt(server: string, tools: seq<ToolInfo>, k: nat)
    requires k < |tools|
    ensures ToolsOf(server, tools)[k] == Registration(server, tools[k])
    decreases |tools|
  {
    if k < |tools| - 1 {
      ToolsOfAt(server, tools[..|tools| - 1], k);
    }
  }

  /** What `register_tools` registers: the tools of the connected clients only, in client order. */
  function Registered(views: seq<View>): (r: seq<Registration>)
    ensures |r| == ConnectedTools(views)
    decreases |views|
  {
    if views == [] then []
    else
      var v := views[|views| - 1];
      Registered(views[..|views| - 1]) + (if v.status == Connected then ToolsOf(v.name, v.tools) else [])
  }

  /** How many tools the connected clients have. */
  function ConnectedTools(views: seq<View>): nat
    decreases |views|
  {
    if views == [] then 0
    else
      var v := views[|views| - 1];
      ConnectedTools(views[..|views| - 1]) + (if v.status == Connected then |v.tools| else 0)
  }

  /** Every registration is of a tool of a connected client. */
  lemma {:induction false} RegisteredFrom(views: seq<View>, k: nat) returns (i: nat, j: nat)
    requires k < |Registered(views)|
    ensures i < |views| && views[i].status == Connected && j < |views[i].tools|
    ensures Registered(views)[k] == Registration(views[i].name, views[i].tools[j])
    decreases |views|
  {
    var init, v := views[..|views| - 1], views[|views| - 1];
    var before := Registered(init);
    if k < |before| {
      i, j := RegisteredFrom(init, k);
      assert views[i] == init[i];
    } else {
      i, j := |views| - 1, k - |before|;
      ToolsOfAt(v.name, v.tools, j);
    }
  }

  /** Every tool of a connected client is registered. */
  lemma {:induction false} RegisteredAll(views: seq<View>, i: nat, j: nat) returns (k: nat)
    requires i < |views| && views[i].status == Connected && j < |views[i].tools|
    ensures k < |Registered(views)| && Registered(views)[k] == Registration(views[i].name, views[i].tools[j])
    decreases |views|
  {
    var init, v := views[..|views| - 1], views[|views| - 1];
    var before := Registered(init);
    if i < |init| {
      assert views[i] == init[i];
      k := RegisteredAll(init, i, j);
    } else {
      k := |before| + j;
      ToolsOfAt(v.name, v.tools, j);
    }
  }

  /**
   * The registry's MCP dictionary after registering some tools in order, each under
   * `<server>__<tool>`.
   */
  function RegisterAll(d: Registry.Tools, rs: seq<Registration>, call: (string, string, Object) -> Outcome<CallOutput>): Registry.Tools
    decreases |rs|
  {
    if rs == [] then d
    else
      var t := Wrap(rs[|rs| - 1], call);
      Dict.Put(RegisterAll(d, rs[..|rs| - 1], call), t.name, t)
  }

  /** Registering two batches one after the other is registering them together. */
  lemma {:induction false} RegisterAllConcat(d: Registry.Tools, a: seq<Registration>, b: seq<Registration>,
                                             call: (string, string, Object) -> Outcome<CallOutput>)
    ensures RegisterAll(d, a + b, call) == RegisterAll(RegisterAll(d, a, call), b, call)
    decreases |b|
  {
    if b == [] {
      assert a + b == a;
    } else {
      assert (a + b)[..|a + b| - 1] == a + b[..|b| - 1];
      assert (a + b)[|a + b| - 1] == b[|b| - 1];
      RegisterAllConcat(d, a, b[..|b| - 1], call);
    }
  }

  /** Each registered tool can be found in the registry under its qualified name. */
  lemma {:induction false} RegisterAllGet(d: Registry.Tools, rs: seq<Registration>, call: (string, string, Object) -> Outcome<CallOutput>, k: nat)
    requires k < |rs| && forall k' :: k < k' < |rs| ==> Qualified(rs[k'].server, rs[k'].info.name) != Qualified(rs[k].server, rs[k].info.name)
    ensures Dict.Get(RegisterAll(d, rs, call), Qualified(rs[k].server, rs[k].info.name)) == Some(Wrap(rs[k], call))
    decreases |rs|
  {
    var init, last := rs[..|rs| - 1], rs[|rs| - 1];
    var name := Qualified(rs[k].server, rs[k].info.name);
    Dict.GetPut(RegisterAll(d, init, call), Wrap(last, call).name, Wrap(last, call), name);
    if k < |rs| - 1 {
      RegisterAllGet(d, init, call, k);
    }
  }

  /** A client just made for a server: named after it, with its configuration, not connected. */
  ghost predicate Blank(c: Client, server: (string, Config.McpServerConfig))
    reads c
  {
    c.name == server.0 && c.config == server.1 && c.status == Disconnected && !c.session && c.tools == []
  }

  /** `cs` holds one distinct, blank client per server of `es`, under the server's name, in order. */
  ghost predicate Made(cs: seq<(string, Client)>, es: Servers)
    reads set j | 0 <= j < |cs| :: cs[j].1
  {
    |cs| == |es| && Dict.DistinctKeys(es)
    && (forall j, j' :: 0 <= j < j' < |cs| ==> cs[j].1 != cs[j'].1)
    && forall j :: 0 <= j < |cs| ==> cs[j].0 == es[j].0 && Blank(cs[j].1, es[j])
  }

  /** The clients made for some servers have those servers' names, each once. */
  lemma MadeKeys(cs: seq<(string, Client)>, es: Servers)
    requires Made(cs, es)
    ensures Dict.Keys(cs) == Dict.Keys(es) && Dict.DistinctKeys(cs)
  {
    assert forall j :: 0 <= j < |cs| ==> Dict.Keys(cs)[j] == Dict.Keys(es)[j];
  }

  /** Adding a new blank client for one more server keeps the clients made for the servers. */
  lemma MadeStep(cs: seq<(string, Client)>, es: Servers, name: string, server: Config.McpServerConfig, c: Client)
    requires Made(cs, es) && Blank(c, (name, server))
    requires forall j :: 0 <= j < |cs| ==> cs[j].1 != c
    ensures Made(Dict.Put(cs, name, c), Dict.Put(es, name, server))
  {
    MadeKeys(cs, es);
    Dict.PutAt(cs, name, c);
    Dict.PutAt(es, name, server);
    Dict.PutDistinct(es, name, server);
  }

  class Manager {
    const config: Config.AgentConfig
    var clients: seq<(string, Client)>
    var initialized: bool

    ghost function Objects(): set<Client>
      reads this
    {
      set i | 0 <= i < |clients| :: clients[i].1
    }

    ghost predicate Valid()
      reads this, Objects()
    {
      Dict.DistinctKeys(clients)
      && (forall i, j :: 0 <= i < j < |clients| ==> clients[i].1 != clients[j].1)
      && (forall i :: 0 <= i < |clients| ==> clients[i].1.name == clients[i].0 && clients[i].1.Valid())
      && (!initialized ==> clients == [])
    }

    constructor (config: Config.AgentConfig)
      ensures this.config == config && clients == [] && !initialized && Valid()
    {
      this.config := config;
      clients := [];
      initialized := false;
    }

    /** What the manager's clients look like now. */
    function Views(): (r: seq<View>)
      reads this, Objects()
      ensures |r| == |clients|
      ensures forall i :: 0 <= i < |clients| ==>
        r[i] == View(clients[i].0, clients[i].1.status, clients[i].1.Tools())
    {
      ViewsOf(clients)
    }

    /**
     * `initialize`: nothing when already initialized, nor (without becoming initialized) when
     * no server is configured. Otherwise a fresh client for each enabled server, each connected
     * once with what `attempt` says of its server; connection errors do not stop the others.
     */
    method Initialize(attempt: string -> Attempt)
      requires Valid()
      modifies this
      ensures Valid()
      ensures old(initialized) ==> initialized && clients == old(clients)
      ensures !old(initialized) && config.mcpServers == [] ==> !initialized && clients == []
      ensures !old(initialized) && config.mcpServers != [] ==>
        initialized && Dict.Keys(clients) == Dict.Keys(Enabled(config.mcpServers))
        && forall i :: 0 <= i < |clients| ==>
             fresh(clients[i].1) && clients[i].1.config == Enabled(config.mcpServers)[i].1
             && Attempted(clients[i].1, attempt(clients[i].0))
    {
      if initialized || config.mcpServers == [] {
        return;
      }
      Create();
      MadeKeys(clients, Enabled(config.mcpServers));
      ConnectAll(attempt);
      initialized := true;
    }

    /** The first loop of `initialize`: one fresh, disconnected client per enabled server. */
    method Create()
      requires clients == []
      modifies this`clients
      ensures Made(clients, Enabled(config.mcpServers))
      ensures forall i :: 0 <= i < |clients| ==> fresh(clients[i].1)
    {
      var servers := config.mcpServers;
      var i := 0;
      while i < |servers|
        invariant 0 <= i <= |servers|
        invariant Made(clients, Enabled(servers[..i]))
        invariant forall e :: e in clients ==> fresh(e.1)
      {
        var name, server := servers[i].0, servers[i].1;
        assert servers[..i + 1][..i] == servers[..i] && servers[..i + 1][i] == servers[i];
        if server.enabled {
          var c := new Client(name, server, config.cwd);
          MadeStep(clients, Enabled(servers[..i]), name, server, c);
          Dict.PutMembers(clients, name, c);
          clients := Dict.Put(clients, name, c);
        }
        i := i + 1;
      }
      assert servers[..i] == servers;
    }

    /** The connection tasks of `initialize`, one per client. */
    method ConnectAll(attempt: string -> Attempt)
      requires Dict.DistinctKeys(clients)
      requires forall i, j :: 0 <= i < j < |clients| ==> clients[i].1 != clients[j].1
      requires forall i :: 0 <= i < |clients| ==>
        clients[i].1.name == clients[i].0 && clients[i].1.status == Disconnected && clients[i].1.tools == []
        && clients[i].1.Valid()
      modifies Objects()
      ensures forall i :: 0 <= i < |clients| ==>
        clients[i].1.Valid() && Attempted(clients[i].1, attempt(clients[i].0))
    {
      var i := 0;
      while i < |clients|
        invariant 0 <= i <= |clients|
        invariant forall j :: 0 <= j < |clients| ==> clients[j].1.name == clients[j].0 && clients[j].1.Valid()
        invariant forall j :: 0 <= j < i ==> Attempted(clients[j].1, attempt(clients[j].0))
        invariant forall j :: i <= j < |clients| ==> clients[j].1.status == Disconnected && clients[j].1.tools == []
      {
        var c := clients[i].1;
        var _ := c.Connect(attempt(clients[i].0));
        i := i + 1;
      }
    }

    /**
     * `register_tools`: every tool of every connected client, under `<server>__<tool>`, into
     * the registry's MCP tools; the count is how many were registered.
     */
    method RegisterTools(registry: Registry.ToolRegistry, call: (string, string, Object) -> Outcome<CallOutput>)
      returns (count: nat)
      requires Valid() && registry.Valid()
      modifies registry`mcp
      ensures registry.Valid()
      ensures registry.mcp == RegisterAll(old(registry.mcp), Registered(old(Views())), call)
      ensures count == ConnectedTools(old(Views()))
    {
      var views := Views();
      count := RegisterViews(registry, views, call);
    }

    /** `shutdown`: every client disconnected, then none kept and not initialized. */
    method Shutdown()
      requires Valid()
      modifies this, Objects()
      ensures clients == [] && !initialized && Valid()
      ensures forall c :: c in old(Objects()) ==> c.status == Disconnected && !c.session && c.tools == []
    {
      var i := 0;
      while i < |clients|
        invariant 0 <= i <= |clients| && clients == old(clients)
        invariant forall j :: 0 <= j < i ==>
          clients[j].1.status == Disconnected && !clients[j].1.session && clients[j].1.tools == []
      {
        clients[i].1.Disconnect();
        i := i + 1;
      }
      clients := [];
      initialized := false;
    }

    /** `get_all_servers`: one entry per client, in client order. */
    method GetAllServers() returns (servers: seq<Object>)
      ensures |servers| == |clients|
      ensures forall i :: 0 <= i < |clients| ==> servers[i] == ServerInfo(Views()[i])
    {
      servers := [];
      var i := 0;
      while i < |clients|
        invariant 0 <= i <= |clients| && |servers| == i
        invariant forall j :: 0 <= j < i ==> servers[j] == ServerInfo(Views()[j])
      {
        var c := clients[i].1;
        servers := servers + [ServerInfo(View(clients[i].0, c.status, c.Tools()))];
        i := i + 1;
      }
    }
  }

  /** The outer loop of `register_tools`, over what the clients look like. */
  method RegisterViews(registry: Registry.ToolRegistry, views: seq<View>, call: (string, string, Object) -> Outcome<CallOutput>)
    returns (count: nat)
    requires registry.Valid()
    modifies registry`mcp
    ensures registry.Valid() && registry.mcp == RegisterAll(old(registry.mcp), Registered(views), call)
    ensures count == ConnectedTools(views)
  {
    ghost var d := registry.mcp;
    count := 0;
    var i := 0;
    while i < |views|
      invariant 0 <= i <= |views| && registry.Valid()
      invariant registry.mcp == RegisterAll(d, Registered(views[..i]), call)
      invariant count == ConnectedTools(views[..i])
    {
      count := RegisterView(registry, views, i, count, d, call);
      i := i + 1;
    }
    assert views[..i] == views;
  }

  /** One turn of the outer loop: the tools of the `i`-th client when it is connected. */
  method RegisterView(registry: Registry.ToolRegistry, views: seq<View>, i: nat, count: nat, ghost d: Registry.Tools,
                      call: (string, string, Object) -> Outcome<CallOutput>)
    returns (count': nat)
    requires i < |views| && registry.Valid()
    requires registry.mcp == RegisterAll(d, Registered(views[..i]), call) && count == ConnectedTools(views[..i])
    modifies registry`mcp
    ensures registry.Valid() && registry.mcp == RegisterAll(d, Registered(views[..i + 1]), call)
    ensures count' == ConnectedTools(views[..i + 1])
  {
    RegisterToolsStep(d, views, i, call);
    if views[i].status == Connected {
      RegisterServer(registry, views[i], call);
      count' := count + |views[i].tools|;
    } else {
      count' := count;
    }
  }

  /** The inner loop of `register_tools`: the tools of one client, in order. */
  method RegisterServer(registry: Registry.ToolRegistry, v: View, call: (string, string, Object) -> Outcome<CallOutput>)
    requires registry.Valid()
    modifies registry`mcp
    ensures registry.Valid() && registry.mcp == RegisterAll(old(registry.mcp), ToolsOf(v.name, v.tools), call)
  {
    var tools := v.tools;
    var j := 0;
    while j < |tools|
      invariant 0 <= j <= |tools| && registry.Valid()
      invariant registry.mcp == RegisterAll(old(registry.mcp), ToolsOf(v.name, tools[..j]), call)
    {
      var t := Wrap(Registration(v.name, tools[j]), call);
      RegisterStep(old(registry.mcp), v.name, tools, j, call);
      registry.RegisterMcpTool(t);
      assert registry.mcp == RegisterAll(old(registry.mcp), ToolsOf(v.name, tools[..j + 1]), call);
      j := j + 1;
    }
    assert tools[..j] == tools;
  }

  lemma RegisterToolsStep(d: Registry.Tools, views: seq<View>, i: nat, call: (string, string, Object) -> Outcome<CallOutput>)
    requires i < |views|
    ensures RegisterAll(d, Registered(views[..i + 1]), call)
            == if views[i].status == Connected
               then RegisterAll(RegisterAll(d, Registered(views[..i]), call), ToolsOf(views[i].name, views[i].tools), call)
               else RegisterAll(d, Registered(views[..i]), call)
    ensures ConnectedTools(views[..i + 1])
            == ConnectedTools(views[..i]) + if views[i].status == Connected then |views[i].tools| else 0
  {
    assert views[..i + 1][..i] == views[..i] && views[..i + 1][i] == views[i];
    if views[i].status == Connected {
      RegisterAllConcat(d, Registered(views[..i]), ToolsOf(views[i].name, views[i].tools), call);
    } else {
      assert Registered(views[..i + 1]) == Registered(views[..i]) + [];
      assert Registered(views[..i]) + [] == Registered(views[..i]);
    }
  }

  lemma RegisterStep(d: Registry.Tools, server: string, tools: seq<ToolInfo>, j: nat,
                     call: (string, string, Object) -> Outcome<CallOutput>)
    requires j < |tools|
    ensures var t := Wrap(Registration(server, tools[j]), call);
      RegisterAll(d, ToolsOf(server, tools[..j + 1]), call)
      == Dict.Put(RegisterAll(d, ToolsOf(server, tools[..j]), call), t.name, t)
  {
    assert tools[..j + 1][..j] == tools[..j];
  }

  function ViewsOf(clients: seq<(string, Client)>): (r: seq<View>)
    reads set i | 0 <= i < |clients| :: clients[i].1
    ensures |r| == |clients|
    ensures forall i :: 0 <= i < |clients| ==>
      r[i] == View(clients[i].0, clients[i].1.status, clients[i].1.Tools())
  {
    if clients == [] then []
    else [View(clients[0].0, clients[0].1.status, clients[0].1.Tools())] + ViewsOf(clients[1..])
  }
}
