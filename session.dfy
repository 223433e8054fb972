/** The session: the components one conversation shares, the stored user memory and the statistics. */
module Sessions {
  import opened Common
  import opened Json
  import Dict
  import Time
  import Response
  import Config
  import Context
  import LoopDetection
  import Hooks
  import Registry

  const MemoryHeader := "User preferences and notes:"

  /** One `- key: value` line per entry, the value rendered by `str`. */
  function MemoryLines(entries: Object, show: Json -> string): (r: seq<string>)
    ensures |r| == |entries|
    ensures forall i :: 0 <= i < |r| ==> r[i] == "- " + entries[i].0 + ": " + show(entries[i].1)
  {
    if entries == [] then []
    else ["- " + entries[0].0 + ": " + show(entries[0].1)] + MemoryLines(entries[1..], show)
  }

  /**
   * `_load_user_memory` (`_load_memory` in the older tree), given what reading and parsing
   * `user_memory.json` gave: `None` when the file does not exist, `Raised` when reading or
   * parsing failed. Every exception inside the `try` yields `None`.
   */
  function UserMemory(stored: Option<Outcome<Json>>, show: Json -> string): (r: Option<string>)
    ensures r.Some? <==> stored.Some? && stored.value.Ok? && stored.value.value.JObj?
                         && var e := Dict.Get(stored.value.value.fields, "entries");
                            e.Some? && e.value.JObj? && e.value.fields != []
    ensures r.Some? ==>
              var entries := Dict.Get(stored.value.value.fields, "entries").value.fields;
              r.value == Join([MemoryHeader] + MemoryLines(entries, show), "\n")
  {
    if stored.None? || stored.value.Raised? then None
    else
      var data := stored.value.value;
      // `data.get` on anything but a dict raises `AttributeError`
      if !data.JObj? then None
      else
        var entries := GetOr(data.fields, "entries", JNull);
        if !Truthy(entries) then None
        // `entries.items()` on a non-empty non-dict raises `AttributeError`
        else if !entries.JObj? then None
        else Some(Join([MemoryHeader] + MemoryLines(entries.fields, show), "\n"))
  }

  /** The formatted memory is never empty: it starts with the header line. */
  lemma UserMemoryStartsWithHeader(stored: Option<Outcome<Json>>, show: Json -> string)
    ensures var r := UserMemory(stored, show);
      r.Some? ==> StartsWith(r.value, MemoryHeader) && r.value != []
  {
    var r := UserMemory(stored, show);
    if r.Some? {
      var entries := Dict.Get(stored.value.value.fields, "entries").value.fields;
      var lines := MemoryLines(entries, show);
      var parts := [MemoryHeader] + lines;
      assert parts[0] == MemoryHeader;
      if lines != [] {
        assert r.value == MemoryHeader + "\n" + Join(parts[1..], "\n");
      }
    }
  }

  /** `_load_all_memory`: the present parts, user memory first, joined by a blank line. */
  function AllMemory(user: Option<string>, knowledge: Option<string>): (r: Option<string>)
    ensures r.None? <==> !Present(user) && !Present(knowledge)
    ensures Present(user) && Present(knowledge) ==> r == Some(user.value + "\n\n" + knowledge.value)
    ensures Present(user) && !Present(knowledge) ==> r == user
    ensures !Present(user) && Present(knowledge) ==> r == knowledge
  {
    var memories := (if Present(user) then [user.value] else []) + (if Present(knowledge) then [knowledge.value] else []);
    if memories == [] then None
    else
      assert |memories| == 2 ==> memories[1..] == [knowledge.value] && Join([knowledge.value], "\n\n") == knowledge.value
                                 && memories[0] == user.value;
      Some(Join(memories, "\n\n"))
  }

  /** The dictionary `get_stats` returns. */
  datatype Stats = Stats(sessionId: string, createdAt: string, turnCount: int, messageCount: nat,
                         tokenUsage: Response.TokenUsage, toolsCount: nat, mcpServers: nat)

  class Session {
    const ctx: Context.ContextManager
    const detector: LoopDetection.LoopDetector
    const hooks: Hooks.HookSystem
    const registry: Registry.ToolRegistry
    /** `str(uuid.uuid4())`, drawn by the caller. */
    var sessionId: string
    var createdAt: Time.DateTime
    var updatedAt: Time.DateTime
    var turnCount: int

    ghost predicate Valid()
      reads this, detector, registry
    {
      detector.Valid() && registry.Valid() && Time.Valid(createdAt)
    }

    /**
     * `__init__` and `initialize` together: the context manager is built with the rendered
     * system prompt.
     */
    constructor (c: Config.AgentConfig, environ: Hooks.Env, systemPrompt: string, contextWindow: int,
                 tokens: string -> nat, sessionId: string, now: Time.DateTime)
      requires Time.Valid(now)
      ensures fresh(ctx) && fresh(detector) && fresh(hooks) && fresh(registry)
      ensures ctx.messages == [] && ctx.systemPrompt == systemPrompt && ctx.contextWindow == contextWindow
      ensures ctx.tokens == tokens && ctx.wording == Context.SummaryWording && ctx.latestUsage == Response.ZeroUsage && ctx.totalUsage == Response.ZeroUsage
      ensures detector.history == [] && hooks.runs == [] && hooks.hooks == Hooks.ActiveHooks(c)
      ensures registry.builtin == [] && registry.mcp == [] && registry.allowedTools == c.allowedTools
      ensures this.sessionId == sessionId && createdAt == now && updatedAt == now && turnCount == 0
      ensures Valid()
    {
      ctx := new Context.ContextManager(systemPrompt, contextWindow, tokens);
      detector := new LoopDetection.LoopDetector();
      hooks := new Hooks.HookSystem(c, environ);
      registry := new Registry.ToolRegistry(c.allowedTools);
      this.sessionId := sessionId;
      createdAt := now;
      updatedAt := now;
      turnCount := 0;
    }

    /** `increment_turn`: one more turn, stamped `now`; returns the new count. */
    method IncrementTurn(now: Time.DateTime) returns (n: int)
      modifies this`turnCount, this`updatedAt
      ensures turnCount == old(turnCount) + 1 && n == turnCount && updatedAt == now
    {
      turnCount := turnCount + 1;
      updatedAt := now;
      n := turnCount;
    }

    /** `get_stats`. */
    method GetStats() returns (s: Stats)
      requires Valid()
      ensures s.sessionId == sessionId && s.turnCount == turnCount
      ensures Time.FromIsoFormat(s.createdAt) == Some(createdAt)
      ensures s.messageCount == |ctx.messages| && s.tokenUsage == ctx.totalUsage
      ensures s.toolsCount == |Registry.Listed(registry.builtin, registry.mcp, registry.allowedTools)|
      ensures s.mcpServers == |registry.mcp|
    {
      var tools := registry.GetTools();
      Time.IsoRoundTrip(createdAt);
      s := Stats(sessionId, Time.IsoFormat(createdAt), turnCount, ctx.MessageCount(), ctx.totalUsage,
                 |tools|, |registry.mcp|);
    }
  }
}
