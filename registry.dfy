/**
 * The tool registry of `tools/registry.py`: built-in and MCP tools by name, the
 * listing the model is offered, and the invocation pipeline (lookup, validation,
 * hooks, approval, execution) with the hook firings recorded as an event trace.
 */
module Registry {
  import opened Common
  import opened Json
  import opened Paths
  import opened Config
  import opened ToolBase
  import opened Approval
  import Dict

  type Tools = seq<(string, Tool)>

  /** The registry's dicts hold each tool under its own name, each name once. */
  ghost predicate WellKeyed(d: Tools) {
    Dict.DistinctKeys(d) && forall i :: 0 <= i < |d| ==> d[i].1.name == d[i].0
  }

  /** `get`: a built-in first, then an MCP tool. */
  function Lookup(builtin: Tools, mcp: Tools, name: string): (r: Option<Tool>)
    ensures name in Dict.Keys(builtin) ==> r == Dict.Get(builtin, name)
    ensures name !in Dict.Keys(builtin) ==> r == Dict.Get(mcp, name)
    ensures r.None? <==> name !in Dict.Keys(builtin) && name !in Dict.Keys(mcp)
  {
    var b := Dict.Get(builtin, name);
    if b.Some? then b else Dict.Get(mcp, name)
  }

  /** `register` replaces a tool of the same name at its place, adds a new one last, and `get` returns it. */
  lemma RegisterThenGet(builtin: Tools, mcp: Tools, t: Tool, other: string)
    requires WellKeyed(builtin)
    ensures WellKeyed(Dict.Put(builtin, t.name, t))
    ensures Lookup(Dict.Put(builtin, t.name, t), mcp, t.name) == Some(t)
    ensures other != t.name ==> Lookup(Dict.Put(builtin, t.name, t), mcp, other) == Lookup(builtin, mcp, other)
  {
    Dict.GetPut(builtin, t.name, t, t.name);
    Dict.GetPut(builtin, t.name, t, other);
    Dict.PutDistinct(builtin, t.name, t);
    PutKeepsNames(builtin, t);
  }

  lemma {:induction false} PutKeepsNames(d: Tools, t: Tool)
    requires forall i :: 0 <= i < |d| ==> d[i].1.name == d[i].0
    ensures var p := Dict.Put(d, t.name, t); forall i :: 0 <= i < |p| ==> p[i].1.name == p[i].0
  {
    if d != [] && d[0].0 != t.name {
      assert forall i :: 1 <= i < |d| ==> d[1..][i - 1] == d[i];
      PutKeepsNames(d[1..], t);
      assert Dict.Put(d, t.name, t) == [d[0]] + Dict.Put(d[1..], t.name, t);
    }
  }

  lemma {:induction false} RemoveKeepsNames(d: Tools, k: string)
    requires forall i :: 0 <= i < |d| ==> d[i].1.name == d[i].0
    ensures var p := Dict.Remove(d, k); forall i :: 0 <= i < |p| ==> p[i].1.name == p[i].0
  {
    if d != [] && d[0].0 != k {
      assert forall i :: 1 <= i < |d| ==> d[1..][i - 1] == d[i];
      RemoveKeepsNames(d[1..], k);
      assert Dict.Remove(d, k) == [d[0]] + Dict.Remove(d[1..], k);
    } else if d != [] {
      assert forall i :: 1 <= i < |d| ==> d[1..][i - 1] == d[i];
    }
  }

  /** After `unregister`, the name is no longer a built-in and an MCP tool of that name shows through. */
  lemma UnregisterThenGet(builtin: Tools, mcp: Tools, name: string, other: string)
    requires WellKeyed(builtin)
    ensures WellKeyed(Dict.Remove(builtin, name))
    ensures Lookup(Dict.Remove(builtin, name), mcp, name) == Dict.Get(mcp, name)
    ensures other != name ==> Lookup(Dict.Remove(builtin, name), mcp, other) == Lookup(builtin, mcp, other)
  {
    Dict.GetRemove(builtin, name, name);
    Dict.GetRemove(builtin, name, other);
    Dict.KeysRemove(builtin, name);
    RemoveKeepsNames(builtin, name);
  }

  /** The list comprehension of `get_tools`: the tools whose names are allowed, in order. */
  function FilterAllowed(ts: seq<Tool>, allowed: seq<string>): (r: seq<Tool>)
    ensures |r| <= |ts|
    ensures forall i :: 0 <= i < |r| ==> r[i].name in allowed
  {
    if ts == [] then []
    else (if ts[0].name in allowed then [ts[0]] else []) + FilterAllowed(ts[1..], allowed)
  }

  /** The filter works tool by tool: it keeps a tool exactly when its name is allowed, and keeps the order. */
  lemma {:induction false} FilterConcat(a: seq<Tool>, b: seq<Tool>, allowed: seq<string>)
    ensures FilterAllowed(a + b, allowed) == FilterAllowed(a, allowed) + FilterAllowed(b, allowed)
  {
    if a == [] {
      assert a + b == b;
    } else {
      assert (a + b)[1..] == a[1..] + b;
      FilterConcat(a[1..], b, allowed);
    }
  }

  lemma FilterSingle(t: Tool, allowed: seq<string>)
    ensures FilterAllowed([t], allowed) == if t.name in allowed then [t] else []
  {
  }

  /** A filter that allows every name keeps the list as it is. */
  lemma {:induction false} FilterAllAllowed(ts: seq<Tool>, allowed: seq<string>)
    requires forall i :: 0 <= i < |ts| ==> ts[i].name in allowed
    ensures FilterAllowed(ts, allowed) == ts
  {
    if ts != [] {
      assert forall i :: 1 <= i < |ts| ==> ts[1..][i - 1] == ts[i];
      FilterAllAllowed(ts[1..], allowed);
    }
  }

  /** What `get_tools` returns: all built-ins, then all MCP tools, restricted to `allowed_tools` when that is non-empty. */
  function Listed(builtin: Tools, mcp: Tools, allowed: Option<seq<string>>): seq<Tool> {
    var all := Dict.Values(builtin) + Dict.Values(mcp);
    if allowed.Some? && allowed.value != [] then FilterAllowed(all, allowed.value) else all
  }

  /**
   * Without a restriction every tool is listed, built-ins first; with one, the
   * allowed built-ins come first and then the allowed MCP tools, each in insertion order.
   */
  lemma ListedTools(builtin: Tools, mcp: Tools, allowed: Option<seq<string>>)
    ensures allowed.None? || allowed.value == [] ==>
      Listed(builtin, mcp, allowed) == Dict.Values(builtin) + Dict.Values(mcp)
    ensures allowed.Some? && allowed.value != [] ==>
      Listed(builtin, mcp, allowed) ==
        FilterAllowed(Dict.Values(builtin), allowed.value) + FilterAllowed(Dict.Values(mcp), allowed.value)
  {
    if allowed.Some? && allowed.value != [] {
      FilterConcat(Dict.Values(builtin), Dict.Values(mcp), allowed.value);
    }
  }

  /** `get_schemas`: one schema per listed tool, in order; a tool whose schema cannot be exported raises. */
  function SchemasOf(ts: seq<Tool>): (r: Outcome<seq<Object>>)
    ensures r.Ok? <==> forall i :: 0 <= i < |ts| ==> !ts[i].schema.OtherSchema?
    ensures r.Ok? ==> (|r.value| == |ts| &&
      forall i :: 0 <= i < |ts| ==> r.value[i] == ToOpenAiSchema(ts[i].name, ts[i].description, ts[i].schema).value)
  {
    if ts == [] then Ok([])
    else
      var head := ToOpenAiSchema(ts[0].name, ts[0].description, ts[0].schema);
      var rest := SchemasOf(ts[1..]);
      assert forall i :: 1 <= i < |ts| ==> ts[i] == ts[1..][i - 1];
      if head.Raised? then Raised(head.message)
      else if rest.Raised? then Raised(rest.message)
      else Ok([head.value] + rest.value)
  }

  // ---------------------------------------------------------------------
  // The invocation pipeline

  /** The side effects of `invoke`, in the order they happen. */
  datatype Event =
    | BeforeToolFired(name: string, params: Object)
    | ConfirmationAsked(confirmation: Confirmation)
    | Executed(invocation: Invocation)
    | AfterToolFired(name: string, params: Object, result: ToolResult)

  /** The approval manager handed to `invoke`: its policy, working directory, pattern search and callback. */
  datatype ApprovalManager = ApprovalManager(
    policy: ApprovalPolicy,
    cwd: Path,
    search: (string, string) -> bool,
    callback: Option<Confirmation -> Outcome<bool>>)

  /** The result of `invoke`, or the exception it lets through, with the events so far. */
  datatype Invoked = Invoked(result: Outcome<ToolResult>, events: seq<Event>)

  function UnknownToolResult(name: string): ToolResult {
    ErrorResult("Unknown tool: " + name, "", [("tool_name", JStr(name))])
  }

  function JStrs(xs: seq<string>): (r: seq<Json>)
    ensures |r| == |xs| && forall i :: 0 <= i < |xs| ==> r[i] == JStr(xs[i])
  {
    seq(|xs|, i requires 0 <= i < |xs| => JStr(xs[i]))
  }

  function InvalidParamsResult(name: string, errors: seq<string>): ToolResult {
    ErrorResult("Invalid parameters: " + Join(errors, "; "), "",
                [("tool_name", JStr(name)), ("validation_errors", JArr(JStrs(errors)))])
  }

  /** Runs the tool; an exception becomes an "Internal error" result. */
  function Execute(tool: Tool, inv: Invocation): ToolResult {
    match tool.run(inv)
    case Ok(r) => r
    case Raised(m) => ErrorResult("Internal error: " + m)
  }

  /**
   * The approval step: go on and execute (`Ok(None)`), the error result that ends the call, or
   * the exception the confirmation callback raised; with the confirmation asked, if any.
   */
  function Approve(tool: Tool, name: string, params: Object, c: Confirmation, am: ApprovalManager): (Outcome<Option<ToolResult>>, seq<Event>) {
    var ctx := ApprovalContext(name, params, tool.mutating(params), c.affectedPaths, c.command, c.isDangerous);
    var decision := CheckApproval(am.policy, am.cwd, am.search, ctx);
    if decision == Rejected then (Ok(Some(ErrorResult("Operation rejected by safety policy"))), [])
    else if decision == NeedsConfirmation then
      match RequestConfirmation(am.callback, c)
      case Raised(m) => (Raised(m), [ConfirmationAsked(c)])
      case Ok(approved) =>
        (Ok(if approved then None else Some(ErrorResult("User rejected the operation"))), [ConfirmationAsked(c)])
    else (Ok(None), [])
  }

  /** `invoke`, given what `get(name)` found. */
  function Invoke(found: Option<Tool>, name: string, params: Object, cwd: Path, am: Option<ApprovalManager>): Invoked {
    if found.None? then
      var r := UnknownToolResult(name);
      Invoked(Ok(r), [AfterToolFired(name, params, r)])
    else
      var tool := found.value;
      var errors := tool.validate(params);
      if errors != [] then
        var r := InvalidParamsResult(name, errors);
        Invoked(Ok(r), [AfterToolFired(name, params, r)])
      else
        var before := [BeforeToolFired(name, params)];
        var inv := Invocation(params, cwd);
        var (stop, asked) :=
          if am.None? then (Ok(None), [])
          else match tool.confirm(inv)
            case Raised(m) => (Raised(m), [])
            case Ok(None) => (Ok(None), [])
            case Ok(Some(c)) => Approve(tool, name, params, c, am.value);
        if stop.Raised? then Invoked(Raised(stop.message), before + asked)
        else if stop.value.Some? then
          Invoked(Ok(stop.value.value), before + asked + [AfterToolFired(name, params, stop.value.value)])
        else
          var r := Execute(tool, inv);
          Invoked(Ok(r), before + asked + [Executed(inv), AfterToolFired(name, params, r)])
  }

  function CountBefore(es: seq<Event>): nat {
    if es == [] then 0 else (if es[0].BeforeToolFired? then 1 else 0) + CountBefore(es[1..])
  }

  function CountAfter(es: seq<Event>): nat {
    if es == [] then 0 else (if es[0].AfterToolFired? then 1 else 0) + CountAfter(es[1..])
  }

  predicate WasExecuted(es: seq<Event>) {
    exists i :: 0 <= i < |es| && es[i].Executed?
  }

  lemma {:induction false} CountsConcat(a: seq<Event>, b: seq<Event>)
    ensures CountBefore(a + b) == CountBefore(a) + CountBefore(b)
    ensures CountAfter(a + b) == CountAfter(a) + CountAfter(b)
  {
    if a == [] {
      assert a + b == b;
    } else {
      assert (a + b)[1..] == a[1..] + b;
      CountsConcat(a[1..], b);
    }
  }

  /** An unknown tool: an error naming it, one after-tool hook, no before-tool hook, nothing executed. */
  lemma UnknownTool(name: string, params: Object, cwd: Path, am: Option<ApprovalManager>)
    ensures var v := Invoke(None, name, params, cwd, am);
      v.result == Ok(UnknownToolResult(name)) && !v.result.value.success
      && v.events == [AfterToolFired(name, params, v.result.value)]
      && CountBefore(v.events) == 0 && CountAfter(v.events) == 1 && !WasExecuted(v.events)
  {
  }

  /** Invalid parameters: the joined messages, one after-tool hook, no before-tool hook, nothing executed. */
  lemma InvalidParameters(tool: Tool, name: string, params: Object, cwd: Path, am: Option<ApprovalManager>)
    requires tool.validate(params) != []
    ensures var v := Invoke(Some(tool), name, params, cwd, am);
      v.result == Ok(InvalidParamsResult(name, tool.validate(params)))
      && v.result.value.error == Some("Invalid parameters: " + Join(tool.validate(params), "; "))
      && CountBefore(v.events) == 0 && CountAfter(v.events) == 1 && !WasExecuted(v.events)
  {
  }

  /**
   * Valid parameters: the before-tool hook fires first and exactly once; unless the approval
   * step raises, the after-tool hook fires last and exactly once, with the returned result.
   * When it raises, the after-tool hook does not fire and nothing is executed.
   */
  lemma HooksBracketCall(tool: Tool, name: string, params: Object, cwd: Path, am: Option<ApprovalManager>)
    requires tool.validate(params) == []
    ensures var v := Invoke(Some(tool), name, params, cwd, am);
      |v.events| >= 1 && v.events[0] == BeforeToolFired(name, params) && CountBefore(v.events) == 1
      && (v.result.Ok? ==> v.events[|v.events| - 1] == AfterToolFired(name, params, v.result.value)
                           && CountAfter(v.events) == 1)
      && (v.result.Raised? ==> am.Some? && CountAfter(v.events) == 0 && !WasExecuted(v.events))
  {
    var v := Invoke(Some(tool), name, params, cwd, am);
    InvokeValidShape(tool, name, params, cwd, am);
    if v.result.Ok? {
      BracketCounts(v.events);
    } else {
      var rest := v.events[1..];
      assert v.events == [v.events[0]] + rest;
      CountsConcat([v.events[0]], rest);
      NoHooksCounted(rest);
    }
  }

  /** Hook events only at the two ends: each hook is counted once. */
  lemma BracketCounts(es: seq<Event>)
    requires |es| >= 2 && es[0].BeforeToolFired? && es[|es| - 1].AfterToolFired?
    requires forall i :: 1 <= i < |es| - 1 ==> es[i].ConfirmationAsked? || es[i].Executed?
    ensures CountBefore(es) == 1 && CountAfter(es) == 1
  {
    var before := [es[0]];
    var rest := es[1..];
    assert es == before + rest;
    CountsConcat(before, rest);
    var middle := rest[..|rest| - 1];
    assert rest == middle + [rest[|rest| - 1]];
    CountsConcat(middle, [rest[|rest| - 1]]);
    assert forall i :: 0 <= i < |middle| ==> middle[i] == es[i + 1];
    NoHooksCounted(middle);
  }

  /** The events of a call with valid parameters: the before-tool hook, approval and execution, the after-tool hook. */
  lemma InvokeValidShape(tool: Tool, name: string, params: Object, cwd: Path, am: Option<ApprovalManager>)
    requires tool.validate(params) == []
    ensures var v := Invoke(Some(tool), name, params, cwd, am);
      (v.result.Raised? ==>
         am.Some? && |v.events| >= 1 && v.events[0] == BeforeToolFired(name, params)
         && (forall i :: 1 <= i < |v.events| ==> v.events[i].ConfirmationAsked?)
         && var confirmation := tool.confirm(Invocation(params, cwd));
            (confirmation.Raised? && v.result.message == confirmation.message)
            || (confirmation.Ok? && confirmation.value.Some?
                && RequestConfirmation(am.value.callback, confirmation.value.value) == Raised(v.result.message)))
      && (v.result.Ok? ==>
            |v.events| >= 2 && v.events[0] == BeforeToolFired(name, params)
            && v.events[|v.events| - 1] == AfterToolFired(name, params, v.result.value)
            && forall i :: 1 <= i < |v.events| - 1 ==> v.events[i].ConfirmationAsked? || v.events[i].Executed?)
  {
    var inv := Invocation(params, cwd);
    if am.Some? && tool.confirm(inv).Ok? && tool.confirm(inv).value.Some? {
      ApproveEvents(tool, name, params, tool.confirm(inv).value.value, am.value);
    }
  }

  /** The approval step asks for a confirmation at most, and raises only what the callback raised. */
  lemma ApproveEvents(tool: Tool, name: string, params: Object, c: Confirmation, am: ApprovalManager)
    ensures var a := Approve(tool, name, params, c, am);
      (forall i :: 0 <= i < |a.1| ==> a.1[i].ConfirmationAsked?)
      && (a.0.Raised? ==> RequestConfirmation(am.callback, c) == Raised(a.0.message))
  {
  }

  lemma {:induction false} NoHooksCounted(es: seq<Event>)
    requires forall i :: 0 <= i < |es| ==> es[i].ConfirmationAsked? || es[i].Executed?
    ensures CountBefore(es) == 0 && CountAfter(es) == 0
  {
    if es != [] {
      assert forall i :: 1 <= i < |es| ==> es[1..][i - 1] == es[i];
      NoHooksCounted(es[1..]);
    }
  }

  /** A call rejected by the policy or declined by the user is not executed and ends in an error. */
  lemma RejectedNotExecuted(tool: Tool, name: string, params: Object, cwd: Path, am: ApprovalManager, c: Confirmation)
    requires tool.validate(params) == [] && tool.confirm(Invocation(params, cwd)) == Ok(Some(c))
    requires var ctx := ApprovalContext(name, params, tool.mutating(params), c.affectedPaths, c.command, c.isDangerous);
      var d := CheckApproval(am.policy, am.cwd, am.search, ctx);
      d == Rejected || (d == NeedsConfirmation && RequestConfirmation(am.callback, c) == Ok(false))
    ensures var v := Invoke(Some(tool), name, params, cwd, Some(am));
      v.result.Ok? && !v.result.value.success && !WasExecuted(v.events)
      && v.result.value.error in {Some("Operation rejected by safety policy"), Some("User rejected the operation")}
  {
  }

  /**
   * A confirmation callback that raises ends the call with its exception: the after-tool hook
   * does not fire and the tool is not executed.
   */
  lemma CallbackRaises(tool: Tool, name: string, params: Object, cwd: Path, am: ApprovalManager, c: Confirmation)
    requires tool.validate(params) == [] && tool.confirm(Invocation(params, cwd)) == Ok(Some(c))
    requires var ctx := ApprovalContext(name, params, tool.mutating(params), c.affectedPaths, c.command, c.isDangerous);
      CheckApproval(am.policy, am.cwd, am.search, ctx) == NeedsConfirmation
    requires RequestConfirmation(am.callback, c).Raised?
    ensures var v := Invoke(Some(tool), name, params, cwd, Some(am));
      v.result == Raised(RequestConfirmation(am.callback, c).message)
      && v.events == [BeforeToolFired(name, params), ConfirmationAsked(c)]
      && CountAfter(v.events) == 0 && !WasExecuted(v.events)
  {
    var v := Invoke(Some(tool), name, params, cwd, Some(am));
    CountsConcat([BeforeToolFired(name, params)], [ConfirmationAsked(c)]);
    NoHooksCounted([ConfirmationAsked(c)]);
  }

  /**
   * Without an approval manager, or with a tool that asks for no confirmation, valid
   * parameters are executed; an exception from `execute` becomes an "Internal error" result.
   */
  lemma ExecutedWithoutGate(tool: Tool, name: string, params: Object, cwd: Path, am: Option<ApprovalManager>)
    requires tool.validate(params) == []
    requires am.None? || tool.confirm(Invocation(params, cwd)) == Ok(None)
    ensures var v := Invoke(Some(tool), name, params, cwd, am);
      WasExecuted(v.events) && v.result == Ok(Execute(tool, Invocation(params, cwd)))
      && (tool.run(Invocation(params, cwd)).Raised? ==>
            v.result.value.error == Some("Internal error: " + tool.run(Invocation(params, cwd)).message)
            && !v.result.value.success)
  {
    var v := Invoke(Some(tool), name, params, cwd, am);
    assert v.events[1].Executed?;
  }

  // ---------------------------------------------------------------------
  // The registry object

  class ToolRegistry {
    var builtin: Tools
    var mcp: Tools
    /** `config.allowed_tools`. */
    const allowedTools: Option<seq<string>>

    ghost predicate Valid()
      reads this
    {
      WellKeyed(builtin) && WellKeyed(mcp)
    }

    constructor (allowed: Option<seq<string>>)
      ensures builtin == [] && mcp == [] && allowedTools == allowed && Valid()
    {
      builtin := [];
      mcp := [];
      allowedTools := allowed;
    }

    method Register(t: Tool)
      requires Valid()
      modifies this`builtin
      ensures builtin == Dict.Put(old(builtin), t.name, t)
      ensures Valid() && Get(t.name) == Some(t)
    {
      RegisterThenGet(builtin, mcp, t, t.name);
      builtin := Dict.Put(builtin, t.name, t);
    }

    method RegisterMcpTool(t: Tool)
      requires Valid()
      modifies this`mcp
      ensures mcp == Dict.Put(old(mcp), t.name, t)
      ensures Valid()
    {
      Dict.PutDistinct(mcp, t.name, t);
      PutKeepsNames(mcp, t);
      mcp := Dict.Put(mcp, t.name, t);
    }

    method Unregister(name: string) returns (removed: bool)
      requires Valid()
      modifies this`builtin
      ensures removed <==> name in Dict.Keys(old(builtin))
      ensures builtin == Dict.Remove(old(builtin), name)
      ensures Valid() && Get(name) == Dict.Get(mcp, name)
    {
      UnregisterThenGet(builtin, mcp, name, name);
      removed := name in Dict.Keys(builtin);
      builtin := Dict.Remove(builtin, name);
    }

    function Get(name: string): Option<Tool>
      reads this
    {
      Lookup(builtin, mcp, name)
    }

    /** `get_tools`: two appending loops, then the filter. */
    method GetTools() returns (r: seq<Tool>)
      ensures r == Listed(builtin, mcp, allowedTools)
    {
      var tools: seq<Tool> := [];
      var i := 0;
      while i < |builtin|
        invariant 0 <= i <= |builtin|
        invariant tools == Dict.Values(builtin[..i])
      {
        tools := tools + [builtin[i].1];
        i := i + 1;
      }
      assert builtin[..i] == builtin;
      var j := 0;
      while j < |mcp|
        invariant 0 <= j <= |mcp|
        invariant tools == Dict.Values(builtin) + Dict.Values(mcp[..j])
      {
        tools := tools + [mcp[j].1];
        j := j + 1;
      }
      assert mcp[..j] == mcp;
      if allowedTools.Some? && allowedTools.value != [] {
        tools := FilterAllowed(tools, allowedTools.value);
      }
      r := tools;
    }

    function GetSchemas(): (r: Outcome<seq<Object>>)
      reads this
      ensures r.Ok? ==> |r.value| == |Listed(builtin, mcp, allowedTools)|
    {
      SchemasOf(Listed(builtin, mcp, allowedTools))
    }

    /** `invoke` on this registry's tools. */
    function InvokeTool(name: string, params: Object, cwd: Path, am: Option<ApprovalManager>): Invoked
      reads this
    {
      Invoke(Get(name), name, params, cwd, am)
    }
  }
}
