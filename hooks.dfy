/**
 * The hook system of `hooks/hook_system.py`: which configured hooks are active,
 * the environment a hook runs with, and which hooks each trigger starts, in order.
 * Running a hook is recorded in an append-only log instead of starting a process.
 */
module Hooks {
  import opened Common
  import opened Paths
  import opened Config
  import opened ToolBase
  import Json
  import Dict

  /** An environment: variable names and values. */
  type Env = seq<(string, string)>

  /** The hooks kept at start-up: the enabled ones, and none at all when hooks are switched off. */
  function ActiveHooks(c: AgentConfig): (r: seq<HookConfig>)
    ensures !c.hooksEnabled ==> r == []
    ensures forall h :: h in r <==> c.hooksEnabled && h in c.hooks && h.enabled
  {
    if c.hooksEnabled then Enabled(c.hooks) else []
  }

  function Enabled(hs: seq<HookConfig>): (r: seq<HookConfig>)
    ensures forall h :: h in r <==> h in hs && h.enabled
    ensures |r| <= |hs|
  {
    if hs == [] then []
    else (if hs[0].enabled then [hs[0]] else []) + Enabled(hs[1..])
  }

  /** What `_run_hook` starts: the command, or a temporary script holding a shebang line and the script text. */
  datatype Program = RunCommand(command: string) | RunScript(text: string) | WriteFails

  function HookProgram(h: HookConfig): Program {
    if Present(h.command) then RunCommand(h.command.value)
    else if h.script.Some? then RunScript("#!/bin/bash\n" + h.script.value)
    else WriteFails
  }

  /**
   * A non-empty command runs as it is; otherwise a script runs with the bash shebang line
   * in front; a hook with neither cannot be started.
   */
  lemma HookProgramShape(h: HookConfig)
    ensures var r := HookProgram(h);
      (Present(h.command) ==> r == RunCommand(h.command.value))
      && (!Present(h.command) && h.script.Some? ==>
            r.RunScript? && StartsWith(r.text, "#!/bin/bash\n") && r.text[|"#!/bin/bash\n"|..] == h.script.value)
      && (!Present(h.command) && h.script.None? ==> r == WriteFails)
  {
    if !Present(h.command) && h.script.Some? {
      var r := HookProgram(h);
      assert r.text[..|"#!/bin/bash\n"|] == "#!/bin/bash\n";
    }
  }

  /**
   * One attempt to run a hook.  `startable` is false when the environment holds
   * `None` (an agent without a final response): the process cannot be created,
   * and the error is printed and swallowed.
   */
  datatype HookRun = HookRun(hook: HookConfig, program: Program, env: Env, startable: bool)

  /** The hooks of the list registered for a trigger, in list order. */
  function ForTrigger(hs: seq<HookConfig>, t: HookTrigger): (r: seq<HookConfig>)
    ensures |r| <= |hs|
  {
    if hs == [] then []
    else (if hs[0].trigger == t then [hs[0]] else []) + ForTrigger(hs[1..], t)
  }

  /** The hooks for a trigger are those of the list registered for it. */
  lemma {:induction false} ForTriggerMembers(hs: seq<HookConfig>, t: HookTrigger)
    ensures forall h :: h in ForTrigger(hs, t) <==> h in hs && h.trigger == t
  {
    if hs != [] {
      ForTriggerMembers(hs[1..], t);
      assert hs == [hs[0]] + hs[1..];
    }
  }

  function RunsOf(hs: seq<HookConfig>, env: Env, startable: bool): (r: seq<HookRun>)
    ensures |r| == |hs|
    ensures forall i :: 0 <= i < |hs| ==> r[i] == HookRun(hs[i], HookProgram(hs[i]), env, startable)
  {
    if hs == [] then [] else [HookRun(hs[0], HookProgram(hs[0]), env, startable)] + RunsOf(hs[1..], env, startable)
  }

  /** The environment `_build_env` describes. */
  function Environment(base: Env, t: HookTrigger, cwd: Path, toolName: Option<string>,
                       userMessage: Option<string>, error: Option<string>): Env
  {
    var e1 := Dict.Put(Dict.Put(base, "AI_AGENT_TRIGGER", TriggerValue(t)), "AI_AGENT_CWD", ToString(cwd));
    var e2 := if Present(toolName) then Dict.Put(e1, "AI_AGENT_TOOL_NAME", toolName.value) else e1;
    var e3 := if Present(userMessage) then Dict.Put(e2, "AI_AGENT_USER_MESSAGE", userMessage.value) else e2;
    if error.Some? then Dict.Put(e3, "AI_AGENT_ERROR", error.value) else e3
  }

  /** One variable of the built environment. */
  lemma EnvironmentGet(base: Env, t: HookTrigger, cwd: Path, toolName: Option<string>,
                       userMessage: Option<string>, error: Option<string>, x: string)
    ensures Dict.Get(Environment(base, t, cwd, toolName, userMessage, error), x) ==
      if x == "AI_AGENT_ERROR" && error.Some? then error
      else if x == "AI_AGENT_USER_MESSAGE" && Present(userMessage) then userMessage
      else if x == "AI_AGENT_TOOL_NAME" && Present(toolName) then toolName
      else if x == "AI_AGENT_CWD" then Some(ToString(cwd))
      else if x == "AI_AGENT_TRIGGER" then Some(TriggerValue(t))
      else Dict.Get(base, x)
  {
    var e0 := Dict.Put(base, "AI_AGENT_TRIGGER", TriggerValue(t));
    var e1 := Dict.Put(e0, "AI_AGENT_CWD", ToString(cwd));
    var e2 := if Present(toolName) then Dict.Put(e1, "AI_AGENT_TOOL_NAME", toolName.value) else e1;
    var e3 := if Present(userMessage) then Dict.Put(e2, "AI_AGENT_USER_MESSAGE", userMessage.value) else e2;
    Dict.GetPut(base, "AI_AGENT_TRIGGER", TriggerValue(t), x);
    Dict.GetPut(e0, "AI_AGENT_CWD", ToString(cwd), x);
    if Present(toolName) { Dict.GetPut(e1, "AI_AGENT_TOOL_NAME", toolName.value, x); }
    if Present(userMessage) { Dict.GetPut(e2, "AI_AGENT_USER_MESSAGE", userMessage.value, x); }
    if error.Some? { Dict.GetPut(e3, "AI_AGENT_ERROR", error.value, x); }
  }

  /**
   * The trigger and the working directory are always set; the tool name and the
   * user message exactly when they are non-empty, the error exactly when there is
   * one; every other variable keeps its inherited value.
   */
  lemma EnvironmentFields(base: Env, t: HookTrigger, cwd: Path, toolName: Option<string>,
                          userMessage: Option<string>, error: Option<string>, k: string)
    ensures var e := Environment(base, t, cwd, toolName, userMessage, error);
      Dict.Get(e, "AI_AGENT_TRIGGER") == Some(TriggerValue(t))
      && Dict.Get(e, "AI_AGENT_CWD") == Some(ToString(cwd))
      && Dict.Get(e, "AI_AGENT_TOOL_NAME") == (if Present(toolName) then toolName else Dict.Get(base, "AI_AGENT_TOOL_NAME"))
      && Dict.Get(e, "AI_AGENT_USER_MESSAGE") == (if Present(userMessage) then userMessage else Dict.Get(base, "AI_AGENT_USER_MESSAGE"))
      && Dict.Get(e, "AI_AGENT_ERROR") == (if error.Some? then error else Dict.Get(base, "AI_AGENT_ERROR"))
      && (k !in {"AI_AGENT_TRIGGER", "AI_AGENT_CWD", "AI_AGENT_TOOL_NAME", "AI_AGENT_USER_MESSAGE", "AI_AGENT_ERROR"}
          ==> Dict.Get(e, k) == Dict.Get(base, k))
  {
    EnvironmentGet(base, t, cwd, toolName, userMessage, error, "AI_AGENT_TRIGGER");
    EnvironmentGet(base, t, cwd, toolName, userMessage, error, "AI_AGENT_CWD");
    EnvironmentGet(base, t, cwd, toolName, userMessage, error, "AI_AGENT_TOOL_NAME");
    EnvironmentGet(base, t, cwd, toolName, userMessage, error, "AI_AGENT_USER_MESSAGE");
    EnvironmentGet(base, t, cwd, toolName, userMessage, error, "AI_AGENT_ERROR");
    EnvironmentGet(base, t, cwd, toolName, userMessage, error, k);
  }

  /** `_build_env`: copies the inherited environment and sets the agent's variables one after the other. */
  method BuildEnv(base: Env, t: HookTrigger, cwd: Path, toolName: Option<string>,
                  userMessage: Option<string>, error: Option<string>) returns (env: Env)
    ensures env == Environment(base, t, cwd, toolName, userMessage, error)
  {
    env := base;
    env := Dict.Put(env, "AI_AGENT_TRIGGER", TriggerValue(t));
    env := Dict.Put(env, "AI_AGENT_CWD", ToString(cwd));
    if Present(toolName) {
      env := Dict.Put(env, "AI_AGENT_TOOL_NAME", toolName.value);
    }
    if Present(userMessage) {
      env := Dict.Put(env, "AI_AGENT_USER_MESSAGE", userMessage.value);
    }
    if error.Some? {
      env := Dict.Put(env, "AI_AGENT_ERROR", error.value);
    }
  }

  /** The environment of the `after_agent` hooks, where the response may be `None`. */
  function AfterAgentEnv(base: Env, cwd: Path, userMessage: string, response: Option<string>): Env {
    var e := Environment(base, AfterAgent, cwd, None, Some(userMessage), None);
    if response.Some? then Dict.Put(e, "AI_AGENT_RESPONSE", response.value) else e
  }

  function BeforeToolEnv(base: Env, cwd: Path, toolName: string, params: Json.Object,
                         dumps: Json.Object -> string): Env {
    Dict.Put(Environment(base, BeforeTool, cwd, Some(toolName), None, None), "AI_AGENT_TOOL_PARAMS", dumps(params))
  }

  function AfterToolEnv(base: Env, cwd: Path, toolName: string, params: Json.Object, result: ToolResult,
                        dumps: Json.Object -> string): Env {
    var e := Environment(base, AfterTool, cwd, Some(toolName), None, None);
    Dict.Put(Dict.Put(e, "AI_AGENT_TOOL_PARAMS", dumps(params)), "AI_AGENT_TOOL_RESULT", ToModelOutput(result))
  }

  /** The before-tool hooks see the tool's name and its parameters as JSON. */
  lemma BeforeToolEnvFields(base: Env, cwd: Path, toolName: string, params: Json.Object, dumps: Json.Object -> string)
    ensures Dict.Get(BeforeToolEnv(base, cwd, toolName, params, dumps), "AI_AGENT_TOOL_PARAMS") == Some(dumps(params))
    ensures Dict.Get(BeforeToolEnv(base, cwd, toolName, params, dumps), "AI_AGENT_TRIGGER") == Some("before_tool")
    ensures toolName != [] ==> Dict.Get(BeforeToolEnv(base, cwd, toolName, params, dumps), "AI_AGENT_TOOL_NAME") == Some(toolName)
  {
    var eb := Environment(base, BeforeTool, cwd, Some(toolName), None, None);
    EnvironmentGet(base, BeforeTool, cwd, Some(toolName), None, None, "AI_AGENT_TRIGGER");
    EnvironmentGet(base, BeforeTool, cwd, Some(toolName), None, None, "AI_AGENT_TOOL_NAME");
    Dict.GetPut(eb, "AI_AGENT_TOOL_PARAMS", dumps(params), "AI_AGENT_TOOL_PARAMS");
    Dict.GetPut(eb, "AI_AGENT_TOOL_PARAMS", dumps(params), "AI_AGENT_TRIGGER");
    Dict.GetPut(eb, "AI_AGENT_TOOL_PARAMS", dumps(params), "AI_AGENT_TOOL_NAME");
  }

  /** The after-tool hooks also see the text the model is given for the result. */
  lemma AfterToolEnvFields(base: Env, cwd: Path, toolName: string, params: Json.Object, result: ToolResult,
                           dumps: Json.Object -> string)
    ensures Dict.Get(AfterToolEnv(base, cwd, toolName, params, result, dumps), "AI_AGENT_TOOL_PARAMS") == Some(dumps(params))
    ensures Dict.Get(AfterToolEnv(base, cwd, toolName, params, result, dumps), "AI_AGENT_TOOL_RESULT") == Some(ToModelOutput(result))
    ensures Dict.Get(AfterToolEnv(base, cwd, toolName, params, result, dumps), "AI_AGENT_TRIGGER") == Some("after_tool")
  {
    var ea := Environment(base, AfterTool, cwd, Some(toolName), None, None);
    var pa := Dict.Put(ea, "AI_AGENT_TOOL_PARAMS", dumps(params));
    var out := ToModelOutput(result);
    assert AfterToolEnv(base, cwd, toolName, params, result, dumps) == Dict.Put(pa, "AI_AGENT_TOOL_RESULT", out);
    assert Dict.Get(pa, "AI_AGENT_TRIGGER") == Some("after_tool") by {
      EnvironmentGet(base, AfterTool, cwd, Some(toolName), None, None, "AI_AGENT_TRIGGER");
      Dict.GetPut(ea, "AI_AGENT_TOOL_PARAMS", dumps(params), "AI_AGENT_TRIGGER");
    }
    assert Dict.Get(pa, "AI_AGENT_TOOL_PARAMS") == Some(dumps(params)) by {
      Dict.GetPut(ea, "AI_AGENT_TOOL_PARAMS", dumps(params), "AI_AGENT_TOOL_PARAMS");
    }
    Dict.GetPut(pa, "AI_AGENT_TOOL_RESULT", out, "AI_AGENT_TOOL_PARAMS");
    Dict.GetPut(pa, "AI_AGENT_TOOL_RESULT", out, "AI_AGENT_TOOL_RESULT");
    Dict.GetPut(pa, "AI_AGENT_TOOL_RESULT", out, "AI_AGENT_TRIGGER");
  }

  /** A trigger starts exactly the hooks registered for it, each with the trigger's environment. */
  lemma TriggerRunsMatching(hs: seq<HookConfig>, t: HookTrigger, env: Env, startable: bool, h: HookConfig)
    ensures var r := RunsOf(ForTrigger(hs, t), env, startable);
      (forall i :: 0 <= i < |r| ==> r[i].hook.trigger == t && r[i].hook in hs && r[i].env == env)
      && (h in hs && h.trigger == t <==> exists i :: 0 <= i < |r| && r[i].hook == h)
  {
    var f := ForTrigger(hs, t);
    var r := RunsOf(f, env, startable);
    ForTriggerMembers(hs, t);
    assert forall i :: 0 <= i < |r| ==> r[i].hook == f[i] && f[i] in f;
    if h in hs && h.trigger == t {
      var i :| 0 <= i < |f| && f[i] == h;
      assert r[i].hook == h;
    }
  }

  lemma RunsOfSnoc(hs: seq<HookConfig>, h: HookConfig, env: Env, startable: bool)
    ensures RunsOf(hs + [h], env, startable) == RunsOf(hs, env, startable) + [HookRun(h, HookProgram(h), env, startable)]
  {
    var l, r := RunsOf(hs + [h], env, startable), RunsOf(hs, env, startable) + [HookRun(h, HookProgram(h), env, startable)];
    forall i | 0 <= i < |l| ensures l[i] == r[i] {
      if i < |hs| {
        assert (hs + [h])[i] == hs[i];
      }
    }
  }

  /** The runs started for the first `i` hooks of the list. */
  function PrefixRuns(hs: seq<HookConfig>, i: nat, t: HookTrigger, env: Env, startable: bool): seq<HookRun>
    requires i <= |hs|
  {
    RunsOf(ForTrigger(hs[..i], t), env, startable)
  }

  /** One more hook of the list: one more run when it is registered for the trigger. */
  lemma RunsStep(hs: seq<HookConfig>, i: nat, t: HookTrigger, env: Env, startable: bool)
    requires i < |hs|
    ensures PrefixRuns(hs, i + 1, t, env, startable)
            == PrefixRuns(hs, i, t, env, startable)
               + (if hs[i].trigger == t then [HookRun(hs[i], HookProgram(hs[i]), env, startable)] else [])
  {
    var before := ForTrigger(hs[..i], t);
    ForTriggerSnoc(hs, i, t);
    if hs[i].trigger == t {
      RunsOfSnoc(before, hs[i], env, startable);
    } else {
      assert before + [] == before;
    }
  }

  class HookSystem {
    const hooks: seq<HookConfig>
    const cwd: Path
    /** `os.environ` at the time of each trigger. */
    const environ: Env
    /** Every hook run started so far, oldest first. */
    var runs: seq<HookRun>

    constructor (c: AgentConfig, environ0: Env)
      ensures hooks == ActiveHooks(c) && cwd == c.cwd && environ == environ0
      ensures runs == []
    {
      hooks := ActiveHooks(c);
      cwd := c.cwd;
      environ := environ0;
      runs := [];
    }

    /** The loop every trigger ends with: each hook registered for `t`, in order. */
    method RunHooks(t: HookTrigger, env: Env, startable: bool)
      modifies this`runs
      ensures runs == old(runs) + RunsOf(ForTrigger(hooks, t), env, startable)
    {
      ghost var r0 := runs;
      var i := 0;
      while i < |hooks|
        invariant 0 <= i <= |hooks|
        invariant runs == r0 + PrefixRuns(hooks, i, t, env, startable)
      {
        RunsStep(hooks, i, t, env, startable);
        if hooks[i].trigger == t {
          runs := runs + [HookRun(hooks[i], HookProgram(hooks[i]), env, startable)];
        }
        i := i + 1;
      }
      assert hooks[..i] == hooks;
    }

    method TriggerBeforeAgent(userMessage: string)
      modifies this`runs
      ensures runs == old(runs) + RunsOf(ForTrigger(hooks, BeforeAgent),
                                         Environment(environ, BeforeAgent, cwd, None, Some(userMessage), None), true)
    {
      var env := BuildEnv(environ, BeforeAgent, cwd, None, Some(userMessage), None);
      RunHooks(BeforeAgent, env, true);
    }

    method TriggerAfterAgent(userMessage: string, response: Option<string>)
      modifies this`runs
      ensures runs == old(runs) + RunsOf(ForTrigger(hooks, AfterAgent),
                                         AfterAgentEnv(environ, cwd, userMessage, response), response.Some?)
    {
      var env := BuildEnv(environ, AfterAgent, cwd, None, Some(userMessage), None);
      if response.Some? {
        env := Dict.Put(env, "AI_AGENT_RESPONSE", response.value);
      }
      RunHooks(AfterAgent, env, response.Some?);
    }

    method TriggerBeforeTool(toolName: string, params: Json.Object, dumps: Json.Object -> string)
      modifies this`runs
      ensures runs == old(runs) + RunsOf(ForTrigger(hooks, BeforeTool),
                                         BeforeToolEnv(environ, cwd, toolName, params, dumps), true)
    {
      var env := BuildEnv(environ, BeforeTool, cwd, Some(toolName), None, None);
      env := Dict.Put(env, "AI_AGENT_TOOL_PARAMS", dumps(params));
      RunHooks(BeforeTool, env, true);
    }

    method TriggerAfterTool(toolName: string, params: Json.Object, result: ToolResult, dumps: Json.Object -> string)
      modifies this`runs
      ensures runs == old(runs) + RunsOf(ForTrigger(hooks, AfterTool),
                                         AfterToolEnv(environ, cwd, toolName, params, result, dumps), true)
    {
      var env := BuildEnv(environ, AfterTool, cwd, Some(toolName), None, None);
      env := Dict.Put(env, "AI_AGENT_TOOL_PARAMS", dumps(params));
      env := Dict.Put(env, "AI_AGENT_TOOL_RESULT", ToModelOutput(result));
      RunHooks(AfterTool, env, true);
    }

    method TriggerOnError(error: string)
      modifies this`runs
      ensures runs == old(runs) + RunsOf(ForTrigger(hooks, OnError),
                                         Environment(environ, OnError, cwd, None, None, Some(error)), true)
    {
      var env := BuildEnv(environ, OnError, cwd, None, None, Some(error));
      RunHooks(OnError, env, true);
    }
  }

  lemma ForTriggerSnoc(hs: seq<HookConfig>, i: nat, t: HookTrigger)
    requires i < |hs|
    ensures ForTrigger(hs[..i + 1], t) == ForTrigger(hs[..i], t) + (if hs[i].trigger == t then [hs[i]] else [])
  {
    ForTriggerConcat(hs[..i], [hs[i]], t);
    assert hs[..i + 1] == hs[..i] + [hs[i]];
  }

  lemma {:induction false} ForTriggerConcat(a: seq<HookConfig>, b: seq<HookConfig>, t: HookTrigger)
    ensures ForTrigger(a + b, t) == ForTrigger(a, t) + ForTrigger(b, t)
  {
    if a == [] {
      assert a + b == b;
    } else {
      var ab := a + b;
      assert ab[0] == a[0];
      assert ab[1..] == a[1..] + b;
      ForTriggerConcat(a[1..], b, t);
      var h := if a[0].trigger == t then [a[0]] else [];
      calc {
        ForTrigger(ab, t);
        h + ForTrigger(a[1..] + b, t);
        h + (ForTrigger(a[1..], t) + ForTrigger(b, t));
        (h + ForTrigger(a[1..], t)) + ForTrigger(b, t);
      }
    }
  }
}
