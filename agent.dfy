/**
 * The agent: one run is a user message, then up to `max_turns` turns of asking the model and
 * running the tools it requests, reported as a stream of agent events.
 */
module Agents {
  import opened Common
  import opened Json
  import R = Response
  import Time
  import Config
  import ToolBase
  import Context
  import LoopDetection
  import LlmClient
  import Compaction
  import Hooks
  import Registry
  import Paths
  import Sessions

  /** `AgentEvent`, one constructor per `AgentEventType` with the data it carries. */
  datatype AgentEvent =
    | AgentStart(message: string)
    | TextDelta(content: string)
    | TextComplete(content: string)
    | ToolCallStart(callId: string, name: string, arguments: Object)
    | ToolCallComplete(callId: string, name: string, result: ToolBase.ToolResult)
    | AgentError(error: string)
    | AgentEnd(response: Option<string>)

  /**
   * What the agent talks to. `reply(n, messages, tools)` is `chat_completion` in turn `n`: the
   * events it yields and the exception it ends with, if any. `summarize` is the completion the
   * compactor asks for. `schemas` is what the tool registry's `get_schemas` gives, and
   * `invoke(call)` is its `invoke` of the call with the session's approval manager, as the
   * result and the hook firings it asks for; `hookRuns(e)` is what the hook system starts for
   * such a firing, and `signature(a)` the detector's signature of action `a`. `Agent.Valid`
   * ties these to the session (see `Wired`). `cwd` is `config.cwd`; `show` is `str`, `dumps` is
   * `json.dumps`, `breaker` is `create_loop_breaker_prompt`, and `clock(n)` is `datetime.now()`
   * during turn `n`.
   */
  datatype World = World(
    reply: (nat, seq<Object>, Option<seq<Object>>) -> LlmClient.Completion,
    summarize: seq<Object> -> LlmClient.Completion,
    compressionPrompt: string,
    schemas: Outcome<seq<Object>>,
    invoke: R.ToolCall -> Registry.Invoked,
    hookRuns: Registry.Event -> seq<Hooks.HookRun>,
    signature: LoopDetection.Action -> string,
    cwd: Paths.Path,
    approval: Registry.ApprovalManager,
    show: Json -> string,
    dumps: Object -> string,
    breaker: string -> string,
    clock: nat -> Time.DateTime)

  /**
   * The session's settings, fixed during a run: the context manager's, what `get_schemas`
   * gives, and the hook system's hooks, base environment and directory.
   */
  datatype Store = Store(systemPrompt: string, window: int, tokens: string -> nat, wording: Context.Wording,
                         schemas: Outcome<seq<Object>>, hooks: seq<Config.HookConfig>, environ: Hooks.Env,
                         hookCwd: Paths.Path)

  /** Everything a turn reads and writes: the context, the usage, the detector's history and the turn count. */
  datatype State = State(messages: seq<Context.MessageItem>, latest: R.TokenUsage, total: R.TokenUsage,
                         history: seq<string>, turns: int)

  const UnknownError := "Unknown error occurred."

  function MaxTurnsMessage(maxTurns: int): string {
    "Maximum turns (" + IntToString(maxTurns) + ") reached"
  }

  // ---------------------------------------------------------------------
  // Reading the model's stream

  /** What one turn gathers from the stream: the text, the calls, the events to pass on, the usage. */
  datatype Reply = Reply(text: string, calls: seq<R.ToolCall>, out: seq<AgentEvent>, usage: Option<R.TokenUsage>)

  const NoReply := Reply("", [], [], None)

  /** The text a stream event adds. */
  function TextOf(e: R.StreamEvent): string {
    if e.TextDelta? then e.content else []
  }

  /** The completed call a stream event adds. */
  function CallOf(e: R.StreamEvent): seq<R.ToolCall> {
    if e.ToolCallComplete? then [e.call] else []
  }

  /** The agent event a stream event is passed on as: text deltas and errors only. */
  function Passed(e: R.StreamEvent): seq<AgentEvent> {
    match e
    case TextDelta(c) => [TextDelta(c)]
    case StreamError(err) => [AgentError(if err == [] then UnknownError else err)]
    case _ => []
  }

  /** One iteration of the `async for` over the stream. */
  function ReplyStep(r: Reply, e: R.StreamEvent): Reply {
    Reply(r.text + TextOf(e), r.calls + CallOf(e), r.out + Passed(e), if e.MessageComplete? then e.usage else r.usage)
  }

  function ReplyFrom(r: Reply, es: seq<R.StreamEvent>): Reply
    decreases |es|
  {
    if es == [] then r else ReplyFrom(ReplyStep(r, es[0]), es[1..])
  }

  /** The text deltas, concatenated. */
  function DeltaText(es: seq<R.StreamEvent>): string {
    if es == [] then [] else DeltaText(es[..|es| - 1]) + TextOf(es[|es| - 1])
  }

  /** The completed tool calls, in stream order. */
  function Completed(es: seq<R.StreamEvent>): seq<R.ToolCall> {
    if es == [] then [] else Completed(es[..|es| - 1]) + CallOf(es[|es| - 1])
  }

  /** The agent events the stream is passed on as, in stream order. */
  function Translated(es: seq<R.StreamEvent>): seq<AgentEvent> {
    if es == [] then [] else Translated(es[..|es| - 1]) + Passed(es[|es| - 1])
  }

  /** The usage field of the last `MESSAGE_COMPLETE`, `None` when there is none. */
  function FinalUsage(es: seq<R.StreamEvent>): Option<Option<R.TokenUsage>> {
    if es == [] then None
    else if es[|es| - 1].MessageComplete? then Some(es[|es| - 1].usage)
    else FinalUsage(es[..|es| - 1])
  }

  /** The fold over a stream, split off its last event. */
  lemma {:induction false} ReplyFromSnoc(r: Reply, es: seq<R.StreamEvent>, e: R.StreamEvent)
    ensures ReplyFrom(r, es + [e]) == ReplyStep(ReplyFrom(r, es), e)
    decreases |es|
  {
    if es != [] {
      assert (es + [e])[1..] == es[1..] + [e];
      ReplyFromSnoc(ReplyStep(r, es[0]), es[1..], e);
    }
  }

  /** The fold over the first `i + 1` events of a stream is one step past the fold over the first `i`. */
  lemma ReplyFromPrefix(es: seq<R.StreamEvent>, i: nat)
    requires i < |es|
    ensures ReplyFrom(NoReply, es[..i + 1]) == ReplyStep(ReplyFrom(NoReply, es[..i]), es[i])
  {
    assert es[..i + 1] == es[..i] + [es[i]];
    ReplyFromSnoc(NoReply, es[..i], es[i]);
  }

  lemma {:induction false} ReplyFromMeaning(r: Reply, es: seq<R.StreamEvent>)
    ensures ReplyFrom(r, es).text == r.text + DeltaText(es)
    ensures ReplyFrom(r, es).calls == r.calls + Completed(es)
    ensures ReplyFrom(r, es).out == r.out + Translated(es)
    ensures ReplyFrom(r, es).usage == FinalUsage(es).GetOr(r.usage)
    decreases |es|
  {
    if es != [] {
      var init, e := es[..|es| - 1], es[|es| - 1];
      assert es == init + [e];
      ReplyFromMeaning(r, init);
      ReplyFromSnoc(r, init, e);
    }
  }

  /**
   * The loop over the stream keeps all text, every completed call and every error, in order;
   * the usage is that of the last `MESSAGE_COMPLETE`.
   */
  lemma ReplyMeaning(es: seq<R.StreamEvent>)
    ensures var r := ReplyFrom(NoReply, es);
      r.text == DeltaText(es) && r.calls == Completed(es) && r.out == Translated(es)
      && r.usage == FinalUsage(es).GetOr(None)
  {
    ReplyFromMeaning(NoReply, es);
  }

  /** A stream error is passed on, with the fallback text when it is empty. */
  lemma {:induction false} ErrorsPassedOn(es: seq<R.StreamEvent>, k: nat)
    requires k < |es| && es[k].StreamError?
    ensures AgentError(if es[k].error == [] then UnknownError else es[k].error) in Translated(es)
  {
    var init := es[..|es| - 1];
    if k < |es| - 1 {
      ErrorsPassedOn(init, k);
      assert init[k] == es[k];
    }
  }

  // ---------------------------------------------------------------------
  // One turn

  /** The assistant message's entry for one call; the arguments are rendered by `str`. */
  function CallDict(tc: R.ToolCall, show: Json -> string): Json {
    JObj([("id", JStr(tc.callId)), ("type", JStr("function")),
          ("function", JObj([("name", JStr(tc.name)), ("arguments", JStr(show(JObj(tc.arguments))))]))])
  }

  function CallDicts(calls: seq<R.ToolCall>, show: Json -> string): (r: seq<Json>)
    ensures |r| == |calls|
  {
    seq(|calls|, i requires 0 <= i < |calls| => CallDict(calls[i], show))
  }

  function ResponseAction(text: string): LoopDetection.Action {
    LoopDetection.Action("response", "", JObj([]), text)
  }

  function CallAction(tc: R.ToolCall): LoopDetection.Action {
    LoopDetection.Action("tool_call", tc.name, JObj(tc.arguments), "")
  }

  /** Steps one and two of a turn: count it, and replace the context by a summary when it is nearly full. */
  function Compacted(s: Store, w: World, st: State): State {
    var st1 := st.(turns := st.turns + 1);
    if 5 * st.latest.totalTokens > 4 * s.window then
      var c := Compaction.Compressed(Context.WireMessages(s.systemPrompt, st.messages), w.compressionPrompt, w.summarize);
      if c.0.Some? && c.0.value != [] && c.1.Some? then
        st1.(messages := Context.SummaryMessages(c.0.value, s.tokens, s.wording), latest := c.1.value,
             total := R.AddUsage(st.total, c.1.value))
      else st1
    else st1
  }

  /** The `tools` argument: the schemas, or `None` when there are none. */
  function ToolsArg(schemas: seq<Object>): Option<seq<Object>> {
    if schemas == [] then None else Some(schemas)
  }

  /** What the model sends in turn `n` on the compacted state, or the exception `get_schemas` raised. */
  function TurnStream(s: Store, w: World, st1: State, n: nat): Outcome<LlmClient.Completion> {
    match s.schemas
    case Raised(m) => Raised(m)
    case Ok(schemas) => Ok(w.reply(n, Context.WireMessages(s.systemPrompt, st1.messages), ToolsArg(schemas)))
  }

  /** The assistant message a reply becomes. */
  function AssistantItem(s: Store, w: World, r: Reply): Context.MessageItem {
    Context.NewItem(Context.Assistant, r.text, [], CallDicts(r.calls, w.show), s.tokens)
  }

  /** The reply is stored; a non-empty text is announced and recorded with the detector. */
  function Answered(s: Store, w: World, st: State, r: Reply): (State, seq<AgentEvent>) {
    var st1 := st.(messages := st.messages + [AssistantItem(s, w, r)]);
    if r.text != [] then
      (st1.(history := LoopDetection.Window(st.history + [w.signature(ResponseAction(r.text))])),
       r.out + [TextComplete(r.text)])
    else (st1, r.out)
  }

  // ---------------------------------------------------------------------
  // The tool calls of a turn

  /**
   * What `w` is for a session with settings `s`: `hookRuns` starts the before-tool hooks with
   * the tool's name and parameters, the after-tool hooks with its result too, and nothing for a
   * confirmation or an execution; `signature` is the detector's signature rendered by `show`.
   */
  ghost predicate Wired(s: Store, w: World) {
    (forall name, params {:trigger w.hookRuns(Registry.BeforeToolFired(name, params))} ::
       w.hookRuns(Registry.BeforeToolFired(name, params))
       == Hooks.RunsOf(Hooks.ForTrigger(s.hooks, Config.BeforeTool),
                       Hooks.BeforeToolEnv(s.environ, s.hookCwd, name, params, w.dumps), true))
    && (forall name, params, result {:trigger w.hookRuns(Registry.AfterToolFired(name, params, result))} ::
          w.hookRuns(Registry.AfterToolFired(name, params, result))
          == Hooks.RunsOf(Hooks.ForTrigger(s.hooks, Config.AfterTool),
                          Hooks.AfterToolEnv(s.environ, s.hookCwd, name, params, result, w.dumps), true))
    && (forall e: Registry.Event :: e.ConfirmationAsked? || e.Executed? ==> w.hookRuns(e) == [])
    && (forall a {:trigger LoopDetection.Signature(a, w.show)} :: w.signature(a) == LoopDetection.Signature(a, w.show))
  }

  lemma RunsAppend(a: seq<Hooks.HookRun>, b: seq<Hooks.HookRun>, c: seq<Hooks.HookRun>)
    ensures a + b + c == a + (b + c)
  {
  }

  /** The hooks a sequence of registry events starts, in order. */
  function HookRuns(w: World, es: seq<Registry.Event>): seq<Hooks.HookRun> {
    if es == [] then [] else HookRuns(w, es[..|es| - 1]) + w.hookRuns(es[|es| - 1])
  }

  /** A run of a before-tool or after-tool hook. */
  predicate ToolRun(h: Hooks.HookRun) {
    h.hook.trigger == Config.BeforeTool || h.hook.trigger == Config.AfterTool
  }

  predicate ToolRuns(runs: seq<Hooks.HookRun>) {
    forall i :: 0 <= i < |runs| ==> ToolRun(runs[i])
  }

  lemma ToolRunsConcat(a: seq<Hooks.HookRun>, b: seq<Hooks.HookRun>)
    requires ToolRuns(a) && ToolRuns(b)
    ensures ToolRuns(a + b)
  {
    forall i | 0 <= i < |a + b| ensures ToolRun((a + b)[i]) {
      if i >= |a| {
        assert (a + b)[i] == b[i - |a|];
      }
    }
  }

  /** The runs of one trigger's hooks all belong to that trigger. */
  lemma TriggerRuns(hs: seq<Config.HookConfig>, t: Config.HookTrigger, env: Hooks.Env, startable: bool)
    ensures var r := Hooks.RunsOf(Hooks.ForTrigger(hs, t), env, startable);
      forall i :: 0 <= i < |r| ==> r[i].hook.trigger == t
  {
    Hooks.ForTriggerMembers(hs, t);
    var f := Hooks.ForTrigger(hs, t);
    forall i | 0 <= i < |f| ensures f[i].trigger == t {
      assert f[i] in f;
    }
  }

  /** The hooks one registry event starts. */
  lemma FiredRuns(s: Store, w: World, e: Registry.Event)
    requires Wired(s, w)
    ensures e.BeforeToolFired? ==>
      w.hookRuns(e) == Hooks.RunsOf(Hooks.ForTrigger(s.hooks, Config.BeforeTool),
                                    Hooks.BeforeToolEnv(s.environ, s.hookCwd, e.name, e.params, w.dumps), true)
    ensures e.AfterToolFired? ==>
      w.hookRuns(e) == Hooks.RunsOf(Hooks.ForTrigger(s.hooks, Config.AfterTool),
                                    Hooks.AfterToolEnv(s.environ, s.hookCwd, e.name, e.params, e.result, w.dumps), true)
    ensures e.ConfirmationAsked? || e.Executed? ==> w.hookRuns(e) == []
  {
    match e {
      case BeforeToolFired(name, params) =>
        assert e == Registry.BeforeToolFired(name, params);
      case AfterToolFired(name, params, result) =>
        assert e == Registry.AfterToolFired(name, params, result);
      case _ =>
    }
  }

  /** A registry event starts only tool hooks. */
  lemma EventRunsTool(s: Store, w: World, e: Registry.Event)
    requires Wired(s, w)
    ensures ToolRuns(w.hookRuns(e))
  {
    FiredRuns(s, w, e);
    if e.BeforeToolFired? {
      TriggerRuns(s.hooks, Config.BeforeTool, Hooks.BeforeToolEnv(s.environ, s.hookCwd, e.name, e.params, w.dumps), true);
    } else if e.AfterToolFired? {
      TriggerRuns(s.hooks, Config.AfterTool, Hooks.AfterToolEnv(s.environ, s.hookCwd, e.name, e.params, e.result, w.dumps), true);
    }
  }

  /** Registry events start only tool hooks. */
  lemma {:induction false} HookRunsTool(s: Store, w: World, es: seq<Registry.Event>)
    requires Wired(s, w)
    ensures ToolRuns(HookRuns(w, es))
  {
    if es != [] {
      HookRunsTool(s, w, es[..|es| - 1]);
      EventRunsTool(s, w, es[|es| - 1]);
      ToolRunsConcat(HookRuns(w, es[..|es| - 1]), w.hookRuns(es[|es| - 1]));
    }
  }

  lemma {:induction false} HookRunsConcat(w: World, a: seq<Registry.Event>, b: seq<Registry.Event>)
    ensures HookRuns(w, a + b) == HookRuns(w, a) + HookRuns(w, b)
    decreases |b|
  {
    if b == [] {
      assert a + b == a;
    } else {
      var init := b[..|b| - 1];
      assert (a + b)[..|a + b| - 1] == a + init;
      HookRunsConcat(w, a, init);
    }
  }

  /**
   * The hooks one call to the registry's `invoke` starts: the before-tool hooks first when the
   * tool exists and the parameters are valid, the after-tool hooks last, with the result,
   * unless the call raised.
   */
  lemma InvokeHookRuns(s: Store, w: World, found: Option<ToolBase.Tool>, tc: R.ToolCall)
    requires Wired(s, w)
    ensures var v := Registry.Invoke(found, tc.name, tc.arguments, w.cwd, Some(w.approval));
      var valid := found.Some? && found.value.validate(tc.arguments) == [];
      HookRuns(w, v.events)
        == (if valid then w.hookRuns(Registry.BeforeToolFired(tc.name, tc.arguments)) else [])
           + (if v.result.Ok? then w.hookRuns(Registry.AfterToolFired(tc.name, tc.arguments, v.result.value)) else [])
  {
    var v := Registry.Invoke(found, tc.name, tc.arguments, w.cwd, Some(w.approval));
    if found.Some? && found.value.validate(tc.arguments) == [] {
      Registry.InvokeValidShape(found.value, tc.name, tc.arguments, w.cwd, Some(w.approval));
      BracketRuns(s, w, v.events, v.result.Ok?);
    } else {
      assert v.events == [Registry.AfterToolFired(tc.name, tc.arguments, v.result.value)];
      assert HookRuns(w, v.events) == HookRuns(w, []) + w.hookRuns(v.events[0]);
    }
  }

  lemma HookRunsNext(w: World, es: seq<Registry.Event>, i: nat)
    requires i < |es|
    ensures HookRuns(w, es[..i + 1]) == HookRuns(w, es[..i]) + w.hookRuns(es[i])
  {
    assert es[..i + 1][..i] == es[..i];
  }

  /** Confirmations and executions after position `k` start no hook. */
  lemma {:induction false} QuietTail(s: Store, w: World, es: seq<Registry.Event>, k: nat)
    requires Wired(s, w) && k <= |es|
    requires forall i :: k <= i < |es| ==> es[i].ConfirmationAsked? || es[i].Executed?
    ensures HookRuns(w, es) == HookRuns(w, es[..k])
    decreases |es| - k
  {
    if k < |es| {
      var init := es[..|es| - 1];
      assert init[..k] == es[..k];
      QuietTail(s, w, init, k);
      FiredRuns(s, w, es[|es| - 1]);
    } else {
      assert es[..k] == es;
    }
  }

  /**
   * Events that open with a before-tool firing and, when `closed`, end with an after-tool
   * firing, with only confirmations and executions between, start those two firings' hooks.
   */
  lemma BracketRuns(s: Store, w: World, es: seq<Registry.Event>, closed: bool)
    requires Wired(s, w) && |es| >= (if closed then 2 else 1)
    requires forall i :: 1 <= i < |es| - (if closed then 1 else 0) ==> es[i].ConfirmationAsked? || es[i].Executed?
    ensures HookRuns(w, es) == w.hookRuns(es[0]) + (if closed then w.hookRuns(es[|es| - 1]) else [])
  {
    HookRunsOne(w, es[0]);
    if closed {
      var open := es[..|es| - 1];
      QuietTail(s, w, open, 1);
      assert open[..1] == [es[0]];
    } else {
      QuietTail(s, w, es, 1);
      assert es[..1] == [es[0]];
    }
  }

  lemma HookRunsOne(w: World, e: Registry.Event)
    ensures HookRuns(w, [e]) == w.hookRuns(e)
  {
    assert [e][..0] == [];
  }

  /**
   * The tool loop so far: the events, the results, the calls made, the registry events of
   * those calls, and the exception that ended it.
   */
  datatype Calls = Calls(events: seq<AgentEvent>, results: seq<(string, string)>, tried: seq<R.ToolCall>,
                         fired: seq<Registry.Event>, raised: Option<string>)

  const NoCalls := Calls([], [], [], [], None)

  /**
   * One pass of `for tool_call in tool_calls`: announce the call, invoke it, then announce the
   * result and keep it, or stop with the exception.
   */
  function CallStep(w: World, c: Calls, tc: R.ToolCall): Calls {
    if c.raised.Some? then c
    else
      var v := w.invoke(tc);
      var started := c.(events := c.events + [ToolCallStart(tc.callId, tc.name, tc.arguments)],
                        tried := c.tried + [tc], fired := c.fired + v.events);
      match v.result
      case Raised(m) => started.(raised := Some(m))
      case Ok(r) => started.(events := started.events + [ToolCallComplete(tc.callId, tc.name, r)],
                             results := c.results + [(tc.callId, ToolBase.ToModelOutput(r))])
  }

  function CallsFrom(w: World, c: Calls, calls: seq<R.ToolCall>): Calls {
    if calls == [] then c else CallStep(w, CallsFrom(w, c, calls[..|calls| - 1]), calls[|calls| - 1])
  }

  /** The tool loop of a turn. */
  function CallsOf(w: World, calls: seq<R.ToolCall>): Calls {
    CallsFrom(w, NoCalls, calls)
  }

  /** The detector's history after recording each call in turn. */
  function CallHistory(w: World, h: seq<string>, calls: seq<R.ToolCall>): seq<string> {
    if calls == [] then h
    else
      var last := calls[|calls| - 1];
      LoopDetection.Window(CallHistory(w, h, calls[..|calls| - 1]) + [w.signature(CallAction(last))])
  }

  lemma CallHistoryNext(w: World, h: seq<string>, calls: seq<R.ToolCall>, tc: R.ToolCall)
    ensures CallHistory(w, h, calls + [tc]) == LoopDetection.Window(CallHistory(w, h, calls) + [w.signature(CallAction(tc))])
  {
    assert (calls + [tc])[..|calls|] == calls;
  }

  /** Every call returns a result instead of raising. */
  predicate Succeeds(w: World, calls: seq<R.ToolCall>) {
    forall k :: 0 <= k < |calls| ==> w.invoke(calls[k]).result.Ok?
  }

  lemma CallsFromSnoc(w: World, c: Calls, calls: seq<R.ToolCall>, tc: R.ToolCall)
    ensures CallsFrom(w, c, calls + [tc]) == CallStep(w, CallsFrom(w, c, calls), tc)
  {
    assert (calls + [tc])[..|calls|] == calls;
  }

  /** Once a call has raised, the later calls are not made. */
  lemma {:induction false} CallsStopped(w: World, c: Calls, calls: seq<R.ToolCall>, later: seq<R.ToolCall>)
    requires CallsFrom(w, c, calls).raised.Some?
    ensures CallsFrom(w, c, calls + later) == CallsFrom(w, c, calls)
    decreases |later|
  {
    if later == [] {
      assert calls + later == calls;
    } else {
      var init := later[..|later| - 1];
      assert (calls + later)[..|calls + later| - 1] == calls + init;
      CallsStopped(w, c, calls, init);
    }
  }

  /** The loop over a prefix one call longer makes one more step. */
  lemma CallsOfNext(w: World, calls: seq<R.ToolCall>, j: nat)
    requires j < |calls|
    ensures CallsOf(w, calls[..j + 1]) == CallStep(w, CallsOf(w, calls[..j]), calls[j])
  {
    assert calls[..j + 1] == calls[..j] + [calls[j]];
    CallsFromSnoc(w, NoCalls, calls[..j], calls[j]);
  }

  /** The loop over the whole list stops where a prefix raised. */
  lemma CallsOfStopped(w: World, calls: seq<R.ToolCall>, j: nat)
    requires j <= |calls| && CallsOf(w, calls[..j]).raised.Some?
    ensures CallsOf(w, calls) == CallsOf(w, calls[..j])
  {
    CallsStopped(w, NoCalls, calls[..j], calls[j..]);
    assert calls[..j] + calls[j..] == calls;
  }

  /** The loop ends without an exception iff no call raised, and then it made every call. */
  lemma {:induction false} CallsRaised(w: World, c: Calls, calls: seq<R.ToolCall>)
    requires c.raised.None?
    ensures CallsFrom(w, c, calls).raised.None? <==> Succeeds(w, calls)
    ensures CallsFrom(w, c, calls).raised.None? ==> CallsFrom(w, c, calls).tried == c.tried + calls
  {
    if calls != [] {
      var init := calls[..|calls| - 1];
      CallsRaised(w, c, init);
      assert forall k :: 0 <= k < |init| ==> init[k] == calls[k];
      assert init + [calls[|calls| - 1]] == calls;
    }
  }

  /**
   * When no call raises: a start and a completion per call, and one result per call pairing
   * its id with its rendered result, in call order, after what was there before.
   */
  lemma {:induction false} CallsAt(w: World, c: Calls, calls: seq<R.ToolCall>)
    requires c.raised.None? && Succeeds(w, calls)
    ensures var d := CallsFrom(w, c, calls);
      var e, q := |c.events|, |c.results|;
      |d.events| == e + 2 * |calls| && |d.results| == q + |calls|
      && d.events[..e] == c.events && d.results[..q] == c.results
      && forall k :: 0 <= k < |calls| ==>
           d.events[e + 2 * k] == ToolCallStart(calls[k].callId, calls[k].name, calls[k].arguments)
           && d.events[e + 2 * k + 1] == ToolCallComplete(calls[k].callId, calls[k].name, w.invoke(calls[k]).result.value)
           && d.results[q + k] == (calls[k].callId, ToolBase.ToModelOutput(w.invoke(calls[k]).result.value))
  {
    if calls != [] {
      var init, tc := calls[..|calls| - 1], calls[|calls| - 1];
      assert forall k :: 0 <= k < |init| ==> init[k] == calls[k];
      CallsAt(w, c, init);
      CallsRaised(w, c, init);
      var p := CallsFrom(w, c, init);
      var d := CallsFrom(w, c, calls);
      assert w.invoke(calls[|calls| - 1]).result.Ok?;
      assert d.events == p.events + [ToolCallStart(tc.callId, tc.name, tc.arguments),
                                     ToolCallComplete(tc.callId, tc.name, w.invoke(tc).result.value)];
      assert d.results == p.results + [(tc.callId, ToolBase.ToModelOutput(w.invoke(tc).result.value))];
    }
  }

  /**
   * A call that raises ends the loop: it was announced and recorded, gets no completion, and
   * the calls after it are not made.
   */
  lemma {:induction false} CallsRaise(w: World, c: Calls, calls: seq<R.ToolCall>)
    requires c.raised.None?
    ensures var d := CallsFrom(w, c, calls);
      d.raised.Some? ==>
        exists k :: 0 <= k < |calls| && Succeeds(w, calls[..k]) && w.invoke(calls[k]).result.Raised?
                    && d.raised == Some(w.invoke(calls[k]).result.message) && d.tried == c.tried + calls[..k + 1]
                    && d.events == CallsFrom(w, c, calls[..k]).events
                                   + [ToolCallStart(calls[k].callId, calls[k].name, calls[k].arguments)]
  {
    var d := CallsFrom(w, c, calls);
    if calls != [] && d.raised.Some? {
      var init, tc := calls[..|calls| - 1], calls[|calls| - 1];
      var p := CallsFrom(w, c, init);
      if p.raised.Some? {
        CallsRaise(w, c, init);
        var k :| 0 <= k < |init| && Succeeds(w, init[..k]) && w.invoke(init[k]).result.Raised?
                 && p.raised == Some(w.invoke(init[k]).result.message) && p.tried == c.tried + init[..k + 1]
                 && p.events == CallsFrom(w, c, init[..k]).events + [ToolCallStart(init[k].callId, init[k].name, init[k].arguments)];
        assert init[..k] == calls[..k] && init[k] == calls[k] && init[..k + 1] == calls[..k + 1];
      } else {
        CallsRaised(w, c, init);
        assert calls[..|calls| - 1] == init && calls[..|init| + 1] == calls;
      }
    }
  }

  /** The loop yields only inner events. */
  lemma {:induction false} CallsInner(w: World, c: Calls, calls: seq<R.ToolCall>)
    requires AllInner(c.events)
    ensures AllInner(CallsFrom(w, c, calls).events)
  {
    if calls != [] {
      var init := calls[..|calls| - 1];
      CallsInner(w, c, init);
      var p := CallsFrom(w, c, init);
      var d := CallsFrom(w, c, calls);
      if p.raised.None? {
        AllInnerConcat(p.events, d.events[|p.events|..]);
        assert d.events == p.events + d.events[|p.events|..];
      }
    }
  }

  function ResultItems(results: seq<(string, string)>, tokens: string -> nat): (r: seq<Context.MessageItem>)
    ensures |r| == |results|
  {
    if results == [] then []
    else
      var last := results[|results| - 1];
      ResultItems(results[..|results| - 1], tokens) + [Context.NewItem(Context.Tool, last.1, last.0, [], tokens)]
  }

  /** Item `k` is the tool message for result `k`. */
  lemma {:induction false} ResultItemAt(results: seq<(string, string)>, tokens: string -> nat, k: nat)
    requires k < |results|
    ensures ResultItems(results, tokens)[k] == Context.NewItem(Context.Tool, results[k].1, results[k].0, [], tokens)
  {
    var init := results[..|results| - 1];
    if k < |results| - 1 {
      ResultItemAt(init, tokens, k);
      assert init[k] == results[k];
    }
  }

  /** The tool messages of a turn whose calls all returned answer those calls, in order. */
  lemma ToolItemsTail(s: Store, w: World, calls: seq<R.ToolCall>, ms: seq<Context.MessageItem>)
    requires Succeeds(w, calls)
    ensures ToolTail(ms + ResultItems(CallsOf(w, calls).results, s.tokens), |ms|, calls)
  {
    var results := CallsOf(w, calls).results;
    CallsAt(w, NoCalls, calls);
    var items := ResultItems(results, s.tokens);
    forall j | |ms| <= j < |ms| + |calls|
      ensures (ms + items)[j].role == Context.Tool && (ms + items)[j].toolCallId == calls[j - |ms|].callId
    {
      ResultItemAt(results, s.tokens, j - |ms|);
    }
  }

  function BreakerItem(s: Store, w: World, k: LoopDetection.LoopKind): Context.MessageItem {
    Context.NewItem(Context.User, w.breaker(LoopDetection.Message(k)), [], [], s.tokens)
  }

  /** The end of a turn: the usage, when the stream reported one, and the pruning. */
  function Settled(s: Store, w: World, st: State, usage: Option<R.TokenUsage>, n: nat): State {
    var st1 := if usage.Some? then st.(latest := usage.value, total := R.AddUsage(st.total, usage.value)) else st;
    st1.(messages := Context.PruneResult(st1.messages, s.tokens, w.clock(n)).0)
  }

  /**
   * What a turn gives: the new state, its events, the registry events of its tool calls (the
   * hook firings they ask for), whether the loop ends, and the exception that ended it.
   */
  datatype TurnResult = TurnResult(state: State, events: seq<AgentEvent>, fired: seq<Registry.Event>, done: bool,
                                   raised: Option<string>)

  /** The state after the tool loop `c`: its calls recorded with the detector. */
  function Tooled(w: World, st: State, c: Calls): State {
    st.(history := CallHistory(w, st.history, c.tried))
  }

  /** The state after a tool loop in which no call raised, before pruning: the results stored and the loop check. */
  function Unpruned(s: Store, w: World, st: State, c: Calls): State {
    var t := Tooled(w, st, c);
    var ms := st.messages + ResultItems(c.results, s.tokens);
    var loop := LoopDetection.Check(t.history);
    t.(messages := if loop.Some? then ms + [BreakerItem(s, w, loop.value)] else ms)
  }

  /** Turn `n` of `_agentic_loop`; `done` when it returned or raised. */
  function Turn(s: Store, w: World, st: State, n: nat): TurnResult {
    var st1 := Compacted(s, w, st);
    match TurnStream(s, w, st1, n)
    case Raised(m) => TurnResult(st1, [], [], true, Some(m))
    case Ok(c) =>
      var r := ReplyFrom(NoReply, c.events);
      if c.raised.Some? then TurnResult(st1, r.out, [], true, c.raised)
      else TurnAfter(s, w, st1, r, n)
  }

  /** The rest of turn `n` once the context is compacted and the whole reply `r` is read. */
  function TurnAfter(s: Store, w: World, st1: State, r: Reply, n: nat): TurnResult {
    var a := Answered(s, w, st1, r);
    if r.calls == [] then TurnResult(Settled(s, w, a.0, r.usage, n), a.1, [], true, None)
    else
      var c := CallsOf(w, r.calls);
      if c.raised.Some? then TurnResult(Tooled(w, a.0, c), a.1 + c.events, c.fired, true, c.raised)
      else TurnResult(Settled(s, w, Unpruned(s, w, a.0, c), r.usage, n), a.1 + c.events, c.fired, false, None)
  }

  /** The state of a turn before pruning: the reply stored and, when it asked for tools, their results. */
  function Recorded(s: Store, w: World, st1: State, r: Reply): State {
    var st2 := Answered(s, w, st1, r).0;
    if r.calls == [] then st2 else Unpruned(s, w, st2, CallsOf(w, r.calls))
  }

  // ---------------------------------------------------------------------
  // The loop and the run

  /**
   * What the loop gives: the state, its events, the registry events of its tool calls, whether
   * it ran out of turns, and the exception that ended it.
   */
  datatype LoopResult = LoopResult(state: State, events: seq<AgentEvent>, fired: seq<Registry.Event>,
                                   exhausted: bool, raised: Option<string>)

  /** `_agentic_loop` from turn `n`, with `evs` already yielded and `fired` already asked for, each turn taken by `turn`. */
  function LoopWith(turn: (State, nat) -> TurnResult, st: State, evs: seq<AgentEvent>, fired: seq<Registry.Event>,
                    n: nat, maxTurns: int): LoopResult
    decreases maxTurns - n
  {
    if n >= maxTurns then LoopResult(st, evs + [AgentError(MaxTurnsMessage(maxTurns))], fired, true, None)
    else
      var t := turn(st, n);
      if t.raised.Some? then LoopResult(t.state, evs + t.events, fired + t.fired, false, t.raised)
      else if t.done then LoopResult(t.state, evs + t.events, fired + t.fired, false, None)
      else LoopWith(turn, t.state, evs + t.events, fired + t.fired, n + 1, maxTurns)
  }

  /** The agent's turns as a function of the state and the turn number. */
  function TurnOf(s: Store, w: World): (State, nat) -> TurnResult {
    (t: State, k: nat) => Turn(s, w, t, k)
  }

  /** `_agentic_loop` of the agent from turn `n`. */
  function LoopFrom(s: Store, w: World, st: State, evs: seq<AgentEvent>, fired: seq<Registry.Event>, n: nat,
                    maxTurns: int): LoopResult {
    LoopWith(TurnOf(s, w), st, evs, fired, n, maxTurns)
  }

  /** One turn of the loop: it ends the loop when it raised or returned, and otherwise the loop goes on. */
  lemma LoopFromStep(s: Store, w: World, st: State, evs: seq<AgentEvent>, fired: seq<Registry.Event>, n: nat,
                     maxTurns: int)
    requires n < maxTurns
    ensures var t := Turn(s, w, st, n);
      t.raised.Some? || t.done ==>
        LoopFrom(s, w, st, evs, fired, n, maxTurns) == LoopResult(t.state, evs + t.events, fired + t.fired, false, t.raised)
    ensures var t := Turn(s, w, st, n);
      t.raised.None? && !t.done ==>
        LoopFrom(s, w, st, evs, fired, n, maxTurns) == LoopFrom(s, w, t.state, evs + t.events, fired + t.fired, n + 1, maxTurns)
  {
    assert TurnOf(s, w)(st, n) == Turn(s, w, st, n);
  }

  /** Out of turns: the loop adds the error event and ends. */
  lemma LoopFromEnd(s: Store, w: World, st: State, evs: seq<AgentEvent>, fired: seq<Registry.Event>, n: nat,
                    maxTurns: int)
    requires n >= maxTurns
    ensures LoopFrom(s, w, st, evs, fired, n, maxTurns)
            == LoopResult(st, evs + [AgentError(MaxTurnsMessage(maxTurns))], fired, true, None)
  {
  }

  /** The content of the last `TEXT_COMPLETE`. */
  function FinalResponse(es: seq<AgentEvent>): Option<string> {
    if es == [] then None
    else if es[|es| - 1].TextComplete? then Some(es[|es| - 1].content)
    else FinalResponse(es[..|es| - 1])
  }

  /** The `before_agent` hooks of a run. */
  function BeforeAgentRuns(s: Store, message: string): seq<Hooks.HookRun> {
    Hooks.RunsOf(Hooks.ForTrigger(s.hooks, Config.BeforeAgent),
                 Hooks.Environment(s.environ, Config.BeforeAgent, s.hookCwd, None, Some(message), None), true)
  }

  /** The `after_agent` hooks of a run; they start only when there is a response. */
  function AfterAgentRuns(s: Store, message: string, response: Option<string>): seq<Hooks.HookRun> {
    Hooks.RunsOf(Hooks.ForTrigger(s.hooks, Config.AfterAgent),
                 Hooks.AfterAgentEnv(s.environ, s.hookCwd, message, response), response.Some?)
  }

  /**
   * What a run gives: the state, its events, the registry events of its tool calls, the
   * response, and the exception that ended it.
   */
  datatype RunResult = RunResult(state: State, events: seq<AgentEvent>, fired: seq<Registry.Event>,
                                 response: Option<string>, raised: Option<string>)

  /** `run(message)`, apart from its hooks. */
  function RunOf(s: Store, w: World, st: State, message: string, maxTurns: int): RunResult {
    var st0 := st.(messages := st.messages + [Context.NewItem(Context.User, message, [], [], s.tokens)]);
    var l := LoopFrom(s, w, st0, [], [], 0, maxTurns);
    if l.raised.Some? then RunResult(l.state, [AgentStart(message)] + l.events, l.fired, None, l.raised)
    else
      var final := FinalResponse(l.events);
      RunResult(l.state, [AgentStart(message)] + l.events + [AgentEnd(final)], l.fired, final, None)
  }

  /**
   * The hooks a run starts: its `before_agent` hooks, the hooks its tool calls ask for, and its
   * `after_agent` hooks when nothing raised.
   */
  function RunHookRuns(s: Store, w: World, message: string, rr: RunResult): seq<Hooks.HookRun> {
    BeforeAgentRuns(s, message) + HookRuns(w, rr.fired)
    + (if rr.raised.None? then AfterAgentRuns(s, message, rr.response) else [])
  }

  // ---------------------------------------------------------------------
  // What a turn does

  lemma CompactedShape(s: Store, w: World, st: State)
    ensures var st1 := Compacted(s, w, st);
      st1.turns == st.turns + 1 && st1.history == st.history
      && ((st1.messages == st.messages && st1.latest == st.latest && st1.total == st.total)
          || (5 * st.latest.totalTokens > 4 * s.window
              && exists summary :: summary != [] && st1.messages == Context.SummaryMessages(summary, s.tokens, s.wording)
                                   && st1.total == R.AddUsage(st.total, st1.latest)))
  {
    var st1 := Compacted(s, w, st);
    if st1.messages != st.messages || st1.latest != st.latest || st1.total != st.total {
      var c := Compaction.Compressed(Context.WireMessages(s.systemPrompt, st.messages), w.compressionPrompt, w.summarize);
      assert st1.messages == Context.SummaryMessages(c.0.value, s.tokens, s.wording);
    }
  }

  /** From `from` on, one tool message per call with that call's id, in call order. */
  predicate ToolTail(ms: seq<Context.MessageItem>, from: nat, calls: seq<R.ToolCall>) {
    from + |calls| <= |ms|
    && forall j :: from <= j < from + |calls| ==> ms[j].role == Context.Tool && ms[j].toolCallId == calls[j - from].callId
  }

  /** When `hit`, a user message sits at `k`. */
  predicate LoopPrompted(ms: seq<Context.MessageItem>, k: int, hit: bool) {
    hit ==> 0 <= k < |ms| && ms[k].role == Context.User
  }

  /** `ms1` has the roles of `ms` at every position before `upto`. */
  predicate SameRoles(ms1: seq<Context.MessageItem>, ms: seq<Context.MessageItem>, upto: nat) {
    upto <= |ms| && upto <= |ms1| && forall k :: 0 <= k < upto ==> ms1[k].role == ms[k].role
  }

  /** Settling keeps every message's place, role and id, and leaves all but tool results as they are. */
  lemma SettledItem(s: Store, w: World, u: State, usage: Option<R.TokenUsage>, n: nat, k: nat)
    requires k < |u.messages|
    ensures var m := Settled(s, w, u, usage, n).messages;
      |m| == |u.messages| && m[k].role == u.messages[k].role && m[k].toolCallId == u.messages[k].toolCallId
      && (!Context.IsToolResult(u.messages[k]) ==> m[k] == u.messages[k])
    ensures Settled(s, w, u, usage, n).turns == u.turns
  {
    Context.PruneKeepsShape(u.messages, s.tokens, w.clock(n));
  }

  lemma SettledRoles(s: Store, w: World, u: State, usage: Option<R.TokenUsage>, n: nat, ms: seq<Context.MessageItem>, upto: nat)
    requires SameRoles(u.messages, ms, upto)
    ensures SameRoles(Settled(s, w, u, usage, n).messages, ms, upto)
  {
    Context.PruneKeepsShape(u.messages, s.tokens, w.clock(n));
  }

  lemma SettledTail(s: Store, w: World, u: State, usage: Option<R.TokenUsage>, n: nat, from: nat, calls: seq<R.ToolCall>)
    requires ToolTail(u.messages, from, calls)
    ensures ToolTail(Settled(s, w, u, usage, n).messages, from, calls)
  {
    Context.PruneKeepsShape(u.messages, s.tokens, w.clock(n));
  }

  lemma SettledPrompted(s: Store, w: World, u: State, usage: Option<R.TokenUsage>, n: nat, k: int, hit: bool)
    requires LoopPrompted(u.messages, k, hit)
    ensures LoopPrompted(Settled(s, w, u, usage, n).messages, k, hit)
  {
    Context.PruneKeepsShape(u.messages, s.tokens, w.clock(n));
  }

  /** The tool branch appends one tool message per call, in order, then the breaker prompt on a loop. */
  lemma UnprunedFacts(s: Store, w: World, st: State, calls: seq<R.ToolCall>)
    requires Succeeds(w, calls)
    ensures var c := CallsOf(w, calls);
      var u := Unpruned(s, w, st, c);
      |u.messages| == |st.messages| + |calls| + (if LoopDetection.Check(u.history).Some? then 1 else 0)
      && u.messages[..|st.messages|] == st.messages
      && ToolTail(u.messages, |st.messages|, calls)
      && u.turns == st.turns
  {
    var c := CallsOf(w, calls);
    CallsAt(w, NoCalls, calls);
    var u := Unpruned(s, w, st, c);
    var ms := st.messages + ResultItems(c.results, s.tokens);
    ToolItemsTail(s, w, calls, st.messages);
    assert u.messages[..|ms|] == ms;
    TailKept(ms, u.messages, |st.messages|, calls);
    assert ms[..|st.messages|] == st.messages;
  }

  /** Appending after the tool messages keeps them, and the prefix before them. */
  lemma TailKept(ms: seq<Context.MessageItem>, ms': seq<Context.MessageItem>, from: nat, calls: seq<R.ToolCall>)
    requires ToolTail(ms, from, calls) && from <= |ms| && |ms| <= |ms'| && ms'[..|ms|] == ms
    ensures ToolTail(ms', from, calls) && ms'[..from] == ms[..from]
  {
    forall j | from <= j < from + |calls| ensures ms'[j] == ms[j] {
      assert ms'[..|ms|][j] == ms'[j];
    }
  }

  /** On a loop, the breaker prompt follows the tool messages. */
  lemma UnprunedBreaker(s: Store, w: World, st: State, calls: seq<R.ToolCall>)
    requires Succeeds(w, calls)
    ensures var c := CallsOf(w, calls);
      var u := Unpruned(s, w, st, c);
      var loop := LoopDetection.Check(u.history);
      loop.Some? ==> |u.messages| == |st.messages| + |calls| + 1
                     && u.messages[|st.messages| + |calls|] == BreakerItem(s, w, loop.value)
  {
    CallsAt(w, NoCalls, calls);
  }

  /** Whether the detector sees a loop once the calls of reply `r` are recorded. */
  predicate Hit(s: Store, w: World, st1: State, r: Reply) {
    r.calls != [] && LoopDetection.Check(Recorded(s, w, st1, r).history).Some?
  }

  /**
   * Before pruning, a turn whose calls all returned has the compacted messages, the assistant
   * message, one tool message per call and, on a loop, the breaker prompt.
   */
  lemma RecordedFacts(s: Store, w: World, st1: State, r: Reply)
    requires Succeeds(w, r.calls)
    ensures var u := Recorded(s, w, st1, r);
      u.turns == st1.turns
      && |u.messages| == |st1.messages| + 1 + |r.calls| + (if Hit(s, w, st1, r) then 1 else 0)
      && SameRoles(u.messages, st1.messages, |st1.messages|)
      && u.messages[|st1.messages|] == AssistantItem(s, w, r)
      && ToolTail(u.messages, |st1.messages| + 1, r.calls)
      && LoopPrompted(u.messages, |st1.messages| + 1 + |r.calls|, Hit(s, w, st1, r))
  {
    var st2 := Answered(s, w, st1, r).0;
    var base := |st1.messages|;
    assert |st2.messages| == base + 1 && st2.messages[base] == AssistantItem(s, w, r);
    assert st2.messages[..base] == st1.messages;
    var u := Recorded(s, w, st1, r);
    if r.calls != [] {
      UnprunedFacts(s, w, st2, r.calls);
      UnprunedBreaker(s, w, st2, r.calls);
    }
    assert u.messages[..base + 1] == st2.messages;
    forall k | 0 <= k < base
      ensures u.messages[k].role == st1.messages[k].role
    {
      assert u.messages[k] == st2.messages[k];
    }
  }

  /**
   * The messages of a turn whose calls all returned, once the context `st1` is compacted and the
   * reply `r` read: one assistant message, whose calls are listed iff it asked for tools; then
   * one tool message per call with that call's id, in call order, and one more user message
   * exactly when the detector saw a loop. The messages before keep their roles.
   */
  lemma TurnAfterMessages(s: Store, w: World, st1: State, r: Reply, n: nat)
    requires Succeeds(w, r.calls)
    ensures var m := TurnAfter(s, w, st1, r, n).state.messages;
      var base := |st1.messages|;
      |m| == base + 1 + |r.calls| + (if Hit(s, w, st1, r) then 1 else 0)
      && SameRoles(m, st1.messages, base)
      && m[base] == AssistantItem(s, w, r)
      && (m[base].toolCalls != [] <==> r.calls != [])
  {
    var base := |st1.messages|;
    var u := Recorded(s, w, st1, r);
    RecordedFacts(s, w, st1, r);
    TurnAfterState(s, w, st1, r, n);
    SettledItem(s, w, u, r.usage, n, base);
    SettledRoles(s, w, u, r.usage, n, st1.messages, base);
    var item := AssistantItem(s, w, r);
    assert item.toolCalls == CallDicts(r.calls, w.show) && |item.toolCalls| == |r.calls|;
  }

  /** The tool messages of a turn follow its assistant message, and a loop adds a user message after them. */
  lemma TurnAfterTools(s: Store, w: World, st1: State, r: Reply, n: nat)
    requires Succeeds(w, r.calls)
    ensures ToolTail(TurnAfter(s, w, st1, r, n).state.messages, |st1.messages| + 1, r.calls)
    ensures LoopPrompted(TurnAfter(s, w, st1, r, n).state.messages, |st1.messages| + 1 + |r.calls|, Hit(s, w, st1, r))
  {
    var u := Recorded(s, w, st1, r);
    RecordedFacts(s, w, st1, r);
    TurnAfterState(s, w, st1, r, n);
    SettledTail(s, w, u, r.usage, n, |st1.messages| + 1, r.calls);
    SettledPrompted(s, w, u, r.usage, n, |st1.messages| + 1 + |r.calls|, Hit(s, w, st1, r));
  }

  lemma TurnAfterState(s: Store, w: World, st1: State, r: Reply, n: nat)
    requires Succeeds(w, r.calls)
    ensures TurnAfter(s, w, st1, r, n).state == Settled(s, w, Recorded(s, w, st1, r), r.usage, n)
  {
    if r.calls != [] {
      CallsRaised(w, NoCalls, r.calls);
    }
  }

  /**
   * A turn ends the loop iff its reply asked for no tool or one of its calls raised, and only
   * the latter ends it with an exception; it counts one turn.
   */
  lemma TurnAfterDone(s: Store, w: World, st1: State, r: Reply, n: nat)
    ensures var t := TurnAfter(s, w, st1, r, n);
      (t.done <==> r.calls == [] || !Succeeds(w, r.calls))
      && (t.raised.Some? <==> r.calls != [] && !Succeeds(w, r.calls))
      && t.state.turns == st1.turns
  {
    var st2 := Answered(s, w, st1, r).0;
    if r.calls != [] {
      CallsRaised(w, NoCalls, r.calls);
    }
    if Succeeds(w, r.calls) {
      var u := Recorded(s, w, st1, r);
      RecordedFacts(s, w, st1, r);
      TurnAfterState(s, w, st1, r, n);
      SettledItem(s, w, u, r.usage, n, 0);
    }
  }

  /** The calls the model asks for in turn `n`, when the stream did not raise. */
  function AskedCalls(c: LlmClient.Completion): seq<R.ToolCall> {
    ReplyFrom(NoReply, c.events).calls
  }

  /**
   * A turn ends the loop iff `get_schemas` or the stream raised, the reply asked for no tool, or
   * one of its calls raised; it ends it with an exception iff one of those raised.
   */
  lemma TurnDone(s: Store, w: World, st: State, n: nat)
    ensures var t := Turn(s, w, st, n);
      var c := TurnStream(s, w, Compacted(s, w, st), n);
      (t.done <==> c.Raised? || c.value.raised.Some? || AskedCalls(c.value) == [] || !Succeeds(w, AskedCalls(c.value)))
      && (t.raised.Some? <==> c.Raised? || c.value.raised.Some? || (AskedCalls(c.value) != [] && !Succeeds(w, AskedCalls(c.value))))
  {
    var st1 := Compacted(s, w, st);
    var c := TurnStream(s, w, st1, n);
    if c.Ok? && c.value.raised.None? {
      TurnAfterDone(s, w, st1, ReplyFrom(NoReply, c.value.events), n);
    }
  }

  /** Every turn is counted once, whether or not it raised. */
  lemma TurnCounted(s: Store, w: World, st: State, n: nat)
    ensures Turn(s, w, st, n).state.turns == st.turns + 1
  {
    var st1 := Compacted(s, w, st);
    assert st1.turns == st.turns + 1;
    var c := TurnStream(s, w, st1, n);
    if c.Ok? && c.value.raised.None? {
      TurnAfterDone(s, w, st1, ReplyFrom(NoReply, c.value.events), n);
    }
  }

  /**
   * An exception from `get_schemas` or from the stream ends the turn on the compacted context:
   * no assistant message is stored, and only the events already passed on were yielded.
   */
  lemma TurnStreamRaised(s: Store, w: World, st: State, n: nat)
    ensures var st1 := Compacted(s, w, st);
      var c := TurnStream(s, w, st1, n);
      var t := Turn(s, w, st, n);
      (c.Raised? ==> t.state == st1 && t.events == [] && t.raised == Some(c.message))
      && (c.Ok? && c.value.raised.Some? ==>
            t.state == st1 && t.events == Translated(c.value.events) && t.raised == c.value.raised)
  {
    var st1 := Compacted(s, w, st);
    var c := TurnStream(s, w, st1, n);
    if c.Ok? {
      ReplyMeaning(c.value.events);
    }
  }

  /** The text completion a reply with text `text` yields. */
  function TextPart(text: string): seq<AgentEvent> {
    if text != [] then [TextComplete(text)] else []
  }

  lemma TurnAfterEvents(s: Store, w: World, st1: State, r: Reply, n: nat)
    ensures var t := TurnAfter(s, w, st1, r, n);
      t.events == r.out + TextPart(r.text) + (if r.calls == [] then [] else CallsOf(w, r.calls).events)
  {
    AnsweredEvents(s, w, st1, r);
    if r.calls == [] {
      QuietTurnEvents(s, w, st1, r, n);
    } else {
      ToolTurnEvents(s, w, st1, r, n);
    }
  }

  lemma AnsweredEvents(s: Store, w: World, st1: State, r: Reply)
    ensures Answered(s, w, st1, r).1 == r.out + TextPart(r.text)
  {
  }

  lemma QuietTurnEvents(s: Store, w: World, st1: State, r: Reply, n: nat)
    requires r.calls == []
    ensures TurnAfter(s, w, st1, r, n).events == Answered(s, w, st1, r).1
  {
  }

  lemma ToolTurnEvents(s: Store, w: World, st1: State, r: Reply, n: nat)
    requires r.calls != []
    ensures TurnAfter(s, w, st1, r, n).events == Answered(s, w, st1, r).1 + CallsOf(w, r.calls).events
  {
  }

  /**
   * The events of a turn whose stream and calls did not raise: the passed-on stream events, the
   * text once, then a start and a completion per call, in call order.
   */
  lemma TurnEvents(s: Store, w: World, st: State, n: nat)
    requires var c := TurnStream(s, w, Compacted(s, w, st), n);
      c.Ok? && c.value.raised.None? && Succeeds(w, Completed(c.value.events))
    ensures var c := TurnStream(s, w, Compacted(s, w, st), n).value;
      var calls := Completed(c.events);
      var pre := Translated(c.events) + TextPart(DeltaText(c.events));
      var es := Turn(s, w, st, n).events;
      |es| == |pre| + 2 * |calls| && es[..|pre|] == pre
      && forall k :: 0 <= k < |calls| ==>
           es[|pre| + 2 * k] == ToolCallStart(calls[k].callId, calls[k].name, calls[k].arguments)
           && es[|pre| + 2 * k + 1] == ToolCallComplete(calls[k].callId, calls[k].name, w.invoke(calls[k]).result.value)
  {
    var st1 := Compacted(s, w, st);
    var c := TurnStream(s, w, st1, n).value;
    ReplyMeaning(c.events);
    var r := ReplyFrom(NoReply, c.events);
    TurnStreamed(s, w, st, n);
    TurnAfterEvents(s, w, st1, r, n);
    if r.calls != [] {
      CallsAt(w, NoCalls, r.calls);
    }
    CallEventsAfter(w, r.out + TextPart(r.text), if r.calls == [] then [] else CallsOf(w, r.calls).events, r.calls);
  }

  /** A turn whose stream completed goes on with the reply read from it. */
  lemma TurnStreamed(s: Store, w: World, st: State, n: nat)
    requires var c := TurnStream(s, w, Compacted(s, w, st), n);
      c.Ok? && c.value.raised.None?
    ensures var st1 := Compacted(s, w, st);
      Turn(s, w, st, n) == TurnAfter(s, w, st1, ReplyFrom(NoReply, TurnStream(s, w, st1, n).value.events), n)
  {
  }

  /** The start and completion events of the calls, placed after `pre`. */
  lemma CallEventsAfter(w: World, pre: seq<AgentEvent>, evs: seq<AgentEvent>, calls: seq<R.ToolCall>)
    requires |evs| == 2 * |calls| && Succeeds(w, calls)
    requires forall k :: 0 <= k < |calls| ==>
      evs[2 * k] == ToolCallStart(calls[k].callId, calls[k].name, calls[k].arguments)
      && evs[2 * k + 1] == ToolCallComplete(calls[k].callId, calls[k].name, w.invoke(calls[k]).result.value)
    ensures var es := pre + evs;
      |es| == |pre| + 2 * |calls| && es[..|pre|] == pre
      && forall k :: 0 <= k < |calls| ==>
           es[|pre| + 2 * k] == ToolCallStart(calls[k].callId, calls[k].name, calls[k].arguments)
           && es[|pre| + 2 * k + 1] == ToolCallComplete(calls[k].callId, calls[k].name, w.invoke(calls[k]).result.value)
  {
    var es := pre + evs;
    assert es[..|pre|] == pre;
    forall k | 0 <= k < |calls|
      ensures es[|pre| + 2 * k] == evs[2 * k] && es[|pre| + 2 * k + 1] == evs[2 * k + 1]
    {
    }
  }

  /**
   * A call that raises ends the turn with its exception: the calls after it are not made, no
   * tool message is stored, the last event announces that call, and the context keeps the
   * assistant message unpruned.
   */
  lemma TurnToolRaised(s: Store, w: World, st1: State, r: Reply, n: nat)
    requires r.calls != [] && !Succeeds(w, r.calls)
    ensures var t := TurnAfter(s, w, st1, r, n);
      var pre := r.out + TextPart(r.text);
      t.done && t.state.messages == st1.messages + [AssistantItem(s, w, r)]
      && |t.events| > |pre| && t.events[..|pre|] == pre
      && exists k :: 0 <= k < |r.calls| && Succeeds(w, r.calls[..k]) && w.invoke(r.calls[k]).result.Raised?
                     && t.raised == Some(w.invoke(r.calls[k]).result.message)
                     && t.events[|t.events| - 1] == ToolCallStart(r.calls[k].callId, r.calls[k].name, r.calls[k].arguments)
  {
    var st2 := Answered(s, w, st1, r).0;
    var c0 := NoCalls;
    CallsRaised(w, c0, r.calls);
    CallsRaise(w, c0, r.calls);
    TurnAfterEvents(s, w, st1, r, n);
    var pre := r.out + TextPart(r.text);
    var t := TurnAfter(s, w, st1, r, n);
    assert t.events == pre + CallsOf(w, r.calls).events;
  }

  // ---------------------------------------------------------------------
  // What the loop and the run do

  /** Events a turn may yield: never a start or an end, and never an empty text completion. */
  predicate Inner(e: AgentEvent) {
    !e.AgentStart? && !e.AgentEnd? && (e.TextComplete? ==> e.content != [])
  }

  predicate AllInner(es: seq<AgentEvent>) {
    forall i :: 0 <= i < |es| ==> Inner(es[i])
  }

  lemma {:induction false} TranslatedInner(es: seq<R.StreamEvent>)
    ensures AllInner(Translated(es))
  {
    if es != [] {
      TranslatedInner(es[..|es| - 1]);
    }
  }

  lemma AllInnerConcat(a: seq<AgentEvent>, b: seq<AgentEvent>)
    requires AllInner(a) && AllInner(b)
    ensures AllInner(a + b)
  {
    forall i | 0 <= i < |a + b|
      ensures Inner((a + b)[i])
    {
      if i >= |a| {
        assert (a + b)[i] == b[i - |a|];
      }
    }
  }

  /** A turn yields only inner events, whether or not it raised. */
  lemma TurnInner(s: Store, w: World, st: State, n: nat)
    ensures AllInner(Turn(s, w, st, n).events)
  {
    var st1 := Compacted(s, w, st);
    var c := TurnStream(s, w, st1, n);
    TurnStreamRaised(s, w, st, n);
    if c.Ok? {
      TranslatedInner(c.value.events);
      if c.value.raised.None? {
        ReplyMeaning(c.value.events);
        TurnStreamed(s, w, st, n);
        TurnAfterInner(s, w, st1, ReplyFrom(NoReply, c.value.events), n);
      }
    }
  }

  lemma TurnAfterInner(s: Store, w: World, st1: State, r: Reply, n: nat)
    requires AllInner(r.out)
    ensures AllInner(TurnAfter(s, w, st1, r, n).events)
  {
    TurnAfterEvents(s, w, st1, r, n);
    AllInnerConcat(r.out, TextPart(r.text));
    if r.calls != [] {
      CallsInner(w, NoCalls, r.calls);
      AllInnerConcat(r.out + TextPart(r.text), CallsOf(w, r.calls).events);
    }
  }

  /** A turn function that counts each turn once and yields only inner events. */
  ghost predicate Counting(turn: (State, nat) -> TurnResult) {
    forall t: State, k: nat :: turn(t, k).state.turns == t.turns + 1 && AllInner(turn(t, k).events)
  }

  lemma TurnCounting(s: Store, w: World)
    ensures Counting(TurnOf(s, w))
  {
    forall t: State, k: nat
      ensures Turn(s, w, t, k).state.turns == t.turns + 1 && AllInner(Turn(s, w, t, k).events)
    {
      TurnCounted(s, w, t, k);
      TurnInner(s, w, t, k);
    }
  }

  /**
   * At most `maxTurns - n` more turns are counted. The loop ends with the "Maximum turns"
   * error exactly when it ran out of turns, and then it used all of them and nothing raised.
   */
  lemma {:induction false} LoopBound(turn: (State, nat) -> TurnResult, st: State, evs: seq<AgentEvent>,
                                     fired: seq<Registry.Event>, n: nat, maxTurns: int)
    requires Counting(turn) && AllInner(evs)
    ensures var l := LoopWith(turn, st, evs, fired, n, maxTurns);
      var left := if n <= maxTurns then maxTurns - n else 0;
      st.turns <= l.state.turns <= st.turns + left
      && |l.events| >= |evs| && l.events[..|evs|] == evs
      && (l.exhausted ==> |l.events| > 0 && l.state.turns == st.turns + left && l.raised.None?
                          && l.events[|l.events| - 1] == AgentError(MaxTurnsMessage(maxTurns))
                          && AllInner(l.events[..|l.events| - 1]))
      && (!l.exhausted ==> AllInner(l.events))
    decreases maxTurns - n
  {
    var l := LoopWith(turn, st, evs, fired, n, maxTurns);
    if n >= maxTurns {
      assert l.events[..|l.events| - 1] == evs;
    } else {
      var t := turn(st, n);
      AllInnerConcat(evs, t.events);
      if t.raised.None? && !t.done {
        LoopBound(turn, t.state, evs + t.events, fired + t.fired, n + 1, maxTurns);
        var l' := LoopWith(turn, t.state, evs + t.events, fired + t.fired, n + 1, maxTurns);
        assert l'.events[..|evs + t.events|][..|evs|] == evs;
      } else {
        assert l.events[..|evs|] == evs;
      }
    }
  }

  /**
   * When `get_schemas` does not raise, and every reply streams without an exception and asks for
   * a tool whose call returns, the loop uses up all its turns and ends with the error.
   */
  lemma {:induction false} AlwaysCallingExhausts(s: Store, w: World, st: State, evs: seq<AgentEvent>,
                                                 fired: seq<Registry.Event>, n: nat, maxTurns: int)
    requires s.schemas.Ok?
    requires forall k: nat, ms: seq<Object>, tools: Option<seq<Object>> ::
      w.reply(k, ms, tools).raised.None? && AskedCalls(w.reply(k, ms, tools)) != []
    requires forall tc: R.ToolCall :: w.invoke(tc).result.Ok?
    ensures LoopFrom(s, w, st, evs, fired, n, maxTurns).exhausted
    ensures LoopFrom(s, w, st, evs, fired, n, maxTurns).raised.None?
    decreases maxTurns - n
  {
    if n < maxTurns {
      var t := Turn(s, w, st, n);
      TurnDone(s, w, st, n);
      AlwaysCallingExhausts(s, w, t.state, evs + t.events, fired + t.fired, n + 1, maxTurns);
    }
  }

  lemma {:induction false} FinalResponseInner(es: seq<AgentEvent>)
    requires AllInner(es)
    ensures FinalResponse(es).Some? ==> FinalResponse(es).value != [] && TextComplete(FinalResponse(es).value) in es
  {
    if es != [] && !es[|es| - 1].TextComplete? {
      FinalResponseInner(es[..|es| - 1]);
    }
  }

  /** What the loop yields holds no start or end, and its last text completion is one of its non-empty texts. */
  lemma LoopShape(turn: (State, nat) -> TurnResult, st: State, maxTurns: int)
    requires Counting(turn)
    ensures var es := LoopWith(turn, st, [], [], 0, maxTurns).events;
      (forall i :: 0 <= i < |es| ==> !es[i].AgentStart? && !es[i].AgentEnd?)
      && (FinalResponse(es).Some? ==> FinalResponse(es).value != [] && TextComplete(FinalResponse(es).value) in es)
  {
    var l := LoopWith(turn, st, [], [], 0, maxTurns);
    LoopBound(turn, st, [], [], 0, maxTurns);
    if l.exhausted {
      var init := l.events[..|l.events| - 1];
      assert l.events == init + [l.events[|l.events| - 1]];
      assert FinalResponse(l.events) == FinalResponse(init);
      FinalResponseInner(init);
      forall i | 0 <= i < |l.events|
        ensures !l.events[i].AgentStart? && !l.events[i].AgentEnd?
      {
        if i < |init| {
          assert l.events[i] == init[i];
        }
      }
    } else {
      FinalResponseInner(l.events);
    }
  }

  /**
   * A run starts with `AGENT_START`, and no other start or end appears in it. When nothing
   * raised it ends with `AGENT_END` carrying the last text completion, which is never empty;
   * an exception ends it with no response and no `AGENT_END`.
   */
  lemma RunShape(s: Store, w: World, st: State, message: string, maxTurns: int)
    ensures var rr := RunOf(s, w, st, message, maxTurns);
      |rr.events| >= 1 && rr.events[0] == AgentStart(message)
      && (rr.raised.Some? ==> rr.response.None?
                              && forall i :: 1 <= i < |rr.events| ==> !rr.events[i].AgentStart? && !rr.events[i].AgentEnd?)
      && (rr.raised.None? ==>
            var mid := rr.events[1..|rr.events| - 1];
            |rr.events| >= 2
            && rr.events[|rr.events| - 1] == AgentEnd(rr.response)
            && rr.response == FinalResponse(mid)
            && (forall i :: 0 <= i < |mid| ==> !mid[i].AgentStart? && !mid[i].AgentEnd?)
            && (rr.response.Some? ==> rr.response.value != [] && TextComplete(rr.response.value) in mid))
  {
    var st0 := st.(messages := st.messages + [Context.NewItem(Context.User, message, [], [], s.tokens)]);
    TurnCounting(s, w);
    LoopShape(TurnOf(s, w), st0, maxTurns);
    Framed(message, LoopFrom(s, w, st0, [], [], 0, maxTurns).events);
  }

  /** The loop's events between `AGENT_START` and, when nothing raised, `AGENT_END`. */
  lemma Framed(message: string, es: seq<AgentEvent>)
    requires forall i :: 0 <= i < |es| ==> !es[i].AgentStart? && !es[i].AgentEnd?
    ensures var xs := [AgentStart(message)] + es;
      forall i :: 1 <= i < |xs| ==> !xs[i].AgentStart? && !xs[i].AgentEnd?
    ensures var ys := [AgentStart(message)] + es + [AgentEnd(FinalResponse(es))];
      ys[1..|ys| - 1] == es
  {
    var xs := [AgentStart(message)] + es;
    forall i | 1 <= i < |xs| ensures !xs[i].AgentStart? && !xs[i].AgentEnd? {
      assert xs[i] == es[i - 1];
    }
  }

  /**
   * The hooks a run starts: its `before_agent` hooks first, then only tool hooks, and its
   * `after_agent` hooks last exactly when nothing raised.
   */
  lemma RunHooks(s: Store, w: World, message: string, rr: RunResult)
    requires Wired(s, w)
    ensures exists tools :: (ToolRuns(tools)
      && RunHookRuns(s, w, message, rr) == BeforeAgentRuns(s, message) + tools
                                           + (if rr.raised.None? then AfterAgentRuns(s, message, rr.response) else []))
  {
    HookRunsTool(s, w, rr.fired);
    assert RunHookRuns(s, w, message, rr) == BeforeAgentRuns(s, message) + HookRuns(w, rr.fired)
                                             + (if rr.raised.None? then AfterAgentRuns(s, message, rr.response) else []);
  }

  /** The body of the `async for`: what one stream event adds to the turn. */
  method Absorb(r: Reply, e: R.StreamEvent) returns (r': Reply)
    ensures r' == ReplyStep(r, e)
  {
    r' := r;
    match e {
      case TextDelta(c) =>
        r' := r'.(text := r.text + c, out := r.out + [TextDelta(c)]);
      case ToolCallComplete(tc) =>
        r' := r'.(calls := r.calls + [tc]);
      case StreamError(err) =>
        r' := r'.(out := r.out + [AgentError(if err == [] then UnknownError else err)]);
      case MessageComplete(_, _, u) =>
        r' := r'.(usage := u);
      case ToolCallStart(_, _) =>
      case ToolCallDelta(_, _, _) =>
    }
  }

  /** The `async for` over the model's stream. */
  method ReadReply(stream: seq<R.StreamEvent>) returns (r: Reply)
    ensures r == ReplyFrom(NoReply, stream)
    ensures r.text == DeltaText(stream) && r.calls == Completed(stream) && r.out == Translated(stream)
  {
    r := NoReply;
    var i := 0;
    while i < |stream|
      invariant 0 <= i <= |stream|
      invariant r == ReplyFrom(NoReply, stream[..i])
    {
      ReplyFromPrefix(stream, i);
      r := Absorb(r, stream[i]);
      i := i + 1;
    }
    assert stream[..i] == stream;
    ReplyMeaning(stream);
  }

  /** The last text completion among `events`, found as `run` finds it. */
  method LastText(events: seq<AgentEvent>) returns (finalResponse: Option<string>)
    ensures finalResponse == FinalResponse(events)
  {
    finalResponse := None;
    var i := 0;
    while i < |events|
      invariant 0 <= i <= |events|
      invariant finalResponse == FinalResponse(events[..i])
    {
      assert events[..i + 1][..i] == events[..i];
      if events[i].TextComplete? {
        finalResponse := Some(events[i].content);
      }
      i := i + 1;
    }
    assert events[..i] == events;
  }

  // ---------------------------------------------------------------------
  // The agent object

  class Agent {
    const session: Sessions.Session
    /** `config.max_turns`. */
    const maxTurns: int
    const world: World

    constructor (session: Sessions.Session, maxTurns: int, world: World)
      ensures this.session == session && this.maxTurns == maxTurns && this.world == world
    {
      this.session := session;
      this.maxTurns := maxTurns;
      this.world := world;
    }

    /** The detector's invariant and the world wired to the session's hooks and detector. */
    ghost predicate Valid()
      reads session.detector
    {
      session.detector.Valid() && Wired(Settings(), world)
    }

    /** `world.invoke` is the session registry's `invoke` with the session's approval manager. */
    ghost predicate Registered()
      reads session.registry
    {
      forall tc: R.ToolCall {:trigger session.registry.InvokeTool(tc.name, tc.arguments, world.cwd, Some(world.approval))} ::
        world.invoke(tc) == session.registry.InvokeTool(tc.name, tc.arguments, world.cwd, Some(world.approval))
    }

    /** `world.schemas` is the session registry's `get_schemas`. */
    ghost predicate Advertised()
      reads session.registry
    {
      forall r: Registry.ToolRegistry {:trigger r.GetSchemas()} :: r == session.registry ==> world.schemas == r.GetSchemas()
    }

    function Settings(): Store {
      Store(session.ctx.systemPrompt, session.ctx.contextWindow, session.ctx.tokens, session.ctx.wording,
            world.schemas, session.hooks.hooks, session.hooks.environ, session.hooks.cwd)
    }

    function Current(): State
      reads session, session.ctx, session.detector
    {
      State(session.ctx.messages, session.ctx.latestUsage, session.ctx.totalUsage, session.detector.history,
            session.turnCount)
    }

    /** Counting the turn and, when the context is nearly full, compacting it. */
    method Compact(n: nat)
      modifies session`turnCount, session`updatedAt, session.ctx`messages, session.ctx`latestUsage,
               session.ctx`totalUsage
      ensures Current() == Compacted(Settings(), world, old(Current()))
    {
      var ctx := session.ctx;
      var _ := session.IncrementTurn(world.clock(n));
      if ctx.NeedsCompression() {
        var wire := ctx.GetMessages();
        var summary, usage := Compaction.Compress(wire, world.compressionPrompt, world.summarize);
        if summary.Some? && summary.value != [] {
          ctx.ReplaceWithSummary(summary.value);
          ctx.SetLatestUsage(usage.value);
          ctx.AddUsage(usage.value);
        }
      }
    }

    /** The assistant message, then the text completion and its record with the detector. */
    method Answer(r: Reply) returns (events: seq<AgentEvent>)
      requires Valid()
      modifies session.ctx`messages, session.detector`history
      ensures Valid()
      ensures (Current(), events) == Answered(Settings(), world, old(Current()), r)
    {
      ghost var a := Answered(Settings(), world, Current(), r);
      session.ctx.AddAssistantMessage(if r.text == [] then None else Some(r.text),
                                      if r.calls == [] then None else Some(CallDicts(r.calls, world.show)));
      assert session.ctx.messages == a.0.messages;
      events := r.out;
      if r.text != [] {
        events := events + [TextComplete(r.text)];
        session.detector.RecordAction(ResponseAction(r.text), world.show);
      }
    }

    /** The hook firings `invoke` asks for, in order. */
    method FireHooks(es: seq<Registry.Event>)
      requires Wired(Settings(), world)
      modifies session.hooks`runs
      ensures session.hooks.runs == old(session.hooks.runs) + HookRuns(world, es)
    {
      var hs := session.hooks;
      ghost var r0 := hs.runs;
      var i := 0;
      while i < |es|
        invariant 0 <= i <= |es|
        invariant hs.runs == r0 + HookRuns(world, es[..i])
      {
        HookRunsNext(world, es, i);
        FiredRuns(Settings(), world, es[i]);
        RunsAppend(r0, HookRuns(world, es[..i]), world.hookRuns(es[i]));
        match es[i] {
          case BeforeToolFired(name, params) =>
            hs.TriggerBeforeTool(name, params, world.dumps);
          case AfterToolFired(name, params, result) =>
            hs.TriggerAfterTool(name, params, result, world.dumps);
          case _ =>
        }
        i := i + 1;
      }
      assert es[..i] == es;
    }

    /** `registry.invoke(name, arguments, cwd, approval_manager)` for one requested call. */
    method Invoke(tc: R.ToolCall) returns (v: Registry.Invoked)
      requires Registered()
      ensures v == world.invoke(tc)
    {
      v := session.registry.InvokeTool(tc.name, tc.arguments, world.cwd, Some(world.approval));
    }

    /**
     * One pass of the tool loop: announce the call, record it, invoke it through the registry
     * with its hooks and approval, then announce the result or stop with the exception.
     */
    method CallTool(tc: R.ToolCall, ghost c: Calls, ghost h0: seq<string>, ghost r0: seq<Hooks.HookRun>)
      returns (events: seq<AgentEvent>, result: (string, string), raised: Option<string>)
      requires Valid() && Registered() && c.raised.None?
      requires session.detector.history == CallHistory(world, h0, c.tried)
      requires session.hooks.runs == r0 + HookRuns(world, c.fired)
      modifies session.detector`history, session.hooks`runs
      ensures Valid()
      ensures var d := CallStep(world, c, tc);
        session.detector.history == CallHistory(world, h0, d.tried)
        && session.hooks.runs == r0 + HookRuns(world, d.fired)
        && d.events == c.events + events && d.raised == raised
        && d.results == c.results + (if raised.None? then [result] else [])
    {
      events := [ToolCallStart(tc.callId, tc.name, tc.arguments)];
      CallHistoryNext(world, h0, c.tried, tc);
      session.detector.RecordAction(CallAction(tc), world.show);
      var v := Invoke(tc);
      HookRunsConcat(world, c.fired, v.events);
      RunsAppend(r0, HookRuns(world, c.fired), HookRuns(world, v.events));
      FireHooks(v.events);
      match v.result {
        case Raised(m) =>
          result := (tc.callId, "");
          raised := Some(m);
        case Ok(output) =>
          events := events + [ToolCallComplete(tc.callId, tc.name, output)];
          result := (tc.callId, ToolBase.ToModelOutput(output));
          raised := None;
      }
    }

    /** The `for tool_call in tool_calls` loop; an exception from a call leaves it at once. */
    method InvokeAll(calls: seq<R.ToolCall>) returns (toolEvents: seq<AgentEvent>, results: seq<(string, string)>, raised: Option<string>)
      requires Valid() && Registered()
      modifies session.detector`history, session.hooks`runs
      ensures Valid()
      ensures var d := CallsOf(world, calls);
        session.detector.history == CallHistory(world, old(session.detector.history), d.tried)
        && session.hooks.runs == old(session.hooks.runs) + HookRuns(world, d.fired)
        && toolEvents == d.events && results == d.results && raised == d.raised
    {
      ghost var h0, r0 := session.detector.history, session.hooks.runs;
      ghost var c := NoCalls;
      toolEvents := [];
      results := [];
      raised := None;
      var j := 0;
      while j < |calls|
        invariant 0 <= j <= |calls| && Valid() && Registered()
        invariant c == CallsOf(world, calls[..j]) && c.raised.None?
        invariant session.detector.history == CallHistory(world, h0, c.tried)
        invariant session.hooks.runs == r0 + HookRuns(world, c.fired)
        invariant toolEvents == c.events && results == c.results
      {
        var tc := calls[j];
        CallsOfNext(world, calls, j);
        var events, result, r := CallTool(tc, c, h0, r0);
        c := CallStep(world, c, tc);
        toolEvents := toolEvents + events;
        if r.Some? {
          CallsOfStopped(world, calls, j + 1);
          return toolEvents, results, r;
        }
        results := results + [result];
        j := j + 1;
      }
      assert calls[..j] == calls;
    }

    /** One `add_tool_result` per result, in order. */
    method AddResults(results: seq<(string, string)>)
      modifies session.ctx`messages
      ensures session.ctx.messages == old(session.ctx.messages) + ResultItems(results, session.ctx.tokens)
    {
      var ctx: Context.ContextManager := session.ctx;
      ghost var m0 := ctx.messages;
      var k := 0;
      while k < |results|
        modifies session.ctx`messages
        invariant 0 <= k <= |results|
        invariant ctx.messages == m0 + ResultItems(results[..k], ctx.tokens)
      {
        assert results[..k + 1][..k] == results[..k];
        assert ResultItems(results[..k + 1], ctx.tokens) == ResultItems(results[..k], ctx.tokens)
          + [Context.NewItem(Context.Tool, results[k].1, results[k].0, [], ctx.tokens)];
        ctx.AddToolResult(results[k].0, results[k].1);
        k := k + 1;
      }
      assert results[..k] == results;
    }

    /** The tool loop, then, unless a call raised, the tool messages and the loop check. */
    method RunTools(r: Reply) returns (toolEvents: seq<AgentEvent>, raised: Option<string>)
      requires Valid() && Registered()
      modifies session.ctx`messages, session.detector`history, session.hooks`runs
      ensures Valid()
      ensures var c := CallsOf(world, r.calls);
        toolEvents == c.events && raised == c.raised
        && session.hooks.runs == old(session.hooks.runs) + HookRuns(world, c.fired)
        && Current() == if raised.Some? then Tooled(world, old(Current()), c)
                        else Unpruned(Settings(), world, old(Current()), c)
    {
      var results;
      toolEvents, results, raised := InvokeAll(r.calls);
      if raised.Some? {
        return;
      }
      AddResults(results);
      var loopError := session.detector.CheckForLoop();
      if loopError.Some? {
        session.ctx.AddUserMessage(world.breaker(loopError.value));
      }
    }

    /** The usage, when the stream reported one, and the pruning. */
    method Settle(usage: Option<R.TokenUsage>, n: nat)
      modifies session.ctx`messages, session.ctx`latestUsage, session.ctx`totalUsage
      ensures Current() == Settled(Settings(), world, old(Current()), usage, n)
    {
      if usage.Some? {
        session.ctx.SetLatestUsage(usage.value);
        session.ctx.AddUsage(usage.value);
      }
      var _ := session.ctx.PruneToolOutputs(world.clock(n));
    }

    /** One iteration of `_agentic_loop`'s `for`; `done` when it returned or raised. */
    method RunTurn(n: nat) returns (events: seq<AgentEvent>, done: bool, raised: Option<string>)
      requires Valid() && Registered() && Advertised()
      modifies session`turnCount, session`updatedAt, session.ctx`messages, session.ctx`latestUsage,
               session.ctx`totalUsage, session.detector`history, session.hooks`runs
      ensures Valid()
      ensures var t := Turn(Settings(), world, old(Current()), n);
        Current() == t.state && events == t.events && done == t.done && raised == t.raised
        && session.hooks.runs == old(session.hooks.runs) + HookRuns(world, t.fired)
    {
      Compact(n);
      var schemas := session.registry.GetSchemas();
      if schemas.Raised? {
        assert session.hooks.runs == old(session.hooks.runs) + HookRuns(world, []);
        return [], true, Some(schemas.message);
      }
      var wire := session.ctx.GetMessages();
      var completion := world.reply(n, wire, ToolsArg(schemas.value));
      var r := ReadReply(completion.events);
      if completion.raised.Some? {
        assert session.hooks.runs == old(session.hooks.runs) + HookRuns(world, []);
        return r.out, true, completion.raised;
      }
      TurnStreamed(Settings(), world, old(Current()), n);
      events, done, raised := Respond(r, n);
    }

    /** The rest of a turn once the whole reply `r` is read: store it, run its tools, settle the usage. */
    method Respond(r: Reply, n: nat) returns (events: seq<AgentEvent>, done: bool, raised: Option<string>)
      requires Valid() && Registered()
      modifies session.ctx`messages, session.ctx`latestUsage, session.ctx`totalUsage,
               session.detector`history, session.hooks`runs
      ensures Valid()
      ensures var t := TurnAfter(Settings(), world, old(Current()), r, n);
        Current() == t.state && events == t.events && done == t.done && raised == t.raised
        && session.hooks.runs == old(session.hooks.runs) + HookRuns(world, t.fired)
    {
      events := Answer(r);
      if r.calls == [] {
        Settle(r.usage, n);
        assert session.hooks.runs == old(session.hooks.runs) + HookRuns(world, []);
        return events, true, None;
      }
      var toolEvents;
      toolEvents, raised := RunTools(r);
      events := events + toolEvents;
      if raised.Some? {
        return events, true, raised;
      }
      Settle(r.usage, n);
      done := false;
    }

    /** One pass of `_agentic_loop`'s `for` body: turn `n`, after `evs` were yielded and `fired` asked for. */
    method LoopStep(n: nat, ghost evs: seq<AgentEvent>, ghost fired: seq<Registry.Event>, ghost r0: seq<Hooks.HookRun>)
      returns (turnEvents: seq<AgentEvent>, ghost turnFired: seq<Registry.Event>, stop: bool, raised: Option<string>)
      requires n < maxTurns && Valid() && Registered() && Advertised()
      requires session.hooks.runs == r0 + HookRuns(world, fired)
      modifies session`turnCount, session`updatedAt, session.ctx`messages, session.ctx`latestUsage,
               session.ctx`totalUsage, session.detector`history, session.hooks`runs
      ensures Valid() && (raised.Some? ==> stop)
      ensures session.hooks.runs == r0 + HookRuns(world, fired + turnFired)
      ensures stop ==> LoopFrom(Settings(), world, old(Current()), evs, fired, n, maxTurns)
                       == LoopResult(Current(), evs + turnEvents, fired + turnFired, false, raised)
      ensures !stop ==> LoopFrom(Settings(), world, old(Current()), evs, fired, n, maxTurns)
                        == LoopFrom(Settings(), world, Current(), evs + turnEvents, fired + turnFired, n + 1, maxTurns)
    {
      ghost var st := Current();
      ghost var t := Turn(Settings(), world, st, n);
      LoopFromStep(Settings(), world, st, evs, fired, n, maxTurns);
      var done;
      turnEvents, done, raised := RunTurn(n);
      turnFired := t.fired;
      HookRunsConcat(world, fired, t.fired);
      RunsAppend(r0, HookRuns(world, fired), HookRuns(world, t.fired));
      stop := raised.Some? || done;
    }

    /**
     * `_agentic_loop`: up to `max_turns` turns, ending at the first turn that raised or returned,
     * and an error event when the turns ran out.
     */
    method AgenticLoop() returns (events: seq<AgentEvent>, raised: Option<string>)
      requires Valid() && Registered() && Advertised()
      modifies session`turnCount, session`updatedAt, session.ctx`messages, session.ctx`latestUsage,
               session.ctx`totalUsage, session.detector`history, session.hooks`runs
      ensures Valid()
      ensures var l := LoopFrom(Settings(), world, old(Current()), [], [], 0, maxTurns);
        Current() == l.state && events == l.events && raised == l.raised
        && session.hooks.runs == old(session.hooks.runs) + HookRuns(world, l.fired)
    {
      ghost var r0 := session.hooks.runs;
      ghost var fired: seq<Registry.Event> := [];
      events := [];
      raised := None;
      var n := 0;
      while n < maxTurns
        invariant 0 <= n && Valid() && Registered() && Advertised() && raised.None?
        invariant LoopFrom(Settings(), world, Current(), events, fired, n, maxTurns)
                  == LoopFrom(Settings(), world, old(Current()), [], [], 0, maxTurns)
        invariant session.hooks.runs == r0 + HookRuns(world, fired)
        decreases maxTurns - n
      {
        var evs, stop, r;
        ghost var f;
        evs, f, stop, r := LoopStep(n, events, fired, r0);
        events := events + evs;
        fired := fired + f;
        if stop {
          return events, r;
        }
        n := n + 1;
      }
      LoopFromEnd(Settings(), world, Current(), events, fired, n, maxTurns);
      events := events + [AgentError(MaxTurnsMessage(maxTurns))];
    }

    /**
     * `run`: the `before_agent` hooks, the loop, and the last text completion as the response;
     * an exception from the loop passes through, skipping the `after_agent` hooks and the end.
     */
    method Run(message: string) returns (events: seq<AgentEvent>, raised: Option<string>)
      requires Valid() && Registered() && Advertised()
      modifies session`turnCount, session`updatedAt, session.ctx`messages, session.ctx`latestUsage,
               session.ctx`totalUsage, session.detector`history, session.hooks`runs
      ensures Valid()
      ensures var rr := RunOf(Settings(), world, old(Current()), message, maxTurns);
        Current() == rr.state && events == rr.events && raised == rr.raised
        && session.hooks.runs == old(session.hooks.runs) + RunHookRuns(Settings(), world, message, rr)
    {
      ghost var r0 := session.hooks.runs;
      ghost var rr := RunOf(Settings(), world, Current(), message, maxTurns);
      ghost var before := BeforeAgentRuns(Settings(), message);
      session.hooks.TriggerBeforeAgent(message);
      events := [AgentStart(message)];
      session.ctx.AddUserMessage(message);
      var loopEvents;
      loopEvents, raised := AgenticLoop();
      RunsAppend(r0, before, HookRuns(world, rr.fired));
      events := events + loopEvents;
      if raised.Some? {
        assert before + HookRuns(world, rr.fired) + [] == before + HookRuns(world, rr.fired);
        return;
      }
      var finalResponse := LastText(loopEvents);
      session.hooks.TriggerAfterAgent(message, finalResponse);
      RunsAppend(r0, before + HookRuns(world, rr.fired), AfterAgentRuns(Settings(), message, finalResponse));
      events := events + [AgentEnd(finalResponse)];
    }
  }
}
