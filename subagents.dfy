/**
 * Sub-agents as tools: a `subagent_<name>` tool runs a fresh agent on a goal, with its own turn
 * limit and tool list, and folds the agent's events into one report.
 */
module Subagents {
  import opened Common
  import opened Json
  import opened ToolBase
  import Config
  import Agents

  /** `SubagentDefinition`; the timeout is in whole seconds (both definitions use whole numbers). */
  datatype Definition = Definition(
    name: string,
    description: string,
    goalPrompt: string,
    allowedTools: Option<seq<string>>,
    maxTurns: int,
    timeoutSeconds: int)

  function ToolName(d: Definition): string {
    "subagent_" + d.name
  }

  function ToolDescription(d: Definition): string {
    "subagent_" + d.description
  }

  /** The configuration of the sub-agent: the parent's, with the definition's turn limit and, when it lists any, its tools. */
  function SubConfig(c: Config.AgentConfig, d: Definition): (r: Config.AgentConfig)
    ensures r.maxTurns == d.maxTurns
    ensures r.allowedTools == if d.allowedTools.Some? && d.allowedTools.value != [] then d.allowedTools else c.allowedTools
    ensures r.(maxTurns := c.maxTurns, allowedTools := c.allowedTools) == c
  {
    var c1 := c.(maxTurns := d.maxTurns);
    if d.allowedTools.Some? && d.allowedTools.value != [] then c1.(allowedTools := d.allowedTools) else c1
  }

  /** The prompt the sub-agent runs on: the definition's goal prompt and the goal. */
  function Prompt(d: Definition, goal: string): string {
    "You are a specialized sub-agent with a specific task to complete.\n\n        " + d.goalPrompt
    + "\n\n        YOUR TASK:\n        " + goal
    + "\n\n        IMPORTANT:\n        - Focus only on completing the specified task\n"
    + "        - Do not engage in unrelated actions\n"
    + "        - Once you have completed the task or have the answer, provide your final response\n"
    + "        - Be concise and direct in your output\n        "
  }

  // ---------------------------------------------------------------------
  // The event fold

  datatype Termination = Goal | Timeout | Failed

  function TerminationName(t: Termination): string {
    match t
    case Goal => "goal"
    case Timeout => "timeout"
    case Failed => "error"
  }

  /** `tool_calls`, `final_response`, `error` and `terminate_response` during the loop. */
  datatype Progress = Progress(toolCalls: seq<string>, final: Option<string>, error: Option<string>, termination: Termination)

  const Start := Progress([], None, None, Goal)

  /**
   * What the agent run yields: each event with the clock reading when it arrives, the clock
   * reading when the deadline was set, and the message of an exception raised after the
   * events, if any.
   */
  datatype Stream = Stream(events: seq<(int, Agents.AgentEvent)>, start: int, failure: Option<string>)

  const TimedOut := "Sub-agent timed out"
  const ErrorPrefix := "Sub-agent error: "
  const FailedPrefix := "Sub-agent failed: "

  /** One event: past the deadline the run times out; an agent error ends it. */
  function Step(p: Progress, now: int, deadline: int, e: Agents.AgentEvent): Progress {
    if now > deadline then p.(termination := Timeout, final := Some(TimedOut))
    else match e
      case ToolCallStart(_, name, _) => p.(toolCalls := p.toolCalls + [name])
      case TextComplete(content) => p.(final := Some(content))
      case AgentEnd(response) => if p.final.None? then p.(final := response) else p
      case AgentError(err) => p.(termination := Failed, error := Some(err), final := Some(ErrorPrefix + err))
      case _ => p
  }

  /** The loop over the events from `p` on, stopping at a timeout or an error. */
  function Fold(p: Progress, events: seq<(int, Agents.AgentEvent)>, deadline: int, failure: Option<string>): Progress
    decreases |events|
  {
    if p.termination != Goal then p
    else if events == [] then
      match failure
      case None => p
      case Some(m) => p.(termination := Failed, error := Some(m), final := Some(FailedPrefix + m))
    else Fold(Step(p, events[0].0, deadline, events[0].1), events[1..], deadline, failure)
  }

  /** The whole loop, from no progress, with the deadline `timeout` seconds after the start. */
  function Folded(s: Stream, timeout: int): Progress {
    Fold(Start, s.events, s.start + timeout, s.failure)
  }

  /** The names of the tool calls started among some events. */
  function StartedTools(events: seq<(int, Agents.AgentEvent)>): (r: seq<string>)
    ensures |r| <= |events|
  {
    if events == [] then []
    else (if events[0].1.ToolCallStart? then [events[0].1.name] else []) + StartedTools(events[1..])
  }

  /** Whether the run keeps going through every event: no clock reading past the deadline and no agent error. */
  predicate Uninterrupted(events: seq<(int, Agents.AgentEvent)>, deadline: int) {
    forall k :: 0 <= k < |events| ==> events[k].0 <= deadline && !events[k].1.AgentError?
  }

  /** The tools reported are the ones started, in order, up to the event where the run stopped. */
  lemma {:induction false} FoldToolCalls(p: Progress, events: seq<(int, Agents.AgentEvent)>, deadline: int, failure: Option<string>)
    requires p.termination == Goal
    decreases |events|
    ensures exists n :: (0 <= n <= |events|
                         && Fold(p, events, deadline, failure).toolCalls == p.toolCalls + StartedTools(events[..n]))
  {
    var q := Fold(p, events, deadline, failure);
    if events == [] {
      assert q.toolCalls == p.toolCalls + StartedTools(events[..0]);
    } else {
      var p1 := Step(p, events[0].0, deadline, events[0].1);
      var head := if events[0].1.ToolCallStart? then [events[0].1.name] else [];
      if p1.termination != Goal {
        assert Fold(p1, events[1..], deadline, failure) == p1;
        assert q.toolCalls == p.toolCalls + StartedTools(events[..0]);
      } else {
        assert p1.toolCalls == p.toolCalls + head;
        FoldToolCalls(p1, events[1..], deadline, failure);
        var n :| 0 <= n <= |events[1..]| && q.toolCalls == p1.toolCalls + StartedTools(events[1..][..n]);
        assert events[..n + 1] == [events[0]] + events[1..][..n];
        assert StartedTools(events[..n + 1]) == head + StartedTools(events[1..][..n]);
        assert q.toolCalls == p.toolCalls + StartedTools(events[..n + 1]);
      }
    }
  }

  /**
   * When no clock reading passes the deadline and no agent error arrives, every started tool is
   * reported and the run ends by goal, or by error when an exception is raised after the events.
   */
  lemma {:induction false} FoldUninterrupted(p: Progress, events: seq<(int, Agents.AgentEvent)>, deadline: int, failure: Option<string>)
    requires p.termination == Goal && Uninterrupted(events, deadline)
    decreases |events|
    ensures var q := Fold(p, events, deadline, failure);
      q.toolCalls == p.toolCalls + StartedTools(events)
      && q.termination == (if failure.Some? then Failed else Goal)
  {
    if events != [] {
      UninterruptedTail(events, deadline);
      var e, rest := events[0], events[1..];
      var p1 := Step(p, e.0, deadline, e.1);
      var head := if e.1.ToolCallStart? then [e.1.name] else [];
      assert p1.termination == Goal && p1.toolCalls == p.toolCalls + head;
      assert StartedTools(events) == head + StartedTools(rest);
      FoldUninterrupted(p1, rest, deadline, failure);
      assert Fold(p, events, deadline, failure) == Fold(p1, rest, deadline, failure);
      assert p.toolCalls + head + StartedTools(rest) == p.toolCalls + StartedTools(events);
    }
  }

  /** An uninterrupted run is still uninterrupted after its first event. */
  lemma UninterruptedTail(events: seq<(int, Agents.AgentEvent)>, deadline: int)
    requires events != [] && Uninterrupted(events, deadline)
    ensures events[0].0 <= deadline && !events[0].1.AgentError? && Uninterrupted(events[1..], deadline)
  {
    forall k | 0 <= k < |events[1..]| ensures events[1..][k].0 <= deadline && !events[1..][k].1.AgentError? {
      assert events[1..][k] == events[k + 1];
    }
  }

  /**
   * `TEXT_COMPLETE` overwrites the final response and `AGENT_END` fills it only when it is
   * still unset: after the last text, later events of an uninterrupted run keep it.
   */
  lemma {:induction false} FoldKeepsText(p: Progress, events: seq<(int, Agents.AgentEvent)>, deadline: int, c: string)
    requires p.termination == Goal && p.final == Some(c)
    requires Uninterrupted(events, deadline)
    requires forall k :: 0 <= k < |events| ==> !events[k].1.TextComplete?
    ensures Fold(p, events, deadline, None).final == Some(c)
    decreases |events|
  {
    if events != [] {
      var p1 := Step(p, events[0].0, deadline, events[0].1);
      assert p1.final == Some(c) && p1.termination == Goal;
      UninterruptedTail(events, deadline);
      forall k | 0 <= k < |events[1..]| ensures !events[1..][k].1.TextComplete? {
        assert events[1..][k] == events[k + 1];
      }
      FoldKeepsText(p1, events[1..], deadline, c);
    }
  }

  /** The report; `final_response or 'No response'`. */
  function Report(d: Definition, p: Progress): string {
    var tools := if p.toolCalls != [] then Join(p.toolCalls, ", ") else "None";
    var final := if Present(p.final) then p.final.value else "No response";
    "Sub-agent '" + d.name + "' completed. \n        Termination: " + TerminationName(p.termination)
    + "\n        Tools called: " + tools + "\n\n        Result:\n        " + final + "\n        "
  }

  /** The result: an error exactly when a non-empty error message was recorded. */
  function Finish(d: Definition, p: Progress): (r: ToolResult)
    ensures r.success <==> !Present(p.error)
    ensures r.success ==> r.output == Report(d, p)
    ensures !r.success ==> r.error == Some(Report(d, p))
  {
    if Present(p.error) then ErrorResult(Report(d, p)) else SuccessResult(Report(d, p))
  }

  /** A timed-out run is still a success; an agent error with a message is a failure. */
  lemma TimeoutSucceeds(d: Definition, p: Progress, events: seq<(int, Agents.AgentEvent)>, deadline: int, failure: Option<string>)
    requires p.termination == Goal && p.error.None?
    ensures var q := Fold(p, events, deadline, failure);
      (q.termination == Timeout ==> Finish(d, q).success && q.final == Some(TimedOut))
      && (q.termination == Goal ==> Finish(d, q).success)
    decreases |events|
  {
    if events != [] {
      var p1 := Step(p, events[0].0, deadline, events[0].1);
      if p1.termination == Goal {
        TimeoutSucceeds(d, p1, events[1..], deadline, failure);
      }
    }
  }

  /**
   * `execute`: an empty goal is refused before any sub-agent starts; otherwise `session` runs
   * the agent with the sub-configuration on the prompt.
   */
  function Run(d: Definition, c: Config.AgentConfig, goal: string,
                   session: (Config.AgentConfig, string) -> Stream): (r: ToolResult)
    ensures goal == [] ==> r == ErrorResult(NoGoal)
  {
    if goal == [] then ErrorResult(NoGoal)
    else
      var s := Launch(d, c, goal, session);
      Finish(d, Folded(s, d.timeoutSeconds))
  }

  /** `execute`, with its loop over the events in `Consume`. */
  method Execute(d: Definition, c: Config.AgentConfig, goal: string,
                 session: (Config.AgentConfig, string) -> Stream) returns (r: ToolResult)
    ensures r == Run(d, c, goal, session)
  {
    if goal == [] {
      r := ErrorResult(NoGoal);
    } else {
      var s := Launch(d, c, goal, session);
      var p := Consume(s, d.timeoutSeconds);
      r := Finish(d, p);
    }
  }

  const NoGoal := "No goal specified for sub-agent"

  /** The run of the sub-agent on the goal, with its own configuration. */
  function Launch(d: Definition, c: Config.AgentConfig, goal: string,
                  session: (Config.AgentConfig, string) -> Stream): Stream {
    session(SubConfig(c, d), Prompt(d, goal))
  }

  /** The loop of `execute` over the events, with its early exits at a timeout or an agent error. */
  method Consume(s: Stream, timeout: int) returns (p: Progress)
    ensures p == Folded(s, timeout)
  {
    var events, deadline, failure := s.events, s.start + timeout, s.failure;
    p := Start;
    var i := 0;
    while i < |events|
      invariant 0 <= i <= |events| && p.termination == Goal
      invariant Fold(p, events[i..], deadline, failure) == Fold(Start, events, deadline, failure)
    {
      assert events[i..][1..] == events[i + 1..];
      p := Step(p, events[i].0, deadline, events[i].1);
      if p.termination != Goal {
        return;
      }
      i := i + 1;
    }
    if failure.Some? {
      p := p.(termination := Failed, error := Some(failure.value), final := Some(FailedPrefix + failure.value));
    }
  }

  // ---------------------------------------------------------------------
  // As a tool

  /**
   * The tool of a definition. Its kind is the default, read, yet `is_mutating` is true for any
   * parameters, so the default `get_confirmation` always asks.
   */
  function AsTool(d: Definition, c: Config.AgentConfig, schema: Object, modelErrors: Object -> seq<string>,
                  session: (Config.AgentConfig, string) -> Stream): (t: Tool)
    ensures t.name == "subagent_" + d.name && t.description == "subagent_" + d.description
    ensures t.kind == Read && t.schema == ModelSchema(schema)
    ensures forall params :: t.mutating(params)
    ensures forall inv :: t.confirm(inv).Ok? && t.confirm(inv).value.Some?
  {
    Tool(ToolName(d), ToolDescription(d), Read, ModelSchema(schema), modelErrors,
         (params: Object) => true,
         (inv: Invocation) => Ok(DefaultConfirmation(ToolName(d), true, inv)),
         (inv: Invocation) => match GetStr(inv.params, "goal")
           case None => Raised("ValidationError: goal field required")
           case Some(goal) => Ok(Run(d, c, goal, session)))
  }

  // ---------------------------------------------------------------------
  // The predefined sub-agents

  const CodebaseInvestigator := Definition(
    "codebase_investigator",
    "Investigates the codebase to answer questions about code structure, patterns, and implementations",
    "You are a codebase investigation specialist.\nYour job is to explore and understand code to answer questions.\n"
    + "Use read_file, grep, glob, and list_dir to investigate.\nDo NOT modify any files.",
    Some(["read_file", "grep", "glob", "list_dir"]), 20, 600)

  const CodeReviewer := Definition(
    "code_reviewer",
    "Reviews code changes and provides feedback on quality, bugs, and improvements",
    "You are a code review specialist.\nYour job is to review code and provide constructive feedback.\n"
    + "Look for bugs, code smells, security issues, and improvement opportunities.\n"
    + "Use read_file, list_dir and grep to examine the code.\nDo NOT modify any files.",
    Some(["read_file", "grep", "list_dir"]), 10, 300)

  /** The tools that only read. */
  const ReadOnlyTools: set<string> := {"read_file", "grep", "glob", "list_dir"}

  /** `get_default_subagent_definitions`: two sub-agents with distinct names, each limited to reading tools. */
  function DefaultDefinitions(): (r: seq<Definition>)
    ensures |r| == 2 && r[0].name != r[1].name
    ensures forall k :: 0 <= k < |r| ==>
      r[k].allowedTools.Some? && r[k].allowedTools.value != []
      && forall t :: t in r[k].allowedTools.value ==> t in ReadOnlyTools
  {
    [CodebaseInvestigator, CodeReviewer]
  }
}
