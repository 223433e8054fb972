# exorous, modelled in Dafny

exorous is a terminal coding agent. It runs a session made of several parts:

- a context store: the ordered conversation, its token usage and a pruning pass;
- a repetition detector;
- a hook system;
- a tool registry;
- an approval policy;
- an MCP manager.

Around that session, the agent's turn loop works like this:

- It streams a reply from an OpenAI-compatible model.
- It runs every tool the reply asks for through the registry's `invoke`, with the session's hook system and approval manager. `invoke` looks up the tool, validates the parameters, fires the before-tool hooks, asks for approval, executes, and fires the after-tool hooks. An exception from the model's stream or from `invoke` leaves the loop and the run.
- It feeds the results back.
- It stops when a reply asks for no tool, or when `max_turns` is used up.

The built-in tools are read_file, write_file, edit, shell, grep, list_dir, todos, memory and sub-agents. MCP servers add more. A command-line front end offers slash commands that save, resume, checkpoint and restore snapshots of a session.

This project models that engine and the deterministic logic around it. Each source file is a Dafny module, with the same name throughout:

| module | source |
|---|---|
| `Context` | `context/manager.py` |
| `LoopDetection` | `context/loop_detector.py` |
| `Approval` | `safety/approval.py` |
| `Registry` | `tools/registry.py` |
| `ToolBase` | `tools/base.py` |
| `Agents` | `agent/agent.py` |
| `Compaction` | `context/compaction.py` |
| `LlmClient` | `client/llm_client.py` |
| `EditFile`, `WriteFile`, `ReadFile`, `Shell`, `Todo`, `Memory`, `Grep`, `ListDir` | the built-in tools |
| `Subagents` | `tools/subagents.py` |
| `McpClient`, `McpManager`, `McpTool` | `tools/mcp/` |
| `Hooks` | `hooks/hook_system.py` |
| `VectorDb` | `context/vector_db.py`, its chunkers |
| `Knowledge` | `context/knowledge.py` |
| `Persistence` | `agent/persistence.py` |
| `Config`, `ConfigLoader` | `config/` |
| `Paths` | `utils/paths.py` |
| `Tui` | `ui/tui.py`, its parsing helpers |
| `Commands` | `main.py`, the slash-command handler |
| `Sessions` | both `session.py` files |

Shared helper modules:

- `Common`: options, Python exceptions as `Outcome`, string functions.
- `Dict`: a Python dict with insertion order.
- `Json`: JSON values.
- `Sorting`: a stable sort and string order.
- `TextSearch`: `find`, `count` and `replace`.
- `LineScan`: numbered line filters.
- `Time`: `datetime` and `isoformat`.
- `Response`: token usage, stream events and tool calls.
- `FileStore`: a workspace of files and directories.

Objects whose fields the source updates in place are classes:

- the context manager;
- the repetition detector;
- the hook system;
- the registry;
- the agent;
- the MCP client and manager;
- the todo list;
- the memory file;
- the project notes;
- the session;
- the command-line front end.

Their loops are methods with invariants, each proved against a specification function. The properties the code promises are lemmas about those functions.

Two trees of the repository hold near-duplicate files: the root `agent/`, `tools/` … and `src/exorous/…`. Same-named files are modelled as one interface.

Several behaviours are modelled as the code has them, not as a reader might expect:

- YOLO mode approves dangerous commands.
- A command verdict of "needs confirmation" can end as approved.
- Cycle checks need at least six history entries.
- A transport error does not stop the turn loop.
- The before-tool hook does not fire for an unknown tool or invalid parameters.
- Streamed argument fragments after the first are dropped.

## Model

| member | source | states |
|---|---|---|
| Agents.ReplyMeaning | agent/agent.py:60-77 | reading the stream keeps every text delta (concatenated), every completed tool call and every translated error, in arrival order, and the usage of the last `MESSAGE_COMPLETE` |
| Agents.ErrorsPassedOn | agent/agent.py:72-75 | a transport `ERROR` becomes an `AGENT_ERROR`, with "Unknown error occurred." when its message is empty, and does not stop the turn |
| Agents.ReadReply | agent/agent.py:57-77 | the `async for` over the stream computes the fold `ReplyFrom` and so the text, calls and passed-on errors of `ReplyMeaning` |
| Agents.Absorb | agent/agent.py:64-77 | one stream event updates the reply as the fold's step does |
| Agents.CallsAt | agent/agent.py:112-147 | when no call raises, the tool loop yields a `TOOL_CALL_START` and a `TOOL_CALL_COMPLETE` per call at positions `2k` and `2k+1`, with the call's own id, name and registry result, and result `k` pairs call `k`'s id with `to_model_output()` of that result |
| Agents.CallsRaised | agent/agent.py:114-147 | the tool loop ends without an exception iff no registry call raised, and then every call was made and recorded |
| Agents.CallsRaise | agent/agent.py:114-133 | a registry call that raises ends the tool loop with its exception: the calls before it returned, it was announced with `TOOL_CALL_START` and recorded but gets no completion, and the calls after it are not made |
| Agents.CallsStopped | agent/agent.py:114-133 | once a call has raised, later calls change nothing |
| Agents.ResultItemAt | agent/agent.py:149-153 | tool message `k` is a tool item for result `k`'s content and call id |
| Agents.ToolItemsTail | agent/agent.py:149-153 | the appended tool messages answer the calls one by one, in call order, with matching call ids |
| Agents.CompactedShape | agent/agent.py:41-53 | the turn is counted once; the messages are either untouched or the three summary messages for a non-empty summary, with that summary's usage added |
| Agents.SettledItem | agent/agent.py:105-164 | recording usage and pruning keep every message's place, role and call id, and leave everything but tool results as it was |
| Agents.UnprunedFacts | agent/agent.py:149-158 | the tool branch keeps the earlier messages, appends one tool message per call in order, and leaves the turn count alone |
| Agents.UnprunedBreaker | agent/agent.py:155-158 | when the detector reports a loop, exactly one extra message, the loop-breaker prompt, follows the tool messages |
| Agents.RecordedFacts | agent/agent.py:79-158 | before pruning a turn adds the assistant message, one tool message per call and, on a detected loop, one user message, and nothing else |
| Agents.TurnAfterMessages | agent/agent.py:79-96 | each turn appends exactly one assistant message, whose tool-call list is non-empty iff the reply asked for tools; earlier messages keep their roles |
| Agents.TurnAfterTools | agent/agent.py:114-158 | the tool messages follow the assistant message in call order, and the loop prompt follows them exactly when the detector saw a loop |
| Agents.TurnAfterDone | agent/agent.py:104-110 | a turn ends the loop iff its reply asked for no tool |
| Agents.TurnDone | agent/agent.py:104-110 | the same, for a whole turn from its starting context |
| Agents.TurnCounted | agent/agent.py:40-41 | every turn increments the turn count exactly once |
| Agents.TurnAfterEvents | agent/agent.py:64-139 | a turn's events are the passed-on stream errors and deltas, the text completion once when the text is non-empty, then a start and a completion per call |
| Agents.TurnEvents | agent/agent.py:60-139 | the same, stated on the stream the transport returns for the turn's wire messages |
| Agents.TurnInner | agent/agent.py:60-139 | a turn never yields `AGENT_START` or `AGENT_END` |
| Agents.TurnCounting | agent/agent.py:40-164 | the modelled turn counts one turn and yields only inner events, so the loop lemmas apply to it |
| Agents.LoopBound | agent/agent.py:38-165 | at most `max_turns` turns run, each counted once; the loop ends with the single "Maximum turns (N) reached" error exactly when it ran out of turns, and then it used all of them |
| Agents.AlwaysCallingExhausts | agent/agent.py:104-165 | when every reply asks for a tool, the loop uses all `max_turns` turns and ends with the "Maximum turns" error |
| Agents.LoopShape | agent/agent.py:37-165 | the loop yields no start or end event, and its last text completion is a non-empty text it yielded |
| Agents.RunShape | agent/agent.py:21-35 | `run` yields `AGENT_START(message)` first and no other start or end; when nothing raised it yields `AGENT_END` last carrying the content of the last `TEXT_COMPLETE` (never empty); when an exception leaves the loop there is no response and no `AGENT_END` |
| Agents.RunHooks | agent/agent.py:21-35 | a run's hook log is its `before_agent` runs, then only tool hook runs, then its `after_agent` runs exactly when nothing raised |
| Agents.InvokeHookRuns | src/exorous/tools/registry.py:77-145 | one registry call starts the before-tool hooks iff the tool exists and the parameters are valid, then the after-tool hooks with the result unless the call raised |
| Agents.FiredRuns | hooks/hook_system.py:110-134 | a before-tool firing starts the enabled `before_tool` hooks with the tool's name and parameters, an after-tool firing the `after_tool` hooks with its result too, and a confirmation or execution starts nothing |
| Agents.HookRunsTool | src/exorous/tools/registry.py:69-145 | the hooks that registry calls start are all before-tool or after-tool hooks |
| Agents.BracketRuns | src/exorous/tools/registry.py:100-145 | between the before-tool firing and the after-tool firing of one call no hook starts |
| Agents.TurnStreamRaised | agent/agent.py:55-77 | an exception from `get_schemas` or from the stream ends the turn on the compacted context, with no assistant message and only the events already passed on |
| Agents.TurnToolRaised | agent/agent.py:114-147 | a tool call that raises ends the turn with its exception: the assistant message is stored, no tool message is, and the last event announces that call |
| Agents.LastText | agent/agent.py:26-32 | the loop over the yielded events finds the last text completion |
| Agents.Agent.constructor | agent/agent.py:12-19 | the agent holds the given session, turn limit and outside world |
| Agents.Agent.Compact | agent/agent.py:41-53 | the session after the turn count and the optional compaction is the `Compacted` state |
| Agents.Agent.Answer | agent/agent.py:79-102 | appends the assistant message, yields the text completion and records the response with the detector, as `Answered` states |
| Agents.Agent.CallTool | agent/agent.py:114-147 | one call yields its start event, records it with the detector, goes through the registry's `invoke` (so its before-tool and after-tool hook runs are appended to the hook log), then yields its completion and keeps the result paired with the call id, or stops with the exception `invoke` let through |
| Agents.Agent.InvokeAll | agent/agent.py:112-147 | the tool loop records the calls made with the detector in order, appends their tool hook runs, yields the events and results of `CallsOf`, and stops at the first call that raised |
| Agents.Agent.AddResults | agent/agent.py:149-153 | appends one tool message per result, in order, after all invocations |
| Agents.Agent.RunTools | agent/agent.py:112-158 | the tool branch appends the calls' tool hook runs and leaves the session in the `Unpruned` state (see `UnprunedFacts`), or, when a call raised, with the assistant message and the recorded calls but no tool message (`Tooled`) |
| Agents.Agent.Settle | agent/agent.py:105-164 | records the usage when one was reported and prunes, as `Settled` states |
| Agents.Agent.RunTurn | agent/agent.py:41-164 | one iteration produces the modelled `Turn`: its state, its events, its tool hook runs, whether it returned, and the exception from `get_schemas`, the stream or a tool call that ends it (see `TurnStreamRaised`, `TurnToolRaised`) |
| Agents.Agent.Respond | agent/agent.py:79-164 | once the reply is read, the rest of the turn produces `TurnAfter`: the assistant message, the tool calls with their hook runs, and the usage and pruning |
| Agents.Agent.AgenticLoop | agent/agent.py:37-165 | `_agentic_loop` produces the state, events, tool hook runs and exception of the modelled loop from turn 0 |
| Agents.Agent.LoopStep | agent/agent.py:40-164 | one pass of the `for` body either ends the loop with the turn's events and exception, or hands the loop on to turn `n + 1` |
| Agents.Agent.Run | agent/agent.py:21-35 | `run` produces the modelled run; the hook log gains the `before_agent` runs, then the tool calls' before-tool and after-tool runs, then, unless an exception left the loop, the `after_agent` runs given the final response |
| Agents.Agent.Invoke | src/exorous/tools/registry.py:69-145 | the agent's tool call is the session registry's `invoke` with the configured cwd and the session's approval manager |
| Agents.Agent.FireHooks | src/exorous/tools/registry.py:83-144 | the hook firings `invoke` asks for are run in order, appending the before-tool and after-tool runs to the hook log |
| Approval.PathsVerdict | safety/approval.py:139-144 | the path loop asks for confirmation iff some affected path is outside cwd, and never rejects |
| Approval.RequestConfirmation | safety/approval.py:153-158 | the callback's answer, or yes when no callback is set |
| Approval.NonMutatingApproved | safety/approval.py:130-132 | a non-mutating call is approved whatever the policy, command, paths or dangerous flag |
| Approval.DangerousCommands | safety/approval.py:104-109 | YOLO approves every command, dangerous ones included; every other mode rejects a dangerous command |
| Approval.StrictAndLenientModes | safety/approval.py:111-117 | NEVER approves exactly the safe commands and rejects the rest; AUTO and ON_FAILURE approve every non-dangerous command |
| Approval.AskingModes | safety/approval.py:119-128 | AUTO_EDIT and ON_REQUEST approve safe commands and ask for confirmation otherwise |
| Approval.RejectionOnlyFromCommand | safety/approval.py:130-151 | a call is rejected iff it is mutating, has a command, and the command check rejects it |
| Approval.CommandVerdictFinal | safety/approval.py:134-137 | an approved or rejected command verdict is returned as it is, whatever the paths and the dangerous flag |
| Approval.OutsidePathNeedsConfirmation | safety/approval.py:139-144 | the first path outside cwd gives NEEDS_CONFIRMATION whatever paths follow it |
| Approval.UndecidedCommandSettled | safety/approval.py:134-151 | an undecided command verdict with all paths inside cwd becomes APPROVED, unless the call is dangerous and the mode is not YOLO |
| Commands.SplitCommandParts | src/exorous/main.py:126-129 | the name is the first word of the lower-cased, stripped line and the arguments the rest after the whitespace that follows it; the split raises `IndexError` exactly on a blank line |
| Commands.WordsOf | src/exorous/main.py:127-129 | how `split(maxsplit=1)` cuts a stripped, non-empty text into its first word and the rest |
| Commands.SplitCommandOf | src/exorous/main.py:126-129 | a lower-case name followed by a space and lower-case, stripped arguments splits back into that name and those arguments |
| Commands.DispatchExit | src/exorous/main.py:130-131 | the handler returns False exactly when the name is `/exit` or `/quit`, whatever arguments follow |
| Commands.DispatchExactCommands | src/exorous/main.py:132-307 | `/help`, `/clear` and `/config` are compared with the raw line: in other letter case or with arguments they end as "Unknown command" |
| Commands.DispatchIgnoresCase | src/exorous/main.py:126-307 | apart from `/help`, `/clear` and `/config`, two lines that lower-case alike dispatch alike |
| Commands.DispatchNamed | src/exorous/main.py:146-307 | every other command is picked by its name and receives its arguments lower-cased and stripped |
| Commands.NamedCommands | src/exorous/main.py:146-307 | `/model`, `/approval`, `/resume` and `/restore` get the arguments; a name outside the ten known ones is an unknown command |
| Commands.ReplayStops | src/exorous/main.py:229-243 | once a message raises, the replay loop stops with that error |
| Commands.ToolCallsOf | src/exorous/main.py:236-239 | `tool_calls` as `add_assistant_message` stores it (src/exorous/context/manager.py:82): missing or falsy gives no calls, a list its items, any other truthy value raises |
| Commands.ReplayInto | src/exorous/main.py:229-243 | the replay loop appends exactly the items `Replay` computes, or raises its error (a message without "role" raises `KeyError`) |
| Commands.ReplayMessageOfDict | src/exorous/main.py:229-243 | an item's dictionary replays to the same item, without its pruning time |
| Commands.ReplayWireMessages | src/exorous/main.py:229-243 | replaying `get_messages()` skips the system prompt and rebuilds every item with its role, content, call id and tool calls; only `pruned_at` is lost |
| Commands.LoadStorable | src/exorous/main.py:215-227 | a loaded snapshot holds valid dates and times |
| Commands.SaveThenResume | src/exorous/main.py:188-243 | what `/save` writes, `/resume` loads back unchanged and replays into the items the session had |
| Commands.Cli.constructor | src/exorous/main.py:125-309 | the command handler starts with the given configuration, session and stores |
| Commands.Cli.Snapshot | src/exorous/main.py:190-197 | the snapshot carries the session's id, times, turn count, `get_messages()` and total usage |
| Commands.Cli.SaveCurrent | src/exorous/main.py:188-201 | `/save` writes the current snapshot under the session id |
| Commands.Cli.CheckpointCurrent | src/exorous/main.py:252-263 | `/checkpoint` writes the current snapshot under the new checkpoint id and returns that id |
| Commands.Cli.ClearConversation | src/exorous/main.py:134-137 | `/clear` empties both the context messages and the loop detector's history |
| Commands.Cli.ChangeModel | src/exorous/main.py:146-151 | `/model` with arguments sets the model name; without, nothing changes |
| Commands.Cli.ChangeApproval | src/exorous/main.py:152-168 | `/approval` with a valid policy value sets the policy; an invalid or missing value leaves it unchanged |
| Commands.Cli.Rebuild | src/exorous/main.py:219-243 | the new session carries the snapshot's id, times, turn count and usage, an empty detector history, and the snapshot's conversation replayed |
| Commands.Cli.Reopen | src/exorous/main.py:210-251 | a missing file leaves the session as it was; a loaded snapshot replaces the session with the rebuilt one, or raises the replay's error |
| Commands.Cli.RestoreAsWritten | src/exorous/main.py:264-305 | as written, a successful `/restore` replaces the session and then raises `UnboundLocalError` on `checkpoint_id` |
| Commands.Cli.PerformClear | src/exorous/main.py:134-137 | `/clear` carries out its part of `Performed` |
| Commands.Cli.PerformSettings | src/exorous/main.py:146-168 | `/model` and `/approval` carry out their part of `Performed` |
| Commands.Cli.PerformSave | src/exorous/main.py:188-201 | `/save` carries out its part of `Performed` |
| Commands.Cli.PerformCheckpoint | src/exorous/main.py:252-263 | `/checkpoint` carries out its part of `Performed` |
| Commands.Cli.PerformReopen | src/exorous/main.py:210-305 | `/resume` and `/restore` carry out their part of `Performed`; usage without an id changes nothing |
| Commands.Cli.Perform | src/exorous/main.py:130-309 | each command has exactly the effect `Performed` lists, and every command except `/exit` and `/quit` returns True |
| Commands.Cli.HandleCommand | src/exorous/main.py:125-309 | the line is split and dispatched; a blank line raises `IndexError` and changes nothing; otherwise the command's effects are those of `Performed` |
| Compaction.CapFacts | src/exorous/context/compaction.py:26-28 | a text of at most `n` characters is kept as it is; a longer one keeps its first `n` characters followed by the marker |
| Compaction.ToolDetail | src/exorous/context/compaction.py:40-47 | each tool call renders as "  - name(args)", with the arguments cut to 500 characters and no marker |
| Compaction.ToolDetails | src/exorous/context/compaction.py:39-49 | one detail line per tool call, in order |
| Compaction.SystemMessagesOmitted | src/exorous/context/compaction.py:20-21 | system messages contribute nothing to the transcript |
| Compaction.RoleSections | src/exorous/context/compaction.py:23-54 | tool results are capped at 2000 characters, assistant text at 3000 and other messages at 1500, each with its marker; an assistant message with neither text nor calls adds nothing |
| Compaction.FormatLayout | src/exorous/context/compaction.py:13-56 | the header comes first and the sections follow in message order, joined by "\n\n---\n\n" |
| Compaction.FormatAppend | src/exorous/context/compaction.py:16-56 | appending messages appends their sections to the transcript |
| Compaction.Compressed | src/exorous/context/compaction.py:58-93 | a summary comes with its usage and is never empty; fewer than 3 messages give `(None, None)` |
| Compaction.Compress | src/exorous/context/compaction.py:58-93 | the method's loop over the events computes `Compressed` |
| Compaction.FoldMeaning | src/exorous/context/compaction.py:77-87 | the event loop succeeds iff every `MESSAGE_COMPLETE` carries text; the summary is their texts in order and the usage is the last one's |
| Compaction.RaisingTransport | src/exorous/context/compaction.py:77-93 | a transport that raises never gives a summary |
| Compaction.SummaryOfReply | src/exorous/context/compaction.py:77-91 | a summary is the texts of the reply's `MESSAGE_COMPLETE` events, with the last one's usage |
| Config.ParsePolicy | src/exorous/config/config.py:54-60 | `ApprovalPolicy(s)` finds only a member whose value is `s` |
| Config.ParsePolicyValue | src/exorous/config/config.py:54-60 | every policy is found again from its value, and "auto-edit" is not a value |
| Config.ValidateTransport | src/exorous/config/config.py:36-51 | a server configuration is accepted iff exactly one of command and url is set, and then unchanged |
| Config.ValidateHook | src/exorous/config/config.py:79-83 | a hook is accepted iff its command or its script is non-empty |
| Config.Validate | src/exorous/config/config.py:132-141 | the API-key error is reported iff no `API_KEY` is set and the cwd error iff cwd does not exist, in that order and nothing else |
| Config.Defaults | src/exorous/config/config.py:9-96 | the defaults are ON_REQUEST, 100 turns, a 256000-token window, hooks disabled, no tool filter; AUTO_EDIT's value is "auto-edut" |
| Config.SetModelName | src/exorous/config/config.py:120-122 | the `model_name` setter changes the model's name and nothing else |
| Config.SetTemperature | src/exorous/config/config.py:128-130 | the `temperature` setter changes the model's temperature and nothing else |
| Config.TemperatureReadsModelName | src/exorous/config/config.py:116-130 | as written, reading `temperature` gives the model name, also right after a temperature was set |
| Config.TemperatureRoundTrip | src/exorous/config/config.py:124-130 | with the intended getter, a written temperature reads back and the model name is untouched, and setting the name keeps the temperature |
| ConfigLoader.MergeDicts | config/loader.py:66-74 | the loop over the override computes the recursive merge `Merge` |
| ConfigLoader.MergeKeys | config/loader.py:66-74 | the merged dict has exactly the keys of both arguments |
| ConfigLoader.MergeGet | config/loader.py:68-72 | the override's value wins, except that two dicts under the same key merge recursively; keys only in the base keep their value |
| ConfigLoader.LoadConfig | config/loader.py:77-111 | the configuration is built from the merged dictionary; a failure becomes "Invalid configuration: …" carrying the builder's message |
| ConfigLoader.LoadPrecedence | config/loader.py:84-96 | project keys override system keys, merging nested dicts; other keys come from the system file |
| ConfigLoader.UnparsableSkipped | config/loader.py:84-96 | a file that does not parse is skipped as if it were absent |
| ConfigLoader.CwdDefaulted | config/loader.py:98-99 | `cwd` is filled in from the argument only when the files did not set it |
| ConfigLoader.DeveloperInstructionsDefaulted | config/loader.py:101-104 | `developer_instructions` comes from `AGENT.MD` only when the files did not set it and that text is non-empty |
| Context.ToDict | src/exorous/context/manager.py:22-34 | the dictionary always starts with the role |
| Context.ToDictFields | src/exorous/context/manager.py:22-34 | the keys are "role", then "tool_call_id", "tool_calls" and "content", each exactly when it is non-empty, with the item's values |
| Context.WireMessagesShape | src/exorous/context/manager.py:97-111 | `get_messages` puts the system prompt first when it is non-empty, then one dictionary per stored item, in stored order |
| Context.SummaryShape | src/exorous/context/manager.py:125-173 | the summary replacement is three items, user, assistant, user, the first quoting the summary, each unpruned, without call id and with its token count |
| Context.PruneAtItem | src/exorous/context/manager.py:200-206 | the second loop prunes exactly the chosen items and leaves the others alone |
| Context.ScanFacts | src/exorous/context/manager.py:185-196 | the newest-to-oldest scan chooses only unpruned tool results with more than 40,000 tokens of newer tool output, none of them behind an already-pruned one, newest first |
| Context.ScanStays | src/exorous/context/manager.py:187-189 | once the scan meets a pruned tool result it stops for good |
| Context.ScanChoice | src/exorous/context/manager.py:181-196 | the scan chooses a message iff it is eligible (an unpruned tool result behind more than 40,000 newer tool tokens, with no pruned tool result after it); the tokens it counts as pruned are the sum over the eligible messages; it has broken off iff a pruned tool result lies after |
| Context.PruneKeepsShape | src/exorous/context/manager.py:175-206 | pruning keeps the number, order, roles, call ids and tool calls; with fewer than 2 user messages it changes nothing; it only replaces unpruned tool results behind more than 40,000 newer tool tokens, and the count is 0 iff nothing changed; it prunes iff there are 2 or more user messages and the eligible messages hold at least 20,000 tokens, and then it changes exactly the eligible messages |
| Context.PruneCount | src/exorous/context/manager.py:198-208 | the count returned is the number of items changed |
| Context.PruneIdempotent | src/exorous/context/manager.py:185-198 | a second pass with no new messages prunes 0, since the scan stops at the first item pruned by the first pass |
| Context.ScanPrefix | src/exorous/context/manager.py:185-196 | the scan only ever appends to its list of chosen items |
| Context.ContextManager.constructor | src/exorous/context/manager.py:41-53 | a new store is empty, with zero usage, for the given prompt, window and token counter |
| Context.ContextManager.AddUserMessage | src/exorous/context/manager.py:58-68 | appends exactly one user item with its token count, leaving earlier items unchanged |
| Context.ContextManager.AddAssistantMessage | src/exorous/context/manager.py:70-85 | appends exactly one assistant item; `None` content becomes "" and `None` tool calls become [] |
| Context.ContextManager.AddToolResult | src/exorous/context/manager.py:87-95 | appends exactly one tool item with the call id and the content's token count |
| Context.ContextManager.GetMessages | src/exorous/context/manager.py:97-111 | the loop builds the wire list of `WireMessagesShape` |
| Context.ContextManager.NeedsCompression | src/exorous/context/manager.py:113-117 | holds iff the latest total exceeds 80% of the context window (decided as 5t > 4w) |
| Context.ContextManager.SetLatestUsage | src/exorous/context/manager.py:119-120 | the latest usage becomes the given one |
| Context.ContextManager.AddUsage | src/exorous/context/manager.py:122-123 | the total usage grows by the given usage, field by field |
| Context.ContextManager.ReplaceWithSummary | src/exorous/context/manager.py:125-173 | the items become the three summary items of `SummaryShape` |
| Context.ContextManager.PruneToolOutputs | src/exorous/context/manager.py:175-208 | the pass leaves the items and count of `PruneResult`, whose meaning `PruneKeepsShape`, `PruneCount` and `PruneIdempotent` state |
| Context.ContextManager.Scan | src/exorous/context/manager.py:185-196 | the loop over `reversed(self._messages)` computes the scan of `ScanFacts` |
| Context.ContextManager.PruneItems | src/exorous/context/manager.py:200-206 | the loop over the chosen items gives each the placeholder, its token count and the stamp |
| Context.ContextManager.Clear | src/exorous/context/manager.py:210-211 | the store becomes empty |
| EditFile.DecideMeaning | src/exorous/tools/builtin/edit_file.py:121-154 | on an existing file: an empty `old_string`, zero occurrences and several occurrences without `replace_all` are errors (the last with the count); nothing changes iff `old_string == new_string`; otherwise every occurrence, or the first only, is replaced and the count is the number of occurrences |
| EditFile.DiffSuffix | src/exorous/tools/builtin/edit_file.py:165-170 | the message suffix is empty iff the line count did not change |
| EditFile.DiffSuffixNegative | src/exorous/tools/builtin/edit_file.py:169-170 | a negative difference is shown as " (-n lines)" |
| EditFile.EditedResult | src/exorous/tools/builtin/edit_file.py:161-180 | a successful edit carries the diff from old to new content, the replaced count and line_diff = new line count − old line count |
| EditFile.CreatedResult | src/exorous/tools/builtin/edit_file.py:101-119 | creating a file succeeds with a new-file diff, is_new_file = true and lines = its line count |
| EditFile.AmbiguousError | src/exorous/tools/builtin/edit_file.py:133-142 | several occurrences give an error reporting the occurrence count |
| EditFile.FirstWord | src/exorous/tools/builtin/edit_file.py:186-189 | the first search term exists iff `old_string` is not blank, and it is a non-empty word without whitespace |
| EditFile.SimilarAt | src/exorous/tools/builtin/edit_file.py:190-192 | each listed line contains the first term and is shown by its 1-based number and its preview |
| EditFile.SimilarIncreasing | src/exorous/tools/builtin/edit_file.py:190-192 | the listed lines are in file order |
| EditFile.SimilarComplete | src/exorous/tools/builtin/edit_file.py:190-192 | every scanned line holding the term is listed |
| EditFile.PreviewsShort | src/exorous/tools/builtin/edit_file.py:192 | every preview is at most 80 characters |
| EditFile.SimilarLines | src/exorous/tools/builtin/edit_file.py:183-194 | the loop lists the first three similar lines of the file, each previewed in at most 80 characters |
| EditFile.NoMatchError | src/exorous/tools/builtin/edit_file.py:182-212 | the not-found error lists at most three similar lines |
| EditFile.Confirm | src/exorous/tools/builtin/edit_file.py:45-89 | the confirmation is about the one target file and never dangerous; a new file shows a creation diff, an existing one the diff of the replacement, and reading it may raise |
| EditFile.Execute | src/exorous/tools/builtin/edit_file.py:91-180 | a missing file with non-empty `old_string` is an error and nothing is written; with an empty one the file is created holding `new_string`; an existing file is written only when `DecideMeaning`'s replacement changes it |
| Grep.KeptFilesExact | tools/builtin/grep.py:100-113 | exactly the walked files outside excluded directories, not dot files and not binary are kept |
| Grep.FoundAtCap | tools/builtin/grep.py:114-115 | once 500 files are kept the search stops with those |
| Grep.FoundFiles | tools/builtin/grep.py:97-117 | at most 500 files, each kept and in walk order; when fewer than 500 are kept none is missing |
| Grep.FindFiles | tools/builtin/grep.py:97-117 | the `os.walk` loop with directory pruning computes `Found` |
| Grep.Block | tools/builtin/grep.py:65-76 | a file with hits contributes "=== rel ===", one "i:line" per hit and a blank line; a file without hits contributes nothing |
| Grep.ScanCounts | tools/builtin/grep.py:49-76 | the `matches` count equals the number of hit lines shown, and the output is empty iff nothing matched |
| Grep.Report | tools/builtin/grep.py:78-95 | no output gives "No matches found for pattern '…'" with matches 0; otherwise the lines joined by "\n" with the count and the number of files searched |
| Grep.ReportCounts | tools/builtin/grep.py:65-84 | the reported `matches` is the number of hit lines shown and `files_searched` counts every candidate file, unreadable ones included |
| Grep.Execute | tools/builtin/grep.py:27-95 | a missing path and an invalid regex are errors; otherwise the scan of the candidate files is reported as `Report` says |
| Grep.ScanAll | tools/builtin/grep.py:46-76 | the loop over the files computes `ScanFiles`; an unreadable file is skipped |
| Grep.ScanOne | tools/builtin/grep.py:50-76 | one pass reads the file and appends its block |
| Grep.MatchingLines | tools/builtin/grep.py:65-73 | the inner loop finds the matching lines, numbered from 1, in ascending order |
| Hooks.ActiveHooks | hooks/hook_system.py:14-18 | no hooks when hooks are disabled; otherwise exactly the enabled hooks of the configuration |
| Hooks.Enabled | hooks/hook_system.py:18 | the filter keeps exactly the enabled hooks |
| Hooks.HookProgramShape | hooks/hook_system.py:20-37 | a non-empty command runs as it is; otherwise the script runs behind a "#!/bin/bash" line; a hook with neither fails inside `_run_hook`, where the exception is swallowed |
| Hooks.ForTriggerMembers | hooks/hook_system.py:91-140 | the hooks run for a trigger are exactly those of the list registered for it |
| Hooks.RunsOf | hooks/hook_system.py:20-37 | one run per hook, in order, each with its program and the trigger's environment |
| Hooks.EnvironmentGet | hooks/hook_system.py:63-83 | each variable of the built environment: the agent's variables where set, the inherited value otherwise |
| Hooks.EnvironmentFields | hooks/hook_system.py:63-83 | AI_AGENT_TRIGGER and AI_AGENT_CWD are always set; the tool name and the user message only when non-empty, the error only when there is one; all other variables are inherited |
| Hooks.BuildEnv | hooks/hook_system.py:63-83 | the step-by-step assignments build `Environment` |
| Hooks.BeforeToolEnvFields | hooks/hook_system.py:115-116 | before-tool hooks see AI_AGENT_TOOL_PARAMS as the JSON of the parameters, the trigger and the tool name |
| Hooks.AfterToolEnvFields | hooks/hook_system.py:128-130 | after-tool hooks also see AI_AGENT_TOOL_RESULT = `to_model_output()` of the result |
| Hooks.TriggerRunsMatching | hooks/hook_system.py:85-141 | a trigger runs exactly the hooks registered for it, each with that trigger's environment |
| Hooks.RunsStep | hooks/hook_system.py:91-93 | one more hook of the list adds one run exactly when it matches the trigger |
| Hooks.HookSystem.constructor | hooks/hook_system.py:14-18 | the system keeps `ActiveHooks` of the configuration and has run nothing |
| Hooks.HookSystem.RunHooks | hooks/hook_system.py:91-93 | the loop appends one run per matching hook, in list order, and nothing else |
| Hooks.HookSystem.TriggerBeforeAgent | hooks/hook_system.py:85-93 | runs the before-agent hooks with the user message in the environment |
| Hooks.HookSystem.TriggerAfterAgent | hooks/hook_system.py:95-108 | runs the after-agent hooks with AI_AGENT_RESPONSE; a missing response makes every start fail, and the failure is swallowed |
| Hooks.HookSystem.TriggerBeforeTool | hooks/hook_system.py:110-120 | runs the before-tool hooks with the tool name and parameters |
| Hooks.HookSystem.TriggerAfterTool | hooks/hook_system.py:122-134 | runs the after-tool hooks with the tool name, parameters and rendered result |
| Hooks.HookSystem.TriggerOnError | hooks/hook_system.py:136-141 | runs the on-error hooks with the error's text |
| Hooks.ForTriggerConcat | hooks/hook_system.py:91-92 | filtering a concatenation filters each part |
| Knowledge.Load | src/exorous/context/knowledge.py:23-30 | a missing or unreadable file loads as the default data, whose notes are an empty list; a parsed file loads as the parsed value, whatever its shape |
| Knowledge.Notes | src/exorous/context/knowledge.py:39-46 | `self.data["notes"]` succeeds iff the data is an object with a "notes" key (`KeyError` otherwise) |
| Knowledge.WithNote | src/exorous/context/knowledge.py:38-41 | after `add_note` the notes are the earlier ones plus the new note |
| Knowledge.Added | src/exorous/context/knowledge.py:38-41 | on a notes list, `add_note` gives the data whose notes are `WithNote` of the list; it succeeds only when the notes exist, and raises as Python does on a missing key or a notes value without `append` |
| Knowledge.WithNoteProperties | src/exorous/context/knowledge.py:38-41 | notes never get a duplicate, keep first-insertion order, and adding a present note changes nothing |
| Knowledge.FormatNotes | src/exorous/context/knowledge.py:43-51 | the formatted knowledge is `None` iff there are no notes |
| Knowledge.FormatNotesLines | src/exorous/context/knowledge.py:43-51 | otherwise its lines are the header followed by one "- note" line per note, in order |
| Knowledge.NoteTexts | src/exorous/context/knowledge.py:46-49 | `for note in notes` works on a list, a dict or a str, and yields at least one note when the value is truthy |
| Knowledge.Formatted | src/exorous/context/knowledge.py:43-51 | a missing "notes" raises; a notes list formats as `FormatNotes` of its items; a text comes back only for truthy notes |
| Knowledge.AddedListed | src/exorous/context/knowledge.py:38-51 | after `add_note` on a notes list, the formatted knowledge is that of the new list and carries the note's bullet |
| Knowledge.ProjectKnowledge.constructor | src/exorous/context/knowledge.py:15-30 | the store holds the data loaded from its file |
| Knowledge.ProjectKnowledge.AddNote | src/exorous/context/knowledge.py:38-41 | the data becomes `Added` of the old data, or stays when `add_note` raises, and the file is rewritten iff the data changed and the write can succeed |
| Knowledge.ProjectKnowledge.FormatKnowledge | src/exorous/context/knowledge.py:43-51 | the loop over the notes builds `Formatted` of the data |
| ListDir.Visible | tools/builtin/list_dir.py:38-39 | the hidden filter keeps items in the order given |
| ListDir.EntryLines | tools/builtin/list_dir.py:46-52 | one line per entry, directories suffixed with "/" |
| ListDir.Execute | tools/builtin/list_dir.py:23-60 | a missing or non-directory path is an error, and so is a failed listing; an empty listing gives "Directory is empty"; otherwise one line per listed entry, and `entries` is their number |
| ListDir.VisibleMultiset | tools/builtin/list_dir.py:38-39 | the filter keeps every item not starting with "." (every item when hidden ones are asked for), with its multiplicity |
| ListDir.VisibleSorted | tools/builtin/list_dir.py:32-39 | filtering a sorted listing keeps it sorted |
| ListDir.ListedProperties | tools/builtin/list_dir.py:32-39 | the listing is a permutation of the visible items with directories first, each group ordered by lowercased name |
| LlmClient.BuildTools | src/exorous/client/llm_client.py:59-76 | one function entry per tool, in order; a tool without "name" raises `KeyError` |
| LlmClient.BuildToolsKeepsSchemas | src/exorous/client/llm_client.py:59-76 | a schema with name, description and parameters becomes the entry's "function" unchanged |
| LlmClient.BuildToolsDefaults | src/exorous/client/llm_client.py:65-72 | a missing description defaults to "" and missing parameters to an empty object schema |
| LlmClient.RequestArgs | src/exorous/client/llm_client.py:86-94 | `tools` and `tool_choice="auto"` are sent only for a non-empty tool list |
| LlmClient.ChatCompletion | src/exorous/client/llm_client.py:96-130 | the retry loop computes `Retry` of the attempts' outcomes |
| LlmClient.RetrySchedule | src/exorous/client/llm_client.py:96-130 | waits are 2^attempt (1, 2, 4), one before each retry; at most 4 attempts; only rate-limit and connection errors are retried; one ERROR event comes last exactly when the call ends on an API error |
| LlmClient.PersistentRateLimit | src/exorous/client/llm_client.py:105-114 | four rate-limited attempts wait 1, 2 and 4 seconds and then yield the single rate-limit error |
| LlmClient.ApiErrorNotRetried | src/exorous/client/llm_client.py:125-130 | any other API error yields one ERROR at once, without waiting |
| LlmClient.ToUsage | src/exorous/client/llm_client.py:144-150 | the usage record takes the reported prompt, completion and total counts and `prompt_tokens_details.cached_tokens` |
| LlmClient.ReadChunk | src/exorous/client/llm_client.py:143-201 | one pass of the loop over chunks computes `ChunkStep`: a usage without details raises before the chunk's choice is read |
| LlmClient.StreamResponse | src/exorous/client/llm_client.py:132-217 | the loop over chunks and fragments computes `StreamEvents` |
| LlmClient.FirstSeen | src/exorous/client/llm_client.py:203 | the call indices in the order they first appear, each once |
| LlmClient.WholeStreamSummarised | src/exorous/client/llm_client.py:143-217 | a stream that ends without raising summarises all its chunks: every usage with details, texts, calls from first fragments, last usage and finish reason |
| LlmClient.StreamAssembly | src/exorous/client/llm_client.py:143-217 | one TEXT_DELTA per non-empty content in order; one entry per index in first-seen order made from its first fragment; then one TOOL_CALL_COMPLETE per entry and exactly one MESSAGE_COMPLETE with the last usage and finish reason; every usage reported carried its details |
| LlmClient.UndetailedUsageRaises | src/exorous/client/llm_client.py:144-150 | a stream with any usage lacking `prompt_tokens_details` ends by raising |
| LlmClient.UsageWithoutDetailsRaises | src/exorous/client/llm_client.py:144-165 | a usage without details raises before its own chunk's text is yielded |
| LlmClient.LaterFragmentsDropped | src/exorous/client/llm_client.py:171-201 | arguments arriving after a call's first fragment are dropped |
| LlmClient.BareFragmentRaises | src/exorous/client/llm_client.py:178-189 | a new index whose fragment carries no function raises |
| LlmClient.NonStreamResponse | src/exorous/client/llm_client.py:219-257 | raises `AttributeError` iff the usage lacks `prompt_tokens_details`; otherwise one MESSAGE_COMPLETE with the text when present, the converted usage and the finish reason |
| LlmClient.NonStreamDropsToolCalls | src/exorous/client/llm_client.py:232-257 | the parsed tool calls do not change the event |
| LoopDetection.SignatureShapes | context/loop_detector.py:12-25 | a response signs as "response" then the text, a call without arguments as "tool_call" then the name, any other action as its type alone |
| LoopDetection.SortedKeysInsensitive | context/loop_detector.py:20 | the sorted keys are in ascending order and the same for two dicts with the same entries in any order |
| LoopDetection.ArgumentOrderIrrelevant | context/loop_detector.py:15-25 | two calls whose arguments hold the same entries in any order get one signature |
| LoopDetection.Window | context/loop_detector.py:10-26 | the bounded history holds the newest min(n, 20) entries |
| LoopDetection.WindowAppend | context/loop_detector.py:10-26 | appending to a full history drops the oldest: the history is always the newest twenty of everything recorded |
| LoopDetection.FirstCycle | context/loop_detector.py:40-45 | the cycle lengths are tried in ascending order and the first that repeats is reported |
| LoopDetection.CheckMeaning | context/loop_detector.py:28-47 | fewer than 2 entries give nothing; the repeat is reported iff the last 3 entries are equal; a reported cycle of length 3 means length 2 did not repeat; with 6 or more entries nothing reported means no cycle of length 2 or 3 |
| LoopDetection.AlternationNeedsSixEntries | context/loop_detector.py:37-45 | [A,B,A,B] repeats a 2-cycle yet gives nothing, while [A,B,A,B,A,B] reports the cycle of length 2 |
| LoopDetection.RepeatBeforeCycle | context/loop_detector.py:32-35 | the repeat check runs before any cycle check |
| LoopDetection.BuildArgParts | context/loop_detector.py:19-21 | the loop builds one "k=v" part per key, in sorted key order |
| LoopDetection.BuildSignature | context/loop_detector.py:13-25 | the parts joined by a vertical bar are the action's `Signature` |
| LoopDetection.LoopDetector.constructor | context/loop_detector.py:7-10 | a new detector has an empty history |
| LoopDetection.LoopDetector.RecordAction | context/loop_detector.py:12-26 | appends the signature and keeps the newest twenty |
| LoopDetection.LoopDetector.CheckForLoop | context/loop_detector.py:28-47 | a message exactly when `Check` detects a loop, the one for that loop |
| LoopDetection.LoopDetector.Clear | context/loop_detector.py:49-50 | the history is empty and no loop is reported afterwards |
| LoopDetection.Messages | context/loop_detector.py:35-45 | the messages as spelled, "tiems" included |
| McpClient.Overlay | src/exorous/tools/mcp/client.py:49-50 | the server's variables override the process environment, other variables are inherited |
| McpClient.CreateTransport | src/exorous/tools/mcp/client.py:47-60 | the transport is stdio iff a non-empty command is configured, with its args and `config.cwd or cwd`; otherwise SSE with the url |
| McpClient.Info | src/exorous/tools/mcp/client.py:75-82 | the stored record has the tool's name and this server's name |
| McpClient.AbsorbGet | src/exorous/tools/mcp/client.py:74-82 | every listed name is stored with its last listing; tools not listed keep their records |
| McpClient.AbsorbKeyed | src/exorous/tools/mcp/client.py:74-82 | the tools stay keyed by name, one entry per name |
| McpClient.ItemTexts | src/exorous/tools/mcp/client.py:103-108 | one text per content item: its text, or its string form |
| McpClient.OutputLines | src/exorous/tools/mcp/client.py:103-111 | items without line breaks come back from the output one per line |
| McpClient.Client.constructor | src/exorous/tools/mcp/client.py:29-41 | a new client is DISCONNECTED, with no library client and no tools |
| McpClient.Client.Connect | src/exorous/tools/mcp/client.py:62-87 | connecting while CONNECTED changes nothing; a listing ends CONNECTED with one tool per listed name; a failure ends in ERROR and is re-raised |
| McpClient.Client.Store | src/exorous/tools/mcp/client.py:74-82 | the loop stores each listed tool under its name |
| McpClient.Client.Disconnect | src/exorous/tools/mcp/client.py:89-95 | from any status: no tools, no library client, DISCONNECTED |
| McpClient.Client.CallTool | src/exorous/tools/mcp/client.py:97-113 | raises "Not connected to server …" unless connected; otherwise the item texts joined by "\n" with the error flag |
| McpManager.EnabledGet | tools/mcp/mcp_manager.py:24-32 | exactly the enabled servers get a client |
| McpManager.ServerInfo | tools/mcp/mcp_manager.py:75-81 | each entry has the name, the status value and the tool count |
| McpManager.Wrap | tools/mcp/mcp_manager.py:54-59 | a registered tool is named "server__tool" and is of kind MCP |
| McpManager.Registered | tools/mcp/mcp_manager.py:49-61 | as many registrations as the connected clients have tools |
| McpManager.RegisteredFrom | tools/mcp/mcp_manager.py:49-53 | every registration is of a tool of a connected client |
| McpManager.RegisteredAll | tools/mcp/mcp_manager.py:49-61 | every tool of a connected client is registered |
| McpManager.RegisterAllGet | tools/mcp/mcp_manager.py:53-60 | each registered tool is found under its qualified name |
| McpManager.MadeKeys | tools/mcp/mcp_manager.py:24-32 | the clients are keyed by the enabled servers' names, each once |
| McpManager.Manager.constructor | tools/mcp/mcp_manager.py:10-13 | a new manager has no clients and is not initialized |
| McpManager.Manager.Initialize | tools/mcp/mcp_manager.py:15-44 | nothing when already initialized; with no servers it returns without becoming initialized; otherwise one fresh client per enabled server, each connected once, and initialized |
| McpManager.Manager.Create | tools/mcp/mcp_manager.py:24-32 | the first loop makes one fresh disconnected client per enabled server |
| McpManager.Manager.ConnectAll | tools/mcp/mcp_manager.py:34-42 | every client is connected once, a failure not stopping the others |
| McpManager.Manager.RegisterTools | tools/mcp/mcp_manager.py:46-63 | registers exactly the connected clients' tools as "server__tool" and returns how many |
| McpManager.Manager.Shutdown | tools/mcp/mcp_manager.py:65-71 | every client is disconnected, none is kept, and the manager is no longer initialized |
| McpManager.Manager.GetAllServers | tools/mcp/mcp_manager.py:73-83 | one entry per client, in client order |
| McpManager.RegisterViews | tools/mcp/mcp_manager.py:49-63 | the outer loop registers `Registered` and counts the connected tools |
| McpManager.RegisterServer | tools/mcp/mcp_manager.py:53-61 | the inner loop registers one client's tools in order |
| McpTool.Schema | tools/mcp/mcp_tool.py:23-30 | always an object schema whose properties and required list come from the input schema, defaulting to {} and [] |
| McpTool.Result | tools/mcp/mcp_tool.py:37-51 | a flagged error becomes an error result with the output; otherwise success with the output; an exception becomes "MCP tool failed: …" |
| McpTool.AsTool | tools/mcp/mcp_tool.py:8-35 | the tool has the given name, the server tool's description, kind MCP and the object schema |
| McpTool.AsToolBehaviour | tools/mcp/mcp_tool.py:32-33 | the tool counts as mutating for any parameters, so it always asks for confirmation, and runs the server's tool |
| McpTool.Execute | tools/mcp/mcp_tool.py:37-51 | on a live client: a disconnected one fails with the server's name; otherwise the answer's texts become the output or the error |
| Memory.Load | src/exorous/tools/builtin/memory.py:30-42 | a missing file or a failure to read or parse gives {"entries": {}}; otherwise the parsed content |
| Memory.EntriesValue | src/exorous/tools/builtin/memory.py:82-108 | `memory.get("entries", {})` succeeds iff the memory is an object, and is {} when the key is absent |
| Memory.Lookup | src/exorous/tools/builtin/memory.py:82-99 | the membership test succeeds iff the memory is an object whose entries are a dict, a list or a str (`TypeError` otherwise, an absent "entries" reading as {}); it finds the key among a dict's keys, as an element of a list, or as a substring of a str |
| Memory.SetEntry | src/exorous/tools/builtin/memory.py:73 | the assignment succeeds iff the memory holds an "entries" object, and raises KeyError when the key is missing |
| Memory.EntryCount | src/exorous/tools/builtin/memory.py:128 | the count of an entries object is its number of entries |
| Memory.SetThenLookup | src/exorous/tools/builtin/memory.py:73-82 | after a set, the key reads back as the value and every other key as before |
| Memory.DeleteThenLookup | src/exorous/tools/builtin/memory.py:99-102 | after a delete the key is gone and every other key reads as before |
| Memory.ClearThenLookup | src/exorous/tools/builtin/memory.py:128-129 | after clear no key is found and the entries are {} |
| Memory.EntryLines | src/exorous/tools/builtin/memory.py:117-118 | one "  key: value" line per entry, in entry order |
| Memory.SortedEntries | src/exorous/tools/builtin/memory.py:117 | sorting keeps the number of entries |
| Memory.ListingOrder | src/exorous/tools/builtin/memory.py:117 | the sorted entries are a permutation of the entries, in ascending key order |
| Memory.ListEntries | src/exorous/tools/builtin/memory.py:116-118 | the loop builds the header line followed by one line per sorted entry |
| Memory.SetAction | src/exorous/tools/builtin/memory.py:59-76 | a missing key or value is the error; project scope adds the note "key: value" and saves nothing; user scope saves the memory with the entry set, iff that assignment succeeds |
| Memory.GetAction | src/exorous/tools/builtin/memory.py:77-94 | never writes; a missing key is the error; otherwise success with "found" telling whether the key is stored |
| Memory.DeleteAction | src/exorous/tools/builtin/memory.py:95-105 | the missing-key message names 'get' as written; saves the memory without the key iff the key was stored |
| Memory.ListAction | src/exorous/tools/builtin/memory.py:106-125 | never writes; empty entries give "No memories stored" with found false; otherwise the sorted listing with found true |
| Memory.ClearAction | src/exorous/tools/builtin/memory.py:126-131 | saves the memory with empty entries and reports how many entries there were |
| Memory.SetThenGet | src/exorous/tools/builtin/memory.py:59-94 | a user-scope set followed by get of the key finds the value just stored |
| Memory.DeleteThenGet | src/exorous/tools/builtin/memory.py:77-105 | a delete followed by get of the key reports "Memory not found" |
| Memory.ClearThenList | src/exorous/tools/builtin/memory.py:106-131 | a clear followed by list reports "No memories stored" |
| Memory.MemoryFile.constructor | src/exorous/tools/builtin/memory.py:33 | the memory file starts as what is stored |
| Memory.MemoryFile.Save | src/exorous/tools/builtin/memory.py:44-49 | the file holds the saved memory when the action saves one, and is unchanged otherwise |
| Memory.MemoryFile.Execute | src/exorous/tools/builtin/memory.py:56-133 | the result is the action's; the file and the project notes change exactly as the action says, nothing else |
| Memory.ListMemory | src/exorous/tools/builtin/memory.py:106-125 | the list branch with its loop gives `ListAction` |
| Paths.SplitOn | src/exorous/utils/paths.py:6 | splitting gives at least one piece |
| Paths.DropTrivial | src/exorous/utils/paths.py:6 | the kept components are non-empty, not ".", and taken from the input |
| Paths.Parse | src/exorous/utils/paths.py:6-15 | a parsed path is well formed: no empty or "." component |
| Paths.SplitOnJoin | src/exorous/utils/paths.py:6 | splitting the pieces joined by a separator they do not hold gives the pieces back |
| Paths.ParseToString | src/exorous/utils/paths.py:15-25 | printing a well-formed path and parsing it again gives the same path |
| Paths.ParseAbsolute | src/exorous/utils/paths.py:7 | "/" followed by well-formed parts joined by "/" is the absolute path of those parts |
| Paths.ParseRelative | src/exorous/utils/paths.py:6-10 | well-formed parts joined by "/" are the relative path of those parts |
| Paths.Parent | src/exorous/utils/paths.py:31 | the parent drops the last component, the root and "." being their own parents |
| Paths.RelativeTo | src/exorous/utils/paths.py:21-23 | succeeds iff the path lies under the base, and then is a relative path that leads from the base back to the path |
| Paths.ResolvePath | src/exorous/utils/paths.py:5-10 | an absolute path is resolved on its own; a relative one lies under the resolved base, its remainder being the path given |
| Paths.DisplayPathRelToCwd | src/exorous/utils/paths.py:13-25 | without a cwd, or for a path outside it, the normalised path itself |
| Paths.DisplayRelativeRoundTrip | src/exorous/utils/paths.py:19-21 | a path shown relative to the directory it lies under leads from that directory back to the path |
| Paths.IsBinaryFile | src/exorous/utils/paths.py:35-41 | binary iff the file was readable and a NUL byte is among its first 8192 bytes |
| Persistence.UsageDict | agent/persistence.py:27 | the usage dictionary has the four field names in declaration order |
| Persistence.UsageFromDict | agent/persistence.py:38 | `TokenUsage(**d)` succeeds only when every key is a field name |
| Persistence.UsageRoundTrip | agent/persistence.py:27-38 | building the usage back from its dictionary gives the same usage |
| Persistence.MessagesJson | agent/persistence.py:26 | the messages are stored one object per message, in order |
| Persistence.ToDict | agent/persistence.py:20-28 | the six keys in order |
| Persistence.Item | agent/persistence.py:33-38 | `data[key]` succeeds iff the key is present |
| Persistence.MessagesFromJson | agent/persistence.py:37 | as many messages as items |
| Persistence.MessagesRoundTrip | agent/persistence.py:26-37 | the stored messages read back as the same messages |
| Persistence.FromDict | agent/persistence.py:30-39 | succeeds only when all six keys are present |
| Persistence.ToDictItems | agent/persistence.py:20-28 | each key holds the field it is named after, the moments in ISO format |
| Persistence.DictRoundTrip | agent/persistence.py:20-39 | `from_dict(to_dict(s))` gives s back |
| Persistence.FileNameInjective | agent/persistence.py:53-61 | different ids name different files |
| Persistence.Load | agent/persistence.py:60-107 | no file gives None; a snapshot comes back only as `from_dict` of the file's object |
| Persistence.SaveLoad | agent/persistence.py:52-69 | a saved session loads back as saved, and saving changes what no other id loads |
| Persistence.Summary | agent/persistence.py:76-83 | a summary has exactly session_id, created_at, updated_at and turn_count |
| Persistence.Summaries | agent/persistence.py:72-84 | one summary per file, in listing order, any failure raising |
| Persistence.NewerFirstPreorder | agent/persistence.py:85 | newest-first on updated_at is a total preorder |
| Persistence.ListSessionsSorted | agent/persistence.py:71-86 | the listing is a permutation of the files' summaries, ordered by updated_at from latest to earliest |
| Persistence.Stamp | agent/persistence.py:89 | the stamp "%Y%m%d_%H%M%S" is 15 characters long |
| Persistence.StampRoundTrip | agent/persistence.py:89 | the stamp reads back as the moment it was made from, to the second |
| Persistence.CheckpointId | agent/persistence.py:88-90 | the checkpoint id is the session id, "_" and the 15-character stamp of the moment |
| Persistence.CheckpointIdStamp | agent/persistence.py:88-90 | the part of the id after the session id and "_" reads back as the moment the checkpoint was made, to the second |
| Persistence.CheckpointLoad | agent/persistence.py:88-107 | a checkpoint loads back under the id save_checkpoint returned |
| ReadFile.Precheck | src/exorous/tools/builtin/read_file.py:47-69 | the file is refused as missing, not a file, larger than 10 MiB or binary, in that order, each refusal the first check that fails, and read otherwise |
| ReadFile.Window | src/exorous/tools/builtin/read_file.py:88-93 | the window starts at offset-1 and ends at the total, or at start+limit when that is smaller |
| ReadFile.Shown | src/exorous/tools/builtin/read_file.py:95 | the slice of the window, empty when the window starts past the end |
| ReadFile.Numbered | src/exorous/tools/builtin/read_file.py:96-99 | one numbered line per shown line |
| ReadFile.NumberedAt | src/exorous/tools/builtin/read_file.py:98-99 | the k-th numbered line is line k numbered first+k |
| ReadFile.NumberLines | src/exorous/tools/builtin/read_file.py:96-99 | the loop numbers the shown lines as `Numbered` does |
| ReadFile.Header | src/exorous/tools/builtin/read_file.py:113-121 | the "Showing lines" header is absent iff the whole file is shown |
| ReadFile.Body | src/exorous/tools/builtin/read_file.py:101-111 | truncated iff the joined lines exceed 25000 tokens, and otherwise exactly the joined lines |
| ReadFile.RenderEmpty | src/exorous/tools/builtin/read_file.py:77-86 | a file without lines is "File is empty." with lines 0 |
| ReadFile.RenderShown | src/exorous/tools/builtin/read_file.py:77-132 | from line offset on, at most limit lines, numbered from offset, cut only over 25000 tokens, with the window in the metadata |
| ReadFile.Execute | src/exorous/tools/builtin/read_file.py:43-134 | a refusal, or a read failure as "Failed to read file: …", or the rendered file |
| Registry.Lookup | src/exorous/tools/registry.py:43-49 | a built-in is found first, then an MCP tool; None iff the name is in neither |
| Registry.RegisterThenGet | src/exorous/tools/registry.py:25-49 | after register, get returns the tool and every other name resolves as before |
| Registry.UnregisterThenGet | src/exorous/tools/registry.py:36-49 | after unregister the name is no longer a built-in, an MCP tool of that name shows through, other names resolve as before |
| Registry.FilterAllowed | src/exorous/tools/registry.py:60-62 | the kept tools are no more than the given ones and all have allowed names |
| Registry.FilterConcat | src/exorous/tools/registry.py:62 | the filter works tool by tool and keeps the order |
| Registry.FilterAllAllowed | src/exorous/tools/registry.py:62 | a filter that allows every name keeps the list as it is |
| Registry.ListedTools | src/exorous/tools/registry.py:51-64 | without a (non-empty) allowed list every built-in then every MCP tool; with one, only the allowed ones, in the same order |
| Registry.SchemasOf | src/exorous/tools/registry.py:66-67 | succeeds iff every tool's schema can be exported, then one schema per tool, in order |
| Registry.CountsConcat | src/exorous/tools/registry.py:83-144 | hook counts add up over concatenated event sequences |
| Registry.UnknownTool | src/exorous/tools/registry.py:77-84 | an unknown tool gives "Unknown tool" with one after-tool hook, no before-tool hook, nothing executed |
| Registry.InvalidParameters | src/exorous/tools/registry.py:86-98 | invalid parameters give "Invalid parameters: " and the messages joined by "; ", one after-tool hook, nothing executed |
| Registry.HooksBracketCall | src/exorous/tools/registry.py:100-145 | with valid parameters the before-tool hook fires first and once; unless get_confirmation raises, the after-tool hook fires last and once with the returned result |
| Registry.BracketCounts | src/exorous/tools/registry.py:100-145 | hook events only at the two ends are each counted once |
| Registry.InvokeValidShape | src/exorous/tools/registry.py:100-145 | a valid call's events: before-tool hook, approval and execution, after-tool hook |
| Registry.NoHooksCounted | src/exorous/tools/registry.py:105-133 | approval and execution events hold no hook |
| Registry.RejectedNotExecuted | src/exorous/tools/registry.py:105-130 | a call rejected by the policy or declined by the user is not executed and ends in the matching error |
| Registry.ExecutedWithoutGate | src/exorous/tools/registry.py:105-142 | without an approval manager, or when no confirmation is asked, the call is executed; an exception becomes "Internal error: …" |
| Registry.ToolRegistry.constructor | src/exorous/tools/registry.py:16-19 | a new registry holds no tools |
| Registry.ToolRegistry.Register | src/exorous/tools/registry.py:25-30 | the tool is put under its name, replacing one of the same name, and get returns it |
| Registry.ToolRegistry.RegisterMcpTool | src/exorous/tools/registry.py:32-34 | the MCP tool is put under its name |
| Registry.ToolRegistry.Unregister | src/exorous/tools/registry.py:36-41 | true iff the name was a built-in, which is removed; get then finds only an MCP tool of that name |
| Registry.ToolRegistry.GetTools | src/exorous/tools/registry.py:51-64 | the two loops and the filter give `Listed` |
| Registry.ToolRegistry.GetSchemas | src/exorous/tools/registry.py:66-67 | one schema per listed tool |
| Shell.Confirm | src/exorous/tools/builtin/shell.py:47-68 | the confirmation carries the command and is dangerous iff a blocked entry occurs in the command as typed |
| Shell.WorkDir | src/exorous/tools/builtin/shell.py:81-86 | no cwd: the invocation's; an absolute one as given; a relative one under the invocation's directory |
| Shell.Without | src/exorous/tools/builtin/shell.py:151-156 | removes exactly the variables the pattern matches, upper-cased on both sides |
| Shell.BuildEnvironment | src/exorous/tools/builtin/shell.py:144-161 | the loops give the environment `EnvironmentFor` describes |
| Shell.UnexcludedGet | src/exorous/tools/builtin/shell.py:149-156 | a variable survives iff no pattern excludes it, with its value |
| Shell.UpdateGet | src/exorous/tools/builtin/shell.py:158-159 | after update a key of set_vars has that value, any other keeps its own |
| Shell.EnvironmentGet | src/exorous/tools/builtin/shell.py:144-161 | set_vars wins; otherwise, unless excludes are ignored, an excluded variable is gone; otherwise it is inherited |
| Shell.AssembleParts | src/exorous/tools/builtin/shell.py:123-132 | empty iff both streams are blank and the exit code is 0; stdout right-stripped comes first, "Exit code: n" last |
| Shell.Cap | src/exorous/tools/builtin/shell.py:134-135 | output over 100 KiB is cut to that prefix plus the marker, otherwise kept |
| Shell.Finished | src/exorous/tools/builtin/shell.py:137-142 | success iff exit code 0; stderr is the error otherwise; the exit code is reported |
| Shell.Execute | src/exorous/tools/builtin/shell.py:70-142 | a blocked command (lower-cased, stripped) is refused first, then a missing directory; otherwise timeout, spawn failure or the finished process's result |
| Subagents.SubConfig | tools/subagents.py:52-57 | the parent's configuration with the definition's turn limit and, when it lists any, its tools; nothing else changes |
| Subagents.StartedTools | tools/subagents.py:90-91 | no more names than events |
| Subagents.FoldToolCalls | tools/subagents.py:84-101 | the tools reported are the ones started, in order, up to where the run stopped |
| Subagents.FoldUninterrupted | tools/subagents.py:84-105 | without timeout or agent error every started tool is reported and the run ends by goal, or by error when the agent raises |
| Subagents.FoldKeepsText | tools/subagents.py:92-96 | after the last text, agent end does not overwrite the final response |
| Subagents.Finish | tools/subagents.py:107-118 | an error iff an error message was recorded, the report being the output or the error |
| Subagents.TimeoutSucceeds | tools/subagents.py:85-118 | a timed-out run is a success reporting "Sub-agent timed out" |
| Subagents.Run | tools/subagents.py:44-50 | an empty goal is refused before any sub-agent starts |
| Subagents.Execute | tools/subagents.py:44-118 | the method with its loop gives `Run` |
| Subagents.Consume | tools/subagents.py:84-101 | the event loop with its early exits gives the fold |
| Subagents.AsTool | tools/subagents.py:26-42 | named and described "subagent_…", kind read, mutating for any parameters, so confirmation is always asked |
| Subagents.DefaultDefinitions | tools/subagents.py:121-149 | two sub-agents with different names, each limited to read-only tools |
| Todo.TodoLines | src/exorous/tools/builtin/todo.py:48-49 | one "  [id] content" line per entry, in order |
| Todo.Listing | src/exorous/tools/builtin/todo.py:43-50 | no entries give "No todos" |
| Todo.ListingLines | src/exorous/tools/builtin/todo.py:46-50 | entries without line breaks come back one per line after "Todos:" |
| Todo.PutFresh | src/exorous/tools/builtin/todo.py:31 | storing under a new id appends one entry at the end |
| Todo.Apply | src/exorous/tools/builtin/todo.py:24-56 | add and complete match case-insensitively, list and clear exactly; each missing argument, unknown id and unknown action is its error; add stores, complete removes, clear empties |
| Todo.ApplyKeepsOthers | src/exorous/tools/builtin/todo.py:27-42 | ids stay distinct; add under a new id appends one entry; complete removes exactly that entry and keeps the others |
| Todo.TodoList.constructor | src/exorous/tools/builtin/todo.py:20-22 | a new list is empty |
| Todo.TodoList.Execute | src/exorous/tools/builtin/todo.py:24-56 | the new list and the result are those of `Apply` |
| Todo.TodoList.ListText | src/exorous/tools/builtin/todo.py:43-50 | the loop builds `Listing` |
| ToolBase.DiffOldName | tools/base.py:42 | the from-name is /dev/null iff the file is new (or the path is /dev/null) |
| ToolBase.DiffNewName | tools/base.py:43 | the to-name is /dev/null iff the file is deleted (or the path is /dev/null) |
| ToolBase.ResultConstructors | tools/base.py:66-88 | error results fail with the error and an empty output by default; success results carry no error; the model sees the output or "Error: …\n\nOutput:\n…" |
| ToolBase.ModelOutputShape | tools/base.py:84-88 | a failing result's model output starts with "Error: " and ends with the output; a success is the output |
| ToolBase.KindMutatingCases | tools/base.py:143-149 | mutating iff the kind is neither read nor MCP |
| ToolBase.ValidateParams | tools/base.py:125-141 | only a model schema is checked; otherwise no errors |
| ToolBase.DefaultConfirmation | tools/base.py:151-161 | None iff not mutating; otherwise "Execute name" with no paths, no command, not dangerous |
| ToolBase.ToOpenAiSchema | tools/base.py:163-193 | raises iff the schema is neither a model nor a dict; otherwise name, description, parameters, a dict schema's "parameters" or the dict itself |
| Tui.PreferredOrder | ui/tui.py:87-99 | the preferred key list of a tool never repeats a key, and is empty for other tools |
| Tui.PairsOf | ui/tui.py:107-109 | one pair per remaining key |
| Tui.OrderedArgs | ui/tui.py:86-111 | the loops give the present preferred keys in the preferred order, then the remaining keys in the set's iteration order |
| Tui.PreferredPairsMembers | ui/tui.py:100-105 | the preferred pairs are exactly the argument pairs whose keys are preferred |
| Tui.PreferredPairsOrder | ui/tui.py:100-105 | the preferred pairs follow the preferred order |
| Tui.PairsOfFacts | ui/tui.py:107-109 | the remaining pairs are the argument pairs of those keys, each once, in key order |
| Tui.OrderedArgsPermutation | ui/tui.py:86-111 | every argument is shown exactly once: a permutation of the arguments with the preferred keys first, in the preferred order |
| Tui.ArrangedDistinct | ui/tui.py:86-111 | preferred pairs followed by pairs of other keys never repeat |
| Tui.Codes | ui/tui.py:184-197 | the code of every line, or nothing as soon as one line does not match |
| Tui.ExtractReadFileCode | ui/tui.py:175-199 | the loop gives `ExtractCode` |
| Tui.FieldsOf | ui/tui.py:177 | three digit runs and their separators are read as a header's fields |
| Tui.HeaderRecognised | ui/tui.py:177-180 | the "Showing lines" header read_file writes is recognised and ends where it ends |
| Tui.CodeLineOfNumbered | ui/tui.py:188 | a line read_file numbered gives back its number and its code |
| Tui.CodesOfNumbered | ui/tui.py:184-197 | every numbered line yields its code |
| Tui.ListingOfNumbered | ui/tui.py:177-186 | numbered lines split back apart and are not mistaken for a header |
| Tui.ExtractReadFileOutput | ui/tui.py:175-199 | recovering the code from read_file's output gives back the shown lines and the number of the first, with or without a header |
| Tui.LastDot | ui/tui.py:204 | the position of the last "." of the name, or -1 when there is none |
| Tui.LanguageOf | ui/tui.py:205-232 | every known suffix is "." followed by a non-empty name without dots |
| Tui.GuessBySuffix | ui/tui.py:201-232 | a name made of a stem and a known suffix, in any letter case, gets that suffix's language |
| Tui.GuessWithoutSuffix | ui/tui.py:201-232 | a missing or empty path, or a name without suffix, is "text" |
| Tui.Approves | ui/tui.py:557-593 | the answer approves iff it is "y" or "yes" in any letter case |
| VectorDb.JoinLines | src/exorous/context/vector_db.py:87-107 | the loop joins lines[a:b] with "\n" |
| VectorDb.TextJoin | src/exorous/context/vector_db.py:87 | the chunk text is the slice of the lines joined by "\n" |
| VectorDb.Step | src/exorous/context/vector_db.py:124-137 | one turn of the loop keeps the current chunk's start within the lines seen |
| VectorDb.Scanned | src/exorous/context/vector_db.py:124-137 | after i turns the current chunk starts at a line at most i+1 |
| VectorDb.LineChunker | src/exorous/context/vector_db.py:117-145 | the chunks tile the lines, each fitting the budget unless it is a single line |
| VectorDb.ChunkLines | src/exorous/context/vector_db.py:118-145 | the loop computes `LineChunks` |
| VectorDb.StepOk | src/exorous/context/vector_db.py:124-137 | one turn of the loop keeps the closed chunks a chunking of the lines before the current one |
| VectorDb.ScannedOk | src/exorous/context/vector_db.py:124-137 | the loop keeps that order for every prefix |
| VectorDb.LineChunksChunked | src/exorous/context/vector_db.py:117-145 | the line chunker's chunks tile the lines, each fitting the budget |
| VectorDb.Close | src/exorous/context/vector_db.py:126-131 | closing a fitting current chunk extends the chunking to its end line |
| VectorDb.ChunksIndexed | src/exorous/context/vector_db.py:117-145 | the first chunk starts on line 1, each next on the line after the previous ends, the last ends on the last line, every chunk fits |
| VectorDb.ChunkedEmpty | src/exorous/context/vector_db.py:139-145 | no chunks iff no lines |
| VectorDb.ChunksJoin | src/exorous/context/vector_db.py:117-145 | chunks covering the first n lines join back into those lines |
| VectorDb.ChunkedJoin | src/exorous/context/vector_db.py:117-145 | joining the chunks' texts with "\n" gives back the lines joined with "\n": nothing is lost or repeated |
| VectorDb.SizeMonotone | src/exorous/context/vector_db.py:125-137 | more lines are no shorter |
| VectorDb.NotLonger | src/exorous/context/vector_db.py:126 | of two fitting chunks from one line, neither ends after the other |
| VectorDb.ChunkedUnique | src/exorous/context/vector_db.py:117-145 | the line chunker's result is the only chunking with those properties |
| VectorDb.Gap | src/exorous/context/vector_db.py:86-93 | at most one gap chunk before a node |
| VectorDb.Trailing | src/exorous/context/vector_db.py:106-113 | at most one chunk after the last node |
| VectorDb.PyChunksLayout | src/exorous/context/vector_db.py:83-115 | one chunk per node, over the node's lines, in node order; every other chunk is not blank, at most one before each node and one after the last |
| VectorDb.PythonChunker | src/exorous/context/vector_db.py:57-115 | given the nodes found, the method computes `PyChunks` |
| VectorDb.ChunkNodes | src/exorous/context/vector_db.py:83-113 | the loop over the nodes and the rest give `PyChunks` |
| VectorDb.ChunkNode | src/exorous/context/vector_db.py:84-103 | one turn adds the non-blank gap and the node's chunk |
| VectorDb.ChunkRest | src/exorous/context/vector_db.py:105-113 | appends the non-blank rest after the last node |
| VectorDb.ChunkContent | src/exorous/context/vector_db.py:45-55 | a ".py" file that parses is chunked along its definitions; otherwise the chunks tile the lines by the line chunker |
| VectorDb.ChunkedIncreasing | src/exorous/context/vector_db.py:117-145 | later line chunks start on later lines |
| VectorDb.ChunkIdsDistinct | src/exorous/context/vector_db.py:180 | the chunks of a file chunked by lines get different ids "path_start" |
| WriteFile.PriorContent | src/exorous/tools/builtin/write_file.py:43-81 | "" for a new file; the file's text when it can be read |
| WriteFile.WriteDiff | src/exorous/tools/builtin/write_file.py:52-57 | the diff is of this path to the new content, new iff the file does not exist, never a deletion |
| WriteFile.Confirm | src/exorous/tools/builtin/write_file.py:37-68 | the only affected path is the target; dangerous iff it overwrites an existing file; the diff is attached |
| WriteFile.WrittenResult | src/exorous/tools/builtin/write_file.py:93-110 | success with the diff and the path, new-file flag, line count and byte count |
| WriteFile.WrittenBytes | src/exorous/tools/builtin/write_file.py:108 | the UTF-8 byte count lies between the character count and four times it |
| WriteFile.Execute | src/exorous/tools/builtin/write_file.py:70-112 | success iff the target can be written; then the file holds exactly the content; on failure no file changes; parent directories are created only when asked; a missing parent otherwise reported first |
| Sessions.MemoryLines | src/exorous/agent/session.py:95-97 | one "- key: value" line per entry, in order |
| Sessions.UserMemory | src/exorous/agent/session.py:80-101 | a text iff the file is a readable object with non-empty object entries; then the header line and one line per entry |
| Sessions.UserMemoryStartsWithHeader | src/exorous/agent/session.py:95-99 | the formatted memory starts with "User preferences and notes:" |
| Sessions.AllMemory | src/exorous/agent/session.py:68-78 | None iff neither part is present; otherwise the present parts, user memory first, joined by a blank line |
| Sessions.Session.constructor | src/exorous/agent/session.py:24-66 | fresh components, an empty conversation with the system prompt, no history, no turn, created and updated now |
| Sessions.Session.IncrementTurn | src/exorous/agent/session.py:103-107 | one more turn, stamped now, and returns the new count |
| Sessions.Session.GetStats | src/exorous/agent/session.py:109-118 | the id, the creation time in ISO format that reads back as it, the counts of turns, messages, listed tools and MCP tools, and the total usage |
| TextSearch.CountZeroIffAbsent | src/exorous/tools/builtin/edit_file.py:128 | no occurrence is counted iff the pattern does not occur |
| TextSearch.ReplaceAllSingle | src/exorous/tools/builtin/edit_file.py:145-148 | with exactly one occurrence, replacing all is replacing the first |
| TextSearch.ReplaceAllLength | src/exorous/tools/builtin/edit_file.py:145 | each replaced occurrence changes the length by the difference of the two lengths |
| TextSearch.ReplaceUnchangedIff | src/exorous/tools/builtin/edit_file.py:145-148 | when the pattern occurs, a replacement leaves the text unchanged iff the pattern is replaced by itself |
| Time.IsoFormat | agent/persistence.py:23-24 | 19 characters, or 26 with microseconds |
| Time.IsoRoundTrip | agent/persistence.py:23-35 | reading back what isoformat wrote gives the same moment |
| Time.FromIsoFormat | agent/persistence.py:34-35 | `fromisoformat` reads `YYYY-MM-DD[*HH[:MM[:SS[.fff[fff]]]]]` and yields only real moments: the day is bounded by the month's length, leap years included |
| Time.Reads | agent/persistence.py:34-35 | a text of any of the read shapes, with its separators and fields in place, reads as the moment its fields name, missing parts zero and three fraction digits as milliseconds |
| Time.RejectsDay | agent/persistence.py:34-35 | a day past the end of its month is rejected |
| Time.FebruaryThirtyFirst | agent/persistence.py:34-35 | "2024-02-31T00:00:00" is rejected |
| Time.LeapDay | agent/persistence.py:34-35 | the 29th of February 2024 is read; a date alone is midnight |
| Time.CommonYearFebruary | agent/persistence.py:34-35 | the 29th of February 2023 is rejected |
| Time.SpaceSeparated | agent/persistence.py:34-35 | a space may separate date and time, and missing seconds are zero |
| FileStore.Workspace.EnsureParent | src/exorous/utils/paths.py:28-32 | succeeds iff no ancestor is a file; then the ancestors are directories, the parent among them, and the path is returned; a failure creates nothing |
| FileStore.Workspace.WriteText | src/exorous/tools/builtin/write_file.py:91 | succeeds iff the parent is a directory and the path is not one; then the file holds the text, otherwise nothing changes |

## Left out

- The model takes I/O, libraries and non-determinism as inputs:
  - The HTTP transport (`AsyncOpenAI`) and the waits between retries are inputs. The stream is a given sequence of chunks, the attempts a given sequence of outcomes, and the waits are returned as a list of seconds.
  - Files are a map from paths to text, plus a set of directories. The JSON reading and writing of sessions, checkpoints, memory and notes keeps the value it was given.
  - The MCP library, the subprocesses of `shell`, the hook scripts and their temporary files are not run. What they return is an input, and hook runs are recorded in a log.
  - Session ids, checkpoint stamps, uuids and the clock readings of the sub-agent deadline are inputs.
- These are uninterpreted functions or predicates:
  - token counting and `truncate_text`;
  - the regular expressions of the approval policy and of `grep`;
  - `fnmatch` and pydantic validation;
  - the exported JSON schema of a pydantic model;
  - `Path.resolve`;
  - `str()` of a value and the AST parse of a Python file.
- `difflib`'s unified diff text is not modelled; only the diff's file names are.
- The tool's ordering of a `set` (the remaining argument keys in `_ordered_args`) is an input.
- Floats:
  - The compression threshold is the integer comparison 5·used > 4·window. It is proved equal to the 80% test on reals.
  - The temperature is an unbounded real, with no range check.
- `str.splitlines` splits on "\n" only. `lower`/`upper` map ASCII letters only. Digits are ASCII digits.
- `asyncio.gather` in MCP connect and shutdown is modelled as a sequential loop over the clients.
- A message's `tool_call_id` of `None` and one of "" are the same value here. The code treats both as false wherever it tests them.
- Registry: the "Internal error" result carries the metadata `{"tool_name", name}`, a set literal. The model gives it empty metadata.
- `create_default_registry` and the built-in tool classes it registers are not modelled. A new session's registry starts empty.
- Session start-up also does other work that is not modelled:
  - tool discovery;
  - the vector store, code graph and indexing worker;
  - initialising the MCP manager;
  - `_load_all_memory`: the system prompt built from the user memory and the project knowledge is an input to the session. `Knowledge.Formatted` models `get_formatted_knowledge` and its exceptions; that an exception there ends start-up is not modelled.
- Sub-agents: `Config(**config_dict)` re-validation of the sub-agent's configuration is not modelled. The parent's configuration, which was already valid, is reused with two fields replaced.
- The chromadb store, the embedding function, file hashing, `index_file`, `search`, `delete_file` and `reset_index` are not modelled; only the chunkers and the chunk ids are.
- Rich rendering in the terminal interface, `main()`'s prompts and click wiring are not modelled. `/sessions`, `/stats`, `/tools` and `/mcp` only display, so they change nothing here.
- On `/resume` and `/restore`, closing the old client and shutting down the old MCP manager are not modelled.
- `client/response.py` is not part of this model. Its records are taken with the fields the code reads.
- `context/graph.py`, `context/indexer.py`, `tools/discovery.py`, `glob`, `code_search`, `web_search`, `web_fetch` and the `__init__` class lists are not part of this model.
- Commands.ReplayInto: a replayed message whose content or tool call id is neither a string nor missing ends in a `TypeError` here. The context manager itself would store such a value unchecked.
- Commands.ToolCallsOf: a truthy `tool_calls` that is not a list (a non-empty dict or string, a non-zero number, `true`) ends the replay in a `TypeError` here. `add_assistant_message` would store it unchanged, and the model's list of tool calls cannot hold it. Falsy values become `[]`, as `tool_calls or []` makes them.
- Persistence.FromDict: a `session_id` that is not a string, a `turn_count` that is not an integer, or `messages` that is not a list of dicts is rejected with a `TypeError`, and so is a `total_usage` field that is not a token count (next line). The dataclass itself would accept any value.
- Persistence.UsageFromDict: a usage field that is not a non-negative integer is rejected with a `TypeError` (see `UsageField`). `TokenUsage(**d)` accepts any value, and the model's token counts are natural numbers.
- Time.FromIsoFormat: UTC offsets ("+00:00", and "Z" from Python 3.11) are rejected, since the model's moments are naive. The forms only Python 3.11 and later read are rejected too: the compact `20240101T120000`, week dates, and fractions of other than 3 or 6 digits.
- Persistence.ListSessions: a listing where some `updated_at` is not a string raises, instead of Python's comparison of mixed types.
- Persistence.Stamp: years below 1000 are padded to four digits. The platform's `strftime` may print them without padding.
- Agents.Agent.CallTool: a registry tool is taken as a function of its invocation. What a tool changes (the todo list, the memory file, the workspace) is not carried from one call to the next within a run; the tools' own modules model those changes one call at a time.
- Agents.Agent.CallTool: the hooks `invoke` fires are appended to the hook log after the registry call returns, in the order `invoke` fired them. Since a hook run is only logged here, this order is the same as the source's.
- Agents.Agent.Run: the approval manager (its policy and confirmation callback), the registry's tools and what `get_schemas` gives are fixed for the whole run.
- ConfigLoader.MergeDicts: that `_merge_dicts` leaves its arguments unmodified holds by value semantics and is not stated.

## Findings

| source | as written | input that shows it | evidently intended | confidence | as-written member | corrected member |
|---|---|---|---|---|---|---|
| src/exorous/config/config.py:124-130 | the `temperature` property is declared with `@model_name.setter`, so its getter is `model_name`'s and reading `config.temperature` returns `model.name` | any configuration, e.g. model name "gpt-4o", temperature 1: `config.temperature` gives "gpt-4o" | reading `temperature` returns `model.temperature` | not executed | Config.TemperatureReadsModelName | Config.TemperatureRoundTrip |
| src/exorous/main.py:264-305 | the success message of `/restore` names `checkpoint_id`, which `_handle_command` assigns only in its `/checkpoint` branch, so a successful restore raises `UnboundLocalError` (a `NameError`) after the session was already replaced | `/restore abc_20240101_120000` with that checkpoint saved | report the restored checkpoint id (`cmd_args`) | not executed | Commands.Cli.RestoreAsWritten | Commands.Cli.HandleCommand |
