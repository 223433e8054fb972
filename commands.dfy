/**
 * The slash commands of the interactive loop (`CLI._handle_command`): how a command line is
 * split and dispatched, what each command does to the configuration, the session and the
 * saved sessions and checkpoints, and the replay of a saved conversation into a new session.
 */
module Commands {
  import opened Common
  import opened Json
  import Dict
  import Time
  import Response
  import Config
  import Context
  import Sessions
  import Hooks
  import Persistence

  // ---------------------------------------------------------------------
  // Splitting and dispatching

  /** The end of the run of non-whitespace starting at `i`. */
  function WordEnd(s: string, i: nat): (e: nat)
    requires i <= |s|
    ensures i <= e <= |s| && (forall j :: i <= j < e ==> !IsSpace(s[j])) && (e < |s| ==> IsSpace(s[e]))
    decreases |s| - i
  {
    if i < |s| && !IsSpace(s[i]) then WordEnd(s, i + 1) else i
  }

  /** The end of the run of whitespace starting at `i`. */
  function SpaceEnd(s: string, i: nat): (e: nat)
    requires i <= |s|
    ensures i <= e <= |s| && (forall j :: i <= j < e ==> IsSpace(s[j])) && (e < |s| ==> !IsSpace(s[e]))
    decreases |s| - i
  {
    if i < |s| && IsSpace(s[i]) then SpaceEnd(s, i + 1) else i
  }

  const IndexError := "IndexError: list index out of range"

  /**
   * `command.lower().strip().split(maxsplit=1)`, then `parts[0]` and `parts[1]` or "": the
   * command's name and its argument text. A blank line has no `parts[0]`.
   */
  function SplitCommand(command: string): Outcome<(string, string)> {
    var cmd := Strip(Lower(command));
    if cmd == [] then Raised(IndexError)
    else
      var e := WordEnd(cmd, 0);
      Ok((cmd[..e], cmd[SpaceEnd(cmd, e)..]))
  }

  /** The ends of a stripped text are not whitespace. */
  lemma StripEnds(s: string)
    ensures var t := Strip(s); t == [] || (!IsSpace(t[0]) && !IsSpace(t[|t| - 1]))
  {
    var r := RStrip(s);
    var t := LStrip(r);
    if t != [] {
      assert t[|t| - 1] == r[|r| - 1];
    }
  }

  /**
   * The name is the first word of the lower-cased, stripped line and the arguments are the rest
   * after the whitespace that follows it; the split fails exactly on a blank line.
   */
  lemma SplitCommandParts(command: string)
    ensures SplitCommand(command).Raised? <==> !NonBlank(Lower(command))
    ensures SplitCommand(command).Ok? ==> Words(Strip(Lower(command)), SplitCommand(command).value.0, SplitCommand(command).value.1)
  {
    StripEmptyIffBlank(Lower(command));
    var cmd := Strip(Lower(command));
    if cmd != [] {
      StripEnds(Lower(command));
      WordsOf(cmd);
    }
  }

  /**
   * `cmd` is `name`, whitespace, then `args`: a non-empty name without whitespace, and
   * arguments that are empty or start with something other than whitespace, empty exactly
   * when the name is all of `cmd`.
   */
  predicate Words(cmd: string, name: string, args: string) {
    name != [] && |name| + |args| <= |cmd| && cmd[..|name|] == name && cmd[|cmd| - |args|..] == args
    && (forall j :: 0 <= j < |name| ==> !IsSpace(name[j]))
    && (forall j :: |name| <= j < |cmd| - |args| ==> IsSpace(cmd[j]))
    && (args == [] || !IsSpace(args[0]))
    && (args == [] <==> name == cmd)
  }

  /** How `split(maxsplit=1)` cuts a stripped, non-empty text. */
  lemma WordsOf(cmd: string)
    requires cmd != [] && !IsSpace(cmd[0]) && !IsSpace(cmd[|cmd| - 1])
    ensures var e := WordEnd(cmd, 0); Words(cmd, cmd[..e], cmd[SpaceEnd(cmd, e)..])
  {
    var e := WordEnd(cmd, 0);
    var f := SpaceEnd(cmd, e);
    if e < |cmd| {
      assert !IsSpace(cmd[|cmd| - 1]);
      assert f < |cmd|;
    }
  }

  /** A command of the interactive loop, with its argument text where it takes one. */
  datatype Command =
    | Exit
    | Help
    | Clear
    | ShowConfig
    | SetModel(model: string)
    | SetApproval(policy: string)
    | ShowStats
    | ShowTools
    | ShowMcp
    | SaveSession
    | ListSessions
    | Resume(sessionId: string)
    | MakeCheckpoint
    | Restore(checkpointId: string)
    | Unknown(name: string)

  /** The commands of the chain that are recognised by their name alone. */
  function Named(name: string, args: string): Command {
    if name == "/model" then SetModel(args)
    else if name == "/approval" then SetApproval(args)
    else if name == "/stats" then ShowStats
    else if name == "/tools" then ShowTools
    else if name == "/mcp" then ShowMcp
    else if name == "/save" then SaveSession
    else if name == "/sessions" then ListSessions
    else if name == "/resume" then Resume(args)
    else if name == "/checkpoint" then MakeCheckpoint
    else if name == "/restore" then Restore(args)
    else Unknown(name)
  }

  /**
   * The `if`/`elif` chain of `_handle_command` for the line `command` split into `name` and
   * `args`: `/exit` and `/quit` by name; `/help`, `/clear` and `/config` only when the whole
   * line is exactly that text; the others by name.
   */
  function Chain(command: string, name: string, args: string): Command {
    if name == "/exit" || name == "/quit" then Exit
    else if command == "/help" then Help
    else if command == "/clear" then Clear
    else if command == "/config" then ShowConfig
    else Named(name, args)
  }

  /** The command a line asks for, or the error splitting it raises. */
  function Dispatch(command: string): Outcome<Command> {
    var split := SplitCommand(command);
    if split.Raised? then Raised(split.message)
    else Ok(Chain(command, split.value.0, split.value.1))
  }

  /** The names that are compared with the whole line as typed. */
  const ExactNames: set<string> := {"/help", "/clear", "/config"}

  /** Stripping a text whose ends are not whitespace changes nothing. */
  lemma StripKeeps(s: string)
    requires s == [] || (!IsSpace(s[0]) && !IsSpace(s[|s| - 1]))
    ensures Strip(s) == s
  {
  }

  /**
   * A line written as a lower-case name, then a space and lower-case arguments that start and
   * end with something other than whitespace, splits back into that name and those arguments.
   */
  lemma SplitCommandOf(name: string, args: string)
    requires name != [] && Lower(name) == name && forall j :: 0 <= j < |name| ==> !IsSpace(name[j])
    requires args == [] || (Lower(args) == args && !IsSpace(args[0]) && !IsSpace(args[|args| - 1]))
    ensures SplitCommand(Line(name, args)) == Ok((name, args))
  {
    LineCanonical(name, args);
    SplitCanonical(Line(name, args));
    LineWord(name, args);
    LineArgs(name, args);
  }

  /** The first word of a command line is its name. */
  lemma LineWord(name: string, args: string)
    requires name != [] && forall j :: 0 <= j < |name| ==> !IsSpace(name[j])
    ensures var line := Line(name, args); WordEnd(line, 0) == |name| && line[..|name|] == name
  {
    LineParts(name, args);
    WordEndAt(Line(name, args), |name|);
  }

  /** What follows the name and its whitespace in a command line is the arguments. */
  lemma LineArgs(name: string, args: string)
    requires args == [] || !IsSpace(args[0])
    ensures var line := Line(name, args); line[SpaceEnd(line, |name|)..] == args
  {
    if args != [] {
      var line := name + " " + args;
      assert line[|name|] == ' ' && line[|name| + 1] == args[0];
      SpaceEndStop(line, |name| + 1);
      SpaceEndStep(line, |name|);
      assert line[|name| + 1..] == args;
    }
  }

  /** Whitespace at `i` extends the run past it. */
  lemma SpaceEndStep(s: string, i: nat)
    requires i < |s| && s[i] == ' '
    ensures SpaceEnd(s, i) == SpaceEnd(s, i + 1)
  {
  }

  /** A run of whitespace starting at a character that is not whitespace is empty. */
  lemma SpaceEndStop(s: string, i: nat)
    requires i < |s| && !IsSpace(s[i])
    ensures SpaceEnd(s, i) == i
  {
  }

  /** A line that lower-casing and stripping leave alone splits at its own first word. */
  lemma SplitCanonical(line: string)
    requires line != [] && Strip(Lower(line)) == line
    ensures SplitCommand(line) == Ok((line[..WordEnd(line, 0)], line[SpaceEnd(line, WordEnd(line, 0))..]))
  {
  }

  /** A command line is already lower-cased and stripped. */
  lemma LineCanonical(name: string, args: string)
    requires name != [] && Lower(name) == name && !IsSpace(name[0]) && !IsSpace(name[|name| - 1])
    requires args == [] || (Lower(args) == args && !IsSpace(args[0]) && !IsSpace(args[|args| - 1]))
    ensures Strip(Lower(Line(name, args))) == Line(name, args)
  {
    LowerConcat(name, args);
    StripKeeps(Line(name, args));
  }

  /** Where the name, the space and the arguments sit in a command line. */
  lemma LineParts(name: string, args: string)
    ensures var line := Line(name, args);
      line[..|name|] == name && (args != [] ==> line[|name|] == ' ' && line[|name| + 1..] == args)
      && forall j :: 0 <= j < |name| ==> line[j] == name[j]
  {
  }

  /** The word that starts a text ends at the first whitespace. */
  lemma WordEndAt(s: string, k: nat)
    requires k <= |s| && (forall j :: 0 <= j < k ==> !IsSpace(s[j])) && (k < |s| ==> IsSpace(s[k]))
    ensures WordEnd(s, 0) == k
  {
  }

  /** A run of whitespace from `i` ends at the first character that is not whitespace. */
  lemma SpaceEndAt(s: string, i: nat, k: nat)
    requires i <= k <= |s| && (forall j :: i <= j < k ==> IsSpace(s[j])) && (k < |s| ==> !IsSpace(s[k]))
    ensures SpaceEnd(s, i) == k
  {
  }

  /** A command line: the name, then a space and the arguments when there are any. */
  function Line(name: string, args: string): (r: string)
    ensures |r| == if args == [] then |name| else |name| + 1 + |args|
  {
    if args == [] then name else name + " " + args
  }

  /** Lower-casing a command line lower-cases its name and its arguments. */
  lemma LowerConcat(name: string, args: string)
    requires Lower(name) == name && (args == [] || Lower(args) == args)
    ensures Lower(Line(name, args)) == Line(name, args)
  {
    var line := Line(name, args);
    if args != [] {
      forall j | 0 <= j < |line| ensures Lower(line)[j] == line[j] {
        if j < |name| {
          assert line[j] == name[j] && Lower(name)[j] == LowerChar(name[j]);
        } else if j > |name| {
          assert line[j] == args[j - |name| - 1] && Lower(args)[j - |name| - 1] == LowerChar(args[j - |name| - 1]);
        }
      }
    }
  }

  /** `/exit` and `/quit` are the only names that stop the loop. */
  lemma ChainExit(command: string, name: string, args: string)
    ensures Chain(command, name, args) == Exit <==> name in {"/exit", "/quit"}
  {
  }

  /** The loop stops exactly on `/exit` and `/quit`, whatever follows them. */
  lemma DispatchExit(command: string)
    ensures Dispatch(command) == Ok(Exit) <==>
      SplitCommand(command).Ok? && SplitCommand(command).value.0 in {"/exit", "/quit"}
  {
    var split := SplitCommand(command);
    if split.Ok? {
      ChainExit(command, split.value.0, split.value.1);
    }
  }

  /** The chain for a name compared with the whole line. */
  lemma ChainExact(command: string, name: string, args: string)
    requires name in ExactNames
    ensures command == "/help" ==> Chain(command, name, args) == Help
    ensures command == "/clear" ==> Chain(command, name, args) == Clear
    ensures command == "/config" ==> Chain(command, name, args) == ShowConfig
    ensures command !in ExactNames ==> Chain(command, name, args) == Unknown(name)
  {
  }

  /**
   * `/help`, `/clear` and `/config` are compared with the line as typed: in any other letter
   * case, or followed by arguments, they are unknown commands.
   */
  lemma DispatchExactCommands(command: string)
    requires SplitCommand(command).Ok? && SplitCommand(command).value.0 in ExactNames
    ensures command == "/help" ==> Dispatch(command) == Ok(Help)
    ensures command == "/clear" ==> Dispatch(command) == Ok(Clear)
    ensures command == "/config" ==> Dispatch(command) == Ok(ShowConfig)
    ensures command !in ExactNames ==> Dispatch(command) == Ok(Unknown(SplitCommand(command).value.0))
  {
    var split := SplitCommand(command);
    ChainExact(command, split.value.0, split.value.1);
  }

  /** A line that is exactly `/help`, `/clear` or `/config` splits into that name alone. */
  lemma ExactSplit(command: string)
    requires command in ExactNames
    ensures SplitCommand(command) == Ok((command, ""))
  {
    assert forall j :: 0 <= j < |command| ==> !IsSpace(command[j]) && LowerChar(command[j]) == command[j];
    assert Lower(command) == command;
    SplitCommandOf(command, "");
  }

  /** Away from the names compared with the whole line, the chain depends on the name alone. */
  lemma ChainByName(command: string, name: string, args: string)
    requires name !in ExactNames && (command in ExactNames ==> command == name)
    ensures Chain(command, name, args) == if name in {"/exit", "/quit"} then Exit else Named(name, args)
  {
  }

  /**
   * Apart from `/help`, `/clear` and `/config`, letter case does not matter: two lines that
   * lower-case alike dispatch alike.
   */
  lemma DispatchIgnoresCase(c1: string, c2: string)
    requires Lower(c1) == Lower(c2)
    requires SplitCommand(c1).Ok? ==> SplitCommand(c1).value.0 !in ExactNames
    ensures Dispatch(c1) == Dispatch(c2)
  {
    var split := SplitCommand(c1);
    assert split == SplitCommand(c2);
    if split.Ok? {
      if c1 in ExactNames {
        ExactSplit(c1);
      }
      if c2 in ExactNames {
        ExactSplit(c2);
      }
      ChainByName(c1, split.value.0, split.value.1);
      ChainByName(c2, split.value.0, split.value.1);
    }
  }

  /** A line with a space in it is none of the names compared with the whole line. */
  lemma SpacedNotExact(line: string, k: nat)
    requires k < |line| && line[k] == ' '
    ensures line !in ExactNames
  {
  }

  /**
   * The commands other than `/exit`, `/quit`, `/help`, `/clear` and `/config` are recognised by
   * their name, and the arguments they are given arrive lower-cased and stripped.
   */
  lemma DispatchNamed(name: string, args: string)
    requires name != [] && Lower(name) == name && forall j :: 0 <= j < |name| ==> !IsSpace(name[j])
    requires args == [] || (Lower(args) == args && !IsSpace(args[0]) && !IsSpace(args[|args| - 1]))
    requires name !in ExactNames && name != "/exit" && name != "/quit"
    ensures Dispatch(Line(name, args)) == Ok(Named(name, args))
  {
    SplitCommandOf(name, args);
    var line := Line(name, args);
    if args != [] {
      SpacedNotExact(line, |name|);
    }
    ChainByName(line, name, args);
  }

  /** `Named` picks the command by its name and hands it the arguments. */
  lemma NamedCommands(name: string, args: string)
    ensures Named(name, args).SetModel? <==> name == "/model"
    ensures Named(name, args).SetApproval? <==> name == "/approval"
    ensures Named(name, args).Resume? <==> name == "/resume"
    ensures Named(name, args).Restore? <==> name == "/restore"
    ensures Named(name, args) in {SetModel(args), SetApproval(args), Resume(args), Restore(args)} || !Named(name, args).Unknown?
            || Named(name, args) == Unknown(name)
    ensures Named(name, args).Unknown? <==>
      name !in {"/model", "/approval", "/stats", "/tools", "/mcp", "/save", "/sessions", "/resume", "/checkpoint", "/restore"}
  {
  }

  // ---------------------------------------------------------------------
  // Replaying a saved conversation

  /** `msg.get(key, default)` used as text. */
  function TextOr(msg: Object, key: string, default: string): Outcome<string> {
    var v := Dict.Get(msg, key);
    if v.None? then Ok(default)
    else if v.value.JStr? then Ok(v.value.s)
    else Raised("TypeError: " + key + " is not a str")
  }

  /** `msg.get(key, default)` where `None` is also accepted. */
  function OptionalTextOr(msg: Object, key: string, default: string): Outcome<Option<string>> {
    var v := Dict.Get(msg, key);
    if v.None? then Ok(Some(default))
    else if v.value.JNull? then Ok(None)
    else if v.value.JStr? then Ok(Some(v.value.s))
    else Raised("TypeError: " + key + " is not a str")
  }

  /**
   * `msg.get("tool_calls")` as `tool_calls or []` stores it: a missing or falsy value gives no
   * calls, a list its items; a truthy value of another type is outside the model's list of calls.
   */
  function ToolCallsOf(msg: Object): (r: Outcome<Option<seq<Json>>>)
    ensures var v := Dict.Get(msg, "tool_calls");
      (r.Raised? <==> v.Some? && Truthy(v.value) && !v.value.JArr?)
      && (r.Ok? ==> r.value.GetOr([]) == if v.Some? && v.value.JArr? then v.value.items else [])
  {
    var v := Dict.Get(msg, "tool_calls");
    if v.None? || !Truthy(v.value) then Ok(None)
    else if v.value.JArr? then Ok(Some(v.value.items))
    else Raised("TypeError: tool_calls is not a list")
  }

  /**
   * One turn of the replay loop: system messages are skipped, a message without a role raises
   * `KeyError`, user, assistant and tool messages are added as the context manager adds them,
   * and any other role is skipped.
   */
  function ReplayMessage(msg: Object, tokens: string -> nat): Outcome<Option<Context.MessageItem>> {
    var role := Dict.Get(msg, "role");
    if role == Some(JStr("system")) then Ok(None)
    else if role.None? then Raised("KeyError: 'role'")
    else if role.value == JStr("user") then
      var c := TextOr(msg, "content", "");
      if c.Raised? then Raised(c.message)
      else Ok(Some(Context.NewItem(Context.User, c.value, [], [], tokens)))
    else if role.value == JStr("assistant") then
      var c := OptionalTextOr(msg, "content", "");
      var calls := ToolCallsOf(msg);
      if c.Raised? then Raised(c.message)
      else if calls.Raised? then Raised(calls.message)
      else Ok(Some(Context.NewItem(Context.Assistant, c.value.GetOr(""), [], calls.value.GetOr([]), tokens)))
    else if role.value == JStr("tool") then
      var id := TextOr(msg, "tool_call_id", "");
      var c := TextOr(msg, "content", "");
      if id.Raised? then Raised(id.message)
      else if c.Raised? then Raised(c.message)
      else Ok(Some(Context.NewItem(Context.Tool, c.value, id.value, [], tokens)))
    else Ok(None)
  }

  /** The items the replay loop adds for `msgs`, or the error of the first message that raises. */
  function Replay(msgs: seq<Object>, tokens: string -> nat): Outcome<seq<Context.MessageItem>>
    decreases |msgs|
  {
    if msgs == [] then Ok([])
    else
      var init := Replay(msgs[..|msgs| - 1], tokens);
      if init.Raised? then init
      else
        var m := ReplayMessage(msgs[|msgs| - 1], tokens);
        if m.Raised? then Raised(m.message)
        else if m.value.Some? then Ok(init.value + [m.value.value])
        else init
  }

  /** Once a message raises, the replay stops with its error. */
  lemma {:induction false} ReplayStops(msgs: seq<Object>, i: nat, tokens: string -> nat)
    requires i < |msgs| && Replay(msgs[..i], tokens).Ok? && ReplayMessage(msgs[i], tokens).Raised?
    ensures Replay(msgs, tokens) == Raised(ReplayMessage(msgs[i], tokens).message)
  {
    assert msgs[..i + 1][..i] == msgs[..i];
    ReplayRaisedPrefix(msgs, i + 1, tokens);
  }

  /** A replay that fails on a prefix fails the same way on the whole. */
  lemma {:induction false} ReplayRaisedPrefix(msgs: seq<Object>, k: nat, tokens: string -> nat)
    requires k <= |msgs| && Replay(msgs[..k], tokens).Raised?
    ensures Replay(msgs, tokens) == Replay(msgs[..k], tokens)
    decreases |msgs| - k
  {
    if k == |msgs| {
      assert msgs[..k] == msgs;
    } else {
      assert msgs[..k + 1][..k] == msgs[..k];
      ReplayRaisedPrefix(msgs, k + 1, tokens);
    }
  }

  /** The replay loop of `/resume` and `/restore`, adding each message to `ctx`. */
  method ReplayInto(ctx: Context.ContextManager, msgs: seq<Object>) returns (r: Outcome<()>)
    modifies ctx`messages
    ensures Replay(msgs, ctx.tokens).Raised? ==> r == Raised(Replay(msgs, ctx.tokens).message)
    ensures Replay(msgs, ctx.tokens).Ok? ==> r == Ok(()) && ctx.messages == old(ctx.messages) + Replay(msgs, ctx.tokens).value
  {
    for i := 0 to |msgs|
      invariant Replay(msgs[..i], ctx.tokens).Ok?
      invariant ctx.messages == old(ctx.messages) + Replay(msgs[..i], ctx.tokens).value
    {
      assert msgs[..i + 1][..i] == msgs[..i];
      var msg := msgs[i];
      var role := Dict.Get(msg, "role");
      if role == Some(JStr("system")) {
        continue;
      } else if role.None? {
        ReplayStops(msgs, i, ctx.tokens);
        return Raised("KeyError: 'role'");
      } else if role.value == JStr("user") {
        var c := TextOr(msg, "content", "");
        if c.Raised? {
          ReplayStops(msgs, i, ctx.tokens);
          return Raised(c.message);
        }
        ctx.AddUserMessage(c.value);
      } else if role.value == JStr("assistant") {
        var c := OptionalTextOr(msg, "content", "");
        var calls := ToolCallsOf(msg);
        if c.Raised? {
          ReplayStops(msgs, i, ctx.tokens);
          return Raised(c.message);
        } else if calls.Raised? {
          ReplayStops(msgs, i, ctx.tokens);
          return Raised(calls.message);
        }
        ctx.AddAssistantMessage(c.value, calls.value);
      } else if role.value == JStr("tool") {
        var id := TextOr(msg, "tool_call_id", "");
        var c := TextOr(msg, "content", "");
        if id.Raised? {
          ReplayStops(msgs, i, ctx.tokens);
          return Raised(id.message);
        } else if c.Raised? {
          ReplayStops(msgs, i, ctx.tokens);
          return Raised(c.message);
        }
        ctx.AddToolResult(id.value, c.value);
      }
    }
    assert msgs[..|msgs|] == msgs;
    return Ok(());
  }

  /** An item as the context manager builds it: its token count is that of its content. */
  predicate Replayable(m: Context.MessageItem, tokens: string -> nat) {
    m.tokenCount == tokens(m.content)
    && (m.role == Context.User ==> m.toolCallId == [] && m.toolCalls == [])
    && (m.role == Context.Assistant ==> m.toolCallId == [])
    && (m.role == Context.Tool ==> m.toolCalls == [])
  }

  /** An item's dictionary replays to the item, without its pruning time. */
  lemma ReplayMessageOfDict(m: Context.MessageItem, tokens: string -> nat)
    requires Replayable(m, tokens)
    ensures ReplayMessage(Context.ToDict(m), tokens) == Ok(Some(m.(prunedAt := None)))
  {
    Context.ToDictFields(m);
  }

  /** The items of a context without their pruning times. */
  function Unmarked(ms: seq<Context.MessageItem>): (r: seq<Context.MessageItem>)
    ensures |r| == |ms| && forall i :: 0 <= i < |ms| ==> r[i] == ms[i].(prunedAt := None)
  {
    seq(|ms|, i requires 0 <= i < |ms| => ms[i].(prunedAt := None))
  }

  /**
   * Replaying what `get_messages` returns for a context rebuilds the context's items, only
   * without their pruning times: the system prompt is skipped and every item comes back.
   */
  lemma {:induction false} ReplayWireMessages(systemPrompt: string, ms: seq<Context.MessageItem>, tokens: string -> nat)
    requires forall i :: 0 <= i < |ms| ==> Replayable(ms[i], tokens)
    ensures Replay(Context.WireMessages(systemPrompt, ms), tokens) == Ok(Unmarked(ms))
    decreases |ms|
  {
    if ms == [] {
      ReplayWireEmpty(systemPrompt, tokens);
    } else {
      var n := |ms| - 1;
      var init := ms[..n];
      assert ms == init + [ms[n]];
      ReplayWireMessages(systemPrompt, init, tokens);
      Context.WireMessagesAppend(systemPrompt, init, ms[n]);
      ReplayMessageOfDict(ms[n], tokens);
      ReplaySnoc(Context.WireMessages(systemPrompt, init), Context.ToDict(ms[n]), tokens);
      UnmarkedSnoc(init, ms[n]);
    }
  }

  /** The system prompt alone replays to nothing. */
  lemma ReplayWireEmpty(systemPrompt: string, tokens: string -> nat)
    ensures Replay(Context.WireMessages(systemPrompt, []), tokens) == Ok([])
  {
    var w := Context.WireMessages(systemPrompt, []);
    if systemPrompt != [] {
      assert w == [Context.SystemDict(systemPrompt)];
      assert Dict.Get(Context.SystemDict(systemPrompt), "role") == Some(JStr("system"));
      assert w[..0] == [];
    } else {
      assert w == [];
    }
  }

  /** A message that replays to an item adds that item to the replay. */
  lemma ReplaySnoc(msgs: seq<Object>, d: Object, tokens: string -> nat)
    requires Replay(msgs, tokens).Ok? && ReplayMessage(d, tokens).Ok? && ReplayMessage(d, tokens).value.Some?
    ensures Replay(msgs + [d], tokens) == Ok(Replay(msgs, tokens).value + [ReplayMessage(d, tokens).value.value])
  {
    assert (msgs + [d])[..|msgs|] == msgs;
  }

  lemma UnmarkedSnoc(ms: seq<Context.MessageItem>, m: Context.MessageItem)
    ensures Unmarked(ms + [m]) == Unmarked(ms) + [m.(prunedAt := None)]
  {
  }

  /** A moment read back from a file is a valid date and time. */
  lemma MomentValid(j: Outcome<Json>)
    ensures Persistence.Moment(j).Ok? ==> Time.Valid(Persistence.Moment(j).value)
  {
  }

  /** A snapshot read from a dictionary holds valid times. */
  lemma FromDictStorable(data: Object)
    ensures Persistence.FromDict(data).Ok? ==> Persistence.Storable(Persistence.FromDict(data).value)
  {
    MomentValid(Persistence.Item(data, Persistence.CreatedAtKey));
    MomentValid(Persistence.Item(data, Persistence.UpdatedAtKey));
  }

  /** A loaded snapshot holds valid times. */
  lemma LoadStorable(dir: Persistence.Dir, id: string)
    ensures var r := Persistence.Load(dir, id);
      r.Ok? && r.value.Some? ==> Persistence.Storable(r.value.value)
  {
    var r := Persistence.Load(dir, id);
    if r.Ok? && r.value.Some? {
      FromDictStorable(dir[Persistence.FileName(id)].content.fields);
    }
  }

  /**
   * Saving a session and resuming it gives back the session's identity, times, turn count and
   * usage, and replays its conversation into the items it had.
   */
  lemma SaveThenResume(dir: Persistence.Dir, s: Persistence.SessionSnapshot, systemPrompt: string,
                       ms: seq<Context.MessageItem>, tokens: string -> nat)
    requires Persistence.Storable(s) && s.messages == Context.WireMessages(systemPrompt, ms)
    requires forall i :: 0 <= i < |ms| ==> Replayable(ms[i], tokens)
    ensures Persistence.Load(Persistence.Save(dir, s.sessionId, s), s.sessionId) == Ok(Some(s))
    ensures Replay(s.messages, tokens) == Ok(Unmarked(ms))
  {
    Persistence.SaveLoad(dir, s, s.sessionId);
    ReplayWireMessages(systemPrompt, ms, tokens);
  }

  // ---------------------------------------------------------------------
  // The command handler

  /** The snapshot of a session, with its conversation as `get_messages` returns it. */
  function SnapshotOf(s: Sessions.Session): Persistence.SessionSnapshot
    reads s, s.ctx
  {
    Persistence.SessionSnapshot(s.sessionId, s.createdAt, s.updatedAt, s.turnCount,
                                Context.WireMessages(s.ctx.systemPrompt, s.ctx.messages), s.ctx.totalUsage)
  }

  const UnboundLocal := "UnboundLocalError: cannot access local variable 'checkpoint_id' where it is not associated with a value"

  /** The interactive loop's state: the configuration, the agent's session and the two save directories. */
  class Cli {
    var config: Config.AgentConfig
    var session: Sessions.Session
    /** The files under the sessions directory. */
    var sessions: Persistence.Dir
    /** The files under the checkpoints directory. */
    var checkpoints: Persistence.Dir
    /** The environment the hooks run in. */
    const environ: Hooks.Env
    /** The rendered system prompt a new session starts with. */
    const systemPrompt: string

    /** Every time a session holds is a valid date and time. */
    ghost predicate Valid()
      reads this, session, session.detector, session.registry
    {
      session.Valid() && Time.Valid(session.updatedAt)
    }

    constructor(config: Config.AgentConfig, session: Sessions.Session, sessions: Persistence.Dir,
                checkpoints: Persistence.Dir, environ: Hooks.Env, systemPrompt: string)
      ensures this.config == config && this.session == session && this.sessions == sessions
      ensures this.checkpoints == checkpoints && this.environ == environ && this.systemPrompt == systemPrompt
    {
      this.config := config;
      this.session := session;
      this.sessions := sessions;
      this.checkpoints := checkpoints;
      this.environ := environ;
      this.systemPrompt := systemPrompt;
    }

    /** The `SessionSnapshot` `/save` and `/checkpoint` build from the current session. */
    method Snapshot() returns (s: Persistence.SessionSnapshot)
      requires Valid()
      ensures s == SnapshotOf(session) && Persistence.Storable(s)
    {
      var messages := session.ctx.GetMessages();
      s := Persistence.SessionSnapshot(session.sessionId, session.createdAt, session.updatedAt,
                                       session.turnCount, messages, session.ctx.totalUsage);
    }

    /** `/save`: the current session's snapshot is written under its id. */
    method SaveCurrent()
      requires Valid()
      modifies this`sessions
      ensures sessions == Persistence.Save(old(sessions), session.sessionId, SnapshotOf(session))
    {
      var snapshot := Snapshot();
      sessions := Persistence.Save(sessions, snapshot.sessionId, snapshot);
    }

    /** `/checkpoint`: the current session's snapshot is written under a new checkpoint id, which is returned. */
    method CheckpointCurrent(now: Time.DateTime) returns (id: string)
      requires Valid() && Time.Valid(now)
      modifies this`checkpoints
      ensures id == Persistence.SaveCheckpoint(old(checkpoints), SnapshotOf(session), now).0
      ensures checkpoints == Persistence.SaveCheckpoint(old(checkpoints), SnapshotOf(session), now).1
    {
      var snapshot := Snapshot();
      id, checkpoints := Persistence.SaveCheckpoint(checkpoints, snapshot, now).0, Persistence.SaveCheckpoint(checkpoints, snapshot, now).1;
    }

    /** `/clear`: the conversation and the loop detector's history are emptied. */
    method ClearConversation()
      modifies session.ctx`messages, session.detector`history
      ensures session.ctx.messages == [] && session.detector.history == []
    {
      session.ctx.Clear();
      session.detector.Clear();
    }

    /** `/model`: with arguments, they become the model name. */
    method ChangeModel(args: string)
      modifies this`config
      ensures config == if args != [] then Config.SetModelName(old(config), args) else old(config)
    {
      if args != [] {
        config := Config.SetModelName(config, args);
      }
    }

    /** `/approval`: with a valid policy value as argument, it becomes the policy; otherwise nothing changes. */
    method ChangeApproval(args: string)
      modifies this`config
      ensures args != [] && Config.ParsePolicy(args).Some? ==> config == old(config).(approval := Config.ParsePolicy(args).value)
      ensures args == [] || Config.ParsePolicy(args).None? ==> config == old(config)
    {
      if args != [] {
        var approval := Config.ParsePolicy(args);
        if approval.Some? {
          config := config.(approval := approval.value);
        }
      }
    }

    /**
     * The new session `/resume` and `/restore` install: a fresh session for the configuration,
     * given the snapshot's identity, times, turn count and usage, with the snapshot's
     * conversation replayed into it. `freshId` is the id the new session draws before it is
     * replaced and `now` the clock's reading.
     */
    method Rebuild(snapshot: Persistence.SessionSnapshot, tokens: string -> nat, freshId: string, now: Time.DateTime)
      returns (r: Outcome<Sessions.Session>)
      requires Time.Valid(now) && Persistence.Storable(snapshot)
      ensures Replay(snapshot.messages, tokens).Raised? ==> r == Raised(Replay(snapshot.messages, tokens).message)
      ensures Replay(snapshot.messages, tokens).Ok? ==>
        r.Ok? && fresh(r.value) && fresh(r.value.ctx) && fresh(r.value.detector) && fresh(r.value.registry)
        && r.value.sessionId == snapshot.sessionId && r.value.createdAt == snapshot.createdAt
        && r.value.updatedAt == snapshot.updatedAt && r.value.turnCount == snapshot.turnCount
        && r.value.ctx.totalUsage == snapshot.totalUsage && r.value.ctx.systemPrompt == systemPrompt
        && r.value.ctx.tokens == tokens
        && r.value.ctx.messages == Replay(snapshot.messages, tokens).value
        && r.value.detector.history == [] && r.value.Valid() && Time.Valid(r.value.updatedAt)
    {
      var s := new Sessions.Session(config, environ, systemPrompt, config.model.contextWindow, tokens, freshId, now);
      s.sessionId := snapshot.sessionId;
      s.createdAt := snapshot.createdAt;
      s.updatedAt := snapshot.updatedAt;
      s.turnCount := snapshot.turnCount;
      s.ctx.totalUsage := snapshot.totalUsage;
      var replayed := ReplayInto(s.ctx, snapshot.messages);
      if replayed.Raised? {
        return Raised(replayed.message);
      }
      return Ok(s);
    }

    /**
     * What reopening `snapshot` leaves: when its conversation replays, a session with the
     * snapshot's identity, times, turn count, usage and replayed items and an empty loop
     * history; otherwise the error and the `previous` session.
     */
    ghost predicate Reopened(r: Outcome<bool>, snapshot: Persistence.SessionSnapshot, tokens: string -> nat,
                             previous: Sessions.Session)
      reads this, session, session.ctx, session.detector
    {
      var replayed := Replay(snapshot.messages, tokens);
      (replayed.Raised? ==> r == Raised(replayed.message) && session == previous)
      && (replayed.Ok? ==>
            r == Ok(true) && session != previous && session.sessionId == snapshot.sessionId
            && session.createdAt == snapshot.createdAt && session.updatedAt == snapshot.updatedAt
            && session.turnCount == snapshot.turnCount && session.ctx.totalUsage == snapshot.totalUsage
            && session.ctx.systemPrompt == systemPrompt && session.ctx.tokens == tokens
            && session.ctx.messages == replayed.value && session.detector.history == [])
    }

    /**
     * `/resume <id>` and `/restore <id>` once the id is given: nothing happens when there is no
     * such file; otherwise the rebuilt session replaces the current one.
     */
    method Reopen(dir: Persistence.Dir, id: string, tokens: string -> nat, freshId: string, now: Time.DateTime)
      returns (r: Outcome<bool>)
      requires Valid() && Time.Valid(now)
      modifies this`session
      ensures Valid() && (session != old(session) ==> fresh(session))
      ensures var loaded := Persistence.Load(dir, id);
        (loaded.Raised? ==> r == Raised(loaded.message) && session == old(session))
        && (loaded == Ok(None) ==> r == Ok(true) && session == old(session))
        && (loaded.Ok? && loaded.value.Some? ==> Reopened(r, loaded.value.value, tokens, old(session)))
    {
      var loaded := Persistence.Load(dir, id);
      if loaded.Raised? {
        return Raised(loaded.message);
      }
      if loaded.value.None? {
        return Ok(true);
      }
      LoadStorable(dir, id);
      var rebuilt := Rebuild(loaded.value.value, tokens, freshId, now);
      if rebuilt.Raised? {
        return Raised(rebuilt.message);
      }
      session := rebuilt.value;
      return Ok(true);
    }

    /**
     * `/restore <id>` as written: after the session is replaced, the success message names
     * `checkpoint_id`, which is only assigned under `/checkpoint`, so the handler raises
     * `UnboundLocalError` and the loop ends.
     */
    method RestoreAsWritten(id: string, tokens: string -> nat, freshId: string, now: Time.DateTime)
      returns (r: Outcome<bool>)
      requires Valid() && Time.Valid(now)
      modifies this`session
      ensures Valid()
      ensures var loaded := Persistence.Load(checkpoints, id);
        loaded.Ok? && loaded.value.Some? && Replay(loaded.value.value.messages, tokens).Ok? ==>
          r == Raised(UnboundLocal) && fresh(session) && session.sessionId == loaded.value.value.sessionId
    {
      r := Reopen(checkpoints, id, tokens, freshId, now);
      var loaded := Persistence.Load(checkpoints, id);
      if loaded.Ok? && loaded.value.Some? && r.Ok? {
        r := Raised(UnboundLocal);
      }
    }

    /**
     * What carrying out `c` did, from the state before to the state now, `previous` being the
     * session before: the result tells whether the loop goes on; `/clear` empties the
     * conversation and the loop history; `/model` and `/approval` change the configuration;
     * `/save` and `/checkpoint` write the current snapshot; `/resume` and `/restore` reopen a
     * saved session; the rest changes nothing.
     */
    twostate predicate Performed(c: Command, new r: Outcome<bool>, tokens: string -> nat, now: Time.DateTime,
                                 previous: Sessions.Session)
      reads this, session, session.ctx, session.detector, previous, previous.ctx, previous.detector
    {
      (r == Ok(false) <==> c == Exit)
      && (!c.Resume? && !c.Restore? ==> r.Ok? && session == previous)
      && (c == Clear ==> session.ctx.messages == [] && session.detector.history == [])
      && (c != Clear ==>
            previous.ctx.messages == old(previous.ctx.messages) && previous.detector.history == old(previous.detector.history))
      && (c.SetModel? ==> config == if c.model != [] then Config.SetModelName(old(config), c.model) else old(config))
      && (c.SetApproval? ==>
            config == if c.policy != [] && Config.ParsePolicy(c.policy).Some?
                      then old(config).(approval := Config.ParsePolicy(c.policy).value) else old(config))
      && (!c.SetModel? && !c.SetApproval? ==> config == old(config))
      && (c == SaveSession ==>
            Persistence.Storable(SnapshotOf(session))
            && sessions == Persistence.Save(old(sessions), session.sessionId, SnapshotOf(session)))
      && (c != SaveSession ==> sessions == old(sessions))
      && (c == MakeCheckpoint ==>
            Persistence.Storable(SnapshotOf(session)) && Time.Valid(now)
            && checkpoints == Persistence.SaveCheckpoint(old(checkpoints), SnapshotOf(session), now).1)
      && (c != MakeCheckpoint ==> checkpoints == old(checkpoints))
      && (c.Resume? || c.Restore? ==>
            var id := if c.Resume? then c.sessionId else c.checkpointId;
            var loaded := Persistence.Load(if c.Resume? then sessions else checkpoints, id);
            (id == [] || loaded == Ok(None) ==> r == Ok(true) && session == previous)
            && (id != [] && loaded.Raised? ==> r == Raised(loaded.message) && session == previous)
            && (id != [] && loaded.Ok? && loaded.value.Some? ==> Reopened(r, loaded.value.value, tokens, previous)))
    }

    /** The commands that only print, and `/exit`. */
    method PerformDisplay(c: Command, tokens: string -> nat, now: Time.DateTime) returns (r: Outcome<bool>)
      requires Valid() && Time.Valid(now)
      requires c in {Exit, Help, ShowConfig, ShowStats, ShowTools, ShowMcp, ListSessions} || c.Unknown?
      ensures Performed(c, r, tokens, now, old(session))
    {
      r := if c == Exit then Ok(false) else Ok(true);
    }

    /** `/clear`. */
    method PerformClear(tokens: string -> nat, now: Time.DateTime) returns (r: Outcome<bool>)
      requires Valid() && Time.Valid(now)
      modifies session.ctx`messages, session.detector`history
      ensures Valid() && Performed(Clear, r, tokens, now, old(session))
    {
      ClearConversation();
      r := Ok(true);
    }

    /** `/model` and `/approval`. */
    method PerformSettings(c: Command, tokens: string -> nat, now: Time.DateTime) returns (r: Outcome<bool>)
      requires Valid() && Time.Valid(now) && (c.SetModel? || c.SetApproval?)
      modifies this`config
      ensures Performed(c, r, tokens, now, old(session))
    {
      if c.SetModel? {
        ChangeModel(c.model);
      } else {
        ChangeApproval(c.policy);
      }
      r := Ok(true);
    }

    /** `/save`. */
    method PerformSave(tokens: string -> nat, now: Time.DateTime) returns (r: Outcome<bool>)
      requires Valid() && Time.Valid(now)
      modifies this`sessions
      ensures Performed(SaveSession, r, tokens, now, old(session))
    {
      SaveCurrent();
      r := Ok(true);
    }

    /** `/checkpoint`. */
    method PerformCheckpoint(tokens: string -> nat, now: Time.DateTime) returns (r: Outcome<bool>)
      requires Valid() && Time.Valid(now)
      modifies this`checkpoints
      ensures Performed(MakeCheckpoint, r, tokens, now, old(session))
    {
      var id := CheckpointCurrent(now);
      r := Ok(true);
    }

    /** `/resume` and `/restore`. */
    method PerformReopen(c: Command, tokens: string -> nat, freshId: string, now: Time.DateTime) returns (r: Outcome<bool>)
      requires Valid() && Time.Valid(now) && (c.Resume? || c.Restore?)
      modifies this`session
      ensures Valid() && (session != old(session) ==> fresh(session))
      ensures Performed(c, r, tokens, now, old(session))
    {
      var id := if c.Resume? then c.sessionId else c.checkpointId;
      if id == [] {
        return Ok(true);
      }
      r := Reopen(if c.Resume? then sessions else checkpoints, id, tokens, freshId, now);
    }

    /** The commands that change neither the saved files nor the session object. */
    method PerformLocal(c: Command, tokens: string -> nat, now: Time.DateTime) returns (r: Outcome<bool>)
      requires Valid() && Time.Valid(now)
      requires !c.Resume? && !c.Restore? && c != SaveSession && c != MakeCheckpoint
      modifies this`config, session.ctx`messages, session.detector`history
      ensures Valid() && Performed(c, r, tokens, now, old(session))
    {
      if c == Clear {
        r := PerformClear(tokens, now);
      } else if c.SetModel? || c.SetApproval? {
        r := PerformSettings(c, tokens, now);
      } else {
        r := PerformDisplay(c, tokens, now);
      }
    }

    /**
     * One branch of `_handle_command`, with `/restore` reporting the restored checkpoint by the
     * id it was given.
     */
    method Perform(c: Command, tokens: string -> nat, freshId: string, now: Time.DateTime) returns (r: Outcome<bool>)
      requires Valid() && Time.Valid(now)
      modifies this, session.ctx`messages, session.detector`history
      ensures Valid() && (session != old(session) ==> fresh(session))
      ensures Performed(c, r, tokens, now, old(session))
    {
      if c.Resume? || c.Restore? {
        r := PerformReopen(c, tokens, freshId, now);
      } else if c == SaveSession {
        r := PerformSave(tokens, now);
      } else if c == MakeCheckpoint {
        r := PerformCheckpoint(tokens, now);
      } else {
        r := PerformLocal(c, tokens, now);
      }
    }

    /**
     * `_handle_command`: the line is split and dispatched, and the command carried out.
     * `tokens` counts tokens for the configured model, `freshId` is the id a new session draws
     * and `now` the clock's reading. The result is whether the loop goes on, or the exception
     * that leaves the handler; `dispatched` names the command the line asked for.
     */
    method HandleCommand(command: string, tokens: string -> nat, freshId: string, now: Time.DateTime)
      returns (r: Outcome<bool>, ghost dispatched: Outcome<Command>)
      requires Valid() && Time.Valid(now)
      modifies this, session.ctx`messages, session.detector`history
      ensures Valid() && (session != old(session) ==> fresh(session))
      ensures dispatched == Dispatch(command)
      ensures dispatched.Raised? ==> r == Raised(dispatched.message) && unchanged(this)
      ensures dispatched.Ok? ==> Performed(dispatched.value, r, tokens, now, old(session))
    {
      var c := Dispatch(command);
      dispatched := c;
      if c.Raised? {
        return Raised(c.message), dispatched;
      }
      r := Perform(c.value, tokens, freshId, now);
    }
  }
}
