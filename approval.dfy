/**
 * The approval policy of `safety/approval.py`: how the policy mode, the command,
 * the affected paths and the dangerous flag decide whether a tool call may run.
 */
module Approval {
  import opened Common
  import opened Paths
  import opened Config
  import opened ToolBase

  datatype Decision = Approved | Rejected | NeedsConfirmation

  datatype ApprovalContext = ApprovalContext(
    toolName: string,
    params: Json.Object,
    isMutating: bool,
    affectedPaths: seq<Path>,
    command: Option<string>,
    isDangerous: bool)

  /** Some pattern of the list matches; `search(pattern, text)` stands for `re.search(..., re.IGNORECASE)`. */
  predicate AnyMatch(search: (string, string) -> bool, patterns: seq<string>, command: string) {
    exists i :: 0 <= i < |patterns| && search(patterns[i], command)
  }

  /** `DANGEROUS_PATTERNS`: commands that are refused outright (regular expressions, searched case-insensitively). */
  predicate IsDangerousCommand(search: (string, string) -> bool, command: string) {
    AnyMatch(search, [
      @"rm\s+(-rf?|--recursive)\s+[/~]",
      @"rm\s+-rf?\s+\*",
      @"rmdir\s+[/~]",
      @"dd\s+if=",
      "mkfs",
      "fdisk",
      "parted",
      "shutdown",
      "reboot",
      "halt",
      "poweroff",
      @"init\s+[06]",
      @"chmod\s+(-R\s+)?777\s+[/~]",
      @"chown\s+-R\s+.*\s+[/~]",
      @"nc\s+-l",
      @"netcat\s+-l",
      @"curl\s+.*\|\s*(bash|sh)",
      @"wget\s+.*\|\s*(bash|sh)",
      @":\(\)\s*\{\s*:\|:&\s*\}\s*;"
    ], command)
  }

  /** `SAFE_PATTERNS`: commands that may be approved without asking. */
  predicate IsSafeCommand(search: (string, string) -> bool, command: string) {
    AnyMatch(search, [
      @"^(ls|dir|pwd|cd|echo|cat|head|tail|less|more|wc)(\s|$)",
      @"^(find|locate|which|whereis|file|stat)(\s|$)",
      @"^git\s+(status|log|diff|show|branch|remote|tag)(\s|$)",
      @"^(npm|yarn|pnpm)\s+(list|ls|outdated)(\s|$)",
      @"^pip\s+(list|show|freeze)(\s|$)",
      @"^cargo\s+(tree|search)(\s|$)",
      @"^(grep|awk|sed|cut|sort|uniq|tr|diff|comm)(\s|$)",
      @"^(date|cal|uptime|whoami|id|groups|hostname|uname)(\s|$)",
      @"^(env|printenv|set)$",
      @"^(ps|top|htop|pgrep)(\s|$)"
    ], command)
  }

  /** `_assess_command_safety`. */
  function AssessCommandSafety(policy: ApprovalPolicy, search: (string, string) -> bool, command: string): Decision {
    if policy == Yolo then Approved
    else if IsDangerousCommand(search, command) then Rejected
    else if policy == Never then (if IsSafeCommand(search, command) then Approved else Rejected)
    else if policy in {Auto, OnFailure} then Approved
    else if policy == AutoEdit then (if IsSafeCommand(search, command) then Approved else NeedsConfirmation)
    else if IsSafeCommand(search, command) then Approved
    else NeedsConfirmation
  }

  /** The verdict of the path loop: `NeedsConfirmation` at the first path outside `cwd`, nothing if all are inside. */
  function PathsVerdict(paths: seq<Path>, cwd: Path): (r: Option<Decision>)
    ensures r.None? <==> forall i :: 0 <= i < |paths| ==> IsRelativeTo(paths[i], cwd)
    ensures r.Some? ==> r.value == NeedsConfirmation
  {
    if paths == [] then None
    else if !IsRelativeTo(paths[0], cwd) then Some(NeedsConfirmation)
    else
      var rest := PathsVerdict(paths[1..], cwd);
      assert forall i :: 1 <= i < |paths| ==> paths[i] == paths[1..][i - 1];
      rest
  }

  /** `check_approval`. */
  function CheckApproval(policy: ApprovalPolicy, cwd: Path, search: (string, string) -> bool, ctx: ApprovalContext): Decision {
    if !ctx.isMutating then Approved
    else
      var cmd := if Present(ctx.command) then AssessCommandSafety(policy, search, ctx.command.value) else NeedsConfirmation;
      if cmd != NeedsConfirmation then cmd
      else if PathsVerdict(ctx.affectedPaths, cwd).Some? then NeedsConfirmation
      else if ctx.isDangerous then (if policy == Yolo then Approved else NeedsConfirmation)
      else Approved
  }

  /**
   * `request_confirmation`: the callback's answer, or yes when no callback is installed.
   * The callback is the front end's code; an exception it raises passes through.
   */
  function RequestConfirmation(callback: Option<Confirmation -> Outcome<bool>>, c: Confirmation): (r: Outcome<bool>)
    ensures callback.None? ==> r == Ok(true)
    ensures callback.Some? ==> r == callback.value(c)
  {
    match callback
    case None => Ok(true)
    case Some(f) => f(c)
  }

  // ---------------------------------------------------------------------
  // Properties of the decision procedure

  lemma NonMutatingApproved(policy: ApprovalPolicy, cwd: Path, search: (string, string) -> bool, ctx: ApprovalContext)
    requires !ctx.isMutating
    ensures CheckApproval(policy, cwd, search, ctx) == Approved
  {
  }

  /** YOLO approves every command, dangerous ones included; any other mode rejects a dangerous command. */
  lemma DangerousCommands(policy: ApprovalPolicy, search: (string, string) -> bool, command: string)
    ensures policy == Yolo ==> AssessCommandSafety(policy, search, command) == Approved
    ensures policy != Yolo && IsDangerousCommand(search, command) ==> AssessCommandSafety(policy, search, command) == Rejected
  {
  }

  /** NEVER approves exactly the safe commands; AUTO and ON_FAILURE approve every command that is not dangerous. */
  lemma StrictAndLenientModes(policy: ApprovalPolicy, search: (string, string) -> bool, command: string)
    requires !IsDangerousCommand(search, command)
    ensures policy == Never ==> (AssessCommandSafety(policy, search, command) == Approved <==> IsSafeCommand(search, command))
    ensures policy == Never ==> AssessCommandSafety(policy, search, command) != NeedsConfirmation
    ensures policy in {Auto, OnFailure} ==> AssessCommandSafety(policy, search, command) == Approved
  {
  }

  /** AUTO_EDIT and ON_REQUEST approve safe commands and ask about the rest. */
  lemma AskingModes(policy: ApprovalPolicy, search: (string, string) -> bool, command: string)
    requires policy in {AutoEdit, OnRequest} && !IsDangerousCommand(search, command)
    ensures AssessCommandSafety(policy, search, command) == if IsSafeCommand(search, command) then Approved else NeedsConfirmation
  {
  }

  /** Only a command can be rejected: without one, a call is approved or needs confirmation. */
  lemma RejectionOnlyFromCommand(policy: ApprovalPolicy, cwd: Path, search: (string, string) -> bool, ctx: ApprovalContext)
    ensures CheckApproval(policy, cwd, search, ctx) == Rejected <==>
      ctx.isMutating && Present(ctx.command) && AssessCommandSafety(policy, search, ctx.command.value) == Rejected
  {
  }

  /** A definite command verdict is final: paths and the dangerous flag are not looked at. */
  lemma CommandVerdictFinal(policy: ApprovalPolicy, cwd: Path, search: (string, string) -> bool, ctx: ApprovalContext,
                            paths: seq<Path>, dangerous: bool)
    requires ctx.isMutating && Present(ctx.command)
    requires AssessCommandSafety(policy, search, ctx.command.value) != NeedsConfirmation
    ensures CheckApproval(policy, cwd, search, ctx) == AssessCommandSafety(policy, search, ctx.command.value)
    ensures CheckApproval(policy, cwd, search, ctx.(affectedPaths := paths, isDangerous := dangerous))
         == CheckApproval(policy, cwd, search, ctx)
  {
  }

  /** A path outside the working directory asks for confirmation, whatever follows it. */
  lemma OutsidePathNeedsConfirmation(policy: ApprovalPolicy, cwd: Path, search: (string, string) -> bool,
                                     ctx: ApprovalContext, i: nat, later: seq<Path>)
    requires ctx.isMutating && i < |ctx.affectedPaths| && !IsRelativeTo(ctx.affectedPaths[i], cwd)
    requires !Present(ctx.command) || AssessCommandSafety(policy, search, ctx.command.value) == NeedsConfirmation
    ensures CheckApproval(policy, cwd, search, ctx) == NeedsConfirmation
    ensures CheckApproval(policy, cwd, search, ctx.(affectedPaths := ctx.affectedPaths[..i + 1] + later)) == NeedsConfirmation
  {
    var ps := ctx.affectedPaths[..i + 1] + later;
    assert ps[i] == ctx.affectedPaths[i];
  }

  /** An undecided command verdict is settled by the paths and the dangerous flag, and may end as APPROVED. */
  lemma UndecidedCommandSettled(policy: ApprovalPolicy, cwd: Path, search: (string, string) -> bool, ctx: ApprovalContext)
    requires ctx.isMutating
    requires !Present(ctx.command) || AssessCommandSafety(policy, search, ctx.command.value) == NeedsConfirmation
    requires forall i :: 0 <= i < |ctx.affectedPaths| ==> IsRelativeTo(ctx.affectedPaths[i], cwd)
    ensures CheckApproval(policy, cwd, search, ctx) ==
      if ctx.isDangerous && policy != Yolo then NeedsConfirmation else Approved
  {
  }
}
