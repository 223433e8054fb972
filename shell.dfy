/**
 * The `shell` tool: refuses commands on the block list, runs the rest in a working
 * directory with a filtered environment, and reports stdout, stderr and the exit code.
 */
module Shell {
  import opened Common
  import opened Json
  import opened Paths
  import opened ToolBase
  import opened FileStore
  import opened Config
  import Dict

  /** `BLOCKED_COMMANDS` (a set in the source; only membership matters). */
  const BlockedCommands: seq<string> := [
    "rm -rf /", "rm -rf ~", "rm -rf /*", "dd if=/dev/zero", "dd if=/dev/random", "mkfs", "fdisk",
    "parted", ":(){ :|:& };:", "chmod 777 /", "chmod -R 777", "shutdown", "reboot", "halt",
    "poweroff", "init 0", "init 6"]

  /** `ShellParams`; pydantic has checked `1 <= timeout <= 600`. */
  datatype ShellParams = ShellParams(command: string, timeout: int, cwd: Option<string>)

  /** Some blocked entry occurs in `command`. */
  predicate IsBlocked(command: string) {
    exists b :: b in BlockedCommands && Contains(command, b)
  }

  /**
   * `get_confirmation`: it always carries the raw command and is dangerous exactly when a
   * blocked entry occurs in the command as typed (without lower-casing).
   */
  function Confirm(inv: Invocation, params: ShellParams): (r: Confirmation)
    ensures r.command == Some(params.command) && r.affectedPaths == [] && r.diff == None
    ensures r.isDangerous <==> exists b :: b in BlockedCommands && Contains(params.command, b)
  {
    if IsBlocked(params.command) then
      Confirmation("shell", inv.params, "Execute (BLOCKED): " + params.command, None, [], Some(params.command), true)
    else
      Confirmation("shell", inv.params, "Execute: " + params.command, None, [], Some(params.command), false)
  }

  /** The directory the command runs in. */
  function WorkDir(invCwd: Path, cwd: Option<string>): (r: Path)
    ensures cwd.None? || cwd.value == [] ==> r == invCwd
    ensures cwd.Some? && cwd.value != [] && Parse(cwd.value).absolute ==> r == Parse(cwd.value)
    ensures cwd.Some? && cwd.value != [] && !Parse(cwd.value).absolute ==>
      IsRelativeTo(r, invCwd) && RelativeTo(r, invCwd) == Ok(Parse(cwd.value))
  {
    if cwd.Some? && cwd.value != [] then
      var c := Parse(cwd.value);
      if c.absolute then c else Child(invCwd, c)
    else invCwd
  }

  // ---------------------------------------------------------------------
  // The environment

  type Env = seq<(string, string)>

  /** `pattern` excludes variable `k`: fnmatch on both upper-cased. */
  predicate Excludes(fnmatch: (string, string) -> bool, pattern: string, k: string) {
    fnmatch(Upper(k), Upper(pattern))
  }

  /** The variables of `env` no pattern in `patterns` excludes, in their order. */
  function Unexcluded(env: Env, patterns: seq<string>, fnmatch: (string, string) -> bool): (r: Env)
    decreases |patterns|
  {
    if patterns == [] then env
    else Without(Unexcluded(env, patterns[..|patterns| - 1], fnmatch), patterns[|patterns| - 1], fnmatch)
  }

  /** `env` after deleting every key `pattern` excludes. */
  function Without(env: Env, pattern: string, fnmatch: (string, string) -> bool): (r: Env)
    ensures forall k :: Dict.Get(r, k) == if Excludes(fnmatch, pattern, k) then None else Dict.Get(env, k)
  {
    if env == [] then []
    else if Excludes(fnmatch, pattern, env[0].0) then Without(env[1..], pattern, fnmatch)
    else [env[0]] + Without(env[1..], pattern, fnmatch)
  }

  /** `env.update(vars)`. */
  function Update(env: Env, vars: Env): Env
    decreases |vars|
  {
    if vars == [] then env else Update(Dict.Put(env, vars[0].0, vars[0].1), vars[1..])
  }

  /** The environment `_build_environment` describes. */
  function EnvironmentFor(base: Env, policy: ShellEnvironmentPolicy, fnmatch: (string, string) -> bool): Env {
    var kept := if policy.ignoreDefaultExcludes then base else Unexcluded(base, policy.excludePatterns, fnmatch);
    Update(kept, policy.setVars)
  }

  /** `_build_environment`: deletes excluded variables pattern by pattern, then applies `set_vars`. */
  method BuildEnvironment(base: Env, policy: ShellEnvironmentPolicy, fnmatch: (string, string) -> bool) returns (env: Env)
    ensures env == EnvironmentFor(base, policy, fnmatch)
  {
    env := base;
    if !policy.ignoreDefaultExcludes {
      var patterns := policy.excludePatterns;
      var i := 0;
      while i < |patterns|
        invariant 0 <= i <= |patterns|
        invariant env == Unexcluded(base, patterns[..i], fnmatch)
      {
        assert patterns[..i + 1][..i] == patterns[..i];
        env := Without(env, patterns[i], fnmatch);
        i := i + 1;
      }
      assert patterns[..i] == patterns;
    }
    env := Update(env, policy.setVars);
  }

  /** A variable survives the excludes exactly when no pattern excludes it, with its value. */
  lemma {:induction false} UnexcludedGet(env: Env, patterns: seq<string>, fnmatch: (string, string) -> bool, k: string)
    ensures Dict.Get(Unexcluded(env, patterns, fnmatch), k)
            == if exists p :: p in patterns && Excludes(fnmatch, p, k) then None else Dict.Get(env, k)
    decreases |patterns|
  {
    if patterns != [] {
      var init := patterns[..|patterns| - 1];
      UnexcludedGet(env, init, fnmatch, k);
      assert patterns == init + [patterns[|patterns| - 1]];
    }
  }

  /** After `update`, a key of `vars` has its value there (keys of a dict are distinct), any other keeps its old value. */
  lemma {:induction false} UpdateGet(env: Env, vars: Env, k: string)
    requires Dict.DistinctKeys(vars)
    ensures Dict.Get(Update(env, vars), k) == if k in Dict.Keys(vars) then Dict.Get(vars, k) else Dict.Get(env, k)
    decreases |vars|
  {
    if vars != [] {
      var rest := vars[1..];
      assert Dict.DistinctKeys(rest);
      assert Dict.Keys(vars) == [vars[0].0] + Dict.Keys(rest);
      UpdateGet(Dict.Put(env, vars[0].0, vars[0].1), rest, k);
      Dict.GetPut(env, vars[0].0, vars[0].1, k);
    }
  }

  /**
   * A variable of the built environment: `set_vars` wins; otherwise, unless excludes are
   * ignored, an excluded variable is gone; otherwise it keeps the inherited value.
   */
  lemma EnvironmentGet(base: Env, policy: ShellEnvironmentPolicy, fnmatch: (string, string) -> bool, k: string)
    requires Dict.DistinctKeys(policy.setVars)
    ensures Dict.Get(EnvironmentFor(base, policy, fnmatch), k)
            == if k in Dict.Keys(policy.setVars) then Dict.Get(policy.setVars, k)
               else if !policy.ignoreDefaultExcludes && exists p :: p in policy.excludePatterns && Excludes(fnmatch, p, k) then None
               else Dict.Get(base, k)
  {
    var kept := if policy.ignoreDefaultExcludes then base else Unexcluded(base, policy.excludePatterns, fnmatch);
    UpdateGet(kept, policy.setVars, k);
    if !policy.ignoreDefaultExcludes {
      UnexcludedGet(base, policy.excludePatterns, fnmatch, k);
    }
  }

  // ---------------------------------------------------------------------
  // Output

  /** What the process did: timed out, exited, or could not be started. */
  datatype ProcessOutcome = TimedOut | Exited(stdout: string, stderr: string, exitCode: int) | SpawnFailed(message: string)

  const OutputCap: nat := 100 * 1024
  const TruncationMarker := "\n... [output truncated]"

  /** stdout, then stderr under a separator, then the exit code when it is not 0. */
  function Assemble(stdout: string, stderr: string, exitCode: int): string {
    (if NonBlank(stdout) then RStrip(stdout) else "")
    + (if NonBlank(stderr) then "\n--- stderr ---\n" + RStrip(stderr) else "")
    + (if exitCode != 0 then "\nExit code: " + IntToString(exitCode) else "")
  }

  /**
   * The output is empty exactly when both streams are blank and the exit code is 0; a
   * non-blank stdout comes first, right-stripped, and a non-zero exit code comes last.
   */
  lemma AssembleParts(stdout: string, stderr: string, exitCode: int)
    ensures Assemble(stdout, stderr, exitCode) == [] <==> !NonBlank(stdout) && !NonBlank(stderr) && exitCode == 0
    ensures NonBlank(stdout) ==> StartsWith(Assemble(stdout, stderr, exitCode), RStrip(stdout))
    ensures exitCode != 0 ==> EndsWith(Assemble(stdout, stderr, exitCode), "\nExit code: " + IntToString(exitCode))
  {
    if NonBlank(stdout) {
      var i :| 0 <= i < |stdout| && !IsSpace(stdout[i]);
      assert |RStrip(stdout)| > i;
    }
  }

  /** Output longer than 100 KiB is cut to that prefix plus a marker. */
  function Cap(output: string): (r: string)
    ensures |output| <= OutputCap ==> r == output
    ensures |output| > OutputCap ==> |r| == OutputCap + |TruncationMarker| && StartsWith(r, output[..OutputCap])
                                     && EndsWith(r, TruncationMarker)
  {
    if |output| > OutputCap then output[..OutputCap] + TruncationMarker else output
  }

  /** The result of a finished process: success exactly on exit code 0, stderr as the error otherwise. */
  function Finished(stdout: string, stderr: string, exitCode: int): (r: ToolResult)
    ensures r.success <==> exitCode == 0
    ensures r.error == if exitCode != 0 then Some(stderr) else None
    ensures r.exitCode == Some(exitCode)
    ensures r.output == Cap(Assemble(stdout, stderr, exitCode))
  {
    ToolResult(exitCode == 0, Cap(Assemble(stdout, stderr, exitCode)), if exitCode != 0 then Some(stderr) else None,
               [], false, None, Some(exitCode))
  }

  /**
   * `execute`. `run` stands for starting `/bin/bash -c command` in a directory with an
   * environment and waiting at most the timeout. A blocked command and a missing working
   * directory are reported before anything runs; a process that cannot be started raises.
   */
  method Execute(ws: Workspace, inv: Invocation, params: ShellParams, base: Env, policy: ShellEnvironmentPolicy,
                 fnmatch: (string, string) -> bool, run: (string, Path, Env, int) -> ProcessOutcome)
    returns (r: Outcome<ToolResult>)
    ensures IsBlocked(Strip(Lower(params.command))) ==>
      r == Ok(ErrorResult("Command blocked for safety: " + params.command, metadata := [("blocked", JBool(true))]))
    ensures var dir := WorkDir(inv.cwd, params.cwd);
      !IsBlocked(Strip(Lower(params.command))) && !ws.Exists(dir) ==>
        r == Ok(ErrorResult("Working directory doesn't exist: " + ToString(dir)))
    ensures var dir := WorkDir(inv.cwd, params.cwd);
      !IsBlocked(Strip(Lower(params.command))) && ws.Exists(dir) ==>
        match run(params.command, dir, EnvironmentFor(base, policy, fnmatch), params.timeout)
        case TimedOut => r == Ok(ErrorResult("Command timed out after " + IntToString(params.timeout) + "s"))
        case SpawnFailed(e) => r == Raised(e)
        case Exited(out, err, code) => r == Ok(Finished(out, err, code))
  {
    var command := Strip(Lower(params.command));
    if IsBlocked(command) {
      return Ok(ErrorResult("Command blocked for safety: " + params.command, metadata := [("blocked", JBool(true))]));
    }
    var dir := WorkDir(inv.cwd, params.cwd);
    if !ws.Exists(dir) {
      return Ok(ErrorResult("Working directory doesn't exist: " + ToString(dir)));
    }
    var env := BuildEnvironment(base, policy, fnmatch);
    match run(params.command, dir, env, params.timeout)
    case TimedOut =>
      r := Ok(ErrorResult("Command timed out after " + IntToString(params.timeout) + "s"));
    case SpawnFailed(e) =>
      r := Raised(e);
    case Exited(out, err, code) =>
      r := Ok(Finished(out, err, code));
  }
}
