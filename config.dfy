/** The configuration records of `config/config.py`, their validators, defaults and properties. */
module Config {
  import opened Common
  import opened Paths

  datatype ApprovalPolicy = OnRequest | OnFailure | Auto | AutoEdit | Never | Yolo

  /** The enum's string values; `AUTO_EDIT` is spelled "auto-edut" in the source. */
  function PolicyValue(p: ApprovalPolicy): string {
    match p
    case OnRequest => "on-request"
    case OnFailure => "on-failure"
    case Auto => "auto"
    case AutoEdit => "auto-edut"
    case Never => "never"
    case Yolo => "yolo"
  }

  /** `ApprovalPolicy(s)`: the member with that value, or `None` where Python raises `ValueError`. */
  function ParsePolicy(s: string): (r: Option<ApprovalPolicy>)
    ensures r.Some? ==> PolicyValue(r.value) == s
  {
    if s == "on-request" then Some(OnRequest)
    else if s == "on-failure" then Some(OnFailure)
    else if s == "auto" then Some(Auto)
    else if s == "auto-edut" then Some(AutoEdit)
    else if s == "never" then Some(Never)
    else if s == "yolo" then Some(Yolo)
    else None
  }

  /** Every policy is found again from its value, and "auto-edit" is not a value. */
  lemma ParsePolicyValue(p: ApprovalPolicy)
    ensures ParsePolicy(PolicyValue(p)) == Some(p)
    ensures ParsePolicy("auto-edit").None?
  {
  }

  datatype HookTrigger = BeforeAgent | AfterAgent | BeforeTool | AfterTool | OnError

  function TriggerValue(t: HookTrigger): string {
    match t
    case BeforeAgent => "before_agent"
    case AfterAgent => "after_agent"
    case BeforeTool => "before_tool"
    case AfterTool => "after_tool"
    case OnError => "on_error"
  }

  datatype ModelConfig = ModelConfig(name: string, temperature: real, contextWindow: int)

  datatype ShellEnvironmentPolicy = ShellEnvironmentPolicy(
    ignoreDefaultExcludes: bool,
    excludePatterns: seq<string>,
    setVars: seq<(string, string)>)

  datatype McpServerConfig = McpServerConfig(
    enabled: bool,
    startupTimeoutSec: real,
    command: Option<string>,
    args: seq<string>,
    env: seq<(string, string)>,
    cwd: Option<Path>,
    url: Option<string>)

  datatype HookConfig = HookConfig(
    name: string,
    trigger: HookTrigger,
    command: Option<string>,
    script: Option<string>,
    timeoutSec: real,
    enabled: bool)

  datatype AgentConfig = AgentConfig(
    model: ModelConfig,
    cwd: Path,
    shellEnvironment: ShellEnvironmentPolicy,
    hooksEnabled: bool,
    hooks: seq<HookConfig>,
    approval: ApprovalPolicy,
    maxTurns: int,
    mcpServers: seq<(string, McpServerConfig)>,
    allowedTools: Option<seq<string>>,
    developerInstructions: Option<string>,
    userInstructions: Option<string>,
    debug: bool)

  /** `MCPServerConfig.validate_transport`. */
  function ValidateTransport(c: McpServerConfig): (r: Outcome<McpServerConfig>)
    ensures r.Ok? <==> (c.command.Some? != c.url.Some?)
    ensures r.Ok? ==> r.value == c
  {
    if c.command.None? && c.url.None? then
      Raised("MCP Server must have either 'command' (stdio) or 'url' (http/sse)")
    else if c.command.Some? && c.url.Some? then
      Raised("MCP Server cannot have both 'command' (stdio) and 'url' (http/sse)")
    else Ok(c)
  }

  /** `HookConfig.validate_hook`. */
  function ValidateHook(h: HookConfig): (r: Outcome<HookConfig>)
    ensures r.Ok? <==> Present(h.command) || Present(h.script)
    ensures r.Ok? ==> r.value == h
  {
    if !Present(h.command) && !Present(h.script) then Raised("Hook must either have 'command' or 'script'")
    else Ok(h)
  }

  /** The two problems `Config.validate` reports; `ProblemMessage` gives the text it appends. */
  datatype ConfigProblem = NoApiKey | MissingCwd(cwd: Path)

  function ProblemMessage(p: ConfigProblem): string {
    match p
    case NoApiKey => "No API key found. Set API_KEY environment variable"
    case MissingCwd(cwd) => "Working directory does not exist: " + ToString(cwd)
  }

  /** `Config.validate`, given the `API_KEY` variable and whether the working directory exists. */
  function Validate(c: AgentConfig, apiKey: Option<string>, cwdExists: bool): (r: seq<ConfigProblem>)
    ensures (NoApiKey in r) <==> !Present(apiKey)
    ensures (MissingCwd(c.cwd) in r) <==> !cwdExists
    ensures |r| == (if Present(apiKey) then 0 else 1) + (if cwdExists then 0 else 1)
    ensures forall i, j :: 0 <= i < j < |r| ==> r[i] == NoApiKey && r[j].MissingCwd?
  {
    (if Present(apiKey) then [] else [NoApiKey]) + (if cwdExists then [] else [MissingCwd(c.cwd)])
  }

  const DefaultModel := ModelConfig("mistralai/devstral-2512:free", 1.0, 256000)
  const DefaultShellEnvironment := ShellEnvironmentPolicy(false, ["*KEY*", "*TOKEN*", "*SECRET*"], [])

  /** `Config()` with every field defaulted; `Path.cwd()` is the argument. */
  function DefaultConfig(cwd: Path): AgentConfig {
    AgentConfig(DefaultModel, cwd, DefaultShellEnvironment, false, [], OnRequest, 100, [], None, None, None, false)
  }

  lemma Defaults(cwd: Path)
    ensures var c := DefaultConfig(cwd);
      c.approval == OnRequest && c.maxTurns == 100 && c.model.contextWindow == 256000
      && !c.hooksEnabled && c.allowedTools.None? && PolicyValue(AutoEdit) == "auto-edut"
  {
  }

  /** The `model_name` property. */
  function ModelName(c: AgentConfig): string {
    c.model.name
  }

  /** The `model_name` setter: only the model's name changes. */
  function SetModelName(c: AgentConfig, v: string): (r: AgentConfig)
    ensures ModelName(r) == v
    ensures r.model.temperature == c.model.temperature && r.model.contextWindow == c.model.contextWindow
    ensures r.(model := c.model) == c
  {
    c.(model := c.model.(name := v))
  }

  /**
   * The `temperature` property as the source builds it: it is declared with
   * `@model_name.setter`, so its getter is `model_name`'s getter.
   */
  function TemperatureAsWritten(c: AgentConfig): string {
    ModelName(c)
  }

  /** The `temperature` setter, which writes the model's temperature. */
  function SetTemperature(c: AgentConfig, t: real): (r: AgentConfig)
    ensures r.model.name == c.model.name && r.model.contextWindow == c.model.contextWindow
    ensures r.(model := c.model) == c
  {
    c.(model := c.model.(temperature := t))
  }

  /** Reading `temperature` gives back the model name: with the defaults it is not the temperature 1.0 but a name. */
  lemma TemperatureReadsModelName(cwd: Path, t: real)
    ensures TemperatureAsWritten(DefaultConfig(cwd)) == "mistralai/devstral-2512:free"
    ensures TemperatureAsWritten(SetTemperature(DefaultConfig(cwd), t)) == "mistralai/devstral-2512:free"
  {
  }

  /** The evidently intended getter. */
  function Temperature(c: AgentConfig): real {
    c.model.temperature
  }

  /** With the intended getter, a written temperature is read back and the name is untouched. */
  lemma TemperatureRoundTrip(c: AgentConfig, t: real, v: string)
    ensures Temperature(SetTemperature(c, t)) == t
    ensures ModelName(SetTemperature(c, t)) == ModelName(c)
    ensures Temperature(SetModelName(c, v)) == Temperature(c)
  {
  }
}
