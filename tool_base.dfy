/** The tool interface of `tools/base.py`: kinds, results, confirmations and schema export. */
module ToolBase {
  import opened Common
  import opened Json
  import opened Paths
  import Dict

  datatype ToolKind = Read | Write | Shell | Network | Memory | Mcp

  /** A proposed change to one file, shown to the user before approval. */
  datatype FileDiff = FileDiff(path: Path, oldContent: string, newContent: string, isNewFile: bool, isDeletion: bool)

  /** The `fromfile` name of the unified diff. */
  function DiffOldName(d: FileDiff): (r: string)
    ensures r == "/dev/null" <==> d.isNewFile || ToString(d.path) == "/dev/null"
  {
    if d.isNewFile then "/dev/null" else ToString(d.path)
  }

  /** The `tofile` name of the unified diff. */
  function DiffNewName(d: FileDiff): (r: string)
    ensures r == "/dev/null" <==> d.isDeletion || ToString(d.path) == "/dev/null"
  {
    if d.isDeletion then "/dev/null" else ToString(d.path)
  }

  datatype ToolResult = ToolResult(
    success: bool,
    output: string,
    error: Option<string>,
    metadata: Object,
    truncated: bool,
    diff: Option<FileDiff>,
    exitCode: Option<int>)

  /** `ToolResult.error_result(error, output="", **kwargs)`. */
  function ErrorResult(error: string, output: string := "", metadata: Object := [],
                       diff: Option<FileDiff> := None, exitCode: Option<int> := None): ToolResult
  {
    ToolResult(false, output, Some(error), metadata, false, diff, exitCode)
  }

  /** `ToolResult.success_result(output, **kwargs)`. */
  function SuccessResult(output: string, metadata: Object := [], truncated: bool := false,
                         diff: Option<FileDiff> := None, exitCode: Option<int> := None): ToolResult
  {
    ToolResult(true, output, None, metadata, truncated, diff, exitCode)
  }

  /** `to_model_output`: the text handed back to the model. */
  function ToModelOutput(r: ToolResult): string {
    if r.success then r.output
    else "Error: " + r.error.GetOr("None") + "\n\nOutput:\n" + r.output
  }

  /** Both constructors fix the success flag and the error, and the model sees the output or the error text. */
  lemma ResultConstructors(error: string, output: string)
    ensures var e := ErrorResult(error, output);
      !e.success && e.error == Some(error) && e.output == output
      && ToModelOutput(e) == "Error: " + error + "\n\nOutput:\n" + output
    ensures var s := SuccessResult(output);
      s.success && s.error.None? && ToModelOutput(s) == output
    ensures ErrorResult(error).output == ""
  {
  }

  /** A failing result's model output always starts with "Error: "; a successful one is the output itself. */
  lemma ModelOutputShape(r: ToolResult)
    ensures r.success ==> ToModelOutput(r) == r.output
    ensures !r.success ==> StartsWith(ToModelOutput(r), "Error: ") && EndsWith(ToModelOutput(r), r.output)
  {
    if !r.success {
      var m := ToModelOutput(r);
      var head := "Error: " + r.error.GetOr("None") + "\n\nOutput:\n";
      assert m == head + r.output;
      assert m[..7] == "Error: ";
      assert m[|m| - |r.output|..] == r.output;
    }
  }

  datatype Invocation = Invocation(params: Object, cwd: Path)

  datatype Confirmation = Confirmation(
    toolName: string,
    params: Object,
    description: string,
    diff: Option<FileDiff>,
    affectedPaths: seq<Path>,
    command: Option<string>,
    isDangerous: bool)

  /** A parameter schema: a pydantic model class (with its exported JSON schema), a dict, or something else. */
  datatype Schema =
    | ModelSchema(jsonSchema: Object)
    | DictSchema(d: Object)
    | OtherSchema

  /** The default `is_mutating`: decided by the tool's kind alone. */
  predicate KindMutating(kind: ToolKind) {
    kind in {Write, Shell, Network, Memory}
  }

  lemma KindMutatingCases(kind: ToolKind)
    ensures KindMutating(kind) <==> !(kind == Read || kind == Mcp)
  {
  }

  /**
   * The default `validate_params`: only a model schema is checked; `modelErrors`
   * are the messages pydantic reports for these parameters.
   */
  function ValidateParams(schema: Schema, modelErrors: seq<string>): (r: seq<string>)
    ensures !schema.ModelSchema? ==> r == []
    ensures schema.ModelSchema? ==> r == modelErrors
  {
    if schema.ModelSchema? then modelErrors else []
  }

  /** The default `get_confirmation`. */
  function DefaultConfirmation(name: string, mutating: bool, inv: Invocation): (r: Option<Confirmation>)
    ensures r.None? <==> !mutating
    ensures r.Some? ==> (r.value.toolName == name && r.value.params == inv.params
      && r.value.affectedPaths == [] && r.value.command.None? && !r.value.isDangerous && r.value.diff.None?
      && r.value.description == "Execute " + name)
  {
    if !mutating then None
    else Some(Confirmation(name, inv.params, "Execute " + name, None, [], None, false))
  }

  /** `to_openai_schema`. */
  function ToOpenAiSchema(name: string, description: string, schema: Schema): (r: Outcome<Object>)
    ensures schema.OtherSchema? <==> r.Raised?
    ensures r.Ok? ==> (Dict.Keys(r.value) == ["name", "description", "parameters"]
      && r.value[0].1 == JStr(name) && r.value[1].1 == JStr(description))
    ensures schema.DictSchema? ==> (r.Ok? && r.value[2].1 ==
      if "parameters" in Dict.Keys(schema.d) then Dict.Get(schema.d, "parameters").value else JObj(schema.d))
  {
    match schema
    case ModelSchema(js) =>
      Ok([("name", JStr(name)), ("description", JStr(description)),
          ("parameters", JObj([("type", JStr("object")),
                               ("properties", GetOr(js, "properties", JObj([]))),
                               ("required", GetOr(js, "required", JArr([])))]))])
    case DictSchema(d) =>
      var params := match Dict.Get(d, "parameters")
        case Some(p) => p
        case None => JObj(d);
      Ok([("name", JStr(name)), ("description", JStr(description)), ("parameters", params)])
    case OtherSchema =>
      Raised("ValueError: Invalid schema type for tool " + name)
  }

  /**
   * A tool as the registry sees it.  Its behaviour on a call is given by functions:
   * `validate` (the messages `validate_params` returns), `mutating` (`is_mutating`),
   * `confirm` (`get_confirmation`, which may raise) and `run` (`execute`, which may raise).
   */
  datatype Tool = Tool(
    name: string,
    description: string,
    kind: ToolKind,
    schema: Schema,
    validate: Object -> seq<string>,
    mutating: Object -> bool,
    confirm: Invocation -> Outcome<Option<Confirmation>>,
    run: Invocation -> Outcome<ToolResult>)
}
