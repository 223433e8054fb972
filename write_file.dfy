/**
 * The `write_file` tool: writes the whole content of a file, creating it (and, unless told
 * otherwise, its missing parent directories) or overwriting it.
 */
module WriteFile {
  import opened Common
  import opened Json
  import opened Paths
  import opened ToolBase
  import opened FileStore

  /** `WriteFileParams`, once pydantic has accepted the arguments. */
  datatype WriteParams = WriteParams(path: string, content: string, createDirectories: bool)

  function Target(resolve: Path -> Path, cwd: Path, params: WriteParams): Path {
    ResolvePath(resolve, ToString(cwd), params.path)
  }

  /** The content shown as the old side of the diff: the file's text, or "" when it is new or unreadable. */
  function PriorContent(ws: Workspace, p: Path): (r: string)
    reads ws
    ensures !ws.Exists(p) ==> r == ""
    ensures ws.ReadText(p).Ok? ==> r == ws.files[p]
  {
    if !ws.Exists(p) then ""
    else match ws.ReadText(p)
      case Ok(text) => text
      case Raised(_) => ""
  }

  /** The diff of writing `content` over what `p` held. */
  function WriteDiff(ws: Workspace, p: Path, content: string): (d: FileDiff)
    reads ws
    ensures d.path == p && d.newContent == content && !d.isDeletion
    ensures d.isNewFile <==> !ws.Exists(p)
    ensures d.oldContent == PriorContent(ws, p)
  {
    FileDiff(p, PriorContent(ws, p), content, !ws.Exists(p), false)
  }

  /**
   * `get_confirmation`: the write always concerns the one target file, and it is dangerous
   * exactly when it would overwrite an existing file.
   */
  function Confirm(ws: Workspace, resolve: Path -> Path, inv: Invocation, params: WriteParams): (r: Confirmation)
    reads ws
    ensures var p := Target(resolve, inv.cwd, params);
      r.affectedPaths == [p] && (r.isDangerous <==> ws.Exists(p)) && r.command == None
      && r.diff == Some(WriteDiff(ws, p, params.content))
  {
    var p := Target(resolve, inv.cwd, params);
    var action := if ws.Exists(p) then "Updated" else "Created";
    Confirmation("write_file", inv.params, action + " file: " + ToString(p),
                 Some(WriteDiff(ws, p, params.content)), [p], None, ws.Exists(p))
  }

  /** The result of a successful write. */
  function WrittenResult(diff: FileDiff): (r: ToolResult)
    ensures r.success && r.diff == Some(diff)
    ensures |r.metadata| == 4
    ensures r.metadata[1] == ("is_new_file", JBool(diff.isNewFile))
    ensures r.metadata[2] == ("lines", JInt(|SplitLines(diff.newContent)|))
    ensures r.metadata[3] == ("bytes", JInt(|Utf8(diff.newContent)|))
  {
    var action := if diff.isNewFile then "Created" else "Updated";
    var lines := |SplitLines(diff.newContent)|;
    SuccessResult(action + " " + ToString(diff.path) + " " + NatToString(lines) + " lines",
                  metadata := [("path", JStr(ToString(diff.path))), ("is_new_file", JBool(diff.isNewFile)),
                               ("lines", JInt(lines)), ("bytes", JInt(|Utf8(diff.newContent)|))],
                  diff := Some(diff))
  }

  /** The reported byte count lies between the character count and four times it. */
  lemma WrittenBytes(diff: FileDiff)
    ensures var b := WrittenResult(diff).metadata[3].1;
      b.JInt? && |diff.newContent| <= b.i <= 4 * |diff.newContent|
  {
    Utf8Length(diff.newContent);
  }

  /** Whether the write goes through: the parent is (or is made) a directory and the target is not one. */
  predicate Writable(files: map<Path, string>, dirs: set<Path>, p: Path, createDirectories: bool) {
    var isDir := (q: Path) => q in dirs || q.parts == [];
    (if createDirectories then AncestorDirs(p) !! files.Keys else isDir(Parent(p))) && !isDir(p)
  }

  /**
   * `execute`. On success the file holds exactly the given content and the result reports
   * whether it was created; on failure nothing is written. Without `create_directories` a
   * missing parent is reported as such before any write.
   */
  method Execute(ws: Workspace, resolve: Path -> Path, cwd: Path, params: WriteParams) returns (r: ToolResult)
    requires ws.Valid()
    modifies ws`files, ws`dirs
    ensures ws.Valid()
    ensures var p := Target(resolve, cwd, params);
      r.success <==> Writable(old(ws.files), old(ws.dirs), p, params.createDirectories)
    ensures var p := Target(resolve, cwd, params);
      r.success ==> r == WrittenResult(old(WriteDiff(ws, p, params.content)))
                    && ws.files == old(ws.files)[p := params.content]
    ensures !r.success ==> ws.files == old(ws.files)
    ensures var p := Target(resolve, cwd, params);
      ws.dirs == if params.createDirectories && AncestorDirs(p) !! old(ws.files).Keys
                 then old(ws.dirs) + AncestorDirs(p) else old(ws.dirs)
    ensures var p := Target(resolve, cwd, params);
      !params.createDirectories && !old(ws.Exists(Parent(p))) ==>
        r == ErrorResult("Parent directory does not exist: " + ToString(Parent(p)))
  {
    var p := Target(resolve, cwd, params);
    var diff := WriteDiff(ws, p, params.content);
    if params.createDirectories {
      var made := ws.EnsureParent(p);
      if made.Raised? {
        return ErrorResult("Failed to write file: " + made.message);
      }
    } else if !ws.Exists(Parent(p)) {
      return ErrorResult("Parent directory does not exist: " + ToString(Parent(p)));
    }
    var written := ws.WriteText(p, params.content);
    if written.Raised? {
      return ErrorResult("Failed to write file: " + written.message);
    }
    r := WrittenResult(diff);
  }
}
