/**
 * The `edit` tool: replaces `old_string` by `new_string` in a file, or creates the file
 * when it is missing and `old_string` is empty.
 */
module EditFile {
  import opened Common
  import opened Json
  import opened Paths
  import opened TextSearch
  import opened ToolBase
  import opened FileStore
  import opened LineScan

  /** `EditParams`, once pydantic has accepted the arguments. */
  datatype EditParams = EditParams(path: string, oldString: string, newString: string, replaceAll: bool)

  /** The file an invocation edits. */
  function Target(resolve: Path -> Path, cwd: Path, params: EditParams): Path {
    ResolvePath(resolve, ToString(cwd), params.path)
  }

  // ---------------------------------------------------------------------
  // Deciding the edit of an existing file

  /** What `execute` does with the content of an existing file. */
  datatype Decision =
    | EmptyOldString
    | NotFound
    | Ambiguous(count: nat)
    | Unchanged
    | Replaced(content: string, count: nat)

  function Decide(content: string, params: EditParams): Decision {
    if params.oldString == [] then EmptyOldString
    else
      var c := Count(content, params.oldString);
      if c == 0 then NotFound
      else if c > 1 && !params.replaceAll then Ambiguous(c)
      else
        var updated := Replace(content, params.oldString, params.newString, params.replaceAll);
        if updated == content then Unchanged
        else Replaced(updated, if params.replaceAll then c else 1)
  }

  /**
   * An edit of an existing file fails on an empty `old_string`, fails when `old_string` is
   * absent, and fails with the count when it occurs several times without `replace_all`.
   * Otherwise it changes nothing exactly when `old_string == new_string`; when it does change
   * the file, every occurrence is replaced (one only when `replace_all` is off) and the
   * reported count is the number of occurrences.
   */
  lemma DecideMeaning(content: string, params: EditParams)
    ensures var d := Decide(content, params);
      (d.EmptyOldString? <==> params.oldString == [])
      && (d.NotFound? <==> params.oldString != [] && !Contains(content, params.oldString))
      && (d.Ambiguous? <==> params.oldString != [] && Count(content, params.oldString) > 1 && !params.replaceAll)
      && (d.Ambiguous? ==> d.count == Count(content, params.oldString))
      && (d.Unchanged? <==> params.oldString != [] && Contains(content, params.oldString)
                            && (Count(content, params.oldString) == 1 || params.replaceAll)
                            && params.oldString == params.newString)
      && (d.Replaced? ==> d.content == ReplaceAll(content, params.oldString, params.newString)
                          && d.content != content
                          && d.count == Count(content, params.oldString)
                          && (params.replaceAll || d.count == 1))
  {
    var sub, rep := params.oldString, params.newString;
    if sub != [] {
      CountZeroIffAbsent(content, sub);
      var c := Count(content, sub);
      if c > 0 && (c == 1 || params.replaceAll) {
        ReplaceUnchangedIff(content, sub, rep, params.replaceAll);
        if c == 1 {
          ReplaceAllSingle(content, sub, rep);
        }
      }
    }
  }

  /** The `(+n lines)`, `(-n lines)` or empty suffix of the success message. */
  function DiffSuffix(lineDiff: int): (r: string)
    ensures r == [] <==> lineDiff == 0
  {
    if lineDiff > 0 then " (+" + IntToString(lineDiff) + " lines)"
    else if lineDiff < 0 then " (" + IntToString(lineDiff) + " lines)"
    else ""
  }

  /** A negative line difference is shown with its minus sign. */
  lemma DiffSuffixNegative(lineDiff: int)
    requires lineDiff < 0
    ensures DiffSuffix(lineDiff) == " (-" + NatToString(-lineDiff) + " lines)"
  {
    assert IntToString(lineDiff) == "-" + NatToString(-lineDiff);
  }

  /** The result of a replacement written to `p`. */
  function EditedResult(p: Path, content: string, updated: string, count: nat): (r: ToolResult)
    ensures r.success && r.diff == Some(FileDiff(p, content, updated, false, false))
    ensures |r.metadata| == 3 && r.metadata[1] == ("replaced_count", JInt(count))
    ensures r.metadata[2] == ("line_diff", JInt(|SplitLines(updated)| - |SplitLines(content)|))
  {
    var lineDiff := |SplitLines(updated)| - |SplitLines(content)|;
    SuccessResult("Edited " + ToString(p) + ": replaced " + NatToString(count) + " occurrence(s)" + DiffSuffix(lineDiff),
                  metadata := [("path", JStr(ToString(p))), ("replaced_count", JInt(count)), ("line_diff", JInt(lineDiff))],
                  diff := Some(FileDiff(p, content, updated, false, false)))
  }

  /** The result of creating `p` holding `text`. */
  function CreatedResult(p: Path, text: string): (r: ToolResult)
    ensures r.success && r.diff == Some(FileDiff(p, "", text, true, false))
    ensures |r.metadata| == 3 && r.metadata[1] == ("is_new_file", JBool(true))
    ensures r.metadata[2] == ("lines", JInt(|SplitLines(text)|))
  {
    var lines := |SplitLines(text)|;
    SuccessResult("Created " + ToString(p) + " " + NatToString(lines) + " lines",
                  metadata := [("path", JStr(ToString(p))), ("is_new_file", JBool(true)), ("lines", JInt(lines))],
                  diff := Some(FileDiff(p, "", text, true, false)))
  }

  function MissingFileError(p: Path): ToolResult {
    ErrorResult("File does not exist: " + ToString(p) + ". To create a new file, use an empty old_string.")
  }

  const EmptyOldStringError := ErrorResult("old_string is empty but file exists. Provide old_string to edit, or use write_file to overwrite.")

  const NoChangeError := ErrorResult("No change made - old_string equals new_string")

  function AmbiguousError(p: Path, count: nat): (r: ToolResult)
    ensures !r.success && r.metadata == [("occurence_count", JInt(count))]
  {
    ErrorResult("old_string found " + NatToString(count) + " times in " + ToString(p) + ". Either: \n"
                + "1. Provide more context to make the match unique or\n"
                + "2. Set replace_all=true to replace all occurrences",
                metadata := [("occurence_count", JInt(count))])
  }

  // ---------------------------------------------------------------------
  // The "not found" message

  /** `s.split()[0]`: the first whitespace-separated word, `None` when `s` is blank. */
  function FirstWord(s: string): (r: Option<string>)
    ensures r.Some? <==> NonBlank(s)
    ensures r.Some? ==> r.value != [] && forall j :: 0 <= j < |r.value| ==> !IsSpace(r.value[j])
  {
    var t := LStrip(s);
    if t == [] then None
    else
      assert !IsSpace(s[|s| - |t|]);
      Some(t[..WordEnd(t)])
  }

  /** The index of the first whitespace character, or the length. */
  function WordEnd(t: string): (n: nat)
    ensures n <= |t| && (n < |t| ==> IsSpace(t[n]))
    ensures forall j :: 0 <= j < n ==> !IsSpace(t[j])
    ensures t != [] && !IsSpace(t[0]) ==> n > 0
  {
    if t == [] || IsSpace(t[0]) then 0 else 1 + WordEnd(t[1..])
  }

  /** How a similar line is shown: stripped and cut to 80 characters. */
  function Preview(line: string): (r: string)
    ensures |r| <= 80
  {
    Take(Strip(line), 80)
  }

  /** Every line among the first `i` holding `term`, as its 1-based number and its preview, in file order. */
  function Similar(lines: seq<string>, i: nat, term: string): (r: seq<(nat, string)>)
    requires i <= |lines|
    ensures |r| <= i
  {
    Marked(lines, i, l => Contains(l, term), Preview)
  }

  /** The scan of one more line. */
  lemma SimilarSnoc(lines: seq<string>, i: nat, term: string)
    requires i < |lines|
    ensures Similar(lines, i + 1, term)
            == Similar(lines, i, term) + (if Contains(lines[i], term) then [(i + 1, Preview(lines[i]))] else [])
  {
  }

  /** Each listed line is a line holding `term`, with its preview, and it is numbered within the scanned part. */
  lemma SimilarAt(lines: seq<string>, i: nat, term: string, k: nat)
    requires i <= |lines| && k < |Similar(lines, i, term)|
    ensures var e := Similar(lines, i, term)[k];
      1 <= e.0 <= i && Contains(lines[e.0 - 1], term) && e.1 == Preview(lines[e.0 - 1])
  {
    MarkedAt(lines, i, l => Contains(l, term), Preview, k);
  }

  /** The listed line numbers increase. */
  lemma SimilarIncreasing(lines: seq<string>, i: nat, term: string, k: nat, l: nat)
    requires i <= |lines| && k < l < |Similar(lines, i, term)|
    ensures Similar(lines, i, term)[k].0 < Similar(lines, i, term)[l].0
  {
    MarkedIncreasing(lines, i, l => Contains(l, term), Preview, k, l);
  }

  /** Every scanned line holding `term` is listed. */
  lemma SimilarComplete(lines: seq<string>, i: nat, term: string, j: nat)
    requires j < i <= |lines| && Contains(lines[j], term)
    ensures (j + 1, Preview(lines[j])) in Similar(lines, i, term)
  {
    MarkedComplete(lines, i, l => Contains(l, term), Preview, j);
  }

  /** The lines found in the first `j` come first among those found in the first `i`. */
  lemma SimilarPrefix(lines: seq<string>, j: nat, i: nat, term: string)
    requires j <= i <= |lines|
    ensures var a, b := Similar(lines, j, term), Similar(lines, i, term);
      |a| <= |b| && b[..|a|] == a
  {
    MarkedPrefix(lines, j, i, l => Contains(l, term), Preview);
  }

  /** The lines `_no_match_error` lists for a missing `old_string`: the first three holding its first word. */
  function SimilarFor(oldString: string, content: string): seq<(nat, string)> {
    match FirstWord(oldString)
    case None => []
    case Some(w) => var lines := SplitLines(content); Take(Similar(lines, |lines|, w), 3)
  }

  /**
   * The loop of `_no_match_error`: lines are scanned from the top and it stops once three
   * similar lines are found.
   */
  method SimilarLines(lines: seq<string>, term: string) returns (matches: seq<(nat, string)>)
    ensures matches == Take(Similar(lines, |lines|, term), 3)
    ensures |matches| <= 3 && forall k :: 0 <= k < |matches| ==> |matches[k].1| <= 80
  {
    matches := [];
    var i := 0;
    while i < |lines|
      invariant 0 <= i <= |lines|
      invariant matches == Similar(lines, i, term) && |matches| < 3
    {
      SimilarSnoc(lines, i, term);
      if Contains(lines[i], term) {
        matches := matches + [(i + 1, Preview(lines[i]))];
        if |matches| >= 3 {
          SimilarPrefix(lines, i + 1, |lines|, term);
          PreviewsShort(lines, i + 1, term);
          TakeOfPrefix(Similar(lines, |lines|, term), matches);
          return;
        }
      }
      i := i + 1;
    }
    PreviewsShort(lines, i, term);
    TakeOfPrefix(matches, matches);
  }

  lemma TakeOfPrefix<T>(all: seq<T>, a: seq<T>)
    requires |a| <= |all| && all[..|a|] == a && (|a| < |all| ==> |a| == 3) && |a| <= 3
    ensures Take(all, 3) == a
  {
  }

  /** The previews of the listed lines are at most 80 characters long. */
  lemma PreviewsShort(lines: seq<string>, i: nat, term: string)
    requires i <= |lines|
    ensures forall k :: 0 <= k < |Similar(lines, i, term)| ==> |Similar(lines, i, term)[k].1| <= 80
  {
    forall k | 0 <= k < |Similar(lines, i, term)| ensures |Similar(lines, i, term)[k].1| <= 80 {
      SimilarAt(lines, i, term, k);
    }
  }

  /** The message of the "not found" error. */
  function NoMatchMessage(p: Path, similar: seq<(nat, string)>): string {
    var head := "old_string not found in " + ToString(p) + ".";
    if similar == [] then
      head + " Make sure the text matches exactly, including:\n- All whitespace and indentation\n"
      + "- Line breaks\n- Any invisible characters\nTry re-reading the file using read_file tool and then editing."
    else
      head + "\n\nPossible similar lines:" + SimilarText(similar)
      + "\n\nMake sure old_string matches exactly (including whitespace and indentation)."
  }

  function SimilarText(similar: seq<(nat, string)>): string {
    if similar == [] then []
    else
      var last := similar[|similar| - 1];
      SimilarText(similar[..|similar| - 1]) + "\n  Line " + NatToString(last.0) + ": " + last.1
  }

  /** `_no_match_error`. */
  method NoMatchError(oldString: string, content: string, p: Path) returns (r: ToolResult)
    ensures r == ErrorResult(NoMatchMessage(p, SimilarFor(oldString, content)))
    ensures |SimilarFor(oldString, content)| <= 3
  {
    var lines := SplitLines(content);
    var similar: seq<(nat, string)> := [];
    var terms := FirstWord(oldString);
    if terms.Some? {
      similar := SimilarLines(lines, terms.value);
    }
    r := ErrorResult(NoMatchMessage(p, similar));
  }

  // ---------------------------------------------------------------------
  // The tool

  /**
   * `get_confirmation`: the change shown to the user, always about the one target file and
   * never flagged dangerous. Reading an existing file may raise.
   */
  function Confirm(ws: Workspace, resolve: Path -> Path, inv: Invocation, params: EditParams): (r: Outcome<Option<Confirmation>>)
    reads ws
    ensures var p := Target(resolve, inv.cwd, params);
      r.Ok? ==> r.value.Some? && r.value.value.affectedPaths == [p] && !r.value.value.isDangerous
                && r.value.value.diff.Some? && r.value.value.diff.value.path == p
    ensures var p := Target(resolve, inv.cwd, params);
      !ws.Exists(p) ==> r.Ok? && r.value.value.diff == Some(FileDiff(p, "", params.newString, true, false))
    ensures var p := Target(resolve, inv.cwd, params);
      ws.Exists(p) ==>
        (r.Ok? <==> ws.ReadText(p).Ok?)
        && (r.Ok? ==> r.value.value.diff == Some(FileDiff(p, ws.files[p],
                        Replace(ws.files[p], params.oldString, params.newString, params.replaceAll), false, false)))
  {
    var p := Target(resolve, inv.cwd, params);
    if !ws.Exists(p) then
      Ok(Some(Confirmation("edit", inv.params, "Create new file: " + ToString(p),
                           Some(FileDiff(p, "", params.newString, true, false)), [p], None, false)))
    else
      match ws.ReadText(p)
      case Raised(e) => Raised(e)
      case Ok(content) =>
        var updated := Replace(content, params.oldString, params.newString, params.replaceAll);
        Ok(Some(Confirmation("edit", inv.params, "Edit file: " + ToString(p),
                             Some(FileDiff(p, content, updated, false, false)), [p], None, false)))
  }

  /**
   * `execute`. A missing file is created only from an empty `old_string`; an existing file
   * is edited as `Decide` says, and written only when the edit changes it. Reading the file,
   * and creating it, may raise.
   */
  method Execute(ws: Workspace, resolve: Path -> Path, cwd: Path, params: EditParams) returns (r: Outcome<ToolResult>)
    requires ws.Valid()
    modifies ws`files, ws`dirs
    ensures ws.Valid()
    ensures var p := Target(resolve, cwd, params);
      !old(ws.Exists(p)) && params.oldString != [] ==>
        r == Ok(MissingFileError(p)) && ws.files == old(ws.files) && ws.dirs == old(ws.dirs)
    ensures var p := Target(resolve, cwd, params);
      !old(ws.Exists(p)) && params.oldString == [] ==>
        (r.Ok? <==> AncestorDirs(p) !! old(ws.files).Keys)
        && (r.Ok? ==> r.value == CreatedResult(p, params.newString) && ws.files == old(ws.files)[p := params.newString])
        && (r.Raised? ==> ws.files == old(ws.files))
    ensures var p := Target(resolve, cwd, params);
      old(ws.Exists(p)) ==> ws.dirs == old(ws.dirs) && (r.Raised? <==> old(ws.ReadText(p)).Raised?)
    ensures var p := Target(resolve, cwd, params);
      old(ws.Exists(p)) && old(ws.ReadText(p)).Ok? ==>
        var content := old(ws.files[p]);
        match Decide(content, params)
        case EmptyOldString => r == Ok(EmptyOldStringError) && ws.files == old(ws.files)
        case NotFound => r == Ok(ErrorResult(NoMatchMessage(p, SimilarFor(params.oldString, content)))) && ws.files == old(ws.files)
        case Ambiguous(c) => r == Ok(AmbiguousError(p, c)) && ws.files == old(ws.files)
        case Unchanged => r == Ok(NoChangeError) && ws.files == old(ws.files)
        case Replaced(updated, c) =>
          if old(ws.IsDir(Parent(p)) && !ws.IsDir(p)) then r == Ok(EditedResult(p, content, updated, c)) && ws.files == old(ws.files)[p := updated]
          else r.Ok? && !r.value.success && ws.files == old(ws.files)
  {
    var p := Target(resolve, cwd, params);
    if !ws.Exists(p) {
      if params.oldString != [] {
        return Ok(MissingFileError(p));
      }
      var made := ws.EnsureParent(p);
      if made.Raised? {
        return Raised(made.message);
      }
      // The parent now exists and the target is not a directory, so the write succeeds.
      var _ := ws.WriteText(p, params.newString);
      return Ok(CreatedResult(p, params.newString));
    }
    var read := ws.ReadText(p);
    if read.Raised? {
      return Raised(read.message);
    }
    var content := read.value;
    if params.oldString == [] {
      return Ok(EmptyOldStringError);
    }
    var count := Count(content, params.oldString);
    if count == 0 {
      var e := NoMatchError(params.oldString, content, p);
      return Ok(e);
    }
    if count > 1 && !params.replaceAll {
      return Ok(AmbiguousError(p, count));
    }
    var updated := Replace(content, params.oldString, params.newString, params.replaceAll);
    var replaced := if params.replaceAll then count else 1;
    if updated == content {
      return Ok(NoChangeError);
    }
    var written := ws.WriteText(p, updated);
    if written.Raised? {
      return Ok(ErrorResult("failed to write file: " + written.message));
    }
    r := Ok(EditedResult(p, content, updated, replaced));
  }
}
