/**
 * The `grep` tool: searches the lines of a file, or of the text files below a directory, for a
 * regular expression, and lists the matching lines per file.
 */
module Grep {
  import opened Common
  import opened Json
  import opened Paths
  import opened ToolBase
  import opened FileStore
  import opened LineScan

  /** Directory names `_find_files` does not descend into. */
  const SkippedDirs: set<string> := {"node_modules", "__pycache__", ".git", ".venv", "venv"}
  const MaxFiles: nat := 500

  /** `GrepParams`, once pydantic has accepted the arguments. */
  datatype GrepParams = GrepParams(pattern: string, path: string, caseInsensitive: bool)

  function Target(resolve: Path -> Path, cwd: Path, params: GrepParams): Path {
    ResolvePath(resolve, ToString(cwd), params.path)
  }

  // ---------------------------------------------------------------------
  // `_find_files`

  /**
   * Whether `_find_files` keeps a file that `os.walk(root)` reaches: no skipped directory
   * between `root` and the file, a name not starting with ".", and not binary.
   */
  predicate Kept(ws: Workspace, root: Path, f: Path)
    reads ws
  {
    IsRelativeTo(f, root) && |root.parts| < |f.parts|
    && (forall k :: |root.parts| <= k < |f.parts| - 1 ==> f.parts[k] !in SkippedDirs)
    && !StartsWith(Name(f), ".")
    && !IsBinaryFile(ws.ReadBytes(f))
  }

  /** The kept files among those of `walk`, in walk order. */
  function KeptFiles(ws: Workspace, root: Path, walk: seq<Path>): (r: seq<Path>)
    reads ws
    ensures |r| <= |walk|
  {
    if walk == [] then []
    else
      var f := walk[|walk| - 1];
      KeptFiles(ws, root, walk[..|walk| - 1]) + (if Kept(ws, root, f) then [f] else [])
  }

  /** Exactly the kept files of the walk are listed. */
  lemma {:induction false} KeptFilesExact(ws: Workspace, root: Path, walk: seq<Path>, f: Path)
    ensures f in KeptFiles(ws, root, walk) <==> f in walk && Kept(ws, root, f)
  {
    if walk != [] {
      var init := walk[..|walk| - 1];
      KeptFilesExact(ws, root, init, f);
      assert walk == init + [walk[|walk| - 1]];
    }
  }

  /** Walking further only appends to the kept files. */
  lemma {:induction false} KeptFilesPrefix(ws: Workspace, root: Path, walk: seq<Path>, n: nat)
    requires n <= |walk|
    ensures var a, b := KeptFiles(ws, root, walk[..n]), KeptFiles(ws, root, walk);
      |a| <= |b| && b[..|a|] == a
  {
    if n < |walk| {
      var init := walk[..|walk| - 1];
      assert init[..n] == walk[..n];
      KeptFilesPrefix(ws, root, init, n);
      var a, c := KeptFiles(ws, root, walk[..n]), KeptFiles(ws, root, init);
      var b := KeptFiles(ws, root, walk);
      assert b == c + (if Kept(ws, root, walk[|walk| - 1]) then [walk[|walk| - 1]] else []);
      assert b[..|a|] == c[..|a|];
    } else {
      assert walk[..n] == walk;
    }
  }

  /** One more file of the walk. */
  lemma KeptFilesSnoc(ws: Workspace, root: Path, walk: seq<Path>, i: nat)
    requires i < |walk|
    ensures KeptFiles(ws, root, walk[..i + 1])
            == KeptFiles(ws, root, walk[..i]) + (if Kept(ws, root, walk[i]) then [walk[i]] else [])
  {
    assert walk[..i + 1][..i] == walk[..i];
  }

  /** Once the first files of the walk yield 500 kept files, those are the result. */
  lemma FoundAtCap(ws: Workspace, root: Path, walk: seq<Path>, n: nat)
    requires n <= |walk| && |KeptFiles(ws, root, walk[..n])| == MaxFiles
    ensures Found(ws, root, walk) == KeptFiles(ws, root, walk[..n])
  {
    KeptFilesPrefix(ws, root, walk, n);
  }

  /** What `_find_files` returns: the kept files, stopping at the 500th. */
  function Found(ws: Workspace, root: Path, walk: seq<Path>): seq<Path>
    reads ws
  {
    Take(KeptFiles(ws, root, walk), MaxFiles)
  }

  /**
   * At most 500 files are returned, each a kept file of the walk, in walk order; when fewer
   * than 500 are kept, none is missing.
   */
  lemma FoundFiles(ws: Workspace, root: Path, walk: seq<Path>, f: Path)
    ensures var r := Found(ws, root, walk);
      |r| <= MaxFiles
      && (f in r ==> f in walk && Kept(ws, root, f))
      && (|KeptFiles(ws, root, walk)| < MaxFiles ==> (f in r <==> f in walk && Kept(ws, root, f)))
  {
    KeptFilesExact(ws, root, walk, f);
  }

  /**
   * `_find_files(root)`. `walk` lists the files `os.walk(root)` reaches, in its order, when no
   * directory is pruned; pruning a directory drops exactly the files below it.
   */
  method FindFiles(ws: Workspace, root: Path, walk: seq<Path>) returns (files: seq<Path>)
    ensures files == Found(ws, root, walk)
  {
    files := [];
    var i := 0;
    while i < |walk|
      invariant 0 <= i <= |walk|
      invariant files == KeptFiles(ws, root, walk[..i]) && |files| < MaxFiles
    {
      KeptFilesSnoc(ws, root, walk, i);
      if Kept(ws, root, walk[i]) {
        files := files + [walk[i]];
        if |files| >= MaxFiles {
          FoundAtCap(ws, root, walk, i + 1);
          return;
        }
      }
      i := i + 1;
    }
    assert walk[..i] == walk;
  }

  // ---------------------------------------------------------------------
  // The output

  /** The matching lines of a file, numbered from 1, in ascending order. */
  function Hits(lines: seq<string>, matches: string -> bool): seq<(nat, string)> {
    Marked(lines, |lines|, matches, l => l)
  }

  /** `f"{i}:{line}"`. */
  function HitLine(h: (nat, string)): string {
    NatToString(h.0) + ":" + h.1
  }

  function HitLines(hits: seq<(nat, string)>): (r: seq<string>)
    ensures |r| == |hits|
    ensures forall k :: 0 <= k < |hits| ==> r[k] == HitLine(hits[k])
  {
    if hits == [] then [] else [HitLine(hits[0])] + HitLines(hits[1..])
  }

  /** The lines one file contributes: nothing without hits, else its header, its hits and a blank line. */
  function Block(rel: Path, hits: seq<(nat, string)>): (r: seq<string>)
    ensures hits == [] ==> r == []
    ensures hits != [] ==> |r| == |hits| + 2 && r[0] == "=== " + ToString(rel) + " ===" && r[|r| - 1] == ""
  {
    if hits == [] then [] else ["=== " + ToString(rel) + " ==="] + HitLines(hits) + [""]
  }

  /** The output lines so far and the match count. */
  datatype Scan = Scan(lines: seq<string>, matches: nat)

  /**
   * The loop over the files: an unreadable file is skipped; a file with hits is shown relative
   * to `cwd`, which raises `ValueError` when it does not lie under `cwd`.
   */
  function ScanFiles(ws: Workspace, cwd: Path, files: seq<Path>, matches: string -> bool): Outcome<Scan>
    reads ws
  {
    if files == [] then Ok(Scan([], 0))
    else match ScanFiles(ws, cwd, files[..|files| - 1], matches)
      case Raised(e) => Raised(e)
      case Ok(acc) => ScanFile(ws, cwd, files[|files| - 1], matches, acc)
  }

  function ScanFile(ws: Workspace, cwd: Path, f: Path, matches: string -> bool, acc: Scan): Outcome<Scan>
    reads ws
  {
    match ws.ReadText(f)
    case Raised(_) => Ok(acc)
    case Ok(content) =>
      var hits := Hits(SplitLines(content), matches);
      if hits == [] then Ok(acc)
      else match RelativeTo(f, cwd)
        case Raised(e) => Raised(e)
        case Ok(rel) => Ok(Scan(acc.lines + Block(rel, hits), acc.matches + |hits|))
  }

  /** An output line that reports a hit: it starts with a digit (headers start with "=", separators are empty). */
  predicate IsHitLine(l: string) {
    l != [] && IsDigit(l[0])
  }

  function CountHitLines(lines: seq<string>): (n: nat)
    ensures n <= |lines|
  {
    if lines == [] then 0 else CountHitLines(lines[..|lines| - 1]) + (if IsHitLine(lines[|lines| - 1]) then 1 else 0)
  }

  /**
   * The `matches` count equals the number of hit lines in the output, and the output is empty
   * exactly when nothing matched.
   */
  lemma {:induction false} ScanCounts(ws: Workspace, cwd: Path, files: seq<Path>, matches: string -> bool)
    requires ScanFiles(ws, cwd, files, matches).Ok?
    ensures var s := ScanFiles(ws, cwd, files, matches).value;
      s.matches == CountHitLines(s.lines) && (s.lines == [] <==> s.matches == 0)
  {
    if files != [] {
      var acc := ScanFiles(ws, cwd, files[..|files| - 1], matches).value;
      ScanCounts(ws, cwd, files[..|files| - 1], matches);
      var f := files[|files| - 1];
      if ws.ReadText(f).Ok? {
        var hits := Hits(SplitLines(ws.ReadText(f).value), matches);
        if hits != [] {
          var rel := RelativeTo(f, cwd).value;
          BlockCount(rel, hits);
          CountConcat(acc.lines, Block(rel, hits));
        }
      }
    }
  }

  lemma BlockCount(rel: Path, hits: seq<(nat, string)>)
    requires hits != []
    ensures CountHitLines(Block(rel, hits)) == |hits|
  {
    var head := ["=== " + ToString(rel) + " ==="];
    var body := HitLines(hits);
    assert Block(rel, hits) == (head + body) + [""];
    assert CountHitLines(head) == 0 by {
      assert head[..0] == [];
      assert head[0][0] == '=';
    }
    HitLinesCount(hits, |hits|);
    assert body[..|hits|] == body;
    CountConcat(head, body);
  }

  lemma {:induction false} HitLinesCount(hits: seq<(nat, string)>, n: nat)
    requires n <= |hits|
    ensures CountHitLines(HitLines(hits)[..n]) == n
  {
    if n > 0 {
      var ls := HitLines(hits);
      assert ls[..n][..n - 1] == ls[..n - 1];
      HitLinesCount(hits, n - 1);
      var d := NatToString(hits[n - 1].0);
      assert ls[n - 1] == d + ":" + hits[n - 1].1;
      assert ls[n - 1][0] == d[0];
    } else {
      assert HitLines(hits)[..0] == [];
    }
  }

  lemma {:induction false} CountConcat(a: seq<string>, b: seq<string>)
    ensures CountHitLines(a + b) == CountHitLines(a) + CountHitLines(b)
  {
    if b != [] {
      assert (a + b)[..|a + b| - 1] == a + b[..|b| - 1];
      CountConcat(a, b[..|b| - 1]);
    } else {
      assert a + b == a;
    }
  }

  // ---------------------------------------------------------------------
  // `execute`

  /** The files searched: those `_find_files` returns below a directory, or the file itself. */
  function Searched(ws: Workspace, p: Path, walk: seq<Path>): seq<Path>
    reads ws
  {
    if ws.IsDir(p) then Found(ws, p, walk) else [p]
  }

  function Metadata(p: Path, matches: nat, searched: nat): Object {
    [("path", JStr(ToString(p))), ("matches", JInt(matches)), ("files_searched", JInt(searched))]
  }

  /** The result once the files are scanned. */
  function Report(p: Path, pattern: string, scan: Outcome<Scan>, searched: nat): (r: Outcome<ToolResult>)
    ensures scan.Raised? <==> r.Raised?
    ensures scan.Ok? && scan.value.lines == [] ==>
              r == Ok(SuccessResult("No matches found for pattern '" + pattern + "'", metadata := Metadata(p, 0, searched)))
    ensures scan.Ok? && scan.value.lines != [] ==>
              r == Ok(SuccessResult(Join(scan.value.lines, "\n"), metadata := Metadata(p, scan.value.matches, searched)))
  {
    match scan
    case Raised(e) => Raised(e)
    case Ok(s) =>
      if s.lines == [] then Ok(SuccessResult("No matches found for pattern '" + pattern + "'", metadata := Metadata(p, 0, searched)))
      else Ok(SuccessResult(Join(s.lines, "\n"), metadata := Metadata(p, s.matches, searched)))
  }

  /**
   * Whenever a result comes back, its `matches` is the number of hit lines it shows and
   * `files_searched` counts every searched file, readable or not.
   */
  lemma ReportCounts(ws: Workspace, cwd: Path, p: Path, pattern: string, walk: seq<Path>, matches: string -> bool)
    requires ScanFiles(ws, cwd, Searched(ws, p, walk), matches).Ok?
    ensures var s := ScanFiles(ws, cwd, Searched(ws, p, walk), matches).value;
      var r := Report(p, pattern, Ok(s), |Searched(ws, p, walk)|).value;
      r.success
      && r.metadata == Metadata(p, CountHitLines(s.lines), |Searched(ws, p, walk)|)
  {
    ScanCounts(ws, cwd, Searched(ws, p, walk), matches);
  }

  /**
   * `execute`. `compile(pattern, ignore_case)` stands for `re.compile`: the compiled search, or
   * the message of `re.error`. `walk` is what `os.walk` reaches below the search path.
   */
  method Execute(ws: Workspace, resolve: Path -> Path, cwd: Path, params: GrepParams,
                 compile: (string, bool) -> Outcome<string -> bool>, walk: seq<Path>) returns (r: Outcome<ToolResult>)
    ensures var p := Target(resolve, cwd, params);
      !ws.Exists(p) ==> r == Ok(ErrorResult("Path does not exist: " + ToString(p)))
    ensures var p := Target(resolve, cwd, params);
      var c := compile(params.pattern, params.caseInsensitive);
      ws.Exists(p) && c.Raised? ==> r == Ok(ErrorResult("Invalid regex pattern: " + c.message))
    ensures var p := Target(resolve, cwd, params);
      var c := compile(params.pattern, params.caseInsensitive);
      ws.Exists(p) && c.Ok? ==>
        r == Report(p, params.pattern, ScanFiles(ws, cwd, Searched(ws, p, walk), c.value), |Searched(ws, p, walk)|)
  {
    var p := Target(resolve, cwd, params);
    if !ws.Exists(p) {
      return Ok(ErrorResult("Path does not exist: " + ToString(p)));
    }
    var c := compile(params.pattern, params.caseInsensitive);
    if c.Raised? {
      return Ok(ErrorResult("Invalid regex pattern: " + c.message));
    }
    var files: seq<Path>;
    if ws.IsDir(p) {
      files := FindFiles(ws, p, walk);
    } else {
      files := [p];
    }
    var scan := ScanAll(ws, cwd, files, c.value);
    r := Report(p, params.pattern, scan, |files|);
  }

  /** The loop over the files, accumulating the output lines and the match count. */
  method ScanAll(ws: Workspace, cwd: Path, files: seq<Path>, matches: string -> bool) returns (scan: Outcome<Scan>)
    ensures scan == ScanFiles(ws, cwd, files, matches)
  {
    var acc := Scan([], 0);
    var i := 0;
    while i < |files|
      invariant 0 <= i <= |files|
      invariant ScanFiles(ws, cwd, files[..i], matches) == Ok(acc)
    {
      assert files[..i + 1][..i] == files[..i];
      var next := ScanOne(ws, cwd, files[i], matches, acc);
      if next.Raised? {
        ScanStops(ws, cwd, files, matches, i + 1);
        return next;
      }
      acc := next.value;
      i := i + 1;
    }
    assert files[..i] == files;
    scan := Ok(acc);
  }

  /** One pass of the loop over the files: reads the file and appends its block. */
  method ScanOne(ws: Workspace, cwd: Path, f: Path, matches: string -> bool, acc: Scan) returns (next: Outcome<Scan>)
    ensures next == ScanFile(ws, cwd, f, matches, acc)
  {
    var read := ws.ReadText(f);
    if read.Raised? {
      return Ok(acc);
    }
    var hits := MatchingLines(SplitLines(read.value), matches);
    if hits == [] {
      return Ok(acc);
    }
    var rel := RelativeTo(f, cwd);
    if rel.Raised? {
      return Raised(rel.message);
    }
    next := Ok(Scan(acc.lines + Block(rel.value, hits), acc.matches + |hits|));
  }

  /** Once a prefix of the files raises, the whole scan raises the same. */
  lemma {:induction false} ScanStops(ws: Workspace, cwd: Path, files: seq<Path>, matches: string -> bool, n: nat)
    requires n <= |files| && ScanFiles(ws, cwd, files[..n], matches).Raised?
    ensures ScanFiles(ws, cwd, files, matches) == ScanFiles(ws, cwd, files[..n], matches)
  {
    if n < |files| {
      assert files[..|files| - 1][..n] == files[..n];
      ScanStops(ws, cwd, files[..|files| - 1], matches, n);
    } else {
      assert files[..n] == files;
    }
  }

  /** The inner loop over the lines of one file. */
  method MatchingLines(lines: seq<string>, matches: string -> bool) returns (hits: seq<(nat, string)>)
    ensures hits == Hits(lines, matches)
  {
    hits := [];
    var i := 0;
    while i < |lines|
      invariant 0 <= i <= |lines|
      invariant hits == Marked(lines, i, matches, l => l)
    {
      if matches(lines[i]) {
        hits := hits + [(i + 1, lines[i])];
      }
      i := i + 1;
    }
  }
}
