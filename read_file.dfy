/**
 * The `read_file` tool: shows a window of a text file's lines, each prefixed with its
 * right-aligned line number.
 */
module ReadFile {
  import opened Common
  import opened Json
  import opened Paths
  import opened ToolBase
  import opened FileStore

  const MaxFileSize: nat := 1024 * 1024 * 10
  const MaxOutputTokens: nat := 25000
  const Mebibyte: nat := 1024 * 1024

  /** `ReadFileParams`; pydantic has checked `offset >= 1` and `limit >= 1`. */
  datatype ReadParams = ReadParams(path: string, offset: int, limit: Option<int>)

  predicate ValidParams(params: ReadParams) {
    params.offset >= 1 && (params.limit.Some? ==> params.limit.value >= 1)
  }

  function Target(resolve: Path -> Path, cwd: Path, params: ReadParams): Path {
    ResolvePath(resolve, ToString(cwd), params.path)
  }

  // ---------------------------------------------------------------------
  // Sizes as Python's fixed-point formatting shows them

  function Pow10(k: nat): (r: nat)
    ensures r >= 1
  {
    if k == 0 then 1 else 10 * Pow10(k - 1)
  }

  /** `n * 10^k`. */
  function Shift(n: nat, k: nat): nat {
    if k == 0 then n else 10 * Shift(n, k - 1)
  }

  function Zeros(n: nat): string {
    if n == 0 then [] else "0" + Zeros(n - 1)
  }

  /**
   * `f"{n / d:.{places}f}"`: the quotient rounded to `places` decimals, half to even.
   * For the sizes here `n / d` is exact in binary floating point.
   */
  function Fixed(n: nat, d: nat, places: nat): string
    requires d > 0
  {
    var rounded := RoundHalfEven(Shift(n, places), d);
    if places == 0 then NatToString(rounded)
    else
      var unit := Pow10(places);
      NatToString(Quot(rounded, unit)) + "." + ZeroPad(NatToString(rounded % unit), places)
  }

  function Quot(a: nat, b: nat): nat
    requires b > 0
  {
    a / b
  }

  /** `a / d` rounded to the nearest integer, ties to the even one. */
  function RoundHalfEven(a: nat, d: nat): nat
    requires d > 0
  {
    var q, rem := a / d, a % d;
    if 2 * rem > d || (2 * rem == d && q % 2 == 1) then q + 1 else q
  }

  function ZeroPad(s: string, width: nat): string {
    if |s| < width then Zeros(width - |s|) + s else s
  }

  // ---------------------------------------------------------------------
  // Why a file cannot be shown

  datatype Refusal = NotFound | NotAFile | TooLarge(size: nat) | Binary(size: nat)

  /**
   * The checks before reading, in the order `execute` makes them: the file is shown only when
   * it exists, is a regular file, is at most 10 MiB and holds no NUL byte among its first
   * 8192; each refusal is the first check that fails.
   */
  function Precheck(ws: Workspace, p: Path): (r: Option<Refusal>)
    reads ws
    ensures r == Some(NotFound) <==> !ws.Exists(p)
    ensures r == Some(NotAFile) <==> ws.Exists(p) && p !in ws.files
    ensures r.Some? && r.value.TooLarge? <==> p in ws.files && ws.Size(p) > MaxFileSize
    ensures r.Some? && r.value.Binary? <==>
              p in ws.files && ws.Size(p) <= MaxFileSize && ws.ReadText(p).Ok? && 0 in Take(Utf8(ws.files[p]), 8192)
    ensures r.None? <==>
              p in ws.files && ws.Size(p) <= MaxFileSize && !(ws.ReadText(p).Ok? && 0 in Take(Utf8(ws.files[p]), 8192))
  {
    if !ws.Exists(p) then Some(NotFound)
    else if p !in ws.files then Some(NotAFile)
    else if ws.Size(p) > MaxFileSize then Some(TooLarge(ws.Size(p)))
    else if IsBinaryFile(ws.ReadBytes(p)) then Some(Binary(ws.Size(p)))
    else None
  }

  function RefusalMessage(p: Path, why: Refusal): string {
    match why
    case NotFound => "File not found: " + ToString(p)
    case NotAFile => "Path is not a file: " + ToString(p)
    case TooLarge(size) =>
      "File too large (" + Fixed(size, Mebibyte, 1) + "MB). Maximum is " + Fixed(MaxFileSize, Mebibyte, 0) + "MB."
    case Binary(size) =>
      var sizeText := if size >= Mebibyte then Fixed(size, Mebibyte, 2) + "MB" else NatToString(size) + " bytes";
      "Cannot read binary file: " + Name(p) + " (" + sizeText + ") This tool only reads text files."
  }

  // ---------------------------------------------------------------------
  // The window and its rendering

  /** `start_idx` and `end_idx` for a file of `total` lines. */
  function Window(total: nat, params: ReadParams): (w: (nat, nat))
    requires ValidParams(params)
    ensures w.0 == params.offset - 1 && w.1 <= total
    ensures params.limit.None? ==> w.1 == total
    ensures params.limit.Some? ==> w.1 == Min(w.0 + params.limit.value, total)
  {
    var start := params.offset - 1;
    (start, match params.limit case Some(l) => Min(start + l, total) case None => total)
  }

  function Min(a: int, b: int): int {
    if a < b then a else b
  }

  /** `lines[start:end]`: empty when the window starts past the end. */
  function Shown(lines: seq<string>, start: nat, end: nat): (r: seq<string>)
    requires end <= |lines|
    ensures start <= end ==> r == lines[start..end]
    ensures start >= end ==> r == []
  {
    if start <= end then lines[start..end] else []
  }

  /** `f"{n:6}|{line}"`. */
  function NumberedLine(n: nat, line: string): string {
    PadLeft(NatToString(n), 6) + "|" + line
  }

  /** The shown lines, numbered from `first`. */
  function Numbered(lines: seq<string>, first: nat): (r: seq<string>)
    ensures |r| == |lines|
    decreases |lines|
  {
    if lines == [] then [] else [NumberedLine(first, lines[0])] + Numbered(lines[1..], first + 1)
  }

  lemma {:induction false} NumberedAt(lines: seq<string>, first: nat, k: nat)
    requires k < |lines|
    ensures Numbered(lines, first)[k] == NumberedLine(first + k, lines[k])
    decreases k
  {
    var r := Numbered(lines, first);
    var rest := Numbered(lines[1..], first + 1);
    assert r == [NumberedLine(first, lines[0])] + rest;
    if k > 0 {
      NumberedAt(lines[1..], first + 1, k - 1);
      assert r[k] == rest[k - 1];
      assert lines[1..][k - 1] == lines[k];
    }
  }

  /** The loop of `execute` that numbers the shown lines. */
  method NumberLines(lines: seq<string>, first: nat) returns (formatted: seq<string>)
    ensures formatted == Numbered(lines, first)
  {
    formatted := [];
    var i := 0;
    while i < |lines|
      invariant 0 <= i <= |lines|
      invariant |formatted| == i
      invariant forall k :: 0 <= k < i ==> formatted[k] == NumberedLine(first + k, lines[k])
    {
      formatted := formatted + [NumberedLine(first + i, lines[i])];
      i := i + 1;
    }
    forall k | 0 <= k < |lines| ensures formatted[k] == Numbered(lines, first)[k] {
      NumberedAt(lines, first, k);
    }
  }

  /** The "Showing lines a-b of N" header, present only for a partial view. */
  function Header(start: nat, end: nat, total: nat): (r: string)
    ensures r == [] <==> start == 0 && end >= total
  {
    if start > 0 || end < total then
      "Showing lines " + NatToString(start + 1) + "-" + NatToString(end) + " of " + NatToString(total) + "\n\n"
    else ""
  }

  /** Whether a text has more tokens than a tool may return. */
  predicate OverBudget(countTokens: string -> nat, text: string) {
    countTokens(text) > MaxOutputTokens
  }

  /** The output for the shown lines, truncated when it exceeds the token budget. */
  function Body(formatted: seq<string>, total: nat, countTokens: string -> nat,
                truncate: (string, nat, string) -> string): (r: (string, bool))
    ensures r.1 <==> OverBudget(countTokens, Join(formatted, "\n"))
    ensures !r.1 ==> r.0 == Join(formatted, "\n")
  {
    var output := Join(formatted, "\n");
    if OverBudget(countTokens, output) then
      (truncate(output, MaxOutputTokens, "\n... [truncated " + NatToString(total) + " total lines]"), true)
    else (output, false)
  }

  /** What `execute` returns for a readable file's content. */
  function Render(p: Path, content: string, params: ReadParams, countTokens: string -> nat,
                  truncate: (string, nat, string) -> string): ToolResult
    requires ValidParams(params)
  {
    RenderLines(p, SplitLines(content), params, countTokens, truncate)
  }

  /** What `execute` returns for the lines of a readable file. */
  function RenderLines(p: Path, lines: seq<string>, params: ReadParams, countTokens: string -> nat,
                       truncate: (string, nat, string) -> string): ToolResult
    requires ValidParams(params)
  {
    if |lines| == 0 then EmptyFile
    else
      var w := Window(|lines|, params);
      Showing(p, |lines|, w, Body(Numbered(Shown(lines, w.0, w.1), w.0 + 1), |lines|, countTokens, truncate))
  }

  /** The result for a file without lines. */
  const EmptyFile := SuccessResult("File is empty.", metadata := [("lines", JInt(0))])

  /** The result for the window `w` of a file of `total` lines, given its body. */
  function Showing(p: Path, total: nat, w: (nat, nat), body: (string, bool)): ToolResult {
    SuccessResult(Header(w.0, w.1, total) + body.0, truncated := body.1,
                  metadata := WindowMetadata(p, total, w.0 + 1, w.1))
  }

  /** The metadata of a shown window: the path, the line count and the first and last line shown. */
  function WindowMetadata(p: Path, total: nat, first: nat, last: nat): Object {
    [("path", JStr(ToString(p))), ("total_lines", JInt(total)),
     ("shown_start", JInt(first)), ("shown_end", JInt(last))]
  }

  /** A file without lines is reported empty. */
  lemma RenderEmpty(p: Path, content: string, params: ReadParams, countTokens: string -> nat,
                    truncate: (string, nat, string) -> string)
    requires ValidParams(params) && SplitLines(content) == []
    ensures var r := Render(p, content, params, countTokens, truncate);
      r.success && r.output == "File is empty." && r.metadata == [("lines", JInt(0))] && !r.truncated
  {
  }

  /**
   * A non-empty file is shown from line `offset` on, `limit` lines at most, each line numbered
   * from `offset`; the output is cut only when its tokens exceed 25000, and the metadata gives
   * the window.
   */
  lemma RenderShown(p: Path, content: string, params: ReadParams, countTokens: string -> nat,
                    truncate: (string, nat, string) -> string)
    requires ValidParams(params) && SplitLines(content) != []
    ensures var r := Render(p, content, params, countTokens, truncate);
      var lines := SplitLines(content);
      var total := |lines|;
      var start := params.offset - 1;
      var end := if params.limit.Some? then Min(start + params.limit.value, total) else total;
      var body := Join(Numbered(Shown(lines, start, end), params.offset), "\n");
      r.success
      && r.metadata == WindowMetadata(p, total, params.offset, end)
      && (r.truncated <==> OverBudget(countTokens, body))
      && (!r.truncated ==> r.output == Header(start, end, total) + body)
  {
    ShownLines(p, SplitLines(content), params, countTokens, truncate);
  }

  /** `RenderShown` for the lines of the file. */
  lemma ShownLines(p: Path, lines: seq<string>, params: ReadParams, countTokens: string -> nat,
                   truncate: (string, nat, string) -> string)
    requires ValidParams(params) && lines != []
    ensures var r := RenderLines(p, lines, params, countTokens, truncate);
      var total := |lines|;
      var start := params.offset - 1;
      var end := if params.limit.Some? then Min(start + params.limit.value, total) else total;
      var body := Join(Numbered(Shown(lines, start, end), params.offset), "\n");
      r.success
      && r.metadata == WindowMetadata(p, total, params.offset, end)
      && (r.truncated <==> OverBudget(countTokens, body))
      && (!r.truncated ==> r.output == Header(start, end, total) + body)
  {
    var start := params.offset - 1;
    var end := if params.limit.Some? then Min(start + params.limit.value, |lines|) else |lines|;
    var w := Window(|lines|, params);
    assert w.0 == start && w.1 == end && w.0 + 1 == params.offset;
    var body := Join(Numbered(Shown(lines, start, end), params.offset), "\n");
    var b := Body(Numbered(Shown(lines, start, end), params.offset), |lines|, countTokens, truncate);
    assert RenderLines(p, lines, params, countTokens, truncate) == Showing(p, |lines|, w, b);
    ShowingOf(p, |lines|, w, b, params.offset, end, body, countTokens);
  }

  /** The window, truncation flag and output of a shown result. */
  lemma ShowingOf(p: Path, total: nat, w: (nat, nat), b: (string, bool), first: int, last: int,
                  body: string, countTokens: string -> nat)
    requires first == w.0 + 1 && last == w.1
    requires (b.1 <==> OverBudget(countTokens, body)) && (!b.1 ==> b.0 == body)
    ensures var r := Showing(p, total, w, b);
      r.success && r.metadata == WindowMetadata(p, total, first, last)
      && (r.truncated <==> OverBudget(countTokens, body))
      && (!r.truncated ==> r.output == Header(first - 1, last, total) + body)
  {
  }

  /** `execute`. */
  method Execute(ws: Workspace, resolve: Path -> Path, cwd: Path, params: ReadParams,
                 countTokens: string -> nat, truncate: (string, nat, string) -> string) returns (r: ToolResult)
    requires ValidParams(params)
    ensures var p := Target(resolve, cwd, params);
      match Precheck(ws, p)
      case Some(why) => r == ErrorResult(RefusalMessage(p, why))
      case None =>
        match ws.ReadText(p)
        case Raised(e) => r == ErrorResult("Failed to read file: " + e)
        case Ok(content) => r == Render(p, content, params, countTokens, truncate)
  {
    var p := Target(resolve, cwd, params);
    var why := Precheck(ws, p);
    if why.Some? {
      return ErrorResult(RefusalMessage(p, why.value));
    }
    var read := ws.ReadText(p);
    if read.Raised? {
      return ErrorResult("Failed to read file: " + read.message);
    }
    var lines := SplitLines(read.value);
    var total := |lines|;
    if total == 0 {
      return EmptyFile;
    }
    var w := Window(total, params);
    var formatted := NumberLines(Shown(lines, w.0, w.1), w.0 + 1);
    r := Showing(p, total, w, Body(formatted, total, countTokens, truncate));
  }
}
