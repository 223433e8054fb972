/** POSIX paths (`pathlib.PurePosixPath`) and the path helpers of `utils/paths.py`. */
module Paths {
  import opened Common

  type Byte = b: int | 0 <= b < 256

  /** A path as `pathlib` holds it: an anchor flag and its non-empty components. */
  datatype Path = Path(absolute: bool, parts: seq<string>)

  predicate WellFormedPart(x: string) {
    x != [] && x != "." && '/' !in x
  }

  predicate WellFormed(p: Path) {
    forall i :: 0 <= i < |p.parts| ==> WellFormedPart(p.parts[i])
  }

  /** `str(p)`. */
  function ToString(p: Path): string {
    if p.absolute then "/" + Join(p.parts, "/")
    else if p.parts == [] then "."
    else Join(p.parts, "/")
  }

  /** `s.split(c)`: every piece between separators, empty pieces included. */
  function SplitOn(s: string, c: char): (r: seq<string>)
    ensures r != []
    decreases |s|
  {
    var i := IndexOf(s, c);
    if i < 0 then [s] else [s[..i]] + SplitOn(s[i + 1..], c)
  }

  function DropTrivial(xs: seq<string>): (r: seq<string>)
    ensures forall i :: 0 <= i < |r| ==> r[i] != [] && r[i] != "." && r[i] in xs
  {
    if xs == [] then []
    else if xs[0] == [] || xs[0] == "." then DropTrivial(xs[1..])
    else [xs[0]] + DropTrivial(xs[1..])
  }

  /** `PurePosixPath(s)`: a leading `/` makes it absolute; empty and `.` components vanish. */
  function Parse(s: string): (p: Path)
    ensures WellFormed(p)
  {
    var pieces := SplitOn(s, '/');
    SplitOnNoSeparator(s, '/');
    Path(StartsWith(s, "/"), DropTrivial(pieces))
  }

  lemma {:induction false} SplitOnNoSeparator(s: string, c: char)
    ensures forall k :: 0 <= k < |SplitOn(s, c)| ==> c !in SplitOn(s, c)[k]
    decreases |s|
  {
    var i := IndexOf(s, c);
    if i >= 0 {
      SplitOnNoSeparator(s[i + 1..], c);
      assert c !in s[..i] by {
        forall j | 0 <= j < i ensures s[..i][j] != c { }
      }
    }
  }

  lemma {:induction false} SplitOnJoin(parts: seq<string>, c: char)
    requires parts != []
    requires forall k :: 0 <= k < |parts| ==> c !in parts[k]
    ensures SplitOn(Join(parts, [c]), c) == parts
    decreases |parts|
  {
    if |parts| == 1 {
      assert IndexOf(parts[0], c) < 0;
    } else {
      var x := parts[0];
      var rest := Join(parts[1..], [c]);
      var s := x + [c] + rest;
      assert s == Join(parts, [c]);
      assert forall j :: 0 <= j < |x| ==> x[j] != c;
      IndexOfAfter(x, c, rest);
      assert s[..|x|] == x;
      assert s[|x| + 1..] == rest;
      SplitOnJoin(parts[1..], c);
    }
  }

  lemma {:induction false} DropTrivialKeeps(xs: seq<string>)
    requires forall i :: 0 <= i < |xs| ==> WellFormedPart(xs[i])
    ensures DropTrivial(xs) == xs
  {
    if xs != [] {
      DropTrivialKeeps(xs[1..]);
    }
  }

  /** Printing a well-formed path and parsing it again gives the same path. */
  lemma ParseToString(p: Path)
    requires WellFormed(p)
    ensures Parse(ToString(p)) == p
  {
    if p.parts == [] {
      ParseEmpty(p.absolute);
    } else if p.absolute {
      ParseAbsolute(p.parts);
    } else {
      ParseRelative(p.parts);
    }
  }

  lemma ParseEmpty(absolute: bool)
    ensures Parse(ToString(Path(absolute, []))) == Path(absolute, [])
  {
    var s := ToString(Path(absolute, []));
    if absolute {
      assert s == "/";
      assert SplitOn(s, '/') == ["", ""];
    } else {
      assert s == ".";
      assert SplitOn(s, '/') == ["."];
    }
  }

  lemma ParseAbsolute(parts: seq<string>)
    requires parts != [] && forall i :: 0 <= i < |parts| ==> WellFormedPart(parts[i])
    ensures Parse("/" + Join(parts, "/")) == Path(true, parts)
  {
    var j := Join(parts, "/");
    var s := "/" + j;
    SplitOnJoin(parts, '/');
    DropTrivialKeeps(parts);
    assert SplitOn(s, '/') == [[]] + SplitOn(j, '/') by {
      assert IndexOf(s, '/') == 0;
      assert s[..0] == [] && s[1..] == j;
    }
    assert DropTrivial([[]] + parts) == DropTrivial(parts) by {
      assert ([[]] + parts)[1..] == parts;
    }
  }

  lemma ParseRelative(parts: seq<string>)
    requires parts != [] && forall i :: 0 <= i < |parts| ==> WellFormedPart(parts[i])
    ensures Parse(Join(parts, "/")) == Path(false, parts)
  {
    SplitOnJoin(parts, '/');
    DropTrivialKeeps(parts);
    JoinHead(parts);
    var j := Join(parts, "/");
    assert parts[0][0] in parts[0];
    assert j[0] != '/';
    assert j[..1][0] == j[0];
  }

  lemma JoinHead(parts: seq<string>)
    requires parts != [] && WellFormedPart(parts[0])
    ensures Join(parts, "/") != [] && Join(parts, "/")[0] == parts[0][0]
  {
    if |parts| > 1 {
      assert Join(parts, "/") == parts[0] + "/" + Join(parts[1..], "/");
    }
  }

  /** `p / q` for a relative `q`. */
  function Child(p: Path, q: Path): Path
    requires !q.absolute
  {
    Path(p.absolute, p.parts + q.parts)
  }

  /** `p.parent`: the root and `.` are their own parents. */
  function Parent(p: Path): (r: Path)
    ensures r.absolute == p.absolute && r.parts == if p.parts == [] then [] else p.parts[..|p.parts| - 1]
  {
    if p.parts == [] then p else Path(p.absolute, p.parts[..|p.parts| - 1])
  }

  /** `p.name`. */
  function Name(p: Path): string {
    if p.parts == [] then "" else p.parts[|p.parts| - 1]
  }

  /** `p.is_relative_to(base)`, lexically. */
  predicate IsRelativeTo(p: Path, base: Path) {
    p.absolute == base.absolute && |base.parts| <= |p.parts| && p.parts[..|base.parts|] == base.parts
  }

  /** `p.relative_to(base)`: raises `ValueError` when `p` is not under `base`. */
  function RelativeTo(p: Path, base: Path): (r: Outcome<Path>)
    ensures r.Ok? <==> IsRelativeTo(p, base)
    ensures r.Ok? ==> !r.value.absolute && Child(base, r.value) == p
  {
    if IsRelativeTo(p, base) then
      assert p.parts == base.parts + p.parts[|base.parts|..];
      Ok(Path(false, p.parts[|base.parts|..]))
    else Raised("ValueError: " + ToString(p) + " is not in the subpath of " + ToString(base))
  }

  /**
   * `resolve_path(base, path)`: an absolute path is resolved on its own, a relative
   * one is appended to the resolved base.  `resolve` stands for `Path.resolve()`,
   * which consults the filesystem for symbolic links and `..`.
   */
  function ResolvePath(resolve: Path -> Path, base: string, path: string): (r: Path)
    ensures Parse(path).absolute ==> r == resolve(Parse(path))
    ensures !Parse(path).absolute ==>
      IsRelativeTo(r, resolve(Parse(base))) && RelativeTo(r, resolve(Parse(base))) == Ok(Parse(path))
  {
    var p := Parse(path);
    if p.absolute then resolve(p) else Child(resolve(Parse(base)), p)
  }

  /**
   * `display_path_rel_to_cwd(path, cwd)`: the path relative to `cwd` when it lies
   * under it, otherwise the path itself, normalised as `str(Path(path))` does.
   */
  function DisplayPathRelToCwd(path: string, cwd: Option<Path>): (r: string)
    ensures cwd.None? ==> r == ToString(Parse(path))
    ensures cwd.Some? && !IsRelativeTo(Parse(path), cwd.value) ==> r == ToString(Parse(path))
  {
    var p := Parse(path);
    match cwd
    case None => ToString(p)
    case Some(c) =>
      match RelativeTo(p, c)
      case Ok(rel) => ToString(rel)
      case Raised(_) => ToString(p)
  }

  /** A path shown relative to the directory it lies under leads back to the same path. */
  lemma DisplayRelativeRoundTrip(path: string, cwd: Path)
    requires IsRelativeTo(Parse(path), cwd)
    ensures var shown := Parse(DisplayPathRelToCwd(path, Some(cwd)));
      !shown.absolute && Child(cwd, shown) == Parse(path)
  {
    var p := Parse(path);
    var rel := RelativeTo(p, cwd).value;
    assert WellFormed(rel) by {
      forall i | 0 <= i < |rel.parts| ensures WellFormedPart(rel.parts[i]) {
        assert rel.parts[i] == p.parts[|cwd.parts| + i];
      }
    }
    ParseToString(rel);
  }

  /** `is_binary_file`: a NUL byte within the first 8192 bytes; an unreadable file is not binary. */
  function IsBinaryFile(bytes: Option<seq<Byte>>): (r: bool)
    ensures r <==> bytes.Some? && exists i :: 0 <= i < |bytes.value| && i < 8192 && bytes.value[i] == 0
  {
    match bytes
    case None => false
    case Some(b) => 0 in Take(b, 8192)
  }
}
