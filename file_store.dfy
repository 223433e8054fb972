/**
 * The filesystem the tools work on: regular files holding text, directories, and
 * files whose reads fail.  Files are text; their bytes are their UTF-8 encoding.
 */
module FileStore {
  import opened Common
  import opened Paths

  /** The UTF-8 encoding of one code point. */
  function EncodeChar(c: char): (r: seq<Byte>)
    ensures 1 <= |r| <= 4
    ensures (0 in r) <==> c == '\0'
  {
    var n := c as int;
    if n < 0x80 then [n]
    else if n < 0x800 then [0xC0 + n / 64, 0x80 + n % 64]
    else if n < 0x10000 then [0xE0 + n / 4096, 0x80 + (n / 64) % 64, 0x80 + n % 64]
    else [0xF0 + n / 262144, 0x80 + (n / 4096) % 64, 0x80 + (n / 64) % 64, 0x80 + n % 64]
  }

  /** `s.encode("utf-8")`. */
  function Utf8(s: string): seq<Byte> {
    if s == [] then [] else EncodeChar(s[0]) + Utf8(s[1..])
  }

  /** An encoded text holds a zero byte exactly when the text holds a NUL character. */
  lemma {:induction false} Utf8HasZero(s: string)
    ensures (0 in Utf8(s)) <==> '\0' in s
  {
    if s != [] {
      Utf8HasZero(s[1..]);
      assert s == [s[0]] + s[1..];
    }
  }

  lemma {:induction false} Utf8Length(s: string)
    ensures |s| <= |Utf8(s)| <= 4 * |s|
  {
    if s != [] {
      Utf8Length(s[1..]);
    }
  }

  /** The directories `mkdir(parents=True)` creates for `p.parent`: every proper ancestor but the root. */
  function AncestorDirs(p: Path): set<Path> {
    set k | 1 <= k < |p.parts| :: Path(p.absolute, p.parts[..k])
  }

  class Workspace {
    var files: map<Path, string>
    var dirs: set<Path>
    /** Files whose contents cannot be read (permissions, I/O errors). */
    var unreadable: set<Path>

    ghost predicate Valid()
      reads this
    {
      files.Keys !! dirs
    }

    constructor (files0: map<Path, string>, dirs0: set<Path>, unreadable0: set<Path>)
      requires files0.Keys !! dirs0
      ensures Valid() && files == files0 && dirs == dirs0 && unreadable == unreadable0
    {
      files, dirs, unreadable := files0, dirs0, unreadable0;
    }

    /** `p.exists()`. */
    predicate Exists(p: Path)
      reads this
    {
      p in files || p in dirs || p.parts == []
    }

    /** `p.is_dir()`; the root always exists. */
    predicate IsDir(p: Path)
      reads this
    {
      p in dirs || p.parts == []
    }

    /** `p.stat().st_size`. */
    function Size(p: Path): nat
      reads this
      requires p in files
    {
      |Utf8(files[p])|
    }

    /** `p.read_text()`. */
    function ReadText(p: Path): (r: Outcome<string>)
      reads this
      ensures r.Ok? <==> p in files && p !in unreadable
      ensures r.Ok? ==> r.value == files[p]
    {
      if p in files && p !in unreadable then Ok(files[p])
      else if IsDir(p) then Raised("[Errno 21] Is a directory: '" + ToString(p) + "'")
      else if p in files then Raised("[Errno 13] Permission denied: '" + ToString(p) + "'")
      else Raised("[Errno 2] No such file or directory: '" + ToString(p) + "'")
    }

    /** What `open(p, "rb").read()` yields, or `None` when the open fails. */
    function ReadBytes(p: Path): (r: Option<seq<Byte>>)
      reads this
      ensures r.Some? <==> ReadText(p).Ok?
    {
      if p in files && p !in unreadable then Some(Utf8(files[p])) else None
    }

    /** `ensure_parent_directory(p)`: creates the missing ancestors of `p` and returns `p`. */
    method EnsureParent(p: Path) returns (r: Outcome<Path>)
      requires Valid()
      modifies this`dirs
      ensures Valid()
      ensures r.Ok? <==> AncestorDirs(p) !! files.Keys
      ensures r.Ok? ==> r.value == p && dirs == old(dirs) + AncestorDirs(p) && IsDir(Parent(p))
      ensures r.Raised? ==> dirs == old(dirs)
    {
      var anc := AncestorDirs(p);
      if anc !! files.Keys {
        dirs := dirs + anc;
        r := Ok(p);
        if |p.parts| >= 2 {
          assert Parent(p) == Path(p.absolute, p.parts[..|p.parts| - 1]);
          assert Parent(p) in anc;
        }
      } else {
        r := Raised("[Errno 20] Not a directory: '" + ToString(Parent(p)) + "'");
      }
    }

    /** `p.write_text(text)`: needs an existing parent directory and `p` not to be a directory. */
    method WriteText(p: Path, text: string) returns (r: Outcome<()>)
      requires Valid()
      modifies this`files
      ensures Valid()
      ensures r.Ok? <==> IsDir(Parent(p)) && !IsDir(p)
      ensures files == if r.Ok? then old(files)[p := text] else old(files)
    {
      if !IsDir(Parent(p)) {
        r := Raised("[Errno 2] No such file or directory: '" + ToString(p) + "'");
      } else if IsDir(p) {
        r := Raised("[Errno 21] Is a directory: '" + ToString(p) + "'");
      } else {
        files := files[p := text];
        r := Ok(());
      }
    }
  }
}
