/** Shared value types and the Python string semantics the rest of the model relies on. */
module Common {

  /** Python's `None` or a present value. */
  datatype Option<+T> = None | Some(value: T) {
    function GetOr(default: T): T {
      match this
      case Some(v) => v
      case None => default
    }
  }

  /** A Python computation that either returns a value or raises an exception. */
  datatype Outcome<+T> = Ok(value: T) | Raised(message: string)

  /** Python truthiness of an optional string (`if x:`): present and not empty. */
  predicate Present(s: Option<string>) {
    s.Some? && s.value != []
  }

  // ---------------------------------------------------------------------
  // Characters

  /** Python's `str.isspace` (every code point Python treats as whitespace). */
  predicate IsSpace(c: char) {
    var n := c as int;
    n == 32 || (9 <= n <= 13) || (28 <= n <= 31) || n == 0x85 || n == 0xA0
    || n == 0x1680 || (0x2000 <= n <= 0x200A) || n == 0x2028 || n == 0x2029
    || n == 0x202F || n == 0x205F || n == 0x3000
  }

  predicate IsDigit(c: char) { '0' <= c <= '9' }

  function DigitValue(c: char): nat
    requires IsDigit(c)
  {
    (c as int) - ('0' as int)
  }

  function DigitChar(d: nat): (c: char)
    requires d < 10
    ensures IsDigit(c) && DigitValue(c) == d
  {
    ((('0' as int) + d) as char)
  }

  function LowerChar(c: char): char {
    if 'A' <= c <= 'Z' then ((c as int) + 32) as char else c
  }

  function UpperChar(c: char): char {
    if 'a' <= c <= 'z' then ((c as int) - 32) as char else c
  }

  /** `str.lower()`, on the ASCII letters. */
  function Lower(s: string): string {
    seq(|s|, i requires 0 <= i < |s| => LowerChar(s[i]))
  }

  /** `str.upper()`, on the ASCII letters. */
  function Upper(s: string): string {
    seq(|s|, i requires 0 <= i < |s| => UpperChar(s[i]))
  }

  // ---------------------------------------------------------------------
  // Whitespace

  /** `str.rstrip()`: the longest prefix that does not end in whitespace. */
  function RStrip(s: string): (r: string)
    ensures |r| <= |s| && r == s[..|r|]
    ensures r == [] || !IsSpace(r[|r| - 1])
    ensures forall i :: |r| <= i < |s| ==> IsSpace(s[i])
  {
    if s != [] && IsSpace(s[|s| - 1]) then RStrip(s[..|s| - 1]) else s
  }

  /** `str.lstrip()`: the longest suffix that does not start with whitespace. */
  function LStrip(s: string): (r: string)
    ensures |r| <= |s| && r == s[|s| - |r|..]
    ensures r == [] || !IsSpace(r[0])
    ensures forall i :: 0 <= i < |s| - |r| ==> IsSpace(s[i])
  {
    if s != [] && IsSpace(s[0]) then LStrip(s[1..]) else s
  }

  /** `str.strip()`. */
  function Strip(s: string): string {
    LStrip(RStrip(s))
  }

  /** The truth value of `s.strip()`: some character is not whitespace. */
  predicate NonBlank(s: string) {
    exists i :: 0 <= i < |s| && !IsSpace(s[i])
  }

  lemma StripEmptyIffBlank(s: string)
    ensures Strip(s) == [] <==> !NonBlank(s)
  {
    var r := RStrip(s);
    if Strip(s) == [] {
      assert LStrip(r) == [];
      forall i | 0 <= i < |s| ensures IsSpace(s[i]) {
        if i < |r| { assert s[i] == r[i]; }
      }
    } else {
      var t := Strip(s);
      assert !IsSpace(t[0]);
      assert t[0] == s[|r| - |t|];
    }
  }

  // ---------------------------------------------------------------------
  // Searching, slicing and joining

  predicate StartsWith(s: string, p: string) {
    |p| <= |s| && s[..|p|] == p
  }

  /** Texts with different first characters do not start with one another. */
  lemma DifferentHead(s: string, p: string)
    requires s != [] && p != [] && s[0] != p[0]
    ensures !StartsWith(s, p) && !StartsWith(p, s)
  {
    if |p| <= |s| { assert s[..|p|][0] == s[0]; }
    if |s| <= |p| { assert p[..|s|][0] == p[0]; }
  }

  predicate EndsWith(s: string, p: string) {
    |p| <= |s| && s[|s| - |p|..] == p
  }

  /** Python's `sub in s`. */
  predicate Contains(s: string, sub: string)
    decreases |s|
  {
    StartsWith(s, sub) || (s != [] && Contains(s[1..], sub))
  }

  lemma {:induction false} ContainsAt(s: string, sub: string, i: nat)
    requires i + |sub| <= |s| && s[i..i + |sub|] == sub
    ensures Contains(s, sub)
    decreases i
  {
    if i > 0 {
      assert s[1..][i - 1..i - 1 + |sub|] == sub;
      ContainsAt(s[1..], sub, i - 1);
    }
  }

  /** The Python slice `s[:n]` for `n >= 0`. */
  function Take<T>(s: seq<T>, n: nat): (r: seq<T>)
    ensures |r| == if n < |s| then n else |s|
    ensures r == s[..|r|]
  {
    if n < |s| then s[..n] else s
  }

  /** The Python slice `s[a:b]` for `0 <= a` and `0 <= b`, clamped to the sequence. */
  function Slice<T>(s: seq<T>, a: nat, b: nat): seq<T> {
    var hi := if b < |s| then b else |s|;
    if a < hi then s[a..hi] else []
  }

  /** Index of the first `c` in `s`, or -1. */
  function IndexOf(s: string, c: char): (r: int)
    ensures -1 <= r < |s|
    ensures r >= 0 ==> s[r] == c && forall j :: 0 <= j < r ==> s[j] != c
    ensures r < 0 ==> forall j :: 0 <= j < |s| ==> s[j] != c
  {
    if s == [] then -1
    else if s[0] == c then 0
    else
      var k := IndexOf(s[1..], c);
      if k < 0 then -1 else k + 1
  }

  /** `sep.join(parts)`. */
  function Join(parts: seq<string>, sep: string): string {
    if |parts| == 0 then []
    else if |parts| == 1 then parts[0]
    else parts[0] + sep + Join(parts[1..], sep)
  }

  lemma {:induction false} JoinAppend(parts: seq<string>, x: string, sep: string)
    ensures Join(parts + [x], sep) == if parts == [] then x else Join(parts, sep) + sep + x
    decreases |parts|
  {
    if |parts| > 1 {
      assert (parts + [x])[1..] == parts[1..] + [x];
      JoinAppend(parts[1..], x, sep);
    }
  }

  lemma {:induction false} JoinConcat(a: seq<string>, b: seq<string>, sep: string)
    requires a != [] && b != []
    ensures Join(a + b, sep) == Join(a, sep) + sep + Join(b, sep)
    decreases |a|
  {
    if |a| > 1 {
      assert (a + b)[1..] == a[1..] + b;
      JoinConcat(a[1..], b, sep);
    } else {
      assert (a + b)[1..] == b;
    }
  }

  /** `str.splitlines()` for text whose only line boundary is `'\n'`. */
  function SplitLines(s: string): seq<string>
    decreases |s|
  {
    if s == [] then []
    else
      var i := IndexOf(s, '\n');
      if i < 0 then [s] else [s[..i]] + SplitLines(s[i + 1..])
  }

  predicate NoNewline(s: string) {
    forall j :: 0 <= j < |s| ==> s[j] != '\n'
  }

  /** Splitting joined lines gives the lines back, as long as none holds a newline and the last is not empty. */
  lemma {:induction false} SplitLinesOfJoin(lines: seq<string>)
    requires forall k :: 0 <= k < |lines| ==> NoNewline(lines[k])
    requires lines == [] || lines[|lines| - 1] != []
    ensures SplitLines(Join(lines, "\n")) == lines
    decreases |lines|
  {
    if |lines| == 1 {
      assert IndexOf(lines[0], '\n') < 0;
    } else if |lines| > 1 {
      SplitLinesCons(lines[0], Join(lines[1..], "\n"));
      SplitLinesOfJoin(lines[1..]);
    }
  }

  /** A first line without a newline, then the newline, then the rest. */
  lemma SplitLinesCons(x: string, rest: string)
    requires NoNewline(x)
    ensures SplitLines(x + "\n" + rest) == [x] + SplitLines(rest)
  {
    var s := x + "\n" + rest;
    IndexOfAfter(x, '\n', rest);
    assert s[..|x|] == x;
    assert s[|x| + 1..] == rest;
  }

  /** The first `c` is the one right after a prefix without `c`. */
  lemma IndexOfAfter(x: string, c: char, rest: string)
    requires forall j :: 0 <= j < |x| ==> x[j] != c
    ensures IndexOf(x + [c] + rest, c) == |x|
  {
    var s := x + [c] + rest;
    assert s[|x|] == c;
    assert forall j :: 0 <= j < |x| ==> s[j] == x[j];
  }

  /** Every piece produced by `SplitLines` is free of newlines. */
  lemma {:induction false} SplitLinesNoNewline(s: string)
    ensures forall k :: 0 <= k < |SplitLines(s)| ==> NoNewline(SplitLines(s)[k])
    decreases |s|
  {
    if s != [] {
      var i := IndexOf(s, '\n');
      if i >= 0 {
        SplitLinesNoNewline(s[i + 1..]);
      }
    }
  }

  /** Text with no newline at all is a single line, or none when empty. */
  lemma SplitLinesSingle(s: string)
    requires NoNewline(s)
    ensures SplitLines(s) == if s == [] then [] else [s]
  {
    if s != [] {
      assert IndexOf(s, '\n') < 0;
    }
  }

  // ---------------------------------------------------------------------
  // Numbers

  /** `str(n)` for a natural number. */
  function NatToString(n: nat): (r: string)
    ensures r != [] && forall i :: 0 <= i < |r| ==> IsDigit(r[i])
  {
    if n < 10 then [DigitChar(n)] else NatToString(n / 10) + [DigitChar(n % 10)]
  }

  /** `str(i)` for an integer. */
  function IntToString(i: int): string {
    if i < 0 then "-" + NatToString(-i) else NatToString(i)
  }

  /** `int(s)` for a string of decimal digits. */
  function ParseNat(s: string): nat
    requires forall i :: 0 <= i < |s| ==> IsDigit(s[i])
  {
    if s == [] then 0 else ParseNat(s[..|s| - 1]) * 10 + DigitValue(s[|s| - 1])
  }

  lemma {:induction false} ParseNatToString(n: nat)
    ensures ParseNat(NatToString(n)) == n
  {
    if n >= 10 {
      var r := NatToString(n);
      assert r[..|r| - 1] == NatToString(n / 10);
      ParseNatToString(n / 10);
    }
  }

  function Spaces(n: nat): (r: string)
    ensures |r| == n && forall i :: 0 <= i < n ==> r[i] == ' '
  {
    seq(n, i => ' ')
  }

  /** A right-aligned field: `f"{s:>width}"`. */
  function PadLeft(s: string, width: nat): (r: string)
    ensures |r| == if |s| < width then width else |s|
    ensures EndsWith(r, s)
    ensures forall i :: 0 <= i < |r| - |s| ==> r[i] == ' '
  {
    if |s| < width then Spaces(width - |s|) + s else s
  }

  // ---------------------------------------------------------------------
  // Sequences

  /** A sequence without repeated elements has as many distinct elements as entries. */
  lemma {:induction false} DistinctCard<T>(xs: seq<T>)
    requires forall a, b :: 0 <= a < b < |xs| ==> xs[a] != xs[b]
    ensures |set x | x in xs| == |xs|
  {
    if xs != [] {
      var tail := xs[1..];
      assert forall a, b :: 0 <= a < b < |tail| ==> tail[a] != tail[b] by {
        forall a, b | 0 <= a < b < |tail| ensures tail[a] != tail[b] {
          assert tail[a] == xs[a + 1] && tail[b] == xs[b + 1];
        }
      }
      DistinctCard(tail);
      var st := set x | x in tail;
      var sx := set x | x in xs;
      assert xs == [xs[0]] + tail;
      assert sx == st + {xs[0]};
      assert xs[0] !in tail;
    }
  }

  /** In a sequence without repeated elements, every value occurs once or not at all. */
  lemma {:induction false} DistinctMultiplicity<T>(xs: seq<T>, x: T)
    requires forall a, b :: 0 <= a < b < |xs| ==> xs[a] != xs[b]
    ensures multiset(xs)[x] == if x in xs then 1 else 0
  {
    if xs != [] {
      var tail := xs[1..];
      assert forall a, b :: 0 <= a < b < |tail| ==> tail[a] != tail[b] by {
        forall a, b | 0 <= a < b < |tail| ensures tail[a] != tail[b] {
          assert tail[a] == xs[a + 1] && tail[b] == xs[b + 1];
        }
      }
      DistinctMultiplicity(tail, x);
      assert xs == [xs[0]] + tail;
      assert multiset(xs) == multiset{xs[0]} + multiset(tail);
      if x == xs[0] {
        forall j | 0 <= j < |tail| ensures tail[j] != x {
          assert tail[j] == xs[j + 1];
        }
      }
    }
  }

  /** Two sequences without repeated elements that hold the same values are permutations of each other. */
  lemma DistinctSameElements<T>(xs: seq<T>, ys: seq<T>)
    requires forall a, b :: 0 <= a < b < |xs| ==> xs[a] != xs[b]
    requires forall a, b :: 0 <= a < b < |ys| ==> ys[a] != ys[b]
    requires forall x :: x in xs <==> x in ys
    ensures multiset(xs) == multiset(ys)
  {
    forall x ensures multiset(xs)[x] == multiset(ys)[x] {
      DistinctMultiplicity(xs, x);
      DistinctMultiplicity(ys, x);
    }
  }
}
