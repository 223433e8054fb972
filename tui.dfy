/**
 * The deterministic helpers of the terminal interface: the order in which a tool call's
 * arguments are shown, the recovery of the code from a `read_file` result for syntax
 * highlighting, the language guessed from a file name, and the reading of an approval answer.
 */
module Tui {
  import opened Common
  import opened Json
  import Paths
  import Dict
  import ReadFile

  // ---------------------------------------------------------------------
  // Argument order

  /** The key lists of `_PREFERRED_ORDER`, looked up with an empty default. */
  function PreferredOrder(toolName: string): (r: seq<string>)
    ensures Unique(r)
  {
    match toolName
    case "read_file" => ["path", "offset", "limit"]
    case "write_file" => ["path", "create_directories", "content"]
    case "edit" => ["path", "replace_all", "old_string", "new_string"]
    case "shell" => ["command", "timeout", "cwd"]
    case "list_dir" => ["path", "include_hidden"]
    case "grep" => ["path", "case_insensitive", "pattern"]
    case "glob" => ["path", "pattern"]
    case "todos" => ["id", "action", "content"]
    case "memory" => ["action", "key", "value"]
    case _ => []
  }

  predicate Unique(xs: seq<string>) {
    forall a, b :: 0 <= a < b < |xs| ==> xs[a] != xs[b]
  }

  /** `[(k, args[k]) for k in preferred if k in args]`. */
  function PreferredPairs(preferred: seq<string>, args: Object): (r: Object)
    decreases |preferred|
  {
    if preferred == [] then []
    else
      var init := PreferredPairs(preferred[..|preferred| - 1], args);
      var k := preferred[|preferred| - 1];
      var v := Dict.Get(args, k);
      if v.Some? then init + [(k, v.value)] else init
  }

  /** The pairs of `args` for `keys`, in the order of `keys`. */
  function PairsOf(keys: seq<string>, args: Object): (r: Object)
    requires forall k :: k in keys ==> k in Dict.Keys(args)
    ensures |r| == |keys|
    decreases |keys|
  {
    if keys == [] then []
    else
      var k := keys[|keys| - 1];
      PairsOf(keys[..|keys| - 1], args) + [(k, Dict.Get(args, k).value)]
  }

  /**
   * The remaining keys in the order the set `args.keys() - seen` is iterated: every key of
   * `args` that is not preferred, each once. Python leaves that order unspecified.
   */
  ghost predicate RemainingOrder(setOrder: seq<string>, args: Object, preferred: seq<string>) {
    Unique(setOrder) && forall k :: k in setOrder <==> k in Dict.Keys(args) && k !in preferred
  }

  /**
   * `_ordered_args`: the preferred keys of the tool that are present, in the preferred order,
   * then the remaining keys in the order `setOrder` of the set they are taken from.
   */
  method OrderedArgs(toolName: string, args: Object, setOrder: seq<string>) returns (ordered: Object)
    requires Dict.DistinctKeys(args)
    requires RemainingOrder(setOrder, args, PreferredOrder(toolName))
    ensures ordered == PreferredPairs(PreferredOrder(toolName), args) + PairsOf(setOrder, args)
  {
    var preferred := PreferredOrder(toolName);
    ordered := [];
    var seen: set<string> := {};
    for i := 0 to |preferred|
      invariant ordered == PreferredPairs(preferred[..i], args)
      invariant forall k :: k in seen ==> k in preferred
    {
      assert preferred[..i + 1][..i] == preferred[..i];
      var key := preferred[i];
      var v := Dict.Get(args, key);
      if v.Some? {
        ordered := ordered + [(key, v.value)];
        seen := seen + {key};
      }
      assert preferred[..i + 1] == preferred[..i] + [key];
    }
    assert preferred[..|preferred|] == preferred;
    var front := ordered;
    for j := 0 to |setOrder|
      invariant ordered == front + PairsOf(setOrder[..j], args)
    {
      assert setOrder[..j + 1][..j] == setOrder[..j];
      var key := setOrder[j];
      assert key !in seen;
      ordered := ordered + [(key, Dict.Get(args, key).value)];
    }
    assert setOrder[..|setOrder|] == setOrder;
  }

  /** The value `Dict.Get` finds for a key of a dictionary is the one paired with it. */
  lemma {:induction false} GetIn(d: Object, k: string)
    requires k in Dict.Keys(d)
    ensures (k, Dict.Get(d, k).value) in d
  {
    if d[0].0 != k {
      GetIn(d[1..], k);
    }
  }

  /** The preferred pairs are the pairs of `args` whose keys are preferred. */
  lemma {:induction false} PreferredPairsMembers(preferred: seq<string>, args: Object)
    requires Dict.DistinctKeys(args)
    ensures forall e :: e in PreferredPairs(preferred, args) <==> e in args && e.0 in preferred
    decreases |preferred|
  {
    if preferred != [] {
      var n := |preferred| - 1;
      var init := preferred[..n];
      var k := preferred[n];
      PreferredPairsMembers(init, args);
      assert preferred == init + [k];
      var v := Dict.Get(args, k);
      if v.Some? {
        GetIn(args, k);
        forall e | e in args && e.0 == k ensures e == (k, v.value) {
          var i :| 0 <= i < |args| && args[i] == e;
          Dict.GetAt(args, i);
        }
      } else {
        forall e | e in args ensures e.0 != k {
          var i :| 0 <= i < |args| && args[i] == e;
          assert Dict.Keys(args)[i] == e.0;
        }
      }
    }
  }

  /** The preferred pairs follow the preferred order: `pos` gives each one's place in `preferred`. */
  lemma {:induction false} PreferredPairsOrder(preferred: seq<string>, args: Object) returns (pos: seq<nat>)
    ensures var r := PreferredPairs(preferred, args);
      |pos| == |r|
      && (forall i :: 0 <= i < |r| ==> pos[i] < |preferred| && preferred[pos[i]] == r[i].0)
      && (forall i, j :: 0 <= i < j < |r| ==> pos[i] < pos[j])
    decreases |preferred|
  {
    if preferred == [] {
      pos := [];
    } else {
      var n := |preferred| - 1;
      var before := PreferredPairsOrder(preferred[..n], args);
      if Dict.Get(args, preferred[n]).Some? {
        pos := before + [n];
      } else {
        pos := before;
      }
    }
  }

  /** The pairs taken for the remaining keys are pairs of `args` for those keys, each once. */
  lemma {:induction false} PairsOfFacts(keys: seq<string>, args: Object)
    requires Dict.DistinctKeys(args)
    requires forall k :: k in keys ==> k in Dict.Keys(args)
    ensures var r := PairsOf(keys, args);
      (forall e :: e in r <==> e in args && e.0 in keys)
      && forall i :: 0 <= i < |r| ==> r[i].0 == keys[i]
    decreases |keys|
  {
    if keys != [] {
      var n := |keys| - 1;
      var k := keys[n];
      assert keys == keys[..n] + [k];
      PairsOfFacts(keys[..n], args);
      GetIn(args, k);
      forall e | e in args && e.0 == k ensures e == (k, Dict.Get(args, k).value) {
        var i :| 0 <= i < |args| && args[i] == e;
        Dict.GetAt(args, i);
      }
    }
  }

  /**
   * `_ordered_args` shows every argument exactly once: the result is a permutation of the
   * arguments, the preferred keys come first and in the preferred order, and every other key
   * comes after them.
   */
  lemma OrderedArgsPermutation(toolName: string, args: Object, setOrder: seq<string>) returns (pos: seq<nat>)
    requires Dict.DistinctKeys(args)
    requires RemainingOrder(setOrder, args, PreferredOrder(toolName))
    ensures var preferred := PreferredOrder(toolName);
      var front := PreferredPairs(preferred, args);
      var r := front + PairsOf(setOrder, args);
      multiset(r) == multiset(args)
      && (forall i :: 0 <= i < |r| ==> (r[i].0 in preferred <==> i < |front|))
      && |pos| == |front|
      && (forall i :: 0 <= i < |front| ==> pos[i] < |preferred| && preferred[pos[i]] == r[i].0)
      && (forall i, j :: 0 <= i < j < |front| ==> pos[i] < pos[j])
  {
    var preferred := PreferredOrder(toolName);
    var front := PreferredPairs(preferred, args);
    var back := PairsOf(setOrder, args);
    var r := front + back;
    pos := PreferredPairsOrder(preferred, args);
    PreferredPairsMembers(preferred, args);
    PairsOfFacts(setOrder, args);
    ArrangedDistinct(preferred, front, back, pos);
    assert forall e :: e in r <==> e in args by {
      forall e ensures e in r <==> e in args {
        if e in args {
          var i :| 0 <= i < |args| && args[i] == e;
          assert Dict.Keys(args)[i] == e.0;
        }
      }
    }
    forall a, b | 0 <= a < b < |args| ensures args[a] != args[b] {
    }
    DistinctSameElements(r, args);
  }

  /** Pairs placed in the order of distinct keys, then pairs of distinct other keys, never repeat. */
  lemma ArrangedDistinct(preferred: seq<string>, front: Object, back: Object, pos: seq<nat>)
    requires Unique(preferred) && |pos| == |front|
    requires forall i :: 0 <= i < |front| ==> pos[i] < |preferred| && preferred[pos[i]] == front[i].0
    requires forall i, j :: 0 <= i < j < |front| ==> pos[i] < pos[j]
    requires forall i, j :: 0 <= i < j < |back| ==> back[i].0 != back[j].0
    requires forall i :: 0 <= i < |back| ==> back[i].0 !in preferred
    ensures forall i :: 0 <= i < |front + back| ==> ((front + back)[i].0 in preferred <==> i < |front|)
    ensures forall a, b :: 0 <= a < b < |front + back| ==> (front + back)[a] != (front + back)[b]
  {
    var r := front + back;
    forall i | 0 <= i < |r| ensures r[i].0 in preferred <==> i < |front| {
      if i < |front| {
        assert r[i] == front[i];
      } else {
        assert r[i] == back[i - |front|];
      }
    }
    forall a, b | 0 <= a < b < |r| ensures r[a] != r[b] {
      if b < |front| {
        assert r[a] == front[a] && r[b] == front[b];
      } else if a >= |front| {
        assert r[a] == back[a - |front|] && r[b] == back[b - |front|];
      }
    }
  }

  // ---------------------------------------------------------------------
  // Code of a read_file result

  /** The length of the run of whitespace starting at `i`. */
  function SpaceRun(s: string, i: nat): (n: nat)
    requires i <= |s|
    ensures i + n <= |s|
    decreases |s| - i
  {
    if i < |s| && IsSpace(s[i]) then 1 + SpaceRun(s, i + 1) else 0
  }

  /** The length of the run of decimal digits starting at `i`. */
  function DigitRun(s: string, i: nat): (n: nat)
    requires i <= |s|
    ensures i + n <= |s| && forall j :: i <= j < i + n ==> IsDigit(s[j])
    decreases |s| - i
  {
    if i < |s| && IsDigit(s[i]) then 1 + DigitRun(s, i + 1) else 0
  }

  /** `(\d+)` followed by `t` at `i`: the position after `t`. */
  function Field(s: string, i: nat, t: string): (r: Option<nat>)
    requires i <= |s|
    ensures r.Some? ==> i < r.value <= |s|
  {
    var n := DigitRun(s, i);
    if n > 0 && StartsWith(s[i + n..], t) then Some(i + n + |t|) else None
  }

  const ShowingPrefix := "Showing lines "

  /** The end of a match of `^Showing lines (\d+)-(\d+) of (\d+)\n\n` at the start of `text`. */
  function HeaderEnd(text: string): (r: Option<nat>)
    ensures r.Some? ==> r.value <= |text|
  {
    if StartsWith(text, ShowingPrefix) then Fields(text, |ShowingPrefix|) else None
  }

  /** `(\d+)-(\d+) of (\d+)\n\n` at `i`. */
  function Fields(text: string, i: nat): (r: Option<nat>)
    requires i <= |text|
    ensures r.Some? ==> r.value <= |text|
  {
    var a := Field(text, i, "-");
    if a.None? then None
    else
      var b := Field(text, a.value, " of ");
      if b.None? then None else Field(text, b.value, "\n\n")
  }

  /** A match of `^\s*(\d+)\|(.*)$` on one line: the line number and the code after the bar. */
  function CodeLine(line: string): (r: Option<(nat, string)>)
  {
    var w := SpaceRun(line, 0);
    var d := DigitRun(line, w);
    if d == 0 || w + d == |line| || line[w + d] != '|' then None
    else Some((ParseNat(line[w..w + d]), line[w + d + 1..]))
  }

  /** The code of every line, or nothing as soon as one line does not match. */
  function Codes(lines: seq<string>): (r: Option<seq<string>>)
    ensures r.Some? <==> forall k :: 0 <= k < |lines| ==> CodeLine(lines[k]).Some?
    ensures r.Some? ==>
      |r.value| == |lines| && forall k :: 0 <= k < |lines| ==> r.value[k] == CodeLine(lines[k]).value.1
    decreases |lines|
  {
    if lines == [] then Some([])
    else
      var n := |lines| - 1;
      var init := Codes(lines[..n]);
      var m := CodeLine(lines[n]);
      assert forall k :: 0 <= k < n ==> lines[..n][k] == lines[k];
      if init.None? || m.None? then None else Some(init.value + [m.value.1])
  }

  /** The text after the header, when there is one. */
  function Listing(text: string): string {
    var h := HeaderEnd(text);
    if h.Some? then text[h.value..] else text
  }

  /**
   * `_extract_read_file_code`: the first line number and the code lines joined, when the text
   * after the header is numbered lines; nothing when there are no lines or one does not match.
   */
  function ExtractCode(text: string): Option<(nat, string)> {
    var lines := SplitLines(Listing(text));
    var codes := Codes(lines);
    if lines == [] || codes.None? then None
    else Some((CodeLine(lines[0]).value.0, Join(codes.value, "\n")))
  }

  /** One line that does not match is enough for `Codes` to give nothing. */
  lemma CodesFailAt(lines: seq<string>, i: nat)
    requires i < |lines| && CodeLine(lines[i]).None?
    ensures Codes(lines).None?
  {
  }

  /** The loop of `_extract_read_file_code`, which gives up at the first line that does not match. */
  method ExtractReadFileCode(text: string) returns (r: Option<(nat, string)>)
    ensures r == ExtractCode(text)
  {
    var body := text;
    var header := HeaderEnd(text);
    if header.Some? {
      body := text[header.value..];
    }
    var lines := SplitLines(body);
    var codeLines: seq<string> := [];
    var start: Option<nat> := None;
    for i := 0 to |lines|
      invariant Codes(lines[..i]) == Some(codeLines)
      invariant start.Some? <==> i > 0
      invariant i > 0 ==> CodeLine(lines[0]).Some? && start.value == CodeLine(lines[0]).value.0
    {
      assert lines[..i + 1] == lines[..i] + [lines[i]];
      var m := CodeLine(lines[i]);
      if m.None? {
        CodesFailAt(lines, i);
        return None;
      }
      if start.None? {
        start := Some(m.value.0);
      }
      codeLines := codeLines + [m.value.1];
    }
    assert lines[..|lines|] == lines;
    if start.None? {
      return None;
    }
    return Some((start.value, Join(codeLines, "\n")));
  }

  lemma {:induction false} SpaceRunOf(s: string, i: nat, k: nat)
    requires i + k <= |s| && forall j :: i <= j < i + k ==> IsSpace(s[j])
    requires i + k < |s| ==> !IsSpace(s[i + k])
    ensures SpaceRun(s, i) == k
    decreases k
  {
    if k > 0 {
      SpaceRunOf(s, i + 1, k - 1);
    }
  }

  lemma {:induction false} DigitRunOf(s: string, i: nat, d: string)
    requires i + |d| <= |s| && s[i..i + |d|] == d && forall j :: 0 <= j < |d| ==> IsDigit(d[j])
    requires i + |d| < |s| ==> !IsDigit(s[i + |d|])
    ensures DigitRun(s, i) == |d|
    decreases |d|
  {
    if d != [] {
      assert s[i + 1..i + 1 + |d[1..]|] == d[1..];
      DigitRunOf(s, i + 1, d[1..]);
    }
  }

  /** A field of digits `d` then `t` is read as such. */
  lemma FieldOf(s: string, i: nat, d: string, t: string, rest: string)
    requires i <= |s| && s[i..] == d + (t + rest)
    requires d != [] && forall j :: 0 <= j < |d| ==> IsDigit(d[j])
    requires t != [] && !IsDigit(t[0])
    ensures Field(s, i, t) == Some(i + |d| + |t|)
    ensures s[i + |d| + |t|..] == rest
  {
    assert s[i..][..|d|] == d;
    assert s[i + |d|] == t[0];
    DigitRunOf(s, i, d);
    assert s[i + |d|..] == t + rest;
  }

  /** The three numbers of a header and what follows them are read as such. */
  lemma FieldsOf(s: string, i: nat, a: string, b: string, c: string, rest: string)
    requires i <= |s| && s[i..] == a + ("-" + (b + (" of " + (c + ("\n\n" + rest)))))
    requires a != [] && forall j :: 0 <= j < |a| ==> IsDigit(a[j])
    requires b != [] && forall j :: 0 <= j < |b| ==> IsDigit(b[j])
    requires c != [] && forall j :: 0 <= j < |c| ==> IsDigit(c[j])
    ensures Fields(s, i) == Some(i + |a| + |b| + |c| + 7)
  {
    var p := i + |a| + 1;
    FieldOf(s, i, a, "-", b + (" of " + (c + ("\n\n" + rest))));
    var q := p + |b| + 4;
    FieldOf(s, p, b, " of ", c + ("\n\n" + rest));
    FieldOf(s, q, c, "\n\n", rest);
    assert Field(s, i, "-") == Some(p) && Field(s, p, " of ") == Some(q);
  }

  /** The header is the prefix, then the three numbers each followed by its separator. */
  lemma HeaderShape(start: nat, end: nat, total: nat)
    requires ReadFile.Header(start, end, total) != []
    ensures ReadFile.Header(start, end, total)
      == ShowingPrefix + (NatToString(start + 1) + ("-" + (NatToString(end) + (" of " + (NatToString(total) + "\n\n")))))
  {
  }

  /** A header with any three numbers is recognised, and ends where it ends. */
  lemma HeaderOf(a: string, b: string, c: string, listing: string)
    requires a != [] && forall j :: 0 <= j < |a| ==> IsDigit(a[j])
    requires b != [] && forall j :: 0 <= j < |b| ==> IsDigit(b[j])
    requires c != [] && forall j :: 0 <= j < |c| ==> IsDigit(c[j])
    ensures var h := ShowingPrefix + (a + ("-" + (b + (" of " + (c + "\n\n")))));
      HeaderEnd(h + listing) == Some(|h|)
  {
    var h := ShowingPrefix + (a + ("-" + (b + (" of " + (c + "\n\n")))));
    var tail := a + ("-" + (b + (" of " + (c + ("\n\n" + listing)))));
    var s := h + listing;
    var p := |ShowingPrefix|;
    assert s == ShowingPrefix + tail;
    assert s[..p] == ShowingPrefix;
    assert s[p..] == tail;
    FieldsOf(s, p, a, b, c, listing);
  }

  /** The header `read_file` writes is recognised, and ends where it ends. */
  lemma HeaderRecognised(start: nat, end: nat, total: nat, listing: string)
    requires ReadFile.Header(start, end, total) != []
    ensures HeaderEnd(ReadFile.Header(start, end, total) + listing) == Some(|ReadFile.Header(start, end, total)|)
  {
    HeaderShape(start, end, total);
    HeaderOf(NatToString(start + 1), NatToString(end), NatToString(total), listing);
  }

  /** Whitespace, a number, a bar and code: the number and the code. */
  lemma CodeLineOf(w: nat, d: string, line: string)
    requires d != [] && forall j :: 0 <= j < |d| ==> IsDigit(d[j])
    ensures CodeLine(Spaces(w) + d + "|" + line) == Some((ParseNat(d), line))
  {
    var s := Spaces(w) + d + "|" + line;
    NumberedPieces(w, d, line);
    NumberedRuns(w, d, line);
    CodeLineAt(s, w, d, line);
  }

  /** A line with its whitespace run, its digit run and what follows them known. */
  lemma CodeLineAt(s: string, w: nat, d: string, line: string)
    requires d != [] && forall j :: 0 <= j < |d| ==> IsDigit(d[j])
    requires w + |d| < |s| && SpaceRun(s, 0) == w && DigitRun(s, w) == |d| && s[w + |d|] == '|'
    requires s[w..w + |d|] == d && s[w + |d| + 1..] == line
    ensures CodeLine(s) == Some((ParseNat(d), line))
  {
  }

  /** Where the number, the bar and the code of such a line are. */
  lemma NumberedPieces(w: nat, d: string, line: string)
    ensures var s := Spaces(w) + d + "|" + line;
      s[..w] == Spaces(w) && s[w..w + |d|] == d && s[w + |d|] == '|' && s[w + |d| + 1..] == line
  {
    var pad := Spaces(w) + d;
    var s := pad + "|" + line;
    assert forall j :: 0 <= j < |pad| ==> s[j] == pad[j];
    forall j | 0 <= j < w ensures s[j] == ' ' {
      assert pad[j] == Spaces(w)[j];
    }
    forall k | 0 <= k < |d| ensures s[w + k] == d[k] {
      assert pad[w + k] == d[k];
    }
    assert s[w..w + |d|] == d;
    assert s[..w] == Spaces(w);
  }

  /** The whitespace and digit runs of such a line. */
  lemma NumberedRuns(w: nat, d: string, line: string)
    requires d != [] && forall j :: 0 <= j < |d| ==> IsDigit(d[j])
    ensures var s := Spaces(w) + d + "|" + line;
      SpaceRun(s, 0) == w && DigitRun(s, w) == |d|
  {
    var s := Spaces(w) + d + "|" + line;
    NumberedPieces(w, d, line);
    assert s[w] == s[w..w + |d|][0];
    assert forall j :: 0 <= j < w ==> s[j] == s[..w][j];
    SpaceRunOf(s, 0, w);
    DigitRunOf(s, w, d);
  }

  /** Such a line holds no newline when the code holds none, and does not start like a header. */
  lemma NumberedText(w: nat, d: string, line: string)
    requires d != [] && forall j :: 0 <= j < |d| ==> IsDigit(d[j])
    ensures var s := Spaces(w) + d + "|" + line;
      s[0] != 'S' && (NoNewline(line) ==> NoNewline(s))
  {
    var s := Spaces(w) + d + "|" + line;
    forall j | 0 <= j <= w + |d| ensures s[j] != '\n' && (j == 0 ==> s[j] != 'S') {
      if j < w {
        assert s[j] == Spaces(w)[j];
      } else if j < w + |d| {
        assert s[j] == d[j - w];
      }
    }
    if NoNewline(line) {
      forall j | w + |d| < j < |s| ensures s[j] != '\n' {
        assert s[j] == line[j - w - |d| - 1];
      }
    }
  }

  /** A line number right-aligned in six columns, a bar, then the code. */
  lemma CodeLineOfNumbered(n: nat, line: string)
    ensures CodeLine(ReadFile.NumberedLine(n, line)) == Some((n, line))
    ensures ReadFile.NumberedLine(n, line) != [] && ReadFile.NumberedLine(n, line)[0] != 'S'
    ensures NoNewline(line) ==> NoNewline(ReadFile.NumberedLine(n, line))
  {
    var d := NatToString(n);
    var w := if |d| < 6 then 6 - |d| else 0;
    assert PadLeft(d, 6) == Spaces(w) + d;
    CodeLineOf(w, d, line);
    NumberedText(w, d, line);
    ParseNatToString(n);
  }

  /** Every numbered line yields its code. */
  lemma CodesOfNumbered(shown: seq<string>, first: nat)
    ensures Codes(ReadFile.Numbered(shown, first)) == Some(shown)
  {
    var lines := ReadFile.Numbered(shown, first);
    forall k | 0 <= k < |lines| ensures CodeLine(lines[k]) == Some((first + k, shown[k])) {
      ReadFile.NumberedAt(shown, first, k);
      CodeLineOfNumbered(first + k, shown[k]);
    }
    var codes := Codes(lines);
    assert codes.Some?;
    assert codes.value == shown;
  }

  /** Numbered lines split back apart and are not mistaken for a header. */
  lemma ListingOfNumbered(shown: seq<string>, first: nat)
    requires shown != [] && forall k :: 0 <= k < |shown| ==> NoNewline(shown[k])
    ensures var lines := ReadFile.Numbered(shown, first);
      SplitLines(Join(lines, "\n")) == lines && HeaderEnd(Join(lines, "\n")) == None
  {
    var lines := ReadFile.Numbered(shown, first);
    forall k | 0 <= k < |lines| ensures NoNewline(lines[k]) && lines[k] != [] {
      ReadFile.NumberedAt(shown, first, k);
      CodeLineOfNumbered(first + k, shown[k]);
    }
    SplitLinesOfJoin(lines);
    JoinHead(lines, "\n");
    NotHeader(Join(lines, "\n"));
  }

  /** The joined text starts with the first part. */
  lemma JoinHead(parts: seq<string>, sep: string)
    requires parts != [] && parts[0] != []
    ensures Join(parts, sep) != [] && Join(parts, sep)[0] == parts[0][0]
  {
    if |parts| > 1 {
      assert Join(parts, sep) == parts[0] + (sep + Join(parts[1..], sep));
    }
  }

  /** A text that does not start with `S` has no header. */
  lemma NotHeader(text: string)
    requires text != [] && text[0] != 'S'
    ensures HeaderEnd(text) == None
  {
  }

  /**
   * Recovering the code from what `read_file` shows gives back the shown lines and the number
   * of the first one, whether or not a header precedes them.
   */
  lemma ExtractReadFileOutput(shown: seq<string>, start: nat, end: nat, total: nat)
    requires shown != [] && forall k :: 0 <= k < |shown| ==> NoNewline(shown[k])
    ensures ExtractCode(ReadFile.Header(start, end, total) + Join(ReadFile.Numbered(shown, start + 1), "\n"))
      == Some((start + 1, Join(shown, "\n")))
  {
    var lines := ReadFile.Numbered(shown, start + 1);
    var listing := Join(lines, "\n");
    var h := ReadFile.Header(start, end, total);
    ListingOfNumbered(shown, start + 1);
    if h == [] {
      assert h + listing == listing;
    } else {
      HeaderRecognised(start, end, total, listing);
      assert (h + listing)[|h|..] == listing;
    }
    assert Listing(h + listing) == listing;
    CodesOfNumbered(shown, start + 1);
    ReadFile.NumberedAt(shown, start + 1, 0);
    CodeLineOfNumbered(start + 1, shown[0]);
  }

  // ---------------------------------------------------------------------
  // Language of a file

  /** `name.rfind('.')`. */
  function LastDot(s: string): (r: int)
    ensures -1 <= r < |s|
    ensures r >= 0 ==> s[r] == '.' && forall j :: r < j < |s| ==> s[j] != '.'
    ensures r < 0 ==> forall j :: 0 <= j < |s| ==> s[j] != '.'
  {
    if s == [] then -1 else if s[|s| - 1] == '.' then |s| - 1 else LastDot(s[..|s| - 1])
  }

  /** `PurePath.suffix`: from the last dot, unless it starts the name or ends it. */
  function Suffix(name: string): string {
    var i := LastDot(name);
    if 0 < i < |name| - 1 then name[i..] else ""
  }

  /** The suffix table of `_guess_language`. */
  function LanguageOf(suffix: string): (r: Option<string>)
    ensures r.Some? ==> |suffix| >= 2 && suffix[0] == '.' && forall j :: 1 <= j < |suffix| ==> suffix[j] != '.'
  {
    match suffix
    case ".py" => Some("python")
    case ".js" => Some("javascript")
    case ".jsx" => Some("jsx")
    case ".ts" => Some("typescript")
    case ".tsx" => Some("tsx")
    case ".json" => Some("json")
    case ".toml" => Some("toml")
    case ".yaml" | ".yml" => Some("yaml")
    case ".md" => Some("markdown")
    case ".sh" | ".bash" | ".zsh" => Some("bash")
    case ".rs" => Some("rust")
    case ".go" => Some("go")
    case ".java" => Some("java")
    case ".kt" => Some("kotlin")
    case ".swift" => Some("swift")
    case ".c" | ".h" => Some("c")
    case ".cpp" | ".hpp" => Some("cpp")
    case ".css" => Some("css")
    case ".html" => Some("html")
    case ".xml" => Some("xml")
    case ".sql" => Some("sql")
    case _ => None
  }

  /** `_guess_language`: the language of the path's lower-cased suffix, `"text"` otherwise. */
  function GuessLanguage(path: Option<string>): string {
    if path.None? || path.value == [] then "text"
    else
      var language := LanguageOf(Lower(Suffix(Paths.Name(Paths.Parse(path.value)))));
      if language.Some? then language.value else "text"
  }

  /**
   * A file whose name is a non-empty stem and a known suffix, in any letter case, gets that
   * suffix's language.
   */
  lemma GuessBySuffix(path: string, stem: string, suffix: string)
    requires path != [] && Paths.Name(Paths.Parse(path)) == stem + suffix && stem != []
    requires LanguageOf(Lower(suffix)).Some?
    ensures GuessLanguage(Some(path)) == LanguageOf(Lower(suffix)).value
  {
    var name := stem + suffix;
    var low := Lower(suffix);
    assert forall j :: 0 <= j < |suffix| ==> LowerChar(suffix[j]) == low[j];
    assert suffix[0] == '.';
    assert name[|stem|] == '.';
    assert forall j :: |stem| < j < |name| ==> name[j] == suffix[j - |stem|];
    assert LastDot(name) == |stem|;
    assert Suffix(name) == suffix;
  }

  /** A path that is empty or missing, or whose name has no suffix, is plain text. */
  lemma GuessWithoutSuffix(path: Option<string>)
    requires path.Some? && path.value != [] ==> LastDot(Paths.Name(Paths.Parse(path.value))) <= 0
    ensures GuessLanguage(path) == "text"
  {
  }

  // ---------------------------------------------------------------------
  // Approval

  /** `handle_confirmation`'s reading of the answer: `y` or `yes`, in any letter case. */
  function Approves(response: string): (r: bool)
    ensures r <==>
      |response| > 0 && LowerChar(response[0]) == 'y'
      && (|response| == 1 || (|response| == 3 && LowerChar(response[1]) == 'e' && LowerChar(response[2]) == 's'))
  {
    var low := Lower(response);
    assert |low| == 1 && low[0] == 'y' ==> low == "y";
    assert |low| == 3 && low[0] == 'y' && low[1] == 'e' && low[2] == 's' ==> low == "yes";
    low == "y" || low == "yes"
  }
}
