/** Python's `str.find`, `str.count` and `str.replace`. */
module TextSearch {
  import opened Common

  /** `s.find(sub)`: index of the first occurrence, or -1. */
  function Find(s: string, sub: string): (r: int)
    requires sub != []
    ensures -1 <= r && (r >= 0 ==> r + |sub| <= |s|)
    ensures r >= 0 ==> s[r..r + |sub|] == sub
    decreases |s|
  {
    if |s| < |sub| then -1
    else if StartsWith(s, sub) then 0
    else
      var k := Find(s[1..], sub);
      if k < 0 then -1
      else
        assert s[k + 1..k + 1 + |sub|] == s[1..][k..k + |sub|];
        k + 1
  }

  /** `s.count(sub)`: occurrences found left to right, each search starting after the previous match. */
  function Count(s: string, sub: string): nat
    requires sub != []
    decreases |s|
  {
    var i := Find(s, sub);
    if i < 0 then 0 else 1 + Count(s[i + |sub|..], sub)
  }

  /** `s.replace(sub, rep)` for a non-empty `sub`. */
  function ReplaceAll(s: string, sub: string, rep: string): string
    requires sub != []
    decreases |s|
  {
    var i := Find(s, sub);
    if i < 0 then s else s[..i] + rep + ReplaceAll(s[i + |sub|..], sub, rep)
  }

  /** `s.replace(sub, rep, 1)` for a non-empty `sub`. */
  function ReplaceFirst(s: string, sub: string, rep: string): string
    requires sub != []
  {
    var i := Find(s, sub);
    if i < 0 then s else s[..i] + rep + s[i + |sub|..]
  }

  /** `s.replace("", rep)`: `rep` before every character and at the end. */
  function InsertEverywhere(s: string, rep: string): (r: string)
    ensures |r| == |s| + (|s| + 1) * |rep|
    decreases |s|
  {
    if s == [] then rep else rep + [s[0]] + InsertEverywhere(s[1..], rep)
  }

  /** `s.replace(sub, rep)` when `all`, else `s.replace(sub, rep, 1)`, for any `sub`, the empty one included. */
  function Replace(s: string, sub: string, rep: string, all: bool): string {
    if sub == [] then (if all then InsertEverywhere(s, rep) else rep + s)
    else if all then ReplaceAll(s, sub, rep) else ReplaceFirst(s, sub, rep)
  }

  /** `find` succeeds exactly when `sub in s`. */
  lemma {:induction false} FindIffContains(s: string, sub: string)
    requires sub != []
    ensures Find(s, sub) >= 0 <==> Contains(s, sub)
    decreases |s|
  {
    if Find(s, sub) >= 0 {
      ContainsAt(s, sub, Find(s, sub));
    } else if |s| < |sub| {
      NotContainsShort(s, sub);
    } else {
      FindIffContains(s[1..], sub);
    }
  }

  lemma {:induction false} NotContainsShort(s: string, sub: string)
    requires |s| < |sub|
    ensures !Contains(s, sub)
    decreases |s|
  {
    if s != [] {
      NotContainsShort(s[1..], sub);
    }
  }

  /** No occurrence is counted exactly when `sub in s` is false. */
  lemma CountZeroIffAbsent(s: string, sub: string)
    requires sub != []
    ensures Count(s, sub) == 0 <==> !Contains(s, sub)
  {
    FindIffContains(s, sub);
  }

  /** With nothing to replace, both replacements leave the text unchanged. */
  lemma ReplaceAbsent(s: string, sub: string, rep: string)
    requires sub != [] && Count(s, sub) == 0
    ensures ReplaceAll(s, sub, rep) == s
    ensures ReplaceFirst(s, sub, rep) == s
  {
  }

  /** Replacing a pattern by itself changes nothing. */
  lemma {:induction false} ReplaceSelf(s: string, sub: string)
    requires sub != []
    ensures ReplaceAll(s, sub, sub) == s
    ensures ReplaceFirst(s, sub, sub) == s
    decreases |s|
  {
    var i := Find(s, sub);
    if i >= 0 {
      ReplaceSelf(s[i + |sub|..], sub);
      assert s == s[..i] + s[i..i + |sub|] + s[i + |sub|..];
    }
  }

  /** With exactly one occurrence, replacing all is replacing the first. */
  lemma ReplaceAllSingle(s: string, sub: string, rep: string)
    requires sub != [] && Count(s, sub) == 1
    ensures ReplaceAll(s, sub, rep) == ReplaceFirst(s, sub, rep)
  {
    var i := Find(s, sub);
    ReplaceAbsent(s[i + |sub|..], sub, rep);
  }

  /** Each replaced occurrence changes the length by the difference of the two lengths. */
  lemma {:induction false} ReplaceAllLength(s: string, sub: string, rep: string)
    requires sub != []
    ensures |ReplaceAll(s, sub, rep)| == |s| + Count(s, sub) * (|rep| - |sub|)
    decreases |s|
  {
    var i := Find(s, sub);
    var total := Count(s, sub);
    var whole := ReplaceAll(s, sub, rep);
    if i < 0 {
      assert total == 0 && whole == s;
      ZeroScaled(total, |rep| - |sub|);
    } else {
      var t := s[i + |sub|..];
      ReplaceAllLength(t, sub, rep);
      var rt := ReplaceAll(t, sub, rep);
      assert whole == s[..i] + rep + rt;
      assert total == 1 + Count(t, sub);
      StepLength(|s|, |t|, i + |sub|, i + |rep|, |sub|, |rep|, Count(t, sub), |rt|, total, |whole|);
    }
  }

  lemma ZeroScaled(c: int, d: int)
    requires c == 0
    ensures c * d == 0
  {
  }

  /** The arithmetic of one replaced occurrence followed by `c` more. */
  lemma StepLength(n: int, m: int, cut: int, put: int, a: int, b: int, c: int, l: int, total: int, whole: int)
    requires n == cut + m && put - cut == b - a && l == m + c * (b - a)
    requires total == 1 + c && whole == put + l
    ensures whole == n + total * (b - a)
  {
  }

  /** A product of a natural number and an integer has the integer's sign, or is zero. */
  lemma ScaledSign(n: nat, d: int)
    ensures d >= 0 ==> n * d >= 0
    ensures d <= 0 ==> n * d <= 0
  {
  }

  /** Both counts are non-zero, so their product is. */
  lemma NonZeroScaled(n: nat, d: int)
    requires n > 0 && d != 0
    ensures n * d != 0
  {
    ScaledSign(n, d);
    if d > 0 {
      assert n * d >= d;
    } else {
      assert n * d <= d;
    }
  }

  /** Replacing the first occurrence by a different text changes the text. */
  lemma FirstDiffers(s: string, sub: string, rep: string)
    requires sub != [] && Find(s, sub) >= 0 && rep != sub
    ensures ReplaceFirst(s, sub, rep) != s
  {
    var i := Find(s, sub);
    var r := ReplaceFirst(s, sub, rep);
    assert r == s[..i] + rep + s[i + |sub|..];
    if |rep| == |sub| {
      assert r[i..i + |rep|] == rep;
    } else {
      assert |r| != |s|;
    }
  }

  /** Replacing every occurrence by a different text changes the text. */
  lemma AllDiffers(s: string, sub: string, rep: string)
    requires sub != [] && Find(s, sub) >= 0 && rep != sub
    ensures ReplaceAll(s, sub, rep) != s
  {
    var i := Find(s, sub);
    var r := ReplaceAll(s, sub, rep);
    if |rep| == |sub| {
      assert r == s[..i] + rep + ReplaceAll(s[i + |sub|..], sub, rep);
      assert r[i..i + |rep|] == rep;
    } else {
      ReplaceAllLength(s, sub, rep);
      NonZeroScaled(Count(s, sub), |rep| - |sub|);
    }
  }

  /**
   * When the pattern occurs, either replacement leaves the text as it was exactly when the
   * pattern is replaced by itself.
   */
  lemma ReplaceUnchangedIff(s: string, sub: string, rep: string, all: bool)
    requires sub != [] && Count(s, sub) > 0
    ensures Replace(s, sub, rep, all) == s <==> rep == sub
  {
    if rep == sub {
      ReplaceSelf(s, sub);
    } else if all {
      AllDiffers(s, sub, rep);
    } else {
      FirstDiffers(s, sub, rep);
    }
  }
}
