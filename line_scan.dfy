/** Scanning the lines of a text for the ones that satisfy a test, numbering them from 1. */
module LineScan {

  /** The first `i` lines that pass `keep`, as their 1-based numbers and `show` of them, in file order. */
  function Marked(lines: seq<string>, i: nat, keep: string -> bool, show: string -> string): (r: seq<(nat, string)>)
    requires i <= |lines|
    ensures |r| <= i
  {
    if i == 0 then []
    else Marked(lines, i - 1, keep, show) + (if keep(lines[i - 1]) then [(i, show(lines[i - 1]))] else [])
  }

  lemma {:induction false} MarkedAt(lines: seq<string>, i: nat, keep: string -> bool, show: string -> string, k: nat)
    requires i <= |lines| && k < |Marked(lines, i, keep, show)|
    ensures var e := Marked(lines, i, keep, show)[k];
      1 <= e.0 <= i && keep(lines[e.0 - 1]) && e.1 == show(lines[e.0 - 1])
  {
    var r0 := Marked(lines, i - 1, keep, show);
    if k < |r0| {
      MarkedAt(lines, i - 1, keep, show, k);
      assert Marked(lines, i, keep, show)[k] == r0[k];
    }
  }

  lemma {:induction false} MarkedIncreasing(lines: seq<string>, i: nat, keep: string -> bool, show: string -> string, k: nat, l: nat)
    requires i <= |lines| && k < l < |Marked(lines, i, keep, show)|
    ensures Marked(lines, i, keep, show)[k].0 < Marked(lines, i, keep, show)[l].0
  {
    var r0 := Marked(lines, i - 1, keep, show);
    var r := Marked(lines, i, keep, show);
    assert r[k] == r0[k];
    if l < |r0| {
      MarkedIncreasing(lines, i - 1, keep, show, k, l);
      assert r[l] == r0[l];
    } else {
      MarkedAt(lines, i - 1, keep, show, k);
    }
  }

  lemma {:induction false} MarkedComplete(lines: seq<string>, i: nat, keep: string -> bool, show: string -> string, j: nat)
    requires j < i <= |lines| && keep(lines[j])
    ensures (j + 1, show(lines[j])) in Marked(lines, i, keep, show)
  {
    if j < i - 1 {
      MarkedComplete(lines, i - 1, keep, show, j);
    }
  }

  lemma {:induction false} MarkedPrefix(lines: seq<string>, j: nat, i: nat, keep: string -> bool, show: string -> string)
    requires j <= i <= |lines|
    ensures var a, b := Marked(lines, j, keep, show), Marked(lines, i, keep, show);
      |a| <= |b| && b[..|a|] == a
  {
    if j < i {
      MarkedPrefix(lines, j, i - 1, keep, show);
    }
  }
}
