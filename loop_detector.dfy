/**
 * The repetition detector of `context/loop_detector.py`: a history of at most
 * twenty action signatures, and the exact-repeat and cycle checks over it.
 */
module LoopDetection {
  import opened Common
  import opened Json
  import Dict
  import opened Sorting

  const MaxHistory := 20
  const MaxExactRepeats := 3
  const MaxCycleLength := 3

  /**
   * An action and the `details` it was recorded with, absent ones defaulted:
   * `tool_name` to "", `args` to `{}` and `text` to "".
   */
  datatype Action = Action(actionType: string, toolName: string, args: Json, text: string)

  /** The arguments that contribute to a signature: a dict's entries, nothing for any other value. */
  function ArgsDict(args: Json): Object {
    if args.JObj? then args.fields else []
  }

  /** One `k=str(v)` part; `show` stands for Python's `str` of a value. */
  function ArgPart(k: string, args: Object, show: Json -> string): string {
    k + "=" + show(GetOr(args, k, JNull))
  }

  function ArgParts(keys: seq<string>, args: Object, show: Json -> string): (r: seq<string>)
    ensures |r| == |keys| && forall i :: 0 <= i < |keys| ==> r[i] == ArgPart(keys[i], args, show)
  {
    seq(|keys|, i requires 0 <= i < |keys| => ArgPart(keys[i], args, show))
  }

  function SortedKeys(args: Object): seq<string> {
    SortBy(Dict.Keys(args), StrLe)
  }

  /** The parts `record_action` joins with "|". */
  function SignatureParts(a: Action, show: Json -> string): seq<string> {
    [a.actionType] +
    if a.actionType == "tool_call" then
      [a.toolName] + ArgParts(SortedKeys(ArgsDict(a.args)), ArgsDict(a.args), show)
    else if a.actionType == "response" then [a.text]
    else []
  }

  function Signature(a: Action, show: Json -> string): string {
    Join(SignatureParts(a, show), "|")
  }

  /** A response is "response|text", a call without arguments "tool_call|name", any other action its type alone. */
  lemma SignatureShapes(a: Action, show: Json -> string)
    ensures a.actionType == "response" ==> Signature(a, show) == "response|" + a.text
    ensures a.actionType == "tool_call" && ArgsDict(a.args) == [] ==> Signature(a, show) == "tool_call|" + a.toolName
    ensures a.actionType !in {"tool_call", "response"} ==> Signature(a, show) == a.actionType
  {
    var p := SignatureParts(a, show);
    if a.actionType == "tool_call" && ArgsDict(a.args) == [] {
      assert p == ["tool_call", a.toolName] && p[1..] == [a.toolName];
      assert Join(p, "|") == "tool_call" + "|" + a.toolName;
      assert "tool_call" + "|" == "tool_call|";
    } else if a.actionType == "response" {
      assert p == ["response", a.text] && p[1..] == [a.text];
      assert Join(p, "|") == "response" + "|" + a.text;
      assert "response" + "|" == "response|";
    }
  }

  lemma StrLeTotalPreorder()
    ensures TotalPreorder(StrLe)
  {
    forall x: string, y: string ensures StrLe(x, y) || StrLe(y, x) {
      StrLeTotal(x, y);
    }
    forall x: string, y: string, z: string | StrLe(x, y) && StrLe(y, z) ensures StrLe(x, z) {
      StrLeTrans(x, y, z);
    }
  }

  /** The keys of a dict, in ascending order: equal for two dicts with the same entries in any order. */
  lemma SortedKeysInsensitive(d1: Object, d2: Object)
    requires Dict.DistinctKeys(d1) && Dict.DistinctKeys(d2)
    requires forall k :: Dict.Get(d1, k) == Dict.Get(d2, k)
    ensures SortedKeys(d1) == SortedKeys(d2)
    ensures SortedBy(SortedKeys(d1), StrLe)
  {
    var k1, k2 := Dict.Keys(d1), Dict.Keys(d2);
    forall k ensures k in k1 <==> k in k2 {
      assert Dict.Get(d1, k).Some? == Dict.Get(d2, k).Some?;
    }
    DistinctSameElements(k1, k2);
    StrLeTotalPreorder();
    SortByCorrect(k1, StrLe);
    SortByCorrect(k2, StrLe);
    var s1, s2 := SortedKeys(d1), SortedKeys(d2);
    forall x, y | x in s1 && y in s1 && StrLe(x, y) && StrLe(y, x) ensures x == y {
      StrLeAntisym(x, y);
    }
    SortedUnique(s1, s2, StrLe);
  }

  /** Two tool calls whose argument dicts hold the same entries, in whatever order, have one signature. */
  lemma ArgumentOrderIrrelevant(a: Action, f1: Object, f2: Object, show: Json -> string)
    requires Dict.DistinctKeys(f1) && Dict.DistinctKeys(f2)
    requires forall k :: Dict.Get(f1, k) == Dict.Get(f2, k)
    ensures Signature(a.(args := JObj(f1)), show) == Signature(a.(args := JObj(f2)), show)
  {
    SortedKeysInsensitive(f1, f2);
    ArgPartsSame(SortedKeys(f1), f1, f2, show);
    var a1, a2 := a.(args := JObj(f1)), a.(args := JObj(f2));
    assert ArgsDict(a1.args) == f1 && ArgsDict(a2.args) == f2;
    if a.actionType == "tool_call" {
      var tail := [a.toolName] + ArgParts(SortedKeys(f1), f1, show);
      assert SignatureParts(a1, show) == [a.actionType] + tail;
      assert SignatureParts(a2, show) == [a.actionType] + tail;
    } else {
      assert SignatureParts(a1, show) == SignatureParts(a2, show);
    }
  }

  /** Dicts with the same entries give the same parts for any keys. */
  lemma ArgPartsSame(keys: seq<string>, f1: Object, f2: Object, show: Json -> string)
    requires forall k :: Dict.Get(f1, k) == Dict.Get(f2, k)
    ensures ArgParts(keys, f1, show) == ArgParts(keys, f2, show)
  {
    forall i | 0 <= i < |keys| ensures ArgPart(keys[i], f1, show) == ArgPart(keys[i], f2, show) {
      assert GetOr(f1, keys[i], JNull) == GetOr(f2, keys[i], JNull);
    }
  }

  /** A `deque(maxlen=20)` after appending to it: the newest twenty entries. */
  function Window(h: seq<string>): (r: seq<string>)
    ensures |r| <= MaxHistory && |r| == Min(|h|, MaxHistory)
    ensures r == h[|h| - |r|..]
  {
    if |h| > MaxHistory then h[|h| - MaxHistory..] else h
  }

  function Min(a: int, b: int): int {
    if a <= b then a else b
  }

  /** Appending to the bounded history keeps the newest twenty of everything ever recorded. */
  lemma {:induction false} WindowAppend(log: seq<string>, s: string)
    ensures Window(Window(log) + [s]) == Window(log + [s])
  {
    var w := Window(log);
    assert w + [s] == (log + [s])[|log| - |w|..];
  }

  /** The last `n` entries of `h` repeat the `n` entries before them. */
  predicate RepeatsCycle(h: seq<string>, n: nat) {
    2 * n <= |h| && h[|h| - 2 * n..|h| - n] == h[|h| - n..]
  }

  /** The last three entries are one signature. */
  predicate ExactRepeat(h: seq<string>) {
    |h| >= MaxExactRepeats && h[|h| - 1] == h[|h| - 2] && h[|h| - 2] == h[|h| - 3]
  }

  /** The loop over `range(n, stop)`: the first cycle length that repeats. */
  function FirstCycle(h: seq<string>, n: nat, stop: nat): (r: Option<nat>)
    ensures r.Some? ==> n <= r.value < stop && RepeatsCycle(h, r.value)
    ensures r.Some? ==> forall m :: n <= m < r.value ==> !RepeatsCycle(h, m)
    ensures r.None? ==> forall m :: n <= m < stop ==> !RepeatsCycle(h, m)
    decreases stop - n
  {
    if n >= stop then None
    else if RepeatsCycle(h, n) then Some(n)
    else FirstCycle(h, n + 1, stop)
  }

  datatype LoopKind = Repeated | Cycle(length: nat)

  function Message(k: LoopKind): string {
    match k
    case Repeated => "Same action repeated " + NatToString(MaxExactRepeats) + " tiems"
    case Cycle(n) => "Detected repeating cycle of length " + NatToString(n)
  }

  /** `check_for_loop` on a history. */
  function Check(h: seq<string>): Option<LoopKind> {
    if |h| < 2 then None
    else if ExactRepeat(h) then Some(Repeated)
    else if |h| >= 2 * MaxCycleLength then
      var c := FirstCycle(h, 2, Min(MaxCycleLength + 1, |h| / 2 + 1));
      if c.Some? then Some(Cycle(c.value)) else None
    else None
  }

  /**
   * Fewer than two entries are never a loop; a repeat is reported iff the last three entries
   * are equal; a cycle only with six or more entries, of length 2 or 3, the shorter first.
   */
  lemma CheckMeaning(h: seq<string>)
    ensures var r := Check(h);
      (|h| < 2 ==> r.None?)
      && (r == Some(Repeated) <==> ExactRepeat(h))
      && (r.Some? && r.value.Cycle? ==>
            |h| >= 2 * MaxCycleLength && 2 <= r.value.length <= 3 && RepeatsCycle(h, r.value.length)
            && (r.value.length == 3 ==> !RepeatsCycle(h, 2)))
      && (r.None? && |h| >= 2 * MaxCycleLength ==> !RepeatsCycle(h, 2) && !RepeatsCycle(h, 3))
  {
    if |h| >= 2 && !ExactRepeat(h) && |h| >= 2 * MaxCycleLength {
      var stop := Min(MaxCycleLength + 1, |h| / 2 + 1);
      assert stop == MaxCycleLength + 1;
      var c := FirstCycle(h, 2, stop);
    }
  }

  /** Two alternating actions recorded twice are not yet a cycle: cycles need six entries. */
  lemma AlternationNeedsSixEntries(x: string, y: string)
    requires x != y
    ensures RepeatsCycle([x, y, x, y], 2)
    ensures Check([x, y, x, y]).None?
    ensures Check([x, y, x, y, x, y]) == Some(Cycle(2))
  {
    var h := [x, y, x, y, x, y];
    assert h[2..4] == h[4..];
    assert !ExactRepeat(h) by { assert h[5] != h[4]; }
  }

  /** Three identical entries are reported as a repeat even when they also complete a cycle. */
  lemma RepeatBeforeCycle(h: seq<string>)
    requires ExactRepeat(h) && RepeatsCycle(h, 2)
    ensures Check(h) == Some(Repeated)
  {
  }

  lemma ArgPartsSnoc(keys: seq<string>, i: nat, args: Object, show: Json -> string)
    requires i < |keys|
    ensures ArgParts(keys[..i + 1], args, show) == ArgParts(keys[..i], args, show) + [ArgPart(keys[i], args, show)]
  {
    assert keys[..i + 1] == keys[..i] + [keys[i]];
  }

  /** The `key=value` parts of a call's arguments, in sorted key order. */
  method BuildArgParts(args: Object, show: Json -> string) returns (parts: seq<string>)
    ensures parts == ArgParts(SortedKeys(args), args, show)
  {
    var keys := SortBy(Dict.Keys(args), StrLe);
    parts := [];
    var i := 0;
    while i < |keys|
      invariant 0 <= i <= |keys|
      invariant parts == ArgParts(keys[..i], args, show)
    {
      ArgPartsSnoc(keys, i, args, show);
      parts := parts + [ArgPart(keys[i], args, show)];
      i := i + 1;
    }
    assert keys[..i] == keys;
  }

  /** The signature `record_action` builds, part by part. */
  method BuildSignature(a: Action, show: Json -> string) returns (signature: string)
    ensures signature == Signature(a, show)
  {
    var output := [a.actionType];
    if a.actionType == "tool_call" {
      var parts := BuildArgParts(ArgsDict(a.args), show);
      output := output + [a.toolName] + parts;
    } else if a.actionType == "response" {
      output := output + [a.text];
    }
    assert output == SignatureParts(a, show);
    signature := Join(output, "|");
  }

  /** The bounded history of signatures. */
  class LoopDetector {
    var history: seq<string>

    ghost predicate Valid()
      reads this
    {
      |history| <= MaxHistory
    }

    constructor()
      ensures history == [] && Valid()
    {
      history := [];
    }

    /** `record_action`: appends the action's signature, dropping the oldest entry of a full history. */
    method RecordAction(a: Action, show: Json -> string)
      requires Valid()
      modifies this`history
      ensures history == Window(old(history) + [Signature(a, show)])
      ensures Valid()
    {
      var signature := BuildSignature(a, show);
      if |history| == MaxHistory {
        history := history[1..] + [signature];
      } else {
        history := history + [signature];
      }
    }

    /** `check_for_loop`: the message for the detected loop, if any. */
    function CheckForLoop(): (r: Option<string>)
      reads this
      ensures r.Some? <==> Check(history).Some?
      ensures r.Some? ==> r.value == Message(Check(history).value)
    {
      var k := Check(history);
      if k.Some? then Some(Message(k.value)) else None
    }

    method Clear()
      modifies this`history
      ensures history == [] && Valid()
      ensures CheckForLoop().None?
    {
      history := [];
    }
  }

  /** The messages, as the source spells them. */
  lemma Messages()
    ensures Message(Repeated) == "Same action repeated 3 tiems"
    ensures Message(Cycle(2)) == "Detected repeating cycle of length 2"
  {
  }
}
