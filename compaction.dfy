/**
 * The history compactor of `context/compaction.py`: the transcript sent to the
 * model for summarising, and `compress`, which folds the transport's events into
 * a summary and its usage.  The compression prompt and the transport are given.
 */
module Compaction {
  import opened Common
  import opened Json
  import Dict
  import opened Response
  import LlmClient

  const Header := "Here is the conversation that needs to be continue: \n"
  const Separator := "\n\n---\n\n"

  const ToolCap := 2000
  const ResponseCap := 3000
  const ArgumentsCap := 500
  const MessageCap := 1500

  const ToolMarker := "\n... [tool output truncated]"
  const ResponseMarker := "\n... [response truncated]"
  const MessageMarker := "\n... [message truncated]"

  /** A string field of a message dict; a missing (or non-string) field reads as `default`. */
  function StrOr(d: Object, k: string, default: string): string {
    GetStr(d, k).GetOr(default)
  }

  /** `s[:n]`. */
  function Take(s: string, n: nat): (r: string)
    ensures |r| <= n && |r| <= |s| && r == s[..|r|]
    ensures |s| <= n ==> r == s
  {
    if |s| > n then s[..n] else s
  }

  /** The cut the formatter applies: at most `n` characters, and `marker` after a cut. */
  function Cap(s: string, n: nat, marker: string): string {
    if |s| > n then s[..n] + marker else s
  }

  /** A text of at most `n` characters is kept as it is; a longer one keeps its first `n` and gains the marker. */
  lemma CapFacts(s: string, n: nat, marker: string)
    ensures |s| <= n ==> Cap(s, n, marker) == s
    ensures |s| > n ==> (|Cap(s, n, marker)| == n + |marker| && StartsWith(Cap(s, n, marker), s[..n])
      && Cap(s, n, marker)[n..] == marker)
  {
  }

  /** The name and arguments of one entry of `tool_calls`, defaulted to "unknown" and "{}". */
  function CallParts(tc: Json): (string, string) {
    var f := if tc.JObj? then GetOr(tc.fields, "function", JObj([])) else JObj([]);
    var fields := if f.JObj? then f.fields else [];
    (StrOr(fields, "name", "unknown"), StrOr(fields, "arguments", "{}"))
  }

  /** One line of "Assistant called tools:": the arguments are cut to 500 characters, without a marker. */
  function ToolDetail(tc: Json): (r: string)
    ensures var (name, args) := CallParts(tc);
      |r| <= |name| + ArgumentsCap + 6 && StartsWith(r, "  - " + name + "(")
      && (|args| <= ArgumentsCap ==> r == "  - " + name + "(" + args + ")")
  {
    var (name, args) := CallParts(tc);
    var r := "  - " + name + "(" + Take(args, ArgumentsCap) + ")";
    assert r[..|"  - " + name + "("|] == "  - " + name + "(";
    r
  }

  function ToolDetails(tcs: seq<Json>): (r: seq<string>)
    ensures |r| == |tcs| && forall i :: 0 <= i < |tcs| ==> r[i] == ToolDetail(tcs[i])
  {
    seq(|tcs|, i requires 0 <= i < |tcs| => ToolDetail(tcs[i]))
  }

  /** A message's `tool_calls` when it is a non-empty list. */
  function CallsOf(m: Object): seq<Json> {
    var v := Dict.Get(m, "tool_calls");
    if v.Some? && v.value.JArr? then v.value.items else []
  }

  function Role(m: Object): string {
    StrOr(m, "role", "")
  }

  function Content(m: Object): string {
    StrOr(m, "content", "")
  }

  function ToolPrefix(m: Object): string {
    "[Tool Result (" + StrOr(m, "tool_call_id", "unknown") + ")]:\n"
  }

  /** The sections one message contributes to the transcript. */
  function MessageSections(m: Object): seq<string> {
    var role, content := Role(m), Content(m);
    if role == "system" then []
    else if role == "tool" then [ToolPrefix(m) + Cap(content, ToolCap, ToolMarker)]
    else if role == "assistant" then
      (if content != [] then ["Assistant:\n" + Cap(content, ResponseCap, ResponseMarker)] else [])
      + (if CallsOf(m) != [] then ["Assistant called tools:\n" + Join(ToolDetails(CallsOf(m)), "\n")] else [])
    else ["User:\n" + Cap(content, MessageCap, MessageMarker)]
  }

  function Sections(ms: seq<Object>): seq<string> {
    if ms == [] then [] else MessageSections(ms[0]) + Sections(ms[1..])
  }

  /** `_format_history_for_compaction`. */
  function FormatHistory(ms: seq<Object>): string {
    Join([Header] + Sections(ms), Separator)
  }

  lemma {:induction false} SectionsConcat(a: seq<Object>, b: seq<Object>)
    ensures Sections(a + b) == Sections(a) + Sections(b)
  {
    if a == [] {
      assert a + b == b;
    } else {
      var ab := a + b;
      assert ab[0] == a[0] && ab[1..] == a[1..] + b;
      SectionsConcat(a[1..], b);
      assert Sections(ab) == MessageSections(a[0]) + Sections(a[1..] + b);
    }
  }

  function NonSystem(ms: seq<Object>): (r: seq<Object>)
    ensures forall i :: 0 <= i < |r| ==> Role(r[i]) != "system"
  {
    if ms == [] then []
    else if Role(ms[0]) == "system" then NonSystem(ms[1..])
    else [ms[0]] + NonSystem(ms[1..])
  }

  /** System messages contribute nothing: the transcript is that of the other messages. */
  lemma {:induction false} SystemMessagesOmitted(ms: seq<Object>)
    ensures Sections(ms) == Sections(NonSystem(ms))
    ensures FormatHistory(ms) == FormatHistory(NonSystem(ms))
  {
    if ms != [] {
      SystemMessagesOmitted(ms[1..]);
      if Role(ms[0]) != "system" {
        var r := [ms[0]] + NonSystem(ms[1..]);
        assert r[1..] == NonSystem(ms[1..]);
      }
    }
  }

  /** Each role's section, with the caps of 2000, 3000 and 1500 characters. */
  lemma RoleSections(m: Object)
    ensures var c := Content(m);
      (Role(m) == "tool" ==> MessageSections(m) == [ToolPrefix(m) + (if |c| > ToolCap then c[..ToolCap] + ToolMarker else c)])
      && (Role(m) == "assistant" && c == [] && CallsOf(m) == [] ==> MessageSections(m) == [])
      && (Role(m) == "assistant" && c != [] ==> (|MessageSections(m)| >= 1 &&
           MessageSections(m)[0] == "Assistant:\n" + (if |c| > ResponseCap then c[..ResponseCap] + ResponseMarker else c)))
      && (Role(m) !in {"system", "tool", "assistant"} ==>
           MessageSections(m) == ["User:\n" + (if |c| > MessageCap then c[..MessageCap] + MessageMarker else c)])
  {
  }

  /** The header comes first, and the sections follow, separated, in message order. */
  lemma FormatLayout(ms: seq<Object>)
    ensures StartsWith(FormatHistory(ms), Header)
    ensures Sections(ms) == [] ==> FormatHistory(ms) == Header
    ensures Sections(ms) != [] ==> FormatHistory(ms) == Header + Separator + Join(Sections(ms), Separator)
  {
    if Sections(ms) != [] {
      JoinConcat([Header], Sections(ms), Separator);
      assert Join([Header], Separator) == Header;
    } else {
      assert [Header] + Sections(ms) == [Header];
    }
  }

  /** Appending messages appends their sections to the transcript. */
  lemma FormatAppend(a: seq<Object>, b: seq<Object>)
    requires Sections(b) != []
    ensures FormatHistory(a + b) == FormatHistory(a) + Separator + Join(Sections(b), Separator)
  {
    SectionsConcat(a, b);
    assert [Header] + Sections(a + b) == ([Header] + Sections(a)) + Sections(b);
    JoinConcat([Header] + Sections(a), Sections(b), Separator);
  }

  // ---------------------------------------------------------------------
  // compress

  /** The two messages `compress` sends: the compression prompt and the transcript. */
  function CompressionRequest(prompt: string, ms: seq<Object>): seq<Object> {
    [[("role", JStr("system")), ("content", JStr(prompt))],
     [("role", JStr("user")), ("content", JStr(FormatHistory(ms)))]]
  }

  /** The loop over the events: each MESSAGE_COMPLETE adds its text and replaces the usage; one without text raises. */
  function FoldFrom(es: seq<StreamEvent>, summary: string, usage: Option<TokenUsage>): Outcome<(string, Option<TokenUsage>)>
    decreases |es|
  {
    if es == [] then Ok((summary, usage))
    else if es[0].MessageComplete? then
      if es[0].text.None? then Raised("AttributeError: 'NoneType' object has no attribute 'content'")
      else FoldFrom(es[1..], summary + es[0].text.value, es[0].usage)
    else FoldFrom(es[1..], summary, usage)
  }

  /** `compress`: a summary and its usage, or `(None, None)` for a short history, a failure or an empty answer. */
  function Compressed(ms: seq<Object>, prompt: string, complete: seq<Object> -> LlmClient.Completion): (r: (Option<string>, Option<TokenUsage>))
    ensures r.0.Some? <==> r.1.Some?
    ensures |ms| < 3 ==> r == (None, None)
    ensures r.0.Some? ==> r.0.value != []
  {
    if |ms| < 3 then (None, None)
    else
      var c := complete(CompressionRequest(prompt, ms));
      match FoldFrom(c.events, "", None)
      case Raised(_) => (None, None)
      case Ok((summary, usage)) =>
        if c.raised.Some? || summary == [] || usage.None? then (None, None) else (Some(summary), usage)
  }

  /** `compress`, the loop over the events as the source writes it. */
  method Compress(ms: seq<Object>, prompt: string, complete: seq<Object> -> LlmClient.Completion)
    returns (summary: Option<string>, usage: Option<TokenUsage>)
    ensures summary == Compressed(ms, prompt, complete).0 && usage == Compressed(ms, prompt, complete).1
  {
    summary, usage := None, None;
    if |ms| >= 3 {
      var c := complete(CompressionRequest(prompt, ms));
      var text := "";
      var last: Option<TokenUsage> := None;
      var failed := false;
      var i := 0;
      while i < |c.events| && !failed
        invariant 0 <= i <= |c.events|
        invariant !failed ==> FoldFrom(c.events[i..], text, last) == FoldFrom(c.events, "", None)
        invariant failed ==> FoldFrom(c.events, "", None).Raised?
        decreases |c.events| - i, if failed then 0 else 1
      {
        var e := c.events[i];
        assert c.events[i..][1..] == c.events[i + 1..];
        if e.MessageComplete? && e.text.None? {
          failed := true;
        } else {
          if e.MessageComplete? {
            last := e.usage;
            text := text + e.text.value;
          }
          i := i + 1;
        }
      }
      if !failed && c.raised.None? && text != [] && last.Some? {
        summary, usage := Some(text), last;
      }
    }
  }

  // ---------------------------------------------------------------------
  // What the fold computes, stated on the events alone

  /** The concatenated texts of the MESSAGE_COMPLETE events. */
  function SummaryText(es: seq<StreamEvent>): string {
    if es == [] then []
    else (if es[0].MessageComplete? && es[0].text.Some? then es[0].text.value else []) + SummaryText(es[1..])
  }

  lemma {:induction false} SummaryTextConcat(a: seq<StreamEvent>, b: seq<StreamEvent>)
    ensures SummaryText(a + b) == SummaryText(a) + SummaryText(b)
  {
    if a == [] {
      assert a + b == b;
    } else {
      assert (a + b)[1..] == a[1..] + b;
      SummaryTextConcat(a[1..], b);
    }
  }

  predicate AllHaveText(es: seq<StreamEvent>) {
    forall i :: 0 <= i < |es| && es[i].MessageComplete? ==> es[i].text.Some?
  }

  /** The position of the last MESSAGE_COMPLETE, or -1. */
  function LastMessage(es: seq<StreamEvent>): (r: int)
    ensures -1 <= r < |es| && (r >= 0 ==> es[r].MessageComplete?)
    ensures forall j :: r < j < |es| ==> !es[j].MessageComplete?
  {
    if es == [] then -1
    else if es[|es| - 1].MessageComplete? then |es| - 1
    else LastMessage(es[..|es| - 1])
  }

  lemma {:induction false} FoldConcat(a: seq<StreamEvent>, b: seq<StreamEvent>, s: string, u: Option<TokenUsage>)
    ensures FoldFrom(a + b, s, u) ==
      match FoldFrom(a, s, u)
      case Raised(m) => Raised(m)
      case Ok((s', u')) => FoldFrom(b, s', u')
    decreases |a|
  {
    if a == [] {
      assert a + b == b;
    } else {
      assert (a + b)[1..] == a[1..] + b;
      var s', u' := s, u;
      if a[0].MessageComplete? && a[0].text.Some? {
        s', u' := s + a[0].text.value, a[0].usage;
      }
      FoldConcat(a[1..], b, s', u');
    }
  }

  /**
   * The fold succeeds iff every MESSAGE_COMPLETE carries text; it then gives the
   * texts of all of them, in order, and the usage of the last one.
   */
  lemma {:induction false} FoldMeaning(es: seq<StreamEvent>)
    ensures FoldFrom(es, "", None).Ok? <==> AllHaveText(es)
    ensures FoldFrom(es, "", None).Ok? ==>
      FoldFrom(es, "", None).value == (SummaryText(es), if LastMessage(es) >= 0 then es[LastMessage(es)].usage else None)
    decreases |es|
  {
    if es != [] {
      var p, e := es[..|es| - 1], es[|es| - 1];
      assert es == p + [e];
      FoldMeaning(p);
      FoldConcat(p, [e], "", None);
      SummaryTextConcat(p, [e]);
      assert [e][1..] == [];
      assert AllHaveText(es) <==> AllHaveText(p) && (e.MessageComplete? ==> e.text.Some?) by {
        assert forall i :: 0 <= i < |p| ==> es[i] == p[i];
      }
      if e.MessageComplete? && e.text.Some? {
        assert SummaryText([e]) == e.text.value + SummaryText([]) == e.text.value;
        assert SummaryText(es) == SummaryText(p) + e.text.value;
        assert LastMessage(es) == |es| - 1;
        assert FoldFrom(p, "", None).Ok? ==>
          FoldFrom(es, "", None) == Ok((FoldFrom(p, "", None).value.0 + e.text.value, e.usage));
      } else if !e.MessageComplete? {
        assert SummaryText([e]) == [] + SummaryText([]) == [];
        assert SummaryText(es) == SummaryText(p);
        assert LastMessage(es) == LastMessage(p);
        assert FoldFrom(p, "", None).Ok? ==> FoldFrom(es, "", None) == FoldFrom(p, "", None);
        assert LastMessage(p) >= 0 ==> es[LastMessage(p)] == p[LastMessage(p)];
      }
    }
  }

  /** The events of a transport that ends by raising never give a summary. */
  lemma RaisingTransport(ms: seq<Object>, prompt: string, complete: seq<Object> -> LlmClient.Completion)
    requires complete(CompressionRequest(prompt, ms)).raised.Some?
    ensures Compressed(ms, prompt, complete) == (None, None)
  {
  }

  /** A summary is the texts of the reply's MESSAGE_COMPLETE events, with the last one's usage. */
  lemma SummaryOfReply(ms: seq<Object>, prompt: string, complete: seq<Object> -> LlmClient.Completion)
    requires Compressed(ms, prompt, complete).0.Some?
    ensures var es := complete(CompressionRequest(prompt, ms)).events;
      AllHaveText(es) && LastMessage(es) >= 0
      && Compressed(ms, prompt, complete) == (Some(SummaryText(es)), es[LastMessage(es)].usage)
  {
    FoldMeaning(complete(CompressionRequest(prompt, ms)).events);
  }
}
