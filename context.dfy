/**
 * The conversation store of `context/manager.py`: the ordered message list, its wire
 * form, the compression trigger, the summary replacement and the pruning of old
 * tool output.
 */
module Context {
  import opened Common
  import opened Json
  import opened Time
  import opened Response
  import Dict

  datatype Role = User | Assistant | Tool

  function RoleName(r: Role): string {
    match r
    case User => "user"
    case Assistant => "assistant"
    case Tool => "tool"
  }

  /**
   * A `MessageItem`.  A missing `tool_call_id` is the empty string (both are false
   * wherever the source tests it); `token_count` is always set by the constructors.
   */
  datatype MessageItem = MessageItem(
    role: Role,
    content: string,
    toolCallId: string,
    toolCalls: seq<Json>,
    tokenCount: nat,
    prunedAt: Option<DateTime>)

  /** `MessageItem.to_dict`. */
  function ToDict(m: MessageItem): (r: Object)
    ensures |r| >= 1 && r[0] == ("role", JStr(RoleName(m.role)))
  {
    var d0: Object := [("role", JStr(RoleName(m.role)))];
    var d1 := if m.toolCallId != [] then d0 + [("tool_call_id", JStr(m.toolCallId))] else d0;
    var d2 := if m.toolCalls != [] then d1 + [("tool_calls", JArr(m.toolCalls))] else d1;
    if m.content != [] then d2 + [("content", JStr(m.content))] else d2
  }

  /** The role comes first; id, calls and content follow, each exactly when it is not empty. */
  lemma ToDictFields(m: MessageItem)
    ensures var r := ToDict(m);
      Dict.Keys(r) == ["role"] + (if m.toolCallId != [] then ["tool_call_id"] else [])
                      + (if m.toolCalls != [] then ["tool_calls"] else []) + (if m.content != [] then ["content"] else [])
      && Dict.Get(r, "role") == Some(JStr(RoleName(m.role)))
      && Dict.Get(r, "tool_call_id") == (if m.toolCallId != [] then Some(JStr(m.toolCallId)) else None)
      && Dict.Get(r, "tool_calls") == (if m.toolCalls != [] then Some(JArr(m.toolCalls)) else None)
      && Dict.Get(r, "content") == (if m.content != [] then Some(JStr(m.content)) else None)
  {
    var d0: Object := [("role", JStr(RoleName(m.role)))];
    var id: Object := if m.toolCallId != [] then [("tool_call_id", JStr(m.toolCallId))] else [];
    var calls: Object := if m.toolCalls != [] then [("tool_calls", JArr(m.toolCalls))] else [];
    var content: Object := if m.content != [] then [("content", JStr(m.content))] else [];
    var d1 := d0 + id;
    var d2 := d1 + calls;
    var r := d2 + content;
    assert ToDict(m) == r;
    assert Dict.Keys(d0) == ["role"];
    assert Dict.Keys(id) == if m.toolCallId != [] then ["tool_call_id"] else [];
    assert Dict.Keys(calls) == if m.toolCalls != [] then ["tool_calls"] else [];
    assert Dict.Keys(content) == if m.content != [] then ["content"] else [];
    Dict.KeysConcat(d0, id);
    Dict.KeysConcat(d1, calls);
    Dict.KeysConcat(d2, content);
    GetOfFour(d0, id, calls, content, "role");
    GetOfFour(d0, id, calls, content, "tool_call_id");
    GetOfFour(d0, id, calls, content, "tool_calls");
    GetOfFour(d0, id, calls, content, "content");
  }

  lemma GetOfFour(a: Object, b: Object, c: Object, d: Object, k: string)
    ensures Dict.Get(a + b + c + d, k) ==
      if k in Dict.Keys(a) then Dict.Get(a, k) else if k in Dict.Keys(b) then Dict.Get(b, k)
      else if k in Dict.Keys(c) then Dict.Get(c, k) else Dict.Get(d, k)
  {
    Dict.KeysConcat(a, b);
    Dict.KeysConcat(a + b, c);
    Dict.GetConcat(a, b, k);
    Dict.GetConcat(a + b, c, k);
    Dict.GetConcat(a + b + c, d, k);
  }

  /** Looking up a key appended after the others finds the appended value. */
  lemma {:induction false} GetAppend(d: Object, k: string, v: Json)
    requires k !in Dict.Keys(d)
    ensures Dict.Get(d + [(k, v)], k) == Some(v)
  {
    if d != [] {
      assert (d + [(k, v)])[1..] == d[1..] + [(k, v)];
      assert Dict.Keys(d) == [d[0].0] + Dict.Keys(d[1..]);
      GetAppend(d[1..], k, v);
    }
  }

  function SystemDict(prompt: string): Object {
    [("role", JStr("system")), ("content", JStr(prompt))]
  }

  /** What `get_messages` returns: the system prompt when there is one, then every item's dict in order. */
  function WireMessages(systemPrompt: string, ms: seq<MessageItem>): seq<Object> {
    (if systemPrompt != [] then [SystemDict(systemPrompt)] else []) + Dicts(ms)
  }

  /** The items' dicts, in order. */
  function Dicts(ms: seq<MessageItem>): (r: seq<Object>)
    ensures |r| == |ms| && forall i :: 0 <= i < |ms| ==> r[i] == ToDict(ms[i])
  {
    if ms == [] then [] else Dicts(ms[..|ms| - 1]) + [ToDict(ms[|ms| - 1])]
  }

  /** One more item adds its dict at the end. */
  lemma WireMessagesAppend(systemPrompt: string, ms: seq<MessageItem>, m: MessageItem)
    ensures WireMessages(systemPrompt, ms + [m]) == WireMessages(systemPrompt, ms) + [ToDict(m)]
  {
    assert (ms + [m])[..|ms|] == ms;
    var p := if systemPrompt != [] then [SystemDict(systemPrompt)] else [];
    assert Dicts(ms + [m]) == Dicts(ms) + [ToDict(m)];
    assert p + (Dicts(ms) + [ToDict(m)]) == (p + Dicts(ms)) + [ToDict(m)];
  }

  lemma WireMessagesShape(systemPrompt: string, ms: seq<MessageItem>)
    ensures systemPrompt != [] ==>
      |WireMessages(systemPrompt, ms)| == |ms| + 1 && WireMessages(systemPrompt, ms)[0] == SystemDict(systemPrompt)
      && forall i :: 0 <= i < |ms| ==> WireMessages(systemPrompt, ms)[1 + i] == ToDict(ms[i])
    ensures systemPrompt == [] ==>
      |WireMessages(systemPrompt, ms)| == |ms| && forall i :: 0 <= i < |ms| ==> WireMessages(systemPrompt, ms)[i] == ToDict(ms[i])
  {
    if systemPrompt != [] {
      WirePrompted(systemPrompt, ms);
    } else {
      assert WireMessages(systemPrompt, ms) == Dicts(ms);
    }
  }

  lemma WirePrompted(systemPrompt: string, ms: seq<MessageItem>)
    requires systemPrompt != []
    ensures |WireMessages(systemPrompt, ms)| == |ms| + 1 && WireMessages(systemPrompt, ms)[0] == SystemDict(systemPrompt)
    ensures forall i :: 0 <= i < |ms| ==> WireMessages(systemPrompt, ms)[1 + i] == ToDict(ms[i])
  {
    var d := Dicts(ms);
    var r := WireMessages(systemPrompt, ms);
    assert r == [SystemDict(systemPrompt)] + d;
    forall i | 0 <= i < |ms| ensures r[1 + i] == ToDict(ms[i]) {
      assert r[1 + i] == d[i];
    }
  }

  const PruneProtectTokens := 40000
  const PruneMinimumTokens := 20000
  const PrunedPlaceholder := "[Old tool result content cleared]"

  /** The fixed texts of the three messages `replace_with_summary` leaves behind. */
  datatype Wording = Wording(head: string, tail: string, ack: string, resume: string)

  const SummaryWording := Wording(
    "# Context Restoration (Previous Session Compacted)\n\n        The previous conversation was compacted due to context length limits. Below is a detailed summary of the work done so far. \n\n        **CRITICAL: Actions listed under \"COMPLETED ACTIONS\" are already done. DO NOT repeat them.**\n\n        ---\n\n        ",
    "\n\n        ---\n\n        Resume work from where we left off. Focus ONLY on the remaining tasks.",
    "I've reviewed the context from the previous session. I understand:\n- The original goal and what was requested\n- Which actions are ALREADY COMPLETED (I will NOT repeat these)\n- The current state of the project\n- What still needs to be done\n\nI'll continue with the REMAINING tasks only, starting from where we left off.",
    "Continue with the REMAINING work only. Do NOT repeat any completed actions. Proceed with the next step as described in the context above.")

  function NewItem(role: Role, content: string, toolCallId: string, toolCalls: seq<Json>, tokens: string -> nat): MessageItem {
    MessageItem(role, content, toolCallId, toolCalls, tokens(content), None)
  }

  function SummaryMessages(summary: string, tokens: string -> nat, wd: Wording): seq<MessageItem> {
    [NewItem(User, wd.head + summary + wd.tail, [], [], tokens),
     NewItem(Assistant, wd.ack, [], [], tokens),
     NewItem(User, wd.resume, [], [], tokens)]
  }

  /** Three messages, user then assistant then user, and the first one quotes the summary. */
  lemma SummaryShape(summary: string, tokens: string -> nat, wd: Wording)
    ensures var ms := SummaryMessages(summary, tokens, wd);
      |ms| == 3 && ms[0].role == User && ms[1].role == Assistant && ms[2].role == User
      && Contains(ms[0].content, summary)
      && forall i :: 0 <= i < 3 ==> ms[i].toolCallId == [] && ms[i].prunedAt.None? && ms[i].tokenCount == tokens(ms[i].content)
  {
    var c := wd.head + summary + wd.tail;
    assert c[|wd.head|..|wd.head| + |summary|] == summary;
    ContainsAt(c, summary, |wd.head|);
  }

  // ---------------------------------------------------------------------
  // Pruning

  /** A message the pruning pass looks at: a tool result with a call id. */
  predicate IsToolResult(m: MessageItem) {
    m.role == Tool && m.toolCallId != []
  }

  /** `msg.token_count or count_tokens(msg.content)`. */
  function TokensOf(m: MessageItem, tokens: string -> nat): nat {
    if m.tokenCount != 0 then m.tokenCount else tokens(m.content)
  }

  function UserCount(ms: seq<MessageItem>): nat {
    if ms == [] then 0 else (if ms[0].role == User then 1 else 0) + UserCount(ms[1..])
  }

  /** The state of the newest-to-oldest scan: running total, pruned total, chosen items, and whether it broke off. */
  datatype ScanState = ScanState(total: nat, pruned: nat, toPrune: seq<int>, stopped: bool)

  /** The scan after it has looked at the messages from the newest down to index `j`. */
  function ScanFrom(ms: seq<MessageItem>, tokens: string -> nat, j: nat): ScanState
    requires j <= |ms|
    decreases |ms| - j
  {
    if j == |ms| then ScanState(0, 0, [], false)
    else
      var s := ScanFrom(ms, tokens, j + 1);
      if s.stopped || !IsToolResult(ms[j]) then s
      else if ms[j].prunedAt.Some? then s.(stopped := true)
      else
        var t := TokensOf(ms[j], tokens);
        if s.total + t > PruneProtectTokens then ScanState(s.total + t, s.pruned + t, s.toPrune + [j], false)
        else s.(total := s.total + t)
  }

  function PruneItem(m: MessageItem, tokens: string -> nat, now: DateTime): MessageItem {
    m.(content := PrunedPlaceholder, tokenCount := tokens(PrunedPlaceholder), prunedAt := Some(now))
  }

  /** The store after pruning the items at `idx`, one after the other. */
  function PruneAt(ms: seq<MessageItem>, idx: seq<int>, tokens: string -> nat, now: DateTime): (r: seq<MessageItem>)
    ensures |r| == |ms|
    decreases |idx|
  {
    if idx == [] then ms
    else
      var p := PruneAt(ms, idx[..|idx| - 1], tokens, now);
      var j := idx[|idx| - 1];
      if 0 <= j < |ms| then p[j := PruneItem(p[j], tokens, now)] else p
  }

  /** Pruning is idempotent, so an item ends up pruned exactly when its index is listed. */
  lemma {:induction false} PruneAtItem(ms: seq<MessageItem>, idx: seq<int>, tokens: string -> nat, now: DateTime, k: nat)
    requires k < |ms|
    ensures PruneAt(ms, idx, tokens, now)[k] == if k in idx then PruneItem(ms[k], tokens, now) else ms[k]
    decreases |idx|
  {
    if idx != [] {
      var init := idx[..|idx| - 1];
      PruneAtItem(ms, init, tokens, now, k);
      assert idx == init + [idx[|idx| - 1]];
    }
  }

  lemma PruneAtItems(ms: seq<MessageItem>, idx: seq<int>, tokens: string -> nat, now: DateTime)
    ensures forall k :: 0 <= k < |ms| ==>
      PruneAt(ms, idx, tokens, now)[k] == if k in idx then PruneItem(ms[k], tokens, now) else ms[k]
  {
    forall k | 0 <= k < |ms| ensures PruneAt(ms, idx, tokens, now)[k] == if k in idx then PruneItem(ms[k], tokens, now) else ms[k] {
      PruneAtItem(ms, idx, tokens, now, k);
    }
  }

  /** What `prune_tool_outputs` leaves in the store, and the count it returns. */
  function PruneResult(ms: seq<MessageItem>, tokens: string -> nat, now: DateTime): (seq<MessageItem>, nat) {
    if UserCount(ms) < 2 then (ms, 0)
    else
      var s := ScanFrom(ms, tokens, 0);
      if s.pruned < PruneMinimumTokens then (ms, 0)
      else (PruneAt(ms, s.toPrune, tokens, now), |s.toPrune|)
  }

  /** The tool-result tokens from index `j` to the newest message. */
  function ToolTokensFrom(ms: seq<MessageItem>, tokens: string -> nat, j: nat): nat
    requires j <= |ms|
    decreases |ms| - j
  {
    if j == |ms| then 0
    else (if IsToolResult(ms[j]) then TokensOf(ms[j], tokens) else 0) + ToolTokensFrom(ms, tokens, j + 1)
  }

  /** What the scan state means, stated without the scan. */
  lemma {:induction false} ScanFacts(ms: seq<MessageItem>, tokens: string -> nat, j: nat)
    requires j <= |ms|
    ensures var s := ScanFrom(ms, tokens, j);
      (forall x :: x in s.toPrune ==> (j <= x < |ms| && IsToolResult(ms[x]) && ms[x].prunedAt.None?
                    && ToolTokensFrom(ms, tokens, x) > PruneProtectTokens
                    && forall y :: x <= y < |ms| && IsToolResult(ms[y]) ==> ms[y].prunedAt.None?))
      && (forall a, b :: 0 <= a < b < |s.toPrune| ==> s.toPrune[a] > s.toPrune[b])
      && (s.toPrune == [] ==> s.pruned == 0)
      && (!s.stopped ==> (s.total == ToolTokensFrom(ms, tokens, j)
                        && forall y :: j <= y < |ms| && IsToolResult(ms[y]) ==> ms[y].prunedAt.None?))
    decreases |ms| - j
  {
    if j < |ms| {
      ScanFacts(ms, tokens, j + 1);
      var s1 := ScanFrom(ms, tokens, j + 1);
      var s := ScanFrom(ms, tokens, j);
      if s.toPrune != s1.toPrune {
        assert s.toPrune == s1.toPrune + [j];
        forall a, b | 0 <= a < b < |s.toPrune| ensures s.toPrune[a] > s.toPrune[b] {
          if b == |s1.toPrune| {
            assert s.toPrune[a] == s1.toPrune[a] && s1.toPrune[a] in s1.toPrune;
          } else {
            assert s.toPrune[a] == s1.toPrune[a] && s.toPrune[b] == s1.toPrune[b];
          }
        }
      }
    }
  }

  /** No tool result from index `j` to the newest message was pruned before. */
  ghost predicate Unbroken(ms: seq<MessageItem>, j: nat) {
    forall y :: j <= y < |ms| && IsToolResult(ms[y]) ==> ms[y].prunedAt.None?
  }

  /**
   * A message the pass is due to prune: an unpruned tool result behind more than 40,000
   * tokens of newer tool output, with no pruned tool result between it and the newest message.
   */
  ghost predicate Eligible(ms: seq<MessageItem>, tokens: string -> nat, x: nat) {
    x < |ms| && IsToolResult(ms[x]) && Unbroken(ms, x) && ToolTokensFrom(ms, tokens, x) > PruneProtectTokens
  }

  /** The tokens of the eligible messages from index `j` to the newest message. */
  ghost function EligibleTokens(ms: seq<MessageItem>, tokens: string -> nat, j: nat): nat
    requires j <= |ms|
    decreases |ms| - j
  {
    if j == |ms| then 0
    else (if Eligible(ms, tokens, j) then TokensOf(ms[j], tokens) else 0) + EligibleTokens(ms, tokens, j + 1)
  }

  /**
   * The scan chooses exactly the eligible messages, and the tokens it counts as pruned are
   * theirs; it has broken off exactly when a pruned tool result lies at `j` or after.
   */
  lemma {:induction false} ScanChoice(ms: seq<MessageItem>, tokens: string -> nat, j: nat)
    requires j <= |ms|
    ensures var s := ScanFrom(ms, tokens, j);
      (s.stopped <==> !Unbroken(ms, j))
      && (!s.stopped ==> s.total == ToolTokensFrom(ms, tokens, j))
      && (forall x :: x in s.toPrune ==> j <= x < |ms|)
      && (forall x :: j <= x < |ms| ==> (x in s.toPrune <==> Eligible(ms, tokens, x)))
      && s.pruned == EligibleTokens(ms, tokens, j)
    decreases |ms| - j
  {
    if j < |ms| {
      ScanChoice(ms, tokens, j + 1);
      var s1 := ScanFrom(ms, tokens, j + 1);
      var s := ScanFrom(ms, tokens, j);
      assert j !in s1.toPrune;
      assert Unbroken(ms, j) <==> Unbroken(ms, j + 1) && (IsToolResult(ms[j]) ==> ms[j].prunedAt.None?);
      assert s.toPrune == s1.toPrune || s.toPrune == s1.toPrune + [j];
      assert j in s.toPrune <==> Eligible(ms, tokens, j);
    }
  }

  /** Once the scan has broken off it stays as it was. */
  lemma {:induction false} ScanStays(ms: seq<MessageItem>, tokens: string -> nat, j: nat, k: nat)
    requires k <= j <= |ms| && ScanFrom(ms, tokens, j).stopped
    ensures ScanFrom(ms, tokens, k) == ScanFrom(ms, tokens, j)
    decreases j - k
  {
    if k < j {
      ScanStays(ms, tokens, j, k + 1);
    }
  }

  /**
   * Pruning keeps the number, order, roles, call ids and tool calls of the messages, and the
   * count it returns is the number of items it changed.  It changes only tool results that
   * were not pruned before, that lie behind more than 40,000 tokens of newer tool output,
   * and with no earlier-pruned tool result between them and the newest message.
   */
  lemma PruneKeepsShape(ms: seq<MessageItem>, tokens: string -> nat, now: DateTime)
    ensures var (r, count) := PruneResult(ms, tokens, now);
      |r| == |ms|
      && (count == 0 <==> r == ms)
      && (UserCount(ms) < 2 ==> count == 0)
      && (forall k :: 0 <= k < |ms| ==>
            r[k].role == ms[k].role && r[k].toolCallId == ms[k].toolCallId && r[k].toolCalls == ms[k].toolCalls)
      && (forall k :: 0 <= k < |ms| && r[k] != ms[k] ==>
            r[k] == PruneItem(ms[k], tokens, now) && IsToolResult(ms[k]) && ms[k].prunedAt.None?
            && ToolTokensFrom(ms, tokens, k) > PruneProtectTokens
            && forall y :: k <= y < |ms| && IsToolResult(ms[y]) ==> ms[y].prunedAt.None?)
      && (count > 0 <==> UserCount(ms) >= 2 && EligibleTokens(ms, tokens, 0) >= PruneMinimumTokens)
      && (count > 0 ==> forall k :: 0 <= k < |ms| ==> (r[k] != ms[k] <==> Eligible(ms, tokens, k)))
  {
    var (r, count) := PruneResult(ms, tokens, now);
    var s := ScanFrom(ms, tokens, 0);
    ScanFacts(ms, tokens, 0);
    ScanChoice(ms, tokens, 0);
    if UserCount(ms) >= 2 && s.pruned >= PruneMinimumTokens {
      var idx := s.toPrune;
      assert idx != [];
      assert r == PruneAt(ms, idx, tokens, now);
      PruneAtItems(ms, idx, tokens, now);
      forall k | 0 <= k < |ms| && k in idx ensures r[k] != ms[k] {
        assert r[k].prunedAt.Some?;
      }
      var p := idx[0];
      assert p in idx;
      assert r[p] != ms[p];
    }
  }

  /** The count `prune_tool_outputs` returns is the number of messages it changed. */
  lemma PruneCount(ms: seq<MessageItem>, tokens: string -> nat, now: DateTime)
    ensures PruneResult(ms, tokens, now).1 == |set k | 0 <= k < |ms| && PruneResult(ms, tokens, now).0[k] != ms[k]|
  {
    var r := PruneResult(ms, tokens, now).0;
    var s := ScanFrom(ms, tokens, 0);
    var changed := set k | 0 <= k < |ms| && r[k] != ms[k];
    if UserCount(ms) >= 2 && s.pruned >= PruneMinimumTokens {
      ScanFacts(ms, tokens, 0);
      var idx := s.toPrune;
      assert r == PruneAt(ms, idx, tokens, now);
      PruneAtItems(ms, idx, tokens, now);
      forall k | 0 <= k < |ms| && k in idx ensures r[k] != ms[k] {
        assert r[k].prunedAt.Some?;
      }
      var chosen := set x | x in idx;
      assert changed == chosen;
      assert forall a, b :: 0 <= a < b < |idx| ==> idx[a] != idx[b];
      DistinctCard(idx);
      assert |chosen| == |idx|;
      assert |changed| == |chosen|;
      assert |idx| == PruneResult(ms, tokens, now).1;
    } else {
      assert r == ms;
      assert changed == {};
      assert PruneResult(ms, tokens, now).1 == 0;
    }
  }

  /**
   * Running the pruning pass twice without new messages prunes nothing the second
   * time: the newest-to-oldest scan stops at the first message pruned the first time.
   */
  lemma PruneIdempotent(ms: seq<MessageItem>, tokens: string -> nat, now: DateTime, later: DateTime)
    ensures var ms1 := PruneResult(ms, tokens, now).0;
      PruneResult(ms1, tokens, later).0 == ms1 && PruneResult(ms1, tokens, later).1 == 0
  {
    var s := ScanFrom(ms, tokens, 0);
    if UserCount(ms) >= 2 && s.pruned >= PruneMinimumTokens {
      NewestPruned(ms, tokens);
      var ms1 := PruneAt(ms, s.toPrune, tokens, now);
      var p := s.toPrune[0];
      AboveNewestPruned(ms, tokens, now, s.toPrune, p, p + 1);
      AboveNewestIdle(ms, tokens, s.toPrune, p, p + 1);
      PruneAtItem(ms, s.toPrune, tokens, now, p);
      assert ms1[p] == PruneItem(ms[p], tokens, now);
      assert ScanFrom(ms1, tokens, p).stopped;
      ScanStays(ms1, tokens, p, 0);
    }
  }

  /** When the pass prunes, the first index chosen is the newest one chosen. */
  lemma NewestPruned(ms: seq<MessageItem>, tokens: string -> nat)
    requires ScanFrom(ms, tokens, 0).pruned >= PruneMinimumTokens
    ensures var idx := ScanFrom(ms, tokens, 0).toPrune;
      idx != [] && 0 <= idx[0] < |ms| && IsToolResult(ms[idx[0]]) && forall x :: x in idx ==> x <= idx[0]
  {
    var s := ScanFrom(ms, tokens, 0);
    ScanFacts(ms, tokens, 0);
    var p := s.toPrune[0];
    assert p in s.toPrune;
    forall x | x in s.toPrune ensures x <= p {
      var a :| 0 <= a < |s.toPrune| && s.toPrune[a] == x;
      assert a == 0 || s.toPrune[0] > s.toPrune[a];
    }
  }

  /** Above the newest pruned index both scans agree. */
  lemma {:induction false} AboveNewestPruned(ms: seq<MessageItem>, tokens: string -> nat, now: DateTime,
                                              idx: seq<int>, p: nat, j: nat)
    requires forall x :: x in idx ==> x <= p
    requires p < j <= |ms|
    ensures ScanFrom(PruneAt(ms, idx, tokens, now), tokens, j) == ScanFrom(ms, tokens, j)
    decreases |ms| - j
  {
    if j < |ms| {
      var ms1 := PruneAt(ms, idx, tokens, now);
      AboveNewestPruned(ms, tokens, now, idx, p, j + 1);
      PruneAtItem(ms, idx, tokens, now, j);
      assert ms1[j] == ms[j];
    }
  }

  /** Above the newest index the pass chooses, its scan has chosen nothing and has not stopped. */
  lemma AboveNewestIdle(ms: seq<MessageItem>, tokens: string -> nat, idx: seq<int>, p: nat, j: nat)
    requires idx == ScanFrom(ms, tokens, 0).toPrune && p in idx && (forall x :: x in idx ==> x <= p)
    requires p < j <= |ms|
    ensures ScanFrom(ms, tokens, j).toPrune == [] && ScanFrom(ms, tokens, j).pruned == 0
    ensures !ScanFrom(ms, tokens, j).stopped
  {
    ScanPrefix(ms, tokens, j, 0);
    ScanFacts(ms, tokens, j);
    var s := ScanFrom(ms, tokens, j);
    if s.toPrune != [] {
      PrefixHead(s.toPrune, idx, p);
      assert false;
    }
    if s.stopped {
      ScanStays(ms, tokens, j, 0);
      assert false;
    }
  }

  /** The first element of a non-empty prefix of `idx` is one of its elements, so it is bounded as they are. */
  lemma PrefixHead(a: seq<int>, idx: seq<int>, p: int)
    requires a != [] && |a| <= |idx| && idx[..|a|] == a && forall x :: x in idx ==> x <= p
    ensures a[0] in a && a[0] <= p
  {
    assert a[0] == idx[0] && idx[0] in idx;
  }

  /** The scan only ever appends to its list of chosen items. */
  lemma {:induction false} ScanPrefix(ms: seq<MessageItem>, tokens: string -> nat, j: nat, k: nat)
    requires k <= j <= |ms|
    ensures var a := ScanFrom(ms, tokens, j).toPrune;
      var b := ScanFrom(ms, tokens, k).toPrune;
      |a| <= |b| && b[..|a|] == a
    decreases j - k
  {
    if k < j {
      ScanPrefix(ms, tokens, j, k + 1);
    }
  }

  // ---------------------------------------------------------------------
  // The store

  class ContextManager {
    /** The rendered system prompt (`get_system_prompt` is not part of this model). */
    const systemPrompt: string
    /** `config.model.context_window`. */
    const contextWindow: int
    /** `count_tokens(_, model_name)` for the configured model. */
    const tokens: string -> nat
    /** The texts `replace_with_summary` writes, always `SummaryWording`. */
    const wording: Wording

    var messages: seq<MessageItem>
    var latestUsage: TokenUsage
    var totalUsage: TokenUsage

    constructor(systemPrompt: string, contextWindow: int, tokens: string -> nat)
      ensures this.systemPrompt == systemPrompt && this.contextWindow == contextWindow && this.tokens == tokens
      ensures wording == SummaryWording
      ensures messages == [] && latestUsage == ZeroUsage && totalUsage == ZeroUsage
    {
      this.systemPrompt := systemPrompt;
      this.contextWindow := contextWindow;
      this.tokens := tokens;
      wording := SummaryWording;
      messages := [];
      latestUsage := ZeroUsage;
      totalUsage := ZeroUsage;
    }

    function MessageCount(): nat
      reads this
    {
      |messages|
    }

    method AddUserMessage(content: string)
      modifies this`messages
      ensures messages == old(messages) + [MessageItem(User, content, [], [], tokens(content), None)]
    {
      messages := messages + [NewItem(User, content, [], [], tokens)];
    }

    /** `None` content becomes "" and `None` tool calls become []. */
    method AddAssistantMessage(content: Option<string>, toolCalls: Option<seq<Json>>)
      modifies this`messages
      ensures messages == old(messages) + [MessageItem(Assistant, content.GetOr(""), [], toolCalls.GetOr([]),
                                                       tokens(content.GetOr("")), None)]
    {
      var text := if content.Some? then content.value else "";
      var calls := if toolCalls.Some? then toolCalls.value else [];
      messages := messages + [NewItem(Assistant, text, [], calls, tokens)];
    }

    method AddToolResult(toolCallId: string, content: string)
      modifies this`messages
      ensures messages == old(messages) + [MessageItem(Tool, content, toolCallId, [], tokens(content), None)]
    {
      messages := messages + [NewItem(Tool, content, toolCallId, [], tokens)];
    }

    method GetMessages() returns (r: seq<Object>)
      ensures r == WireMessages(systemPrompt, messages)
    {
      r := [];
      if systemPrompt != [] {
        r := r + [SystemDict(systemPrompt)];
      }
      assert messages[..0] == [] && Dicts([]) == [];
      var i := 0;
      while i < |messages|
        invariant 0 <= i <= |messages|
        invariant r == WireMessages(systemPrompt, messages[..i])
      {
        assert messages[..i + 1] == messages[..i] + [messages[i]];
        WireMessagesAppend(systemPrompt, messages[..i], messages[i]);
        r := r + [ToDict(messages[i])];
        i := i + 1;
      }
      assert messages[..i] == messages;
    }

    /** `needs_compression`: the latest total exceeds 80% of the context window. */
    predicate NeedsCompression()
      reads this
      ensures NeedsCompression() <==> (latestUsage.totalTokens as real) > (contextWindow as real) * 0.8
    {
      5 * latestUsage.totalTokens > 4 * contextWindow
    }

    method SetLatestUsage(usage: TokenUsage)
      modifies this`latestUsage
      ensures latestUsage == usage
    {
      latestUsage := usage;
    }

    method AddUsage(usage: TokenUsage)
      modifies this`totalUsage
      ensures totalUsage == Response.AddUsage(old(totalUsage), usage)
    {
      totalUsage := Response.AddUsage(totalUsage, usage);
    }

    method ReplaceWithSummary(summary: string)
      modifies this`messages
      ensures messages == SummaryMessages(summary, tokens, wording)
    {
      messages := [];
      messages := messages + [NewItem(User, wording.head + summary + wording.tail, [], [], tokens)];
      messages := messages + [NewItem(Assistant, wording.ack, [], [], tokens)];
      messages := messages + [NewItem(User, wording.resume, [], [], tokens)];
    }

    /** `prune_tool_outputs`, stamping pruned items with `now`. */
    method PruneToolOutputs(now: DateTime) returns (count: nat)
      modifies this`messages
      ensures (messages, count) == PruneResult(old(messages), tokens, now)
    {
      if UserCount(messages) < 2 {
        return 0;
      }
      var pruned, toPrune := Scan();
      if pruned < PruneMinimumTokens {
        return 0;
      }
      ScanFacts(messages, tokens, 0);
      PruneItems(toPrune, now);
      count := |toPrune|;
    }

    /** The newest-to-oldest walk that picks the items to prune. */
    method Scan() returns (pruned: nat, toPrune: seq<int>)
      ensures pruned == ScanFrom(messages, tokens, 0).pruned && toPrune == ScanFrom(messages, tokens, 0).toPrune
    {
      var total: nat := 0;
      pruned := 0;
      toPrune := [];
      var i := |messages|;
      while i > 0
        invariant 0 <= i <= |messages|
        invariant ScanFrom(messages, tokens, i) == ScanState(total, pruned, toPrune, false)
      {
        var m := messages[i - 1];
        if IsToolResult(m) {
          if m.prunedAt.Some? {
            ScanStays(messages, tokens, i - 1, 0);
            return;
          }
          var t := TokensOf(m, tokens);
          total := total + t;
          if total > PruneProtectTokens {
            pruned := pruned + t;
            toPrune := toPrune + [i - 1];
          }
        }
        i := i - 1;
      }
    }

    /** The second loop: each chosen item in turn gets the placeholder and the stamp. */
    method PruneItems(toPrune: seq<int>, now: DateTime)
      requires forall x :: x in toPrune ==> 0 <= x < |messages|
      modifies this`messages
      ensures messages == PruneAt(old(messages), toPrune, tokens, now)
    {
      ghost var before := messages;
      var count := 0;
      while count < |toPrune|
        invariant 0 <= count <= |toPrune| && |messages| == |before|
        invariant messages == PruneAt(before, toPrune[..count], tokens, now)
      {
        var j := toPrune[count];
        assert j in toPrune;
        assert toPrune[..count + 1][..count] == toPrune[..count];
        messages := messages[j := PruneItem(messages[j], tokens, now)];
        count := count + 1;
      }
      assert toPrune[..count] == toPrune;
    }

    method Clear()
      modifies this`messages
      ensures messages == []
    {
      messages := [];
    }
  }
}
