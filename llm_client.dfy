/**
 * The chat transport of `client/llm_client.py`: the tool list sent to the API,
 * the request arguments, the retry schedule of `chat_completion`, the assembly
 * of streamed chunks into events in `_stream_response`, and the single event of
 * `_non_stream_response`.  The API itself is given as the chunks or the response
 * it returns, or as the outcome of each attempt.
 */
module LlmClient {
  import opened Common
  import opened Json
  import opened Response
  import Dict

  const MaxRetries := 3

  // ---------------------------------------------------------------------
  // Request

  const EmptyParameters := JObj([("type", JStr("object")), ("properties", JObj([]))])

  /** One entry of `_build_tools`, for a tool dict whose name has been read. */
  function ToolEntry(name: Json, tool: Object): Json {
    JObj([("type", JStr("function")),
          ("function", JObj([("name", name),
                             ("description", GetOr(tool, "description", JStr(""))),
                             ("parameters", GetOr(tool, "parameters", EmptyParameters))]))])
  }

  /** `_build_tools`: one function entry per tool, in order; a tool without "name" raises `KeyError`. */
  function BuildTools(tools: seq<Object>): (r: Outcome<seq<Json>>)
    ensures r.Ok? <==> forall i :: 0 <= i < |tools| ==> "name" in Dict.Keys(tools[i])
    ensures r.Ok? ==> (|r.value| == |tools| &&
      forall i :: 0 <= i < |tools| ==> r.value[i] == ToolEntry(Dict.Get(tools[i], "name").value, tools[i]))
  {
    if tools == [] then Ok([])
    else
      var rest := BuildTools(tools[1..]);
      assert forall i :: 1 <= i < |tools| ==> tools[i] == tools[1..][i - 1];
      var name := Dict.Get(tools[0], "name");
      if name.None? then Raised("KeyError: 'name'")
      else if rest.Raised? then rest
      else Ok([ToolEntry(name.value, tools[0])] + rest.value)
  }

  /** An exported schema passes through unchanged: its entry's "function" is the schema itself. */
  lemma BuildToolsKeepsSchemas(name: string, description: string, parameters: Json)
    ensures var schema := [("name", JStr(name)), ("description", JStr(description)), ("parameters", parameters)];
      BuildTools([schema]) == Ok([JObj([("type", JStr("function")), ("function", JObj(schema))])])
  {
    var schema := [("name", JStr(name)), ("description", JStr(description)), ("parameters", parameters)];
    assert Dict.Get(schema, "name") == Some(JStr(name));
    assert Dict.Get(schema, "description") == Some(JStr(description)) by {
      assert schema[1..] == [("description", JStr(description)), ("parameters", parameters)];
    }
    assert Dict.Get(schema, "parameters") == Some(parameters) by {
      assert Dict.Get(schema, "parameters") == Dict.Get(schema[1..], "parameters");
      assert schema[1..][1..] == [("parameters", parameters)];
      assert Dict.Get(schema[1..], "parameters") == Dict.Get(schema[1..][1..], "parameters");
    }
    assert BuildTools([schema][1..]) == Ok([]);
    assert ToolEntry(JStr(name), schema) == JObj([("type", JStr("function")), ("function", JObj(schema))]);
    assert BuildTools([schema]) == Ok([ToolEntry(JStr(name), schema)] + []);
    assert [ToolEntry(JStr(name), schema)] + [] == [ToolEntry(JStr(name), schema)];
  }

  /** Missing descriptions and parameters are defaulted. */
  lemma BuildToolsDefaults(name: Json)
    ensures BuildTools([[("name", name)]]) ==
      Ok([JObj([("type", JStr("function")),
                ("function", JObj([("name", name), ("description", JStr("")), ("parameters", EmptyParameters)]))])])
  {
    var t := [("name", name)];
    assert Dict.Get(t, "description").None? && Dict.Get(t, "parameters").None?;
    assert BuildTools([t][1..]) == Ok([]);
    assert BuildTools([t]) == Ok([ToolEntry(name, t)] + []);
    assert [ToolEntry(name, t)] + [] == [ToolEntry(name, t)];
  }

  /** The keyword arguments of the API call; tools and `tool_choice` only for a non-empty tool list. */
  function RequestArgs(model: string, messages: seq<Object>, stream: bool, tools: Option<seq<Object>>): (r: Outcome<Object>)
    ensures (tools.None? || tools.value == []) ==> r.Ok? && Dict.Keys(r.value) == ["model", "messages", "stream"]
    ensures tools.Some? && tools.value != [] && r.Ok? ==>
      Dict.Keys(r.value) == ["model", "messages", "stream", "tools", "tool_choice"] && r.value[4].1 == JStr("auto")
  {
    var msgs := seq(|messages|, i requires 0 <= i < |messages| => JObj(messages[i]));
    var base := [("model", JStr(model)), ("messages", JArr(msgs)), ("stream", JBool(stream))];
    assert Dict.Keys(base) == ["model", "messages", "stream"];
    if tools.Some? && tools.value != [] then
      match BuildTools(tools.value)
      case Raised(m) => Raised(m)
      case Ok(ts) =>
        var r := base + [("tools", JArr(ts)), ("tool_choice", JStr("auto"))];
        assert Dict.Keys(r) == ["model", "messages", "stream", "tools", "tool_choice"];
        Ok(r)
    else Ok(base)
  }

  // ---------------------------------------------------------------------
  // Retry schedule

  /** How one attempt of the API call went: the events it yielded, and the exception that ended it, if any. */
  datatype Attempt =
    | Delivered(events: seq<StreamEvent>)
    | RateLimited(partial: seq<StreamEvent>, message: string)
    | ConnectionFailed(partial: seq<StreamEvent>, message: string)
    | ApiFailed(partial: seq<StreamEvent>, message: string)
    /** An exception that is not an API error: it leaves `chat_completion`. */
    | Crashed(partial: seq<StreamEvent>, message: string)

  predicate Retryable(a: Attempt) {
    a.RateLimited? || a.ConnectionFailed?
  }

  function Yielded(a: Attempt): seq<StreamEvent> {
    if a.Delivered? then a.events else a.partial
  }

  /** Everything `chat_completion` yields, the waits it sleeps, and the exception it raises. */
  datatype Completion = Completion(events: seq<StreamEvent>, sleeps: seq<nat>, raised: Option<string>)

  function Pow2(n: nat): (r: nat)
    ensures r >= 1
  {
    if n == 0 then 1 else 2 * Pow2(n - 1)
  }

  /** The retry loop from attempt `k` on, after `acc`. */
  function RetryFrom(attempts: nat -> Attempt, k: nat, acc: Completion): Completion
    requires k <= MaxRetries
    decreases MaxRetries - k
  {
    var a := attempts(k);
    var events := acc.events + Yielded(a);
    match a
    case Delivered(_) => acc.(events := events)
    case Crashed(_, m) => acc.(events := events, raised := Some(m))
    case ApiFailed(_, m) => acc.(events := events + [StreamError("API error: " + m)])
    case RateLimited(_, m) =>
      if k < MaxRetries then RetryFrom(attempts, k + 1, acc.(events := events, sleeps := acc.sleeps + [Pow2(k)]))
      else acc.(events := events + [StreamError("Rate limit exceeded: " + m)])
    case ConnectionFailed(_, m) =>
      if k < MaxRetries then RetryFrom(attempts, k + 1, acc.(events := events, sleeps := acc.sleeps + [Pow2(k)]))
      else acc.(events := events + [StreamError("Connection error: " + m)])
  }

  function Retry(attempts: nat -> Attempt): Completion {
    RetryFrom(attempts, 0, Completion([], [], None))
  }

  /** `chat_completion`'s loop over `range(self._max_retries + 1)`. */
  method ChatCompletion(attempts: nat -> Attempt) returns (c: Completion)
    ensures c == Retry(attempts)
  {
    var events: seq<StreamEvent> := [];
    var sleeps: seq<nat> := [];
    var k := 0;
    while k <= MaxRetries
      invariant 0 <= k <= MaxRetries
      invariant RetryFrom(attempts, k, Completion(events, sleeps, None)) == Retry(attempts)
      decreases MaxRetries - k
    {
      var a := attempts(k);
      events := events + Yielded(a);
      if a.Delivered? {
        return Completion(events, sleeps, None);
      } else if a.Crashed? {
        return Completion(events, sleeps, Some(a.message));
      } else if a.ApiFailed? {
        return Completion(events + [StreamError("API error: " + a.message)], sleeps, None);
      } else if k < MaxRetries {
        sleeps := sleeps + [Pow2(k)];
        k := k + 1;
      } else if a.RateLimited? {
        return Completion(events + [StreamError("Rate limit exceeded: " + a.message)], sleeps, None);
      } else {
        return Completion(events + [StreamError("Connection error: " + a.message)], sleeps, None);
      }
    }
    assert false;
  }

  function ErrorCount(es: seq<StreamEvent>): nat {
    if es == [] then 0 else (if es[0].StreamError? then 1 else 0) + ErrorCount(es[1..])
  }

  lemma {:induction false} ErrorCountConcat(a: seq<StreamEvent>, b: seq<StreamEvent>)
    ensures ErrorCount(a + b) == ErrorCount(a) + ErrorCount(b)
  {
    if a == [] {
      assert a + b == b;
    } else {
      assert (a + b)[1..] == a[1..] + b;
      ErrorCountConcat(a[1..], b);
    }
  }

  /** The attempt that ended the call: it is the first one that is not retried. */
  predicate EndsWithError(attempts: nat -> Attempt, last: nat) {
    attempts(last).ApiFailed? || (Retryable(attempts(last)) && last == MaxRetries)
  }

  /** The shape of a finished call: the waits before each retry, the last attempt, the error events. */
  ghost predicate Shaped(attempts: nat -> Attempt, r: Completion) {
    var last := |r.sleeps|;
    last <= MaxRetries
    && (forall i :: 0 <= i < last ==> r.sleeps[i] == Pow2(i) && Retryable(attempts(i)))
    && (last < MaxRetries ==> !Retryable(attempts(last)))
    && (r.raised.Some? <==> attempts(last).Crashed?)
    && ErrorCount(r.events) == (if EndsWithError(attempts, last) then 1 else 0)
    && (EndsWithError(attempts, last) ==> r.events[|r.events| - 1].StreamError?)
  }

  /** The error event the last attempt adds, if any. */
  function FinalError(a: Attempt): seq<StreamEvent> {
    match a
    case ApiFailed(_, m) => [StreamError("API error: " + m)]
    case RateLimited(_, m) => [StreamError("Rate limit exceeded: " + m)]
    case ConnectionFailed(_, m) => [StreamError("Connection error: " + m)]
    case _ => []
  }

  /** What the attempt `k` that is not retried adds to what came before. */
  lemma FinalStep(attempts: nat -> Attempt, k: nat, acc: Completion)
    requires k <= MaxRetries && (!Retryable(attempts(k)) || k == MaxRetries)
    ensures var r := RetryFrom(attempts, k, acc);
      r.sleeps == acc.sleeps && r.events == acc.events + Yielded(attempts(k)) + FinalError(attempts(k))
      && r.raised == (if attempts(k).Crashed? then Some(attempts(k).message) else acc.raised)
  {
  }

  lemma FinalErrorCount(a: Attempt)
    ensures ErrorCount(FinalError(a)) == (if a.Delivered? || a.Crashed? then 0 else 1)
    ensures FinalError(a) != [] ==> FinalError(a)[|FinalError(a)| - 1].StreamError?
  {
  }

  /** The attempt `k` that is not retried ends the call in the expected shape. */
  lemma FinalAttempt(attempts: nat -> Attempt, k: nat, acc: Completion)
    requires k <= MaxRetries && |acc.sleeps| == k && acc.raised.None? && ErrorCount(acc.events) == 0
    requires forall i :: 0 <= i < k ==> acc.sleeps[i] == Pow2(i)
    requires ErrorCount(Yielded(attempts(k))) == 0
    requires forall j :: 0 <= j < k ==> Retryable(attempts(j))
    requires !Retryable(attempts(k)) || k == MaxRetries
    ensures Shaped(attempts, RetryFrom(attempts, k, acc))
  {
    var a := attempts(k);
    var events := acc.events + Yielded(a);
    FinalStep(attempts, k, acc);
    FinalErrorCount(a);
    ErrorCountConcat(acc.events, Yielded(a));
    ErrorCountConcat(events, FinalError(a));
  }

  /** An attempt that is retried adds its events and one wait. */
  lemma RetryStep(attempts: nat -> Attempt, k: nat, acc: Completion)
    requires k < MaxRetries && Retryable(attempts(k))
    ensures RetryFrom(attempts, k, acc)
            == RetryFrom(attempts, k + 1, acc.(events := acc.events + Yielded(attempts(k)), sleeps := acc.sleeps + [Pow2(k)]))
  {
  }

  lemma {:induction false} RetryFromShape(attempts: nat -> Attempt, k: nat, acc: Completion)
    requires k <= MaxRetries && |acc.sleeps| == k && acc.raised.None? && ErrorCount(acc.events) == 0
    requires forall i :: 0 <= i < k ==> acc.sleeps[i] == Pow2(i)
    requires forall j :: 0 <= j <= MaxRetries ==> ErrorCount(Yielded(attempts(j))) == 0
    requires forall j :: 0 <= j < k ==> Retryable(attempts(j))
    ensures Shaped(attempts, RetryFrom(attempts, k, acc))
    decreases MaxRetries - k
  {
    var a := attempts(k);
    if Retryable(a) && k < MaxRetries {
      var events := acc.events + Yielded(a);
      ErrorCountConcat(acc.events, Yielded(a));
      var acc' := acc.(events := events, sleeps := acc.sleeps + [Pow2(k)]);
      RetryStep(attempts, k, acc);
      assert forall i :: 0 <= i < k + 1 ==> acc'.sleeps[i] == Pow2(i) by {
        forall i | 0 <= i < k + 1 ensures acc'.sleeps[i] == Pow2(i) {
          if i < k { assert acc'.sleeps[i] == acc.sleeps[i]; }
        }
      }
      RetryFromShape(attempts, k + 1, acc');
    } else {
      FinalAttempt(attempts, k, acc);
    }
  }

  /**
   * The waits are 1, 2 and 4 seconds, one before each retry; at most four attempts
   * are made, only rate-limit and connection errors are retried, and an error
   * event is yielded once, last, exactly when the call ends on an API error.
   */
  lemma RetrySchedule(attempts: nat -> Attempt)
    requires forall j :: 0 <= j <= MaxRetries ==> ErrorCount(Yielded(attempts(j))) == 0
    ensures Shaped(attempts, Retry(attempts))
  {
    RetryFromShape(attempts, 0, Completion([], [], None));
  }

  /** Four rate-limited attempts: waits of 1, 2 and 4 seconds, then the rate-limit error. */
  lemma PersistentRateLimit(attempts: nat -> Attempt)
    requires forall j :: 0 <= j <= MaxRetries ==> attempts(j) == RateLimited([], "429")
    ensures Retry(attempts) == Completion([StreamError("Rate limit exceeded: 429")], [1, 2, 4], None)
  {
    assert Pow2(0) == 1 && Pow2(1) == 2 && Pow2(2) == 4;
    assert "Rate limit exceeded: " + "429" == "Rate limit exceeded: 429";
    var c3 := RetryFrom(attempts, 3, Completion([], [1, 2, 4], None));
    assert c3 == Completion([StreamError("Rate limit exceeded: 429")], [1, 2, 4], None);
    assert RetryFrom(attempts, 2, Completion([], [1, 2], None)) == c3;
    assert RetryFrom(attempts, 1, Completion([], [1], None)) == c3;
  }

  /** Any other API error ends the call at once, without waiting. */
  lemma ApiErrorNotRetried(attempts: nat -> Attempt)
    requires attempts(0).ApiFailed?
    ensures Retry(attempts) ==
      Completion(attempts(0).partial + [StreamError("API error: " + attempts(0).message)], [], None)
  {
  }

  // ---------------------------------------------------------------------
  // Stream assembly

  datatype FunctionDelta = FunctionDelta(name: Option<string>, arguments: Option<string>)
  /** A tool-call fragment; a missing `id` is taken as "", as `id or ""` reads it. */
  datatype Fragment = Fragment(index: int, id: string, fn: Option<FunctionDelta>)
  /** `choices[0]` of a chunk: its finish reason and its delta. */
  datatype Choice = Choice(finishReason: Option<string>, content: Option<string>, toolCalls: seq<Fragment>)
  /** `usage.prompt_tokens_details` as the API reports it: only its cached token count is read. */
  datatype PromptDetails = PromptDetails(cachedTokens: nat)
  /** A usage record as the API reports it; its `prompt_tokens_details` may be absent. */
  datatype ReportedUsage = ReportedUsage(promptTokens: nat, completionTokens: nat, totalTokens: nat, details: Option<PromptDetails>)
  /** A chunk: its usage, and its first choice (`None` for a chunk without choices). */
  datatype Chunk = Chunk(usage: Option<ReportedUsage>, choice: Option<Choice>)

  /** The `TokenUsage` built from a reported usage that carries its details. */
  function ToUsage(u: ReportedUsage): (r: TokenUsage)
    requires u.details.Some?
    ensures r.promptTokens == u.promptTokens && r.completionTokens == u.completionTokens
    ensures r.totalTokens == u.totalTokens && r.cachedTokens == u.details.value.cachedTokens
  {
    TokenUsage(u.promptTokens, u.completionTokens, u.totalTokens, u.details.value.cachedTokens)
  }

  /** Reading `prompt_tokens_details.cached_tokens` of a usage without details is an `AttributeError`. */
  const NoDetails := "AttributeError: 'NoneType' object has no attribute 'cached_tokens'"

  /** A tool call being assembled: the entry of the `tool_calls` dict. */
  datatype Pending = Pending(id: string, name: string, arguments: string)

  /**
   * The loop's variables; `crashed` records an `AttributeError`: of a usage without
   * details, or of a new fragment without `function`.
   */
  datatype StreamState = StreamState(
    finish: Option<string>,
    usage: Option<TokenUsage>,
    calls: seq<(int, Pending)>,
    events: seq<StreamEvent>,
    crashed: bool)

  const Initial := StreamState(None, None, [], [], false)

  /** The entry a first fragment creates. */
  function NewEntry(f: Fragment): Pending {
    if f.fn.None? then Pending(f.id, "", "")
    else
      var d := f.fn.value;
      Pending(f.id, if Present(d.name) then d.name.value else "", if Present(d.arguments) then d.arguments.value else "")
  }

  /** The events a first fragment yields: a start if it names the function, a delta if it carries arguments. */
  function FragmentEvents(f: Fragment): seq<StreamEvent>
    requires f.fn.Some?
  {
    var d := f.fn.value;
    (if Present(d.name) then [ToolCallStart(f.id, d.name.value)] else [])
    + (if Present(d.arguments) then [ToolCallDelta(f.id, d.name, d.arguments.value)] else [])
  }

  /** One fragment: only the first fragment of an index does anything. */
  function FragmentStep(st: StreamState, f: Fragment): StreamState {
    if st.crashed || f.index in Dict.Keys(st.calls) then st
    else if f.fn.None? then st.(calls := st.calls + [(f.index, NewEntry(f))], crashed := true)
    else st.(calls := st.calls + [(f.index, NewEntry(f))], events := st.events + FragmentEvents(f))
  }

  function FragmentsFrom(st: StreamState, fs: seq<Fragment>): StreamState
    decreases |fs|
  {
    if fs == [] then st else FragmentsFrom(FragmentStep(st, fs[0]), fs[1..])
  }

  /** One chunk: usage, finish reason, text, then its fragments; a usage without details raises before the rest. */
  function ChunkStep(st: StreamState, c: Chunk): StreamState {
    if c.usage.Some? && c.usage.value.details.None? then st.(crashed := true)
    else
      var s1 := if c.usage.Some? then st.(usage := Some(ToUsage(c.usage.value))) else st;
      if c.choice.None? then s1
      else
        var ch := c.choice.value;
        var s2 := if Present(ch.finishReason) then s1.(finish := ch.finishReason) else s1;
        var s3 := if Present(ch.content) then s2.(events := s2.events + [TextDelta(ch.content.value)]) else s2;
        FragmentsFrom(s3, ch.toolCalls)
  }

  function ChunksFrom(st: StreamState, cs: seq<Chunk>): StreamState
    decreases |cs|
  {
    if cs == [] || st.crashed then st else ChunksFrom(ChunkStep(st, cs[0]), cs[1..])
  }

  function Completes(calls: seq<(int, Pending)>, parse: string -> Object): (r: seq<StreamEvent>)
    ensures |r| == |calls|
  {
    seq(|calls|, i requires 0 <= i < |calls| =>
      ToolCallComplete(ToolCall(calls[i].1.id, calls[i].1.name, parse(calls[i].1.arguments))))
  }

  /** What `_stream_response` yields for these chunks, and whether it ends by raising. */
  function StreamEvents(cs: seq<Chunk>, parse: string -> Object): (seq<StreamEvent>, bool) {
    var st := ChunksFrom(Initial, cs);
    if st.crashed then (st.events, true)
    else (st.events + Completes(st.calls, parse) + [MessageComplete(None, st.finish, st.usage)], false)
  }

  /** `_stream_response`: the loop over chunks, and over each chunk's fragments. */
  method StreamResponse(cs: seq<Chunk>, parse: string -> Object) returns (events: seq<StreamEvent>, raised: bool)
    ensures (events, raised) == StreamEvents(cs, parse)
  {
    var st := Initial;
    var i := 0;
    while i < |cs| && !st.crashed
      invariant 0 <= i <= |cs|
      invariant ChunksFrom(st, cs[i..]) == ChunksFrom(Initial, cs)
      decreases |cs| - i
    {
      assert cs[i..] == [cs[i]] + cs[i + 1..];
      st := ReadChunk(st, cs[i]);
      i := i + 1;
    }
    if i < |cs| {
      assert ChunksFrom(st, cs[i..]) == st;
    }
    if st.crashed {
      return st.events, true;
    }
    events := st.events;
    var k := 0;
    while k < |st.calls|
      invariant 0 <= k <= |st.calls|
      invariant events == st.events + Completes(st.calls[..k], parse)
    {
      var p := st.calls[k].1;
      assert Completes(st.calls[..k + 1], parse) == Completes(st.calls[..k], parse) + [ToolCallComplete(ToolCall(p.id, p.name, parse(p.arguments)))];
      events := events + [ToolCallComplete(ToolCall(p.id, p.name, parse(p.arguments)))];
      k := k + 1;
    }
    assert st.calls[..k] == st.calls;
    events := events + [MessageComplete(None, st.finish, st.usage)];
    raised := false;
  }

  /** The body of the loop over chunks: one chunk's usage, finish reason, text and fragments. */
  method ReadChunk(st0: StreamState, c: Chunk) returns (st: StreamState)
    ensures st == ChunkStep(st0, c)
  {
    st := st0;
    if c.usage.Some? {
      if c.usage.value.details.None? {
        return st.(crashed := true);
      }
      st := st.(usage := Some(ToUsage(c.usage.value)));
    }
    if c.choice.Some? {
      var ch := c.choice.value;
      if Present(ch.finishReason) {
        st := st.(finish := ch.finishReason);
      }
      if Present(ch.content) {
        st := st.(events := st.events + [TextDelta(ch.content.value)]);
      }
      var j := 0;
      ghost var s3 := st;
      while j < |ch.toolCalls| && !st.crashed
        invariant 0 <= j <= |ch.toolCalls|
        invariant FragmentsFrom(st, ch.toolCalls[j..]) == FragmentsFrom(s3, ch.toolCalls)
        decreases |ch.toolCalls| - j
      {
        assert ch.toolCalls[j..] == [ch.toolCalls[j]] + ch.toolCalls[j + 1..];
        st := FragmentStep(st, ch.toolCalls[j]);
        j := j + 1;
      }
      CrashedStays(st, ch.toolCalls[j..]);
    }
  }

  lemma {:induction false} CrashedStays(st: StreamState, fs: seq<Fragment>)
    requires st.crashed || fs == []
    ensures FragmentsFrom(st, fs) == st
    decreases |fs|
  {
    if fs != [] {
      CrashedStays(FragmentStep(st, fs[0]), fs[1..]);
    }
  }

  // ---------------------------------------------------------------------
  // What a stream assembles, stated chunk by chunk

  /** The texts of the text deltas among some events. */
  function Texts(es: seq<StreamEvent>): seq<string> {
    if es == [] then [] else (if es[0].TextDelta? then [es[0].content] else []) + Texts(es[1..])
  }

  lemma {:induction false} TextsConcat(a: seq<StreamEvent>, b: seq<StreamEvent>)
    ensures Texts(a + b) == Texts(a) + Texts(b)
  {
    if a == [] {
      assert a + b == b;
    } else {
      assert (a + b)[1..] == a[1..] + b;
      TextsConcat(a[1..], b);
    }
  }

  lemma {:induction false} NoTexts(es: seq<StreamEvent>)
    requires forall i :: 0 <= i < |es| ==> !es[i].TextDelta?
    ensures Texts(es) == []
  {
    if es != [] {
      NoTexts(es[1..]);
    }
  }

  /** The text a chunk carries, as a list of zero or one texts. */
  function ChunkText(c: Chunk): seq<string> {
    if c.choice.Some? && Present(c.choice.value.content) then [c.choice.value.content.value] else []
  }

  function ChunkTexts(cs: seq<Chunk>): seq<string> {
    if cs == [] then [] else ChunkTexts(cs[..|cs| - 1]) + ChunkText(cs[|cs| - 1])
  }

  function ChunkFragments(c: Chunk): seq<Fragment> {
    if c.choice.Some? then c.choice.value.toolCalls else []
  }

  /** Every tool-call fragment of the stream, in arrival order. */
  function AllFragments(cs: seq<Chunk>): seq<Fragment> {
    if cs == [] then [] else AllFragments(cs[..|cs| - 1]) + ChunkFragments(cs[|cs| - 1])
  }

  /** Every usage the chunks report carries its details. */
  predicate Detailed(cs: seq<Chunk>) {
    forall k :: 0 <= k < |cs| && cs[k].usage.Some? ==> cs[k].usage.value.details.Some?
  }

  /** The usage of the last chunk that reports one. */
  function LastUsage(cs: seq<Chunk>): (r: Option<ReportedUsage>)
    ensures Detailed(cs) && r.Some? ==> r.value.details.Some?
  {
    if cs == [] then None
    else if cs[|cs| - 1].usage.Some? then cs[|cs| - 1].usage
    else LastUsage(cs[..|cs| - 1])
  }

  /** The `TokenUsage` of a reported usage, if any. */
  function Converted(u: Option<ReportedUsage>): Option<TokenUsage>
    requires u.Some? ==> u.value.details.Some?
  {
    if u.Some? then Some(ToUsage(u.value)) else None
  }

  /** The last non-empty finish reason of the stream. */
  function LastFinish(cs: seq<Chunk>): Option<string> {
    if cs == [] then None
    else
      var c := cs[|cs| - 1];
      if c.choice.Some? && Present(c.choice.value.finishReason) then c.choice.value.finishReason
      else LastFinish(cs[..|cs| - 1])
  }

  /** The first fragment with index `idx`. */
  function FirstWith(fs: seq<Fragment>, idx: int): (r: Option<Fragment>)
    ensures r.Some? ==> r.value in fs && r.value.index == idx
    ensures r.None? <==> forall i :: 0 <= i < |fs| ==> fs[i].index != idx
  {
    if fs == [] then None
    else if fs[0].index == idx then Some(fs[0])
    else
      var r := FirstWith(fs[1..], idx);
      assert forall i :: 1 <= i < |fs| ==> fs[i] == fs[1..][i - 1];
      r
  }

  lemma {:induction false} FirstWithSnoc(fs: seq<Fragment>, f: Fragment, idx: int)
    ensures FirstWith(fs + [f], idx) ==
      if FirstWith(fs, idx).Some? then FirstWith(fs, idx) else if f.index == idx then Some(f) else None
  {
    if fs == [] {
      assert fs + [f] == [f] && [f][1..] == [];
    } else {
      assert (fs + [f])[1..] == fs[1..] + [f];
      FirstWithSnoc(fs[1..], f, idx);
    }
  }

  function Indices(fs: seq<Fragment>): (r: seq<int>)
    ensures |r| == |fs| && forall i :: 0 <= i < |fs| ==> r[i] == fs[i].index
  {
    seq(|fs|, i requires 0 <= i < |fs| => fs[i].index)
  }

  /** The distinct elements of `xs`, each where it first occurs. */
  function FirstSeen(xs: seq<int>): (r: seq<int>)
    ensures forall x :: x in r <==> x in xs
    ensures forall i, j :: 0 <= i < j < |r| ==> r[i] != r[j]
  {
    if xs == [] then []
    else
      var p := FirstSeen(xs[..|xs| - 1]);
      assert xs == xs[..|xs| - 1] + [xs[|xs| - 1]];
      if xs[|xs| - 1] in p then p else p + [xs[|xs| - 1]]
  }

  function Entry(f: Option<Fragment>): Option<Pending> {
    if f.Some? then Some(NewEntry(f.value)) else None
  }

  /** The calls dict after fragments `fs`: one entry per index, in first-seen order, made from the index's first fragment. */
  ghost predicate Assembled(calls: seq<(int, Pending)>, fs: seq<Fragment>) {
    Dict.Keys(calls) == FirstSeen(Indices(fs)) && forall idx :: Dict.Get(calls, idx) == Entry(FirstWith(fs, idx))
  }

  lemma FragmentStepAssembles(st: StreamState, fs: seq<Fragment>, f: Fragment)
    requires !st.crashed && Assembled(st.calls, fs) && !FragmentStep(st, f).crashed
    ensures var r := FragmentStep(st, f);
      Assembled(r.calls, fs + [f]) && r.usage == st.usage && r.finish == st.finish && Texts(r.events) == Texts(st.events)
  {
    var xs := Indices(fs + [f]);
    assert xs == Indices(fs) + [f.index];
    assert xs[..|xs| - 1] == Indices(fs);
    if f.index in Dict.Keys(st.calls) {
      forall idx ensures Dict.Get(st.calls, idx) == Entry(FirstWith(fs + [f], idx)) {
        FirstWithSnoc(fs, f, idx);
      }
    } else {
      var tail := [(f.index, NewEntry(f))];
      Dict.KeysConcat(st.calls, tail);
      forall idx ensures Dict.Get(st.calls + tail, idx) == Entry(FirstWith(fs + [f], idx)) {
        FirstWithSnoc(fs, f, idx);
        Dict.GetConcat(st.calls, tail, idx);
      }
      var e := FragmentEvents(f);
      TextsConcat(st.events, e);
      NoTexts(e);
    }
  }

  lemma {:induction false} FragmentsAssemble(st: StreamState, fs: seq<Fragment>, gs: seq<Fragment>)
    requires !st.crashed && Assembled(st.calls, fs) && !FragmentsFrom(st, gs).crashed
    ensures var r := FragmentsFrom(st, gs);
      Assembled(r.calls, fs + gs) && r.usage == st.usage && r.finish == st.finish && Texts(r.events) == Texts(st.events)
    decreases |gs|
  {
    if gs == [] {
      assert fs + gs == fs;
    } else {
      var s' := FragmentStep(st, gs[0]);
      if s'.crashed {
        CrashedStays(s', gs[1..]);
        assert false;
      }
      FragmentStepAssembles(st, fs, gs[0]);
      FragmentsAssemble(s', fs + [gs[0]], gs[1..]);
      assert (fs + [gs[0]]) + gs[1..] == fs + gs;
    }
  }

  /** The loop's variables after the chunks `seen`, in terms of those chunks alone. */
  ghost predicate Summarises(st: StreamState, seen: seq<Chunk>) {
    Detailed(seen) && st.usage == Converted(LastUsage(seen)) && st.finish == LastFinish(seen)
    && Texts(st.events) == ChunkTexts(seen) && Assembled(st.calls, AllFragments(seen))
  }

  /** Reading chunk `i` takes the loop's variables from the chunks before it to the chunks up to it. */
  lemma StepSummarises(all: seq<Chunk>, i: nat, st: StreamState)
    requires i < |all| && !st.crashed && Summarises(st, all[..i]) && !ChunkStep(st, all[i]).crashed
    ensures Summarises(ChunkStep(st, all[i]), all[..i + 1])
  {
    var seen, c := all[..i], all[i];
    var seen' := all[..i + 1];
    assert seen'[..|seen'| - 1] == seen && seen'[|seen'| - 1] == c;
    assert c.usage.Some? ==> c.usage.value.details.Some?;
    DetailedSnoc(seen', c);
    var s1 := if c.usage.Some? then st.(usage := Some(ToUsage(c.usage.value))) else st;
    if c.choice.Some? {
      var ch := c.choice.value;
      var s2 := if Present(ch.finishReason) then s1.(finish := ch.finishReason) else s1;
      var s3 := if Present(ch.content) then s2.(events := s2.events + [TextDelta(ch.content.value)]) else s2;
      if Present(ch.content) {
        TextsConcat(s2.events, [TextDelta(ch.content.value)]);
        assert Texts([TextDelta(ch.content.value)]) == [ch.content.value];
      }
      FragmentsAssemble(s3, AllFragments(seen), ch.toolCalls);
    } else {
      assert AllFragments(seen') == AllFragments(seen) + [] == AllFragments(seen);
      assert ChunkTexts(seen') == ChunkTexts(seen) + [] == ChunkTexts(seen);
    }
  }

  /** A chunk whose usage, if any, has its details keeps the stream detailed. */
  lemma DetailedSnoc(cs: seq<Chunk>, c: Chunk)
    requires cs != [] && cs[|cs| - 1] == c && Detailed(cs[..|cs| - 1])
    requires c.usage.Some? ==> c.usage.value.details.Some?
    ensures Detailed(cs)
  {
    forall k | 0 <= k < |cs| && cs[k].usage.Some?
      ensures cs[k].usage.value.details.Some?
    {
      if k < |cs| - 1 {
        assert cs[k] == cs[..|cs| - 1][k];
      }
    }
  }

  lemma StillRunning(st: StreamState, cs: seq<Chunk>)
    requires cs != [] && !st.crashed && !ChunksFrom(st, cs).crashed
    ensures !ChunkStep(st, cs[0]).crashed && ChunksFrom(st, cs) == ChunksFrom(ChunkStep(st, cs[0]), cs[1..])
  {
  }

  lemma {:induction false} ChunksSummarise(all: seq<Chunk>, i: nat, st: StreamState)
    requires i <= |all| && !st.crashed && Summarises(st, all[..i]) && !ChunksFrom(st, all[i..]).crashed
    ensures Summarises(ChunksFrom(st, all[i..]), all)
    decreases |all| - i
  {
    if i == |all| {
      assert all[..i] == all;
      assert all[i..] == [];
    } else {
      SummarisedStep(all, i, st);
      ChunksSummarise(all, i + 1, ChunkStep(st, all[i]));
    }
  }

  /** Reading chunk `i` keeps the loop's variables summarising the chunks read so far. */
  lemma SummarisedStep(all: seq<Chunk>, i: nat, st: StreamState)
    requires i < |all| && !st.crashed && Summarises(st, all[..i]) && !ChunksFrom(st, all[i..]).crashed
    ensures var s' := ChunkStep(st, all[i]);
      !s'.crashed && Summarises(s', all[..i + 1]) && ChunksFrom(st, all[i..]) == ChunksFrom(s', all[i + 1..])
  {
    StillRunning(st, all[i..]);
    assert all[i..][0] == all[i] && all[i..][1..] == all[i + 1..];
    StepSummarises(all, i, st);
  }


  /**
   * A stream that ends without raising: its text deltas are the chunks' texts in
   * order; its calls have one entry per fragment index, in the order the indices
   * first appear, each made from that index's first fragment alone; after them come
   * one TOOL_CALL_COMPLETE per entry and, last, one MESSAGE_COMPLETE carrying the
   * last finish reason and the last usage the chunks reported.
   */
  /** Once every chunk is read, the loop's variables are those of the whole stream. */
  lemma WholeStreamSummarised(cs: seq<Chunk>)
    requires !ChunksFrom(Initial, cs).crashed
    ensures Summarises(ChunksFrom(Initial, cs), cs)
  {
    assert Summarises(Initial, []) by {
      assert Dict.Keys<int, Pending>([]) == [];
      assert Indices([]) == [];
    }
    assert cs[..0] == [] && cs[0..] == cs;
    ChunksSummarise(cs, 0, Initial);
  }

  lemma StreamAssembly(cs: seq<Chunk>, parse: string -> Object)
    requires !StreamEvents(cs, parse).1
    ensures var es := StreamEvents(cs, parse).0;
      var calls := ChunksFrom(Initial, cs).calls;
      var fs := AllFragments(cs);
      Texts(es) == ChunkTexts(cs)
      && Dict.Keys(calls) == FirstSeen(Indices(fs))
      && (forall idx :: Dict.Get(calls, idx) == Entry(FirstWith(fs, idx)))
      && |es| > |calls|
      && es[|es| - 1 - |calls|..|es| - 1] == Completes(calls, parse)
      && Detailed(cs)
      && es[|es| - 1] == MessageComplete(None, LastFinish(cs), Converted(LastUsage(cs)))
  {
    var st := ChunksFrom(Initial, cs);
    WholeStreamSummarised(cs);
    var tail := Completes(st.calls, parse) + [MessageComplete(None, st.finish, st.usage)];
    assert StreamEvents(cs, parse).0 == st.events + tail;
    TextsConcat(st.events, tail);
    NoTexts(tail);
  }

  /** Arguments streamed after a call's first fragment are dropped: the call completes with the first fragment's arguments. */
  lemma LaterFragmentsDropped(parse: string -> Object)
    ensures var first := Fragment(0, "call_1", Some(FunctionDelta(Some("read_file"), Some(""))));
      var later := Fragment(0, "", Some(FunctionDelta(None, Some("{}"))));
      var cs := [Chunk(None, Some(Choice(None, None, [first]))), Chunk(None, Some(Choice(None, None, [later])))];
      StreamEvents(cs, parse) ==
        ([ToolCallStart("call_1", "read_file"),
          ToolCallComplete(ToolCall("call_1", "read_file", parse(""))),
          MessageComplete(None, None, None)], false)
  {
    var first := Fragment(0, "call_1", Some(FunctionDelta(Some("read_file"), Some(""))));
    var later := Fragment(0, "", Some(FunctionDelta(None, Some("{}"))));
    var c1 := Chunk(None, Some(Choice(None, None, [first])));
    var c2 := Chunk(None, Some(Choice(None, None, [later])));
    var s1 := ChunkStep(Initial, c1);
    assert FragmentsFrom(Initial, [first]) == FragmentStep(Initial, first);
    assert s1 == StreamState(None, None, [(0, Pending("call_1", "read_file", ""))], [ToolCallStart("call_1", "read_file")], false);
    assert Dict.Keys(s1.calls) == [0];
    assert FragmentsFrom(s1, [later]) == FragmentStep(s1, later) == s1;
    assert ChunksFrom(Initial, [c1, c2]) == ChunksFrom(s1, [c2]);
    assert [c1, c2][1..] == [c2];
    assert ChunksFrom(s1, [c2]) == s1;
    var done := ToolCallComplete(ToolCall("call_1", "read_file", parse("")));
    assert Completes(s1.calls, parse) == [done];
    assert ChunksFrom(Initial, [c1, c2]) == s1;
    assert s1.events + [done] + [MessageComplete(None, None, None)] ==
      [ToolCallStart("call_1", "read_file"), done, MessageComplete(None, None, None)];
  }

  /** A stream that ends without raising reports every usage with its details: a usage without them raises. */
  lemma UndetailedUsageRaises(cs: seq<Chunk>, parse: string -> Object, k: nat)
    requires k < |cs| && cs[k].usage.Some? && cs[k].usage.value.details.None?
    ensures StreamEvents(cs, parse).1
  {
    if !StreamEvents(cs, parse).1 {
      StreamAssembly(cs, parse);
      assert false;
    }
  }

  /** A usage without details raises before the text of its own chunk is yielded. */
  lemma UsageWithoutDetailsRaises(parse: string -> Object)
    ensures StreamEvents([Chunk(Some(ReportedUsage(10, 5, 15, None)), Some(Choice(None, Some("hi"), [])))], parse) == ([], true)
  {
    var c := Chunk(Some(ReportedUsage(10, 5, 15, None)), Some(Choice(None, Some("hi"), [])));
    assert ChunksFrom(Initial, [c]) == ChunksFrom(ChunkStep(Initial, c), []);
  }

  /** A new index whose fragment has no function raises. */
  lemma BareFragmentRaises(parse: string -> Object)
    ensures StreamEvents([Chunk(None, Some(Choice(None, None, [Fragment(0, "", None)])))], parse).1
  {
    var f := Fragment(0, "", None);
    assert FragmentsFrom(Initial, [f]) == FragmentsFrom(FragmentStep(Initial, f), []);
  }

  /** The non-streamed response: the message text when there is some, the finish reason and the usage. */
  datatype ApiResponse = ApiResponse(content: Option<string>, finishReason: Option<string>, usage: Option<ReportedUsage>, toolCalls: seq<ToolCall>)

  /**
   * `_non_stream_response`: one MESSAGE_COMPLETE; the parsed tool calls are not part
   * of it.  A usage without details raises.
   */
  function NonStreamResponse(r: ApiResponse): (e: Outcome<StreamEvent>)
    ensures e.Raised? <==> r.usage.Some? && r.usage.value.details.None?
    ensures e.Raised? ==> e.message == NoDetails
    ensures e.Ok? ==> e.value.MessageComplete? && e.value.usage == Converted(r.usage) && e.value.finishReason == r.finishReason
    ensures e.Ok? ==> (e.value.text.Some? <==> Present(r.content))
    ensures e.Ok? && e.value.text.Some? ==> e.value.text == r.content
  {
    if r.usage.Some? && r.usage.value.details.None? then Raised(NoDetails)
    else Ok(MessageComplete(if Present(r.content) then r.content else None, r.finishReason, Converted(r.usage)))
  }

  /** Two responses that differ only in their tool calls give the same event. */
  lemma NonStreamDropsToolCalls(r: ApiResponse, calls: seq<ToolCall>)
    ensures NonStreamResponse(r.(toolCalls := calls)) == NonStreamResponse(r)
  {
  }
}
