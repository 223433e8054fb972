/**
 * Saved sessions and checkpoints: the snapshot record, its dictionary form in both directions,
 * the listing of saved sessions and the checkpoint ids. A directory is a map from file names to
 * what `json.load` reads back from them; writing a file and reading it back gives the same value.
 */
module Persistence {
  import opened Common
  import opened Json
  import Dict
  import Time
  import Response
  import Sorting

  /** `SessionSnapshot`. */
  datatype SessionSnapshot = SessionSnapshot(
    sessionId: string,
    createdAt: Time.DateTime,
    updatedAt: Time.DateTime,
    turnCount: int,
    messages: seq<Object>,
    totalUsage: Response.TokenUsage)

  /** A snapshot whose moments `isoformat` can write and `fromisoformat` read back. */
  predicate Storable(s: SessionSnapshot) {
    Time.Valid(s.createdAt) && Time.Valid(s.updatedAt)
  }

  const SessionIdKey := "session_id"
  const CreatedAtKey := "created_at"
  const UpdatedAtKey := "updated_at"
  const TurnCountKey := "turn_count"
  const MessagesKey := "messages"
  const TotalUsageKey := "total_usage"

  const PromptKey := "prompt_tokens"
  const CompletionKey := "completion_tokens"
  const TotalKey := "total_tokens"
  const CachedKey := "cached_tokens"

  // ---------------------------------------------------------------------
  // Token usage as a dictionary

  /** `TokenUsage.__dict__`: its four fields in declaration order. */
  function UsageDict(u: Response.TokenUsage): (r: Object)
    ensures Dict.Keys(r) == [PromptKey, CompletionKey, TotalKey, CachedKey]
  {
    [(PromptKey, JInt(u.promptTokens)), (CompletionKey, JInt(u.completionTokens)),
     (TotalKey, JInt(u.totalTokens)), (CachedKey, JInt(u.cachedTokens))]
  }

  /** A usage field given as a keyword argument, or its default 0 when absent. */
  function UsageField(d: Object, key: string): Outcome<nat> {
    match Dict.Get(d, key)
    case None => Ok(0)
    case Some(v) => if v.JInt? && v.i >= 0 then Ok(v.i) else Raised("TypeError: " + key + " is not a token count")
  }

  /** `TokenUsage(**d)`: a key that is not a field is a `TypeError`. */
  function UsageFromDict(d: Object): (r: Outcome<Response.TokenUsage>)
    ensures r.Ok? ==> forall k :: k in Dict.Keys(d) ==> k in [PromptKey, CompletionKey, TotalKey, CachedKey]
  {
    if exists k :: k in Dict.Keys(d) && k !in [PromptKey, CompletionKey, TotalKey, CachedKey] then
      Raised("TypeError: unexpected keyword argument")
    else
      var p, c, t, k := UsageField(d, PromptKey), UsageField(d, CompletionKey), UsageField(d, TotalKey), UsageField(d, CachedKey);
      if p.Raised? then Raised(p.message)
      else if c.Raised? then Raised(c.message)
      else if t.Raised? then Raised(t.message)
      else if k.Raised? then Raised(k.message)
      else Ok(Response.TokenUsage(p.value, c.value, t.value, k.value))
  }

  /** The four field names are different. */
  lemma UsageKeysDistinct(d: Object)
    requires Dict.Keys(d) == [PromptKey, CompletionKey, TotalKey, CachedKey]
    ensures Dict.DistinctKeys(d)
  {
    assert PromptKey[0] == 'p' && CompletionKey[0] == 'c' && TotalKey[0] == 't' && CachedKey[0] == 'c';
    assert CompletionKey[1] == 'o' && CachedKey[1] == 'a';
    forall i, j | 0 <= i < j < |d| ensures d[i].0 != d[j].0 {
      assert Dict.Keys(d)[i] == d[i].0 && Dict.Keys(d)[j] == d[j].0;
    }
  }

  /** Building the usage back from its dictionary gives the same usage. */
  lemma UsageRoundTrip(u: Response.TokenUsage)
    ensures UsageFromDict(UsageDict(u)) == Ok(u)
  {
    var d := UsageDict(u);
    UsageKeysDistinct(d);
    assert UsageField(d, PromptKey) == Ok(u.promptTokens) by { Dict.GetAt(d, 0); }
    assert UsageField(d, CompletionKey) == Ok(u.completionTokens) by { Dict.GetAt(d, 1); }
    assert UsageField(d, TotalKey) == Ok(u.totalTokens) by { Dict.GetAt(d, 2); }
    assert UsageField(d, CachedKey) == Ok(u.cachedTokens) by { Dict.GetAt(d, 3); }
    assert forall k :: k in Dict.Keys(d) ==> k in [PromptKey, CompletionKey, TotalKey, CachedKey];
  }

  // ---------------------------------------------------------------------
  // Snapshots as dictionaries

  function MessagesJson(ms: seq<Object>): (r: seq<Json>)
    ensures |r| == |ms| && forall i :: 0 <= i < |ms| ==> r[i] == JObj(ms[i])
  {
    if ms == [] then [] else [JObj(ms[0])] + MessagesJson(ms[1..])
  }

  /** `to_dict`: six keys; the moments in `isoformat`, the usage as its field dictionary. */
  function ToDict(s: SessionSnapshot): (r: Object)
    requires Storable(s)
    ensures Dict.Keys(r) == [SessionIdKey, CreatedAtKey, UpdatedAtKey, TurnCountKey, MessagesKey, TotalUsageKey]
  {
    [(SessionIdKey, JStr(s.sessionId)),
     (CreatedAtKey, JStr(Time.IsoFormat(s.createdAt))),
     (UpdatedAtKey, JStr(Time.IsoFormat(s.updatedAt))),
     (TurnCountKey, JInt(s.turnCount)),
     (MessagesKey, JArr(MessagesJson(s.messages))),
     (TotalUsageKey, JObj(UsageDict(s.totalUsage)))]
  }

  /** `data[key]`: a `KeyError` when the key is absent. */
  function Item(data: Object, key: string): (r: Outcome<Json>)
    ensures r.Ok? <==> key in Dict.Keys(data)
  {
    match Dict.Get(data, key)
    case None => Raised("KeyError: " + key)
    case Some(v) => Ok(v)
  }

  /** `datetime.fromisoformat` applied to a value. */
  function Moment(j: Outcome<Json>): Outcome<Time.DateTime> {
    if j.Raised? then Raised(j.message)
    else if !j.value.JStr? then Raised("TypeError: fromisoformat: argument must be str")
    else match Time.FromIsoFormat(j.value.s)
      case None => Raised("ValueError: Invalid isoformat string")
      case Some(d) => Ok(d)
  }

  /** A list of message dictionaries. */
  function MessagesFromJson(items: seq<Json>): (r: Outcome<seq<Object>>)
    ensures r.Ok? ==> |r.value| == |items|
  {
    if items == [] then Ok([])
    else if !items[0].JObj? then Raised("TypeError: a message is not a dict")
    else
      var rest := MessagesFromJson(items[1..]);
      if rest.Raised? then rest else Ok([items[0].fields] + rest.value)
  }

  lemma {:induction false} MessagesRoundTrip(ms: seq<Object>)
    ensures MessagesFromJson(MessagesJson(ms)) == Ok(ms)
  {
    if ms != [] {
      var items := MessagesJson(ms);
      assert items[0] == JObj(ms[0]) && items[1..] == MessagesJson(ms[1..]);
      MessagesRoundTrip(ms[1..]);
      assert MessagesFromJson(items) == Ok([ms[0]] + ms[1..]);
      assert [ms[0]] + ms[1..] == ms;
    }
  }

  /**
   * `from_dict`: the six fields read in order, the first missing key or unreadable value
   * raising.
   */
  function FromDict(data: Object): (r: Outcome<SessionSnapshot>)
    ensures r.Ok? ==> SessionIdKey in Dict.Keys(data) && CreatedAtKey in Dict.Keys(data) && UpdatedAtKey in Dict.Keys(data)
                      && TurnCountKey in Dict.Keys(data) && MessagesKey in Dict.Keys(data) && TotalUsageKey in Dict.Keys(data)
  {
    var id := Item(data, SessionIdKey);
    var created := Moment(Item(data, CreatedAtKey));
    var updated := Moment(Item(data, UpdatedAtKey));
    var turns := Item(data, TurnCountKey);
    var messages := Item(data, MessagesKey);
    var usage := Item(data, TotalUsageKey);
    if id.Raised? then Raised(id.message)
    else if !id.value.JStr? then Raised("TypeError: session_id is not a str")
    else if created.Raised? then Raised(created.message)
    else if updated.Raised? then Raised(updated.message)
    else if turns.Raised? then Raised(turns.message)
    else if !turns.value.JInt? then Raised("TypeError: turn_count is not an int")
    else if messages.Raised? then Raised(messages.message)
    else if !messages.value.JArr? then Raised("TypeError: messages is not a list")
    else if usage.Raised? then Raised(usage.message)
    else if !usage.value.JObj? then Raised("TypeError: argument after ** must be a mapping")
    else
      var ms := MessagesFromJson(messages.value.items);
      var u := UsageFromDict(usage.value.fields);
      if ms.Raised? then Raised(ms.message)
      else if u.Raised? then Raised(u.message)
      else Ok(SessionSnapshot(id.value.s, created.value, updated.value, turns.value.i, ms.value, u.value))
  }

  /** Each key of `to_dict` holds the field it is named after. */
  lemma ToDictItems(s: SessionSnapshot)
    requires Storable(s)
    ensures var d := ToDict(s);
      Item(d, SessionIdKey) == Ok(JStr(s.sessionId))
      && Item(d, CreatedAtKey) == Ok(JStr(Time.IsoFormat(s.createdAt)))
      && Item(d, UpdatedAtKey) == Ok(JStr(Time.IsoFormat(s.updatedAt)))
      && Item(d, TurnCountKey) == Ok(JInt(s.turnCount))
      && Item(d, MessagesKey) == Ok(JArr(MessagesJson(s.messages)))
      && Item(d, TotalUsageKey) == Ok(JObj(UsageDict(s.totalUsage)))
  {
    var d := ToDict(s);
    SnapshotKeysDistinct(d);
    Dict.GetAt(d, 0);
    Dict.GetAt(d, 1);
    Dict.GetAt(d, 2);
    Dict.GetAt(d, 3);
    Dict.GetAt(d, 4);
    Dict.GetAt(d, 5);
  }

  /** The six keys of `to_dict` are different. */
  lemma SnapshotKeysDistinct(d: Object)
    requires Dict.Keys(d) == [SessionIdKey, CreatedAtKey, UpdatedAtKey, TurnCountKey, MessagesKey, TotalUsageKey]
    ensures Dict.DistinctKeys(d)
  {
    assert SessionIdKey[0] == 's' && CreatedAtKey[0] == 'c' && UpdatedAtKey[0] == 'u';
    assert TurnCountKey[0] == 't' && MessagesKey[0] == 'm' && TotalUsageKey[0] == 't';
    assert TurnCountKey[1] == 'u' && TotalUsageKey[1] == 'o';
    forall i, j | 0 <= i < j < |d| ensures d[i].0 != d[j].0 {
      assert Dict.Keys(d)[i] == d[i].0 && Dict.Keys(d)[j] == d[j].0;
    }
  }

  /** `from_dict(to_dict(s))` gives `s` back. */
  lemma DictRoundTrip(s: SessionSnapshot)
    requires Storable(s)
    ensures FromDict(ToDict(s)) == Ok(s)
  {
    ToDictItems(s);
    Time.IsoRoundTrip(s.createdAt);
    Time.IsoRoundTrip(s.updatedAt);
    MessagesRoundTrip(s.messages);
    UsageRoundTrip(s.totalUsage);
  }

  // ---------------------------------------------------------------------
  // Directories

  /** What a file of the directory holds: a JSON value, or text `json.load` rejects. */
  datatype File = JsonFile(content: Json) | Unparsable

  /** A directory: file names to file contents. */
  type Dir = map<string, File>

  function FileName(id: string): string {
    id + ".json"
  }

  /** Different ids name different files. */
  lemma FileNameInjective(a: string, b: string)
    requires FileName(a) == FileName(b)
    ensures a == b
  {
    assert a == FileName(a)[..|a|];
    assert b == FileName(b)[..|b|];
  }

  /** `save_session` (and the write of `save_checkpoint`): the snapshot's dictionary under `<id>.json`. */
  function Save(dir: Dir, id: string, s: SessionSnapshot): Dir
    requires Storable(s)
  {
    dir[FileName(id) := JsonFile(JObj(ToDict(s)))]
  }

  /**
   * `load_session` and `load_checkpoint`: nothing when `<id>.json` does not exist, otherwise the
   * snapshot `from_dict` reads from it.
   */
  function Load(dir: Dir, id: string): (r: Outcome<Option<SessionSnapshot>>)
    ensures FileName(id) !in dir ==> r == Ok(None)
    ensures r.Ok? && r.value.Some? ==> dir[FileName(id)].JsonFile? && dir[FileName(id)].content.JObj?
                                        && FromDict(dir[FileName(id)].content.fields) == Ok(r.value.value)
  {
    var name := FileName(id);
    if name !in dir then Ok(None)
    else match dir[name]
      case Unparsable => Raised("JSONDecodeError")
      case JsonFile(j) =>
        if !j.JObj? then Raised("TypeError: the file does not hold a dict")
        else match FromDict(j.fields)
          case Raised(e) => Raised(e)
          case Ok(s) => Ok(Some(s))
  }

  /** A saved session loads back as it was saved, and saving touches no other file. */
  lemma SaveLoad(dir: Dir, s: SessionSnapshot, id: string)
    requires Storable(s)
    ensures Load(Save(dir, s.sessionId, s), s.sessionId) == Ok(Some(s))
    ensures id != s.sessionId ==> Load(Save(dir, s.sessionId, s), id) == Load(dir, id)
  {
    DictRoundTrip(s);
    LoadFile(Save(dir, s.sessionId, s), s.sessionId, ToDict(s), s);
    if id != s.sessionId {
      SaveOther(dir, s, id);
    }
  }

  /** A file holding a dictionary that `from_dict` reads loads as that snapshot. */
  lemma LoadFile(dir: Dir, id: string, d: Object, s: SessionSnapshot)
    requires FileName(id) in dir && dir[FileName(id)] == JsonFile(JObj(d)) && FromDict(d) == Ok(s)
    ensures Load(dir, id) == Ok(Some(s))
  {
  }

  /** Saving one session leaves the file of every other id as it was. */
  lemma SaveOther(dir: Dir, s: SessionSnapshot, id: string)
    requires Storable(s) && id != s.sessionId
    ensures Load(Save(dir, s.sessionId, s), id) == Load(dir, id)
  {
    if FileName(id) == FileName(s.sessionId) {
      FileNameInjective(id, s.sessionId);
    }
    var after := Save(dir, s.sessionId, s);
    assert FileName(id) in after <==> FileName(id) in dir;
    assert FileName(id) in dir ==> after[FileName(id)] == dir[FileName(id)];
  }

  // ---------------------------------------------------------------------
  // Listing saved sessions

  /** The summary `list_sessions` makes of one file. */
  function Summary(f: File): (r: Outcome<Object>)
    ensures r.Ok? ==> Dict.Keys(r.value) == [SessionIdKey, CreatedAtKey, UpdatedAtKey, TurnCountKey]
  {
    if f.Unparsable? then Raised("JSONDecodeError")
    else if !f.content.JObj? then Raised("TypeError: the file does not hold a dict")
    else
      var d := f.content.fields;
      var id, c, u, t := Item(d, SessionIdKey), Item(d, CreatedAtKey), Item(d, UpdatedAtKey), Item(d, TurnCountKey);
      if id.Raised? then Raised(id.message)
      else if c.Raised? then Raised(c.message)
      else if u.Raised? then Raised(u.message)
      else if t.Raised? then Raised(t.message)
      else Ok([(SessionIdKey, id.value), (CreatedAtKey, c.value), (UpdatedAtKey, u.value), (TurnCountKey, t.value)])
  }

  /** The summaries of the files, in the order the directory listing gives them. */
  function Summaries(files: seq<File>): (r: Outcome<seq<Object>>)
    ensures r.Ok? ==> |r.value| == |files| && forall i :: 0 <= i < |files| ==> Summary(files[i]) == Ok(r.value[i])
  {
    if files == [] then Ok([])
    else
      var first := Summary(files[0]);
      var rest := Summaries(files[1..]);
      if first.Raised? then Raised(first.message)
      else if rest.Raised? then rest
      else Ok([first.value] + rest.value)
  }

  /** The `updated_at` text of a summary. */
  function UpdatedAt(o: Object): string {
    var v := Dict.Get(o, UpdatedAtKey);
    if v.Some? && v.value.JStr? then v.value.s else ""
  }

  predicate HasUpdatedText(o: Object) {
    var v := Dict.Get(o, UpdatedAtKey);
    v.Some? && v.value.JStr?
  }

  /** Later `updated_at` first: one summary may precede another when its text is not smaller. */
  predicate NewerFirst(a: Object, b: Object) {
    Sorting.StrLe(UpdatedAt(b), UpdatedAt(a))
  }

  /**
   * `list_sessions`, given the files of the sessions directory in listing order: their
   * summaries, sorted by `updated_at` from the latest on. Texts are compared as Python compares
   * `str`; a summary whose `updated_at` is not a text is rejected.
   */
  function ListSessions(files: seq<File>): Outcome<seq<Object>> {
    var sums := Summaries(files);
    if sums.Raised? then sums
    else if exists o :: o in sums.value && !HasUpdatedText(o) then Raised("TypeError: '<' not supported")
    else Ok(Sorting.SortBy(sums.value, NewerFirst))
  }

  /** Newest-first is a total preorder. */
  lemma NewerFirstPreorder()
    ensures Sorting.TotalPreorder(NewerFirst)
  {
    forall a: Object, b: Object ensures NewerFirst(a, b) || NewerFirst(b, a) {
      Sorting.StrLeTotal(UpdatedAt(a), UpdatedAt(b));
    }
    forall a: Object, b: Object, c: Object | NewerFirst(a, b) && NewerFirst(b, c) ensures NewerFirst(a, c) {
      Sorting.StrLeTrans(UpdatedAt(c), UpdatedAt(b), UpdatedAt(a));
    }
  }

  /**
   * The listing holds exactly the files' summaries, each with its four keys, ordered by
   * `updated_at` from the latest to the earliest.
   */
  lemma ListSessionsSorted(files: seq<File>)
    requires ListSessions(files).Ok?
    ensures var r := ListSessions(files).value;
      multiset(r) == multiset(Summaries(files).value)
      && (forall i, j :: 0 <= i < j < |r| ==> Sorting.StrLe(UpdatedAt(r[j]), UpdatedAt(r[i])))
      && forall i :: 0 <= i < |r| ==> Dict.Keys(r[i]) == [SessionIdKey, CreatedAtKey, UpdatedAtKey, TurnCountKey]
  {
    var sums := Summaries(files).value;
    var r := Sorting.SortBy(sums, NewerFirst);
    assert ListSessions(files).value == r;
    SortedNewestFirst(sums);
    SummariesKeys(files, sums, r);
  }

  lemma SortedNewestFirst(sums: seq<Object>)
    ensures var r := Sorting.SortBy(sums, NewerFirst);
      multiset(r) == multiset(sums) && forall i, j :: 0 <= i < j < |r| ==> Sorting.StrLe(UpdatedAt(r[j]), UpdatedAt(r[i]))
  {
    var r := Sorting.SortBy(sums, NewerFirst);
    NewerFirstPreorder();
    Sorting.SortByCorrect(sums, NewerFirst);
    forall i, j | 0 <= i < j < |r| ensures Sorting.StrLe(UpdatedAt(r[j]), UpdatedAt(r[i])) {
      assert NewerFirst(r[i], r[j]);
    }
  }

  /** Every summary, in whatever order, has the four keys. */
  lemma SummariesKeys(files: seq<File>, sums: seq<Object>, r: seq<Object>)
    requires Summaries(files) == Ok(sums) && multiset(r) == multiset(sums)
    ensures forall i :: 0 <= i < |r| ==> Dict.Keys(r[i]) == [SessionIdKey, CreatedAtKey, UpdatedAtKey, TurnCountKey]
  {
    forall i | 0 <= i < |r| ensures Dict.Keys(r[i]) == [SessionIdKey, CreatedAtKey, UpdatedAtKey, TurnCountKey] {
      assert r[i] in multiset(sums);
      var k :| 0 <= k < |sums| && sums[k] == r[i];
      SummaryKeys(files[k]);
    }
  }

  lemma SummaryKeys(f: File)
    requires Summary(f).Ok?
    ensures Dict.Keys(Summary(f).value) == [SessionIdKey, CreatedAtKey, UpdatedAtKey, TurnCountKey]
  {
  }

  // ---------------------------------------------------------------------
  // Checkpoints

  /** `strftime("%Y%m%d_%H%M%S")`. */
  function Stamp(now: Time.DateTime): (r: string)
    requires Time.Valid(now)
    ensures |r| == 15
  {
    Time.Pow10Values();
    Time.Pad(now.year, 4) + Time.Pad(now.month, 2) + Time.Pad(now.day, 2) + "_"
    + Time.Pad(now.hour, 2) + Time.Pad(now.minute, 2) + Time.Pad(now.second, 2)
  }

  /** Reading a `%Y%m%d_%H%M%S` stamp: the moment it names, to the second. */
  function ParseStamp(t: string): Option<Time.DateTime> {
    if |t| != 15 || t[8] != '_' then None
    else
      var y, mo, d := Time.Field(t, 0, 4), Time.Field(t, 4, 6), Time.Field(t, 6, 8);
      var h, mi, s := Time.Field(t, 9, 11), Time.Field(t, 11, 13), Time.Field(t, 13, 15);
      if y.None? || mo.None? || d.None? || h.None? || mi.None? || s.None? then None
      else Some(Time.DateTime(y.value, mo.value, d.value, h.value, mi.value, s.value, 0))
  }

  /** The stamp names the moment it was made from, down to the second. */
  lemma StampRoundTrip(now: Time.DateTime)
    requires Time.Valid(now)
    ensures ParseStamp(Stamp(now)) == Some(now.(microsecond := 0))
  {
    Time.Pow10Values();
    var t := Stamp(now);
    var date := Time.Pad(now.year, 4) + Time.Pad(now.month, 2) + Time.Pad(now.day, 2);
    var time := Time.Pad(now.hour, 2) + Time.Pad(now.minute, 2) + Time.Pad(now.second, 2);
    assert t == date + "_" + time;
    StampFields(t, 0, date, now.year, now.month, now.day);
    StampFields(t, 9, time, now.hour, now.minute, now.second);
  }

  /** Three fields of four, two and two digits (or three of two) read back from where they were written. */
  lemma StampFields(t: string, at: nat, part: string, a: nat, b: nat, c: nat)
    requires at == 0 || at == 9
    requires a < Time.Pow10(if at == 0 then 4 else 2) && b < 100 && c < 100
    requires Time.Pow10(2) == 100
    requires part == Time.Pad(a, if at == 0 then 4 else 2) + Time.Pad(b, 2) + Time.Pad(c, 2)
    requires at + |part| <= |t| && t[at..at + |part|] == part
    ensures var w := if at == 0 then 4 else 2;
      Time.Field(t, at, at + w) == Some(a) && Time.Field(t, at + w, at + w + 2) == Some(b)
      && Time.Field(t, at + w + 2, at + w + 4) == Some(c)
  {
    var w := if at == 0 then 4 else 2;
    var x, y, z := Time.Pad(a, w), Time.Pad(b, 2), Time.Pad(c, 2);
    assert part == x + y + z;
    assert part[0..w] == x && part[w..w + 2] == y && part[w + 2..w + 4] == z;
    SubSlice(t, at, part, 0, w);
    SubSlice(t, at, part, w, w + 2);
    SubSlice(t, at, part, w + 2, w + 4);
    Time.FieldOfPad(t, at, a, w);
    Time.FieldOfPad(t, at + w, b, 2);
    Time.FieldOfPad(t, at + w + 2, c, 2);
  }

  /** A slice of a part written into `t` at `at` is read back from the same place. */
  lemma SubSlice(t: string, at: nat, part: string, i: nat, j: nat)
    requires at + |part| <= |t| && t[at..at + |part|] == part && i <= j <= |part|
    ensures t[at + i..at + j] == part[i..j]
  {
    forall k | 0 <= k < j - i
      ensures t[at + i..at + j][k] == part[i..j][k]
    {
      assert t[at..at + |part|][i + k] == t[at + i + k];
    }
  }

  /** The checkpoint id: the session id, `_`, and the stamp of the moment it was made. */
  function CheckpointId(s: SessionSnapshot, now: Time.DateTime): (r: string)
    requires Time.Valid(now)
    ensures |r| == |s.sessionId| + 16 && r[..|s.sessionId|] == s.sessionId && r[|s.sessionId|] == '_'
    ensures r[|s.sessionId| + 1..] == Stamp(now)
  {
    var r := s.sessionId + "_" + Stamp(now);
    assert r[|s.sessionId| + 1..] == Stamp(now);
    r
  }

  /** The part of a checkpoint id after the session id and `_` names the moment, to the second. */
  lemma CheckpointIdStamp(s: SessionSnapshot, now: Time.DateTime)
    requires Time.Valid(now)
    ensures ParseStamp(CheckpointId(s, now)[|s.sessionId| + 1..]) == Some(now.(microsecond := 0))
  {
    StampRoundTrip(now);
  }

  /** `save_checkpoint`, with `now` the wall clock: the id and the checkpoints directory after the write. */
  function SaveCheckpoint(dir: Dir, s: SessionSnapshot, now: Time.DateTime): (string, Dir)
    requires Storable(s) && Time.Valid(now)
  {
    var id := CheckpointId(s, now);
    (id, Save(dir, id, s))
  }

  /** A checkpoint loads back under the id `save_checkpoint` returned. */
  lemma CheckpointLoad(dir: Dir, s: SessionSnapshot, now: Time.DateTime)
    requires Storable(s) && Time.Valid(now)
    ensures var (id, dir') := SaveCheckpoint(dir, s, now); Load(dir', id) == Ok(Some(s))
  {
    DictRoundTrip(s);
  }
}
