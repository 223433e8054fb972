/**
 * The `memory` tool: user-wide memories in `user_memory.json` (a JSON object whose `entries`
 * object maps keys to values) and project notes in the project's knowledge store.
 */
module Memory {
  import opened Common
  import opened Json
  import opened ToolBase
  import opened Sorting
  import Dict
  import Knowledge

  /** `{"entries": {}}`. */
  const EmptyMemory := JObj([("entries", JObj([]))])

  /**
   * `_load_memory`, given what reading and parsing `user_memory.json` gave: `None` when the
   * file does not exist, `Raised` when reading or parsing failed.
   */
  function Load(stored: Option<Outcome<Json>>): (m: Json)
    ensures stored.None? || stored.value.Raised? ==> m == EmptyMemory
    ensures stored.Some? && stored.value.Ok? ==> m == stored.value.value
  {
    match stored
    case None => EmptyMemory
    case Some(Raised(_)) => EmptyMemory
    case Some(Ok(m)) => m
  }

  /** `memory.get("entries", {})`: `AttributeError` when the memory is not an object. */
  function EntriesValue(memory: Json): (r: Outcome<Json>)
    ensures r.Ok? <==> memory.JObj?
    ensures memory.JObj? && "entries" !in Dict.Keys(memory.fields) ==> r == Ok(JObj([]))
  {
    if memory.JObj? then Ok(GetOr(memory.fields, "entries", JObj([])))
    else Raised("AttributeError: object has no attribute 'get'")
  }

  /**
   * Python's `key in entries`: a key of a dict, an element of a list, a substring of a str;
   * `TypeError` for anything else.
   */
  function Holds(entries: Json, key: string): (r: Outcome<bool>)
    ensures r.Ok? <==> Iterable(entries)
  {
    match entries
    case JObj(fields) => Ok(key in Dict.Keys(fields))
    case JArr(items) => Ok(JStr(key) in items)
    case JStr(s) => Ok(Contains(s, key))
    case _ => Raised("TypeError: argument of type is not iterable")
  }

  /** The values `in` works on here. */
  predicate Iterable(entries: Json) {
    entries.JObj? || entries.JArr? || entries.JStr?
  }

  /** `key in memory.get("entries", {})`. */
  function Lookup(memory: Json, key: string): (r: Outcome<bool>)
    ensures r.Ok? <==> memory.JObj? && Iterable(EntriesValue(memory).value)
    ensures memory.JObj? && "entries" !in Dict.Keys(memory.fields) ==> r == Ok(false)
    ensures r.Ok? && EntriesValue(memory).value.JObj? ==>
              r.value == (key in Dict.Keys(EntriesValue(memory).value.fields))
    ensures r.Ok? && EntriesValue(memory).value.JArr? ==> r.value == (JStr(key) in EntriesValue(memory).value.items)
    ensures r.Ok? && EntriesValue(memory).value.JStr? ==> r.value == Contains(EntriesValue(memory).value.s, key)
  {
    match EntriesValue(memory)
    case Raised(e) => Raised(e)
    case Ok(entries) => Holds(entries, key)
  }

  /**
   * `memory["entries"][key]`, for an object memory: the stored value, `KeyError` for a missing
   * key, `TypeError` when the entries are not a dict (a list or str wants an integer index).
   */
  function Subscript(memory: Json, key: string): (r: Outcome<Json>)
    requires memory.JObj?
    ensures r.Ok? <==> "entries" in Dict.Keys(memory.fields) && Dict.Get(memory.fields, "entries").value.JObj?
                       && key in Dict.Keys(Dict.Get(memory.fields, "entries").value.fields)
  {
    match Dict.Get(memory.fields, "entries")
    case None => Raised("KeyError: 'entries'")
    case Some(entries) =>
      if entries.JObj? then
        match Dict.Get(entries.fields, key)
        case None => Raised("KeyError: " + key)
        case Some(v) => Ok(v)
      else Raised("TypeError: indices must be integers")
  }

  /**
   * `memory["entries"][key] = value`: fails unless the memory is an object holding an
   * `entries` object (no default here, unlike the reads).
   */
  function SetEntry(memory: Json, key: string, value: string): (r: Outcome<Json>)
    ensures r.Ok? <==> memory.JObj? && "entries" in Dict.Keys(memory.fields)
                       && Dict.Get(memory.fields, "entries").value.JObj?
    ensures memory.JObj? && "entries" !in Dict.Keys(memory.fields) ==> r == Raised("KeyError: 'entries'")
  {
    if !memory.JObj? then Raised("TypeError: object is not subscriptable")
    else match Dict.Get(memory.fields, "entries")
      case None => Raised("KeyError: 'entries'")
      case Some(entries) =>
        if !entries.JObj? then Raised("TypeError: object does not support item assignment")
        else Ok(JObj(Dict.Put(memory.fields, "entries", JObj(Dict.Put(entries.fields, key, JStr(value))))))
  }

  /** `del memory["entries"][key]`, for a memory whose `entries` object holds `key`. */
  function DeleteEntry(memory: Json, key: string): Json
    requires memory.JObj? && EntriesValue(memory).value.JObj?
  {
    var entries := EntriesValue(memory).value;
    JObj(Dict.Put(memory.fields, "entries", JObj(Dict.Remove(entries.fields, key))))
  }

  /** `len(...)` of the entries value: defined for objects, lists and strings only. */
  function EntryCount(entries: Json): (r: Outcome<nat>)
    ensures entries.JObj? ==> r == Ok(|entries.fields|)
  {
    match entries
    case JObj(fields) => Ok(|fields|)
    case JArr(items) => Ok(|items|)
    case JStr(s) => Ok(|s|)
    case _ => Raised("TypeError: object has no len()")
  }

  /** `memory["entries"] = {}`. */
  function Cleared(memory: Json): (m: Json)
    requires memory.JObj?
  {
    JObj(Dict.Put(memory.fields, "entries", JObj([])))
  }

  // ---------------------------------------------------------------------
  // What a later read sees after a write

  /** After `set`, the key reads back as the value and every other key reads as before. */
  lemma SetThenLookup(memory: Json, key: string, value: string, other: string)
    requires SetEntry(memory, key, value).Ok?
    ensures Lookup(SetEntry(memory, key, value).value, key) == Ok(true)
    ensures Subscript(SetEntry(memory, key, value).value, key) == Ok(JStr(value))
    ensures other != key ==> Lookup(SetEntry(memory, key, value).value, other) == Lookup(memory, other)
    ensures other != key ==> Subscript(SetEntry(memory, key, value).value, other) == Subscript(memory, other)
  {
    var entries := Dict.Get(memory.fields, "entries").value;
    Dict.GetPut(memory.fields, "entries", JObj(Dict.Put(entries.fields, key, JStr(value))), "entries");
    Dict.GetPut(entries.fields, key, JStr(value), key);
    Dict.GetPut(entries.fields, key, JStr(value), other);
  }

  /** After `delete`, the key is gone and every other key reads as before. */
  lemma DeleteThenLookup(memory: Json, key: string, other: string)
    requires memory.JObj? && EntriesValue(memory).value.JObj? && Dict.DistinctKeys(EntriesValue(memory).value.fields)
    ensures Lookup(DeleteEntry(memory, key), key) == Ok(false)
    ensures other != key ==> Lookup(DeleteEntry(memory, key), other) == Lookup(memory, other)
  {
    var entries := EntriesValue(memory).value;
    Dict.GetPut(memory.fields, "entries", JObj(Dict.Remove(entries.fields, key)), "entries");
    Dict.GetRemove(entries.fields, key, key);
    Dict.GetRemove(entries.fields, key, other);
  }

  /** After `clear`, no key is found and the entries count is zero. */
  lemma ClearThenLookup(memory: Json, key: string)
    requires memory.JObj?
    ensures Lookup(Cleared(memory), key) == Ok(false)
    ensures EntriesValue(Cleared(memory)) == Ok(JObj([]))
  {
    Dict.GetPut(memory.fields, "entries", JObj([]), "entries");
  }

  // ---------------------------------------------------------------------
  // The listing

  /** The order of `sorted(entries.items())`: by key (keys of an object are distinct). */
  predicate KeyLe(a: (string, Json), b: (string, Json)) {
    StrLe(a.0, b.0)
  }

  function EntryLine(e: (string, Json), show: Json -> string): string {
    "  " + e.0 + ": " + show(e.1)
  }

  function EntryLines(entries: Object, show: Json -> string): (r: seq<string>)
    ensures |r| == |entries|
    ensures forall i :: 0 <= i < |entries| ==> r[i] == EntryLine(entries[i], show)
  {
    if entries == [] then [] else [EntryLine(entries[0], show)] + EntryLines(entries[1..], show)
  }

  function SortedEntries(entries: Object): (r: Object)
    ensures |r| == |entries|
  {
    var r := SortBy(entries, KeyLe);
    assert |multiset(r)| == |multiset(entries)|;
    r
  }

  /** The `list` output for an `entries` object that is not empty. */
  function Listing(entries: Object, show: Json -> string): string {
    Join(["Stored memories:"] + EntryLines(SortedEntries(entries), show), "\n")
  }

  /** The listing shows every entry exactly once, in increasing key order. */
  lemma ListingOrder(entries: Object)
    ensures multiset(SortedEntries(entries)) == multiset(entries)
    ensures forall i, j :: 0 <= i < j < |entries| ==> StrLe(SortedEntries(entries)[i].0, SortedEntries(entries)[j].0)
  {
    assert TotalPreorder(KeyLe) by {
      forall a, b ensures KeyLe(a, b) || KeyLe(b, a) {
        StrLeTotal(a.0, b.0);
      }
      forall a, b, c | KeyLe(a, b) && KeyLe(b, c) ensures KeyLe(a, c) {
        StrLeTrans(a.0, b.0, c.0);
      }
    }
    SortByCorrect(entries, KeyLe);
  }

  /** The `for key, value in sorted(...)` loop. */
  method ListEntries(sorted: Object, show: Json -> string) returns (lines: seq<string>)
    ensures lines == ["Stored memories:"] + EntryLines(sorted, show)
  {
    lines := ["Stored memories:"];
    var i := 0;
    while i < |sorted|
      invariant 0 <= i <= |sorted|
      invariant lines == ["Stored memories:"] + EntryLines(sorted[..i], show)
    {
      EntryLinesSnoc(sorted[..i], sorted[i], show);
      assert sorted[..i + 1] == sorted[..i] + [sorted[i]];
      lines := lines + [EntryLine(sorted[i], show)];
      i := i + 1;
    }
    assert sorted[..i] == sorted;
  }

  lemma EntryLinesSnoc(entries: Object, e: (string, Json), show: Json -> string)
    ensures EntryLines(entries + [e], show) == EntryLines(entries, show) + [EntryLine(e, show)]
  {
    var a, b := EntryLines(entries + [e], show), EntryLines(entries, show) + [EntryLine(e, show)];
    assert |a| == |b|;
    forall i | 0 <= i < |a| ensures a[i] == b[i] {
      if i < |entries| {
        assert (entries + [e])[i] == entries[i];
      }
    }
  }

  // ---------------------------------------------------------------------
  // `execute`

  /**
   * What one call does: the answer (`Raised` when an exception escapes), the memory saved to
   * `user_memory.json` if any, and the note added to the project store if any.
   */
  datatype Effect = Effect(result: Outcome<ToolResult>, saved: Option<Json>, note: Option<string>)

  function Answer(r: ToolResult): Effect {
    Effect(Ok(r), None, None)
  }

  function Escaped(message: string): Effect {
    Effect(Raised(message), None, None)
  }

  function Found(found: bool): Object {
    [("found", JBool(found))]
  }

  /**
   * `set`: both key and value are needed; the project scope adds the note "key: value" to the
   * project store, the user scope saves the memory with the entry set.
   */
  function SetAction(memory: Json, key: Option<string>, value: Option<string>, scope: string): (e: Effect)
    ensures !Present(key) || !Present(value) ==> e == Answer(ErrorResult("`key` and `value` are required for 'set' action"))
    ensures e.note.Some? <==> Present(key) && Present(value) && Lower(scope) == "project"
    ensures e.note.Some? ==> e.note.value == key.value + ": " + value.value && e.saved.None? && e.result.Ok?
    ensures e.saved.Some? <==>
              Present(key) && Present(value) && Lower(scope) != "project" && SetEntry(memory, key.value, value.value).Ok?
    ensures e.saved.Some? ==> e.saved.value == SetEntry(memory, key.value, value.value).value && e.result.Ok?
    ensures e.result.Ok? ==> (e.result.value.success <==> Present(key) && Present(value))
  {
    if !Present(key) || !Present(value) then Answer(ErrorResult("`key` and `value` are required for 'set' action"))
    else if Lower(scope) == "project" then
      Effect(Ok(SuccessResult("Set project memory: " + key.value)), None, Some(key.value + ": " + value.value))
    else match SetEntry(memory, key.value, value.value)
      case Raised(e) => Escaped(e)
      case Ok(m) => Effect(Ok(SuccessResult("Set user memory: " + key.value)), Some(m), None)
  }

  /**
   * `get`: never writes; a key that the entries do not hold is reported with `found` false,
   * a held key is read with `memory["entries"][key]`, which only a dict supports.
   */
  function GetAction(memory: Json, key: Option<string>, show: Json -> string): (e: Effect)
    ensures e.saved.None? && e.note.None?
    ensures !Present(key) ==> e == Answer(ErrorResult("`key` required for 'get' action"))
    ensures Present(key) && Lookup(memory, key.value) == Ok(false) ==>
              e == Answer(SuccessResult("Memory not found: " + key.value, metadata := Found(false)))
    ensures Present(key) && Lookup(memory, key.value) == Ok(true) ==>
              (e.result.Ok? <==> EntriesValue(memory).value.JObj?)
    ensures Present(key) && Lookup(memory, key.value).Raised? ==> e.result.Raised?
    ensures Present(key) && e.result.Ok? ==> e.result.value.success && e.result.value.metadata == Found(Lookup(memory, key.value).value)
  {
    if !Present(key) then Answer(ErrorResult("`key` required for 'get' action"))
    else match Lookup(memory, key.value)
      case Raised(e) => Escaped(e)
      case Ok(false) => Answer(SuccessResult("Memory not found: " + key.value, metadata := Found(false)))
      case Ok(true) =>
        match Subscript(memory, key.value)
        case Raised(e) => Escaped(e)
        case Ok(v) => Answer(SuccessResult("Memory found: " + key.value + ": " + show(v), metadata := Found(true)))
  }

  /**
   * `delete`: a key the entries do not hold is "Memory not found"; a held key is deleted and
   * the memory saved, which only a dict supports (its missing-key message names `get`).
   */
  function DeleteAction(memory: Json, key: Option<string>): (e: Effect)
    ensures e.note.None?
    ensures !Present(key) ==> e == Answer(ErrorResult("`key` required for 'get' action"))
    ensures Present(key) && Lookup(memory, key.value) == Ok(false) ==>
              e == Answer(SuccessResult("Memory not found: " + key.value))
    ensures e.saved.Some? <==> Present(key) && Lookup(memory, key.value) == Ok(true) && EntriesValue(memory).value.JObj?
    ensures e.saved.Some? ==> e.saved.value == DeleteEntry(memory, key.value) && e.result.Ok?
    ensures Present(key) && e.saved.None? && e.result.Ok? ==> Lookup(memory, key.value) == Ok(false)
  {
    if !Present(key) then Answer(ErrorResult("`key` required for 'get' action"))
    else match Lookup(memory, key.value)
      case Raised(e) => Escaped(e)
      case Ok(false) => Answer(SuccessResult("Memory not found: " + key.value))
      case Ok(true) =>
        if EntriesValue(memory).value.JObj? then
          Effect(Ok(SuccessResult("Deleted memory: " + key.value)), Some(DeleteEntry(memory, key.value)), None)
        else Escaped("TypeError: indices must be integers")
  }

  /** `list`: never writes; an empty (falsy) entries value is "No memories stored". */
  function ListAction(memory: Json, show: Json -> string): (e: Effect)
    ensures e.saved.None? && e.note.None?
    ensures EntriesValue(memory).Ok? && !Truthy(EntriesValue(memory).value) ==>
              e == Answer(SuccessResult("No memories stored", metadata := Found(false)))
    ensures EntriesValue(memory).Ok? && EntriesValue(memory).value.JObj? && Truthy(EntriesValue(memory).value) ==>
              e == Answer(SuccessResult(Listing(EntriesValue(memory).value.fields, show), metadata := Found(true)))
  {
    match EntriesValue(memory)
    case Raised(e) => Escaped(e)
    case Ok(entries) =>
      if !Truthy(entries) then Answer(SuccessResult("No memories stored", metadata := Found(false)))
      else if !entries.JObj? then Escaped("AttributeError: object has no attribute 'items'")
      else Answer(SuccessResult(Listing(entries.fields, show), metadata := Found(true)))
  }

  /** `clear`: counts the entries, then saves the memory with an empty `entries` object. */
  function ClearAction(memory: Json): (e: Effect)
    ensures e.note.None?
    ensures e.saved.Some? <==> memory.JObj? && EntryCount(EntriesValue(memory).value).Ok?
    ensures e.saved.Some? ==>
              (e.saved.value == Cleared(memory)
               && e.result == Ok(SuccessResult("Cleared " + NatToString(EntryCount(EntriesValue(memory).value).value) + " memory entries")))
  {
    match EntriesValue(memory)
    case Raised(e) => Escaped(e)
    case Ok(entries) =>
      match EntryCount(entries)
      case Raised(e) => Escaped(e)
      case Ok(count) =>
        Effect(Ok(SuccessResult("Cleared " + NatToString(count) + " memory entries")), Some(Cleared(memory)), None)
  }

  /**
   * `execute`: `set` and `get` (and the scope) match case-insensitively, `delete`, `list` and
   * `clear` only exactly. `show` is `str()` of a stored value.
   */
  function Run(stored: Option<Outcome<Json>>, action: string, key: Option<string>, value: Option<string>,
               scope: string, show: Json -> string): Effect
  {
    var memory := Load(stored);
    if Lower(action) == "set" then SetAction(memory, key, value, scope)
    else if Lower(action) == "get" then GetAction(memory, key, show)
    else if action == "delete" then DeleteAction(memory, key)
    else if action == "list" then ListAction(memory, show)
    else if action == "clear" then ClearAction(memory)
    else Answer(ErrorResult("Unknown action: " + action))
  }

  /** A `set` in user scope followed by a `get` of the same key finds the value just stored. */
  lemma SetThenGet(stored: Option<Outcome<Json>>, key: string, value: string, scope: string, show: Json -> string)
    requires Present(Some(key)) && Present(Some(value)) && Lower(scope) != "project"
    requires Run(stored, "set", Some(key), Some(value), scope, show).saved.Some?
    ensures var saved := Run(stored, "set", Some(key), Some(value), scope, show).saved.value;
      Run(Some(Ok(saved)), "get", Some(key), None, scope, show)
        == Answer(SuccessResult("Memory found: " + key + ": " + show(JStr(value)), metadata := Found(true)))
  {
    LowerSet();
    SetThenLookup(Load(stored), key, value, key);
  }

  /** A `delete` followed by a `get` of the same key no longer finds it. */
  lemma DeleteThenGet(stored: Option<Outcome<Json>>, key: string, scope: string, show: Json -> string)
    requires Present(Some(key))
    requires Run(stored, "delete", Some(key), None, scope, show).saved.Some?
    requires Dict.DistinctKeys(EntriesValue(Load(stored)).value.fields)
    ensures var saved := Run(stored, "delete", Some(key), None, scope, show).saved.value;
      Run(Some(Ok(saved)), "get", Some(key), None, scope, show)
        == Answer(SuccessResult("Memory not found: " + key, metadata := Found(false)))
  {
    LowerSet();
    LowerDelete();
    DeleteThenLookup(Load(stored), key, key);
  }

  /** A `clear` followed by `list` reports that nothing is stored. */
  lemma ClearThenList(stored: Option<Outcome<Json>>, scope: string, show: Json -> string)
    requires Run(stored, "clear", None, None, scope, show).saved.Some?
    ensures var saved := Run(stored, "clear", None, None, scope, show).saved.value;
      Run(Some(Ok(saved)), "list", None, None, scope, show)
        == Answer(SuccessResult("No memories stored", metadata := Found(false)))
  {
    LowerClear();
    ClearThenLookup(Load(stored), "");
  }

  lemma LowerSet()
    ensures Lower("set") == "set" && Lower("get") == "get"
  {
  }

  lemma LowerDelete()
    ensures Lower("delete") == "delete" && Lower("delete") != "set" && Lower("delete") != "get"
  {
  }

  lemma LowerClear()
    ensures Lower("clear") == "clear" && Lower("list") == "list"
  {
  }

  /** The tool over its memory file. */
  class MemoryFile {
    /** What reading and parsing `user_memory.json` gives. */
    var stored: Option<Outcome<Json>>

    constructor (stored0: Option<Outcome<Json>>)
      ensures stored == stored0
    {
      stored := stored0;
    }

    /** Carries out an effect: saves the memory it names. */
    method Save(e: Effect)
      modifies this`stored
      ensures stored == if e.saved.Some? then Some(Ok(e.saved.value)) else old(stored)
    {
      if e.saved.Some? {
        stored := Some(Ok(e.saved.value));
      }
    }

    /** `execute`; the project store is the one of the invocation's directory. */
    method Execute(action: string, key: Option<string>, value: Option<string>, scope: string,
                   project: Knowledge.ProjectKnowledge, show: Json -> string) returns (r: Outcome<ToolResult>)
      modifies this`stored, project`data, project`file
      ensures var e := Run(old(stored), action, key, value, scope, show);
        var added := if e.note.Some? then Knowledge.Added(old(project.data), e.note.value) else Ok(old(project.data));
        r == (if added.Raised? then Raised(added.message) else e.result)
        && stored == (if e.saved.Some? then Some(Ok(e.saved.value)) else old(stored))
        && project.data == (if added.Ok? then added.value else old(project.data))
        && (project.data == old(project.data) ==> project.file == old(project.file))
    {
      var memory := Load(stored);
      var e: Effect;
      if Lower(action) == "set" {
        e := SetAction(memory, key, value, scope);
        if e.note.Some? {
          var error := project.AddNote(e.note.value);
          if error.Some? {
            e := Escaped(error.value);
          }
        }
      } else if Lower(action) == "get" {
        e := GetAction(memory, key, show);
      } else if action == "delete" {
        e := DeleteAction(memory, key);
      } else if action == "list" {
        e := ListMemory(memory, show);
      } else if action == "clear" {
        e := ClearAction(memory);
      } else {
        e := Answer(ErrorResult("Unknown action: " + action));
      }
      Save(e);
      r := e.result;
    }
  }

  /** The `list` branch, listing the sorted entries with its loop. */
  method ListMemory(memory: Json, show: Json -> string) returns (e: Effect)
    ensures e == ListAction(memory, show)
  {
    var entries := EntriesValue(memory);
    if entries.Raised? {
      return Escaped(entries.message);
    }
    if !Truthy(entries.value) {
      return Answer(SuccessResult("No memories stored", metadata := Found(false)));
    }
    if !entries.value.JObj? {
      return Escaped("AttributeError: object has no attribute 'items'");
    }
    var lines := ListEntries(SortedEntries(entries.value.fields), show);
    e := Answer(SuccessResult(Join(lines, "\n"), metadata := Found(true)));
  }
}
