/** The per-project knowledge store: a list of notes kept in `knowledge.json`. */
module Knowledge {
  import opened Common
  import opened Json
  import Dict

  const NotesHeader := "### Project-specific Notes & Decisions"

  /** What `knowledge.json` holds: nothing, something that cannot be read or parsed, or a parsed value. */
  datatype KnowledgeFile = Missing | Unreadable | Stored(data: Json)

  /** `{"decisions": {}, "conventions": [], "notes": []}`. */
  const Default := JObj([("decisions", JObj([])), ("conventions", JArr([])), ("notes", JArr([]))])

  /** `_load`: the parsed value, or the empty default when the file is missing or unreadable. */
  function Load(f: KnowledgeFile): (r: Json)
    ensures !f.Stored? ==> Notes(r) == Ok(JArr([]))
    ensures f.Stored? ==> r == f.data
  {
    if f.Stored? then f.data else Default
  }

  /** `self.data["notes"]`: `KeyError` for an object without notes, `TypeError` for a value that is not one. */
  function Notes(data: Json): (r: Outcome<Json>)
    ensures r.Ok? <==> data.JObj? && "notes" in Dict.Keys(data.fields)
  {
    if !data.JObj? then Raised("TypeError: indices must be integers")
    else match Dict.Get(data.fields, "notes")
      case None => Raised("KeyError: 'notes'")
      case Some(n) => Ok(n)
  }

  /** The notes after `add_note(note)`: appended only when absent. */
  function WithNote(notes: seq<Json>, note: Json): (r: seq<Json>)
    ensures note in r
    ensures forall n :: n in r <==> n in notes || n == note
  {
    if note in notes then notes else notes + [note]
  }

  /**
   * `add_note(note)` on the loaded data: the data with the note appended to its notes list, the
   * data itself when the note is already there (`in` on a dict tests keys, on a str substrings),
   * or the exception: a missing "notes" key, or a notes value without `append`.
   */
  function Added(data: Json, note: string): (r: Outcome<Json>)
    ensures Notes(data).Ok? && Notes(data).value.JArr? ==>
              r.Ok? && Notes(r.value) == Ok(JArr(WithNote(Notes(data).value.items, JStr(note))))
    ensures r.Ok? ==> Notes(data).Ok? && Notes(r.value).Ok?
  {
    match Notes(data)
    case Raised(e) => Raised(e)
    case Ok(notes) =>
      match notes
      case JArr(items) =>
        if JStr(note) in items then Ok(data)
        else
          Dict.GetPut(data.fields, "notes", JArr(items + [JStr(note)]), "notes");
          Ok(JObj(Dict.Put(data.fields, "notes", JArr(items + [JStr(note)]))))
      case JObj(fields) =>
        if note in Dict.Keys(fields) then Ok(data) else Raised("AttributeError: 'dict' object has no attribute 'append'")
      case JStr(s) =>
        if Contains(s, note) then Ok(data) else Raised("AttributeError: 'str' object has no attribute 'append'")
      case _ => Raised("TypeError: argument of type is not iterable")
  }

  predicate Distinct(notes: seq<Json>) {
    forall i, j :: 0 <= i < j < |notes| ==> notes[i] != notes[j]
  }

  /**
   * Adding a note never creates a duplicate, keeps the earlier notes first in their order,
   * and adding the same note again changes nothing.
   */
  lemma WithNoteProperties(notes: seq<Json>, note: Json)
    ensures Distinct(notes) ==> Distinct(WithNote(notes, note))
    ensures var r := WithNote(notes, note); |notes| <= |r| && r[..|notes|] == notes
    ensures WithNote(WithNote(notes, note), note) == WithNote(notes, note)
  {
    var r := WithNote(notes, note);
    if note !in notes && Distinct(notes) {
      forall i, j | 0 <= i < j < |r| ensures r[i] != r[j] {
        if j == |notes| {
          assert r[i] == notes[i];
        }
      }
    }
  }

  /** The bullet line of one note. */
  function Bullet(note: string): string {
    "- " + note
  }

  function Bullets(notes: seq<string>): (r: seq<string>)
    ensures |r| == |notes|
    ensures forall i :: 0 <= i < |notes| ==> r[i] == Bullet(notes[i])
  {
    if notes == [] then [] else [Bullet(notes[0])] + Bullets(notes[1..])
  }

  /** `get_formatted_knowledge`: the header and one bullet per note, or `None` without notes. */
  function FormatNotes(notes: seq<string>): (r: Option<string>)
    ensures r.None? <==> notes == []
  {
    if notes == [] then None else Some(Headed(NotesHeader, notes))
  }

  /** A header line followed by one bullet line per note. */
  function Headed(header: string, notes: seq<string>): string {
    Join([header] + Bullets(notes), "\n")
  }

  /** Notes without line breaks come back, line by line, after the header. */
  lemma FormatNotesLines(notes: seq<string>)
    requires notes != [] && forall i :: 0 <= i < |notes| ==> NoNewline(notes[i])
    ensures SplitLines(FormatNotes(notes).value) == [NotesHeader] + Bullets(notes)
  {
    FormattedHeaded(notes);
    HeaderLines(notes);
  }

  lemma HeaderLines(notes: seq<string>)
    requires forall i :: 0 <= i < |notes| ==> NoNewline(notes[i])
    ensures SplitLines(Headed(NotesHeader, notes)) == [NotesHeader] + Bullets(notes)
  {
    HeaderNoNewline();
    HeadedLines(NotesHeader, notes);
  }

  lemma FormattedHeaded(notes: seq<string>)
    requires notes != []
    ensures FormatNotes(notes).value == Headed(NotesHeader, notes)
  {
  }

  lemma NoNewlineOf(s: string)
    requires '\n' !in s
    ensures NoNewline(s)
  {
    assert forall j :: 0 <= j < |s| ==> s[j] in s;
  }

  lemma HeadedLines(header: string, notes: seq<string>)
    requires NoNewline(header) && header != []
    requires forall i :: 0 <= i < |notes| ==> NoNewline(notes[i])
    ensures SplitLines(Headed(header, notes)) == [header] + Bullets(notes)
  {
    var lines := [header] + Bullets(notes);
    forall k | 0 <= k < |lines| ensures NoNewline(lines[k]) {
      if k > 0 {
        BulletNoNewline(notes[k - 1]);
      }
    }
    if notes != [] {
      BulletNoNewline(notes[|notes| - 1]);
    }
    SplitLinesOfJoin(lines);
  }

  lemma HeaderNoNewline()
    ensures NoNewline(NotesHeader) && NotesHeader != []
  {
    NoNewlineOf(NotesHeader);
  }

  lemma BulletNoNewline(note: string)
    requires NoNewline(note)
    ensures NoNewline(Bullet(note)) && Bullet(note) != []
  {
    var b := Bullet(note);
    forall j | 0 <= j < |b| ensures b[j] != '\n' {
      if j >= 2 {
        assert b[j] == note[j - 2];
      }
    }
  }

  /** The text `f"{note}"` gives a note: the string itself, `str()` of anything else. */
  function Text(note: Json, show: Json -> string): string {
    if note.JStr? then note.s else show(note)
  }

  function Texts(items: seq<Json>, show: Json -> string): (r: seq<string>)
    ensures |r| == |items|
    ensures forall i :: 0 <= i < |items| ==> r[i] == Text(items[i], show)
  {
    if items == [] then [] else [Text(items[0], show)] + Texts(items[1..], show)
  }

  /** The one-character strings of a str. */
  function Chars(s: string): (r: seq<string>)
    ensures |r| == |s| && forall i :: 0 <= i < |s| ==> r[i] == [s[i]]
  {
    if s == [] then [] else [[s[0]]] + Chars(s[1..])
  }

  /**
   * What `for note in notes` renders: the items of a list, the keys of a dict, the characters
   * of a str; `TypeError` for anything else.
   */
  function NoteTexts(notes: Json, show: Json -> string): (r: Outcome<seq<string>>)
    ensures r.Ok? <==> notes.JArr? || notes.JObj? || notes.JStr?
    ensures r.Ok? && Truthy(notes) ==> r.value != []
  {
    match notes
    case JArr(items) => Ok(Texts(items, show))
    case JObj(fields) => Ok(Dict.Keys(fields))
    case JStr(s) => Ok(Chars(s))
    case _ => Raised("TypeError: object is not iterable")
  }

  /**
   * `get_formatted_knowledge` of the loaded data: `None` for falsy notes, otherwise the header
   * and one bullet per note; the exceptions of a missing or non-iterable notes value.
   */
  function Formatted(data: Json, show: Json -> string): (r: Outcome<Option<string>>)
    ensures Notes(data).Raised? ==> r.Raised?
    ensures Notes(data).Ok? && Notes(data).value.JArr? ==> r == Ok(FormatNotes(Texts(Notes(data).value.items, show)))
    ensures r.Ok? && r.value.Some? ==> Notes(data).Ok? && Truthy(Notes(data).value)
  {
    match Notes(data)
    case Raised(e) => Raised(e)
    case Ok(notes) =>
      if !Truthy(notes) then Ok(None)
      else match NoteTexts(notes, show)
        case Raised(e) => Raised(e)
        case Ok(texts) => Ok(FormatNotes(texts))
  }

  /** After `add_note` on a notes list, the formatted knowledge lists the note, once. */
  lemma AddedListed(data: Json, note: string, show: Json -> string)
    requires Notes(data).Ok? && Notes(data).value.JArr?
    ensures var notes := WithNote(Notes(data).value.items, JStr(note));
      Formatted(Added(data, note).value, show) == Ok(FormatNotes(Texts(notes, show)))
      && Bullet(note) in Bullets(Texts(notes, show))
  {
    var notes := WithNote(Notes(data).value.items, JStr(note));
    var k :| 0 <= k < |notes| && notes[k] == JStr(note);
    assert Bullets(Texts(notes, show))[k] == Bullet(note);
  }

  class ProjectKnowledge {
    /** The loaded `self.data`. */
    var data: Json
    var file: KnowledgeFile
    /** Whether `save` can write the file; a failed write is logged and swallowed. */
    const writable: bool

    /** The store of one project, loaded from its file. */
    constructor (file0: KnowledgeFile, writable0: bool)
      ensures data == Load(file0) && file == file0 && writable == writable0
    {
      data := Load(file0);
      file := file0;
      writable := writable0;
    }

    /**
     * `add_note`: appends an absent note and saves; a present note changes nothing and saves
     * nothing; `error` is the exception `Added` names, with nothing changed.
     */
    method AddNote(note: string) returns (error: Option<string>)
      modifies this`data, this`file
      ensures error.Some? <==> Added(old(data), note).Raised?
      ensures error.Some? ==> error.value == Added(old(data), note).message
      ensures data == if error.None? then Added(old(data), note).value else old(data)
      ensures file == if data != old(data) && writable then Stored(data) else old(file)
    {
      var notes := Notes(data);
      if notes.Raised? {
        error := Some(notes.message);
      } else if notes.value.JArr? {
        error := None;
        if JStr(note) !in notes.value.items {
          data := JObj(Dict.Put(data.fields, "notes", JArr(notes.value.items + [JStr(note)])));
          if writable {
            file := Stored(data);
          }
        }
      } else {
        var a := Added(data, note);
        error := if a.Raised? then Some(a.message) else None;
      }
    }

    /** `get_formatted_knowledge`, building the lines one note at a time. */
    method FormatKnowledge(show: Json -> string) returns (r: Outcome<Option<string>>)
      ensures r == Formatted(data, show)
    {
      var notes := Notes(data);
      if notes.Raised? {
        r := Raised(notes.message);
      } else if !Truthy(notes.value) {
        r := Ok(None);
      } else {
        var texts := NoteTexts(notes.value, show);
        if texts.Raised? {
          r := Raised(texts.message);
        } else {
          var lines := texts.value;
          var sections: seq<string> := [NotesHeader];
          var i := 0;
          while i < |lines|
            invariant 0 <= i <= |lines|
            invariant sections == [NotesHeader] + Bullets(lines[..i])
          {
            assert lines[..i + 1] == lines[..i] + [lines[i]];
            BulletsSnoc(lines[..i], lines[i]);
            sections := sections + [Bullet(lines[i])];
            i := i + 1;
          }
          assert lines[..i] == lines;
          r := Ok(Some(Join(sections, "\n")));
        }
      }
    }
  }

  lemma BulletsSnoc(notes: seq<string>, note: string)
    ensures Bullets(notes + [note]) == Bullets(notes) + [Bullet(note)]
  {
    var a, b := Bullets(notes + [note]), Bullets(notes) + [Bullet(note)];
    assert |a| == |b|;
    forall i | 0 <= i < |a| ensures a[i] == b[i] {
      if i < |notes| {
        assert (notes + [note])[i] == notes[i];
      }
    }
  }
}
