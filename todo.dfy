/** The `todos` tool: a session task list kept in a dictionary from short ids to contents. */
module Todo {
  import opened Common
  import opened ToolBase
  import Dict

  type Todos = seq<(string, string)>

  /** One line of the listing. */
  function TodoLine(e: (string, string)): string {
    "  [" + e.0 + "] " + e.1
  }

  function TodoLines(todos: Todos): (r: seq<string>)
    ensures |r| == |todos|
    ensures forall i :: 0 <= i < |todos| ==> r[i] == TodoLine(todos[i])
  {
    if todos == [] then [] else [TodoLine(todos[0])] + TodoLines(todos[1..])
  }

  /** The `list` output: "No todos", or a "Todos:" line then one line per entry in insertion order. */
  function Listing(todos: Todos): (r: string)
    ensures todos == [] ==> r == "No todos"
  {
    if todos == [] then "No todos" else Titled("Todos:", todos)
  }

  /** A title line followed by one line per entry. */
  function Titled(title: string, todos: Todos): string {
    Join([title] + TodoLines(todos), "\n")
  }

  /** Entries without line breaks come back from the listing one per line, after the title. */
  lemma ListingLines(todos: Todos)
    requires todos != []
    requires forall i :: 0 <= i < |todos| ==> NoNewline(todos[i].0) && NoNewline(todos[i].1)
    ensures SplitLines(Listing(todos)) == ["Todos:"] + TodoLines(todos)
  {
    TitleNoNewline();
    TitledLines("Todos:", todos);
  }

  lemma TitleNoNewline()
    ensures NoNewline("Todos:")
  {
  }

  lemma TitledLines(title: string, todos: Todos)
    requires NoNewline(title) && title != [] && todos != []
    requires forall i :: 0 <= i < |todos| ==> NoNewline(todos[i].0) && NoNewline(todos[i].1)
    ensures SplitLines(Titled(title, todos)) == [title] + TodoLines(todos)
  {
    var lines := [title] + TodoLines(todos);
    assert forall k :: 0 <= k < |lines| ==> NoNewline(lines[k]) by {
      forall k | 0 <= k < |lines| ensures NoNewline(lines[k]) {
        if k > 0 {
          TodoLineNoNewline(todos[k - 1]);
        }
      }
    }
    assert lines[|lines| - 1] != [] by {
      TodoLineNoNewline(todos[|todos| - 1]);
    }
    SplitLinesOfJoin(lines);
  }

  lemma TodoLineNoNewline(e: (string, string))
    requires NoNewline(e.0) && NoNewline(e.1)
    ensures NoNewline(TodoLine(e)) && TodoLine(e) != []
  {
    var l := TodoLine(e);
    forall j | 0 <= j < |l| ensures l[j] != '\n' {
      if 3 <= j < 3 + |e.0| {
        assert l[j] == e.0[j - 3];
      } else if j >= 5 + |e.0| {
        assert l[j] == e.1[j - 5 - |e.0|];
      }
    }
  }

  /** Putting a key that is not there yet appends exactly one entry at the end. */
  lemma {:induction false} PutFresh(d: Todos, k: string, v: string)
    requires k !in Dict.Keys(d)
    ensures Dict.Put(d, k, v) == d + [(k, v)]
  {
    if d != [] {
      assert Dict.Keys(d) == [d[0].0] + Dict.Keys(d[1..]);
      PutFresh(d[1..], k, v);
      assert d == [d[0]] + d[1..];
    }
  }

  /** What one call of `execute` does to the list and answers. */
  datatype Step = Step(todos: Todos, result: ToolResult)

  /**
   * `execute`: `add` and `complete` match the action case-insensitively, `list` and `clear`
   * only exactly. `freshId` stands for `str(uuid.uuid4())[:8]`.
   */
  function Apply(todos: Todos, action: string, id: Option<string>, content: Option<string>, freshId: string): (s: Step)
    ensures Lower(action) == "add" ==>
      if !Present(content) then s == Step(todos, ErrorResult("`content` required for 'add' action"))
      else s.todos == Dict.Put(todos, freshId, content.value) && s.result.success
    ensures Lower(action) == "complete" ==>
      if !Present(id) then s == Step(todos, ErrorResult("`id` required for 'complete' action"))
      else if id.value !in Dict.Keys(todos) then s == Step(todos, ErrorResult("Todo not found: " + id.value))
      else s.todos == Dict.Remove(todos, id.value) && s.result.success
    ensures Lower(action) != "add" && Lower(action) != "complete" ==>
      if action == "list" then s == Step(todos, SuccessResult(Listing(todos)))
      else if action == "clear" then s == Step([], SuccessResult("Cleared " + NatToString(|todos|) + " todos"))
      else s == Step(todos, ErrorResult("Unknown action: " + action))
  {
    var act := Lower(action);
    if act == "add" then
      if !Present(content) then Step(todos, ErrorResult("`content` required for 'add' action"))
      else Step(Dict.Put(todos, freshId, content.value), SuccessResult("Added todo [" + freshId + "]: " + content.value))
    else if act == "complete" then
      if !Present(id) then Step(todos, ErrorResult("`id` required for 'complete' action"))
      else match Dict.Get(todos, id.value)
        case None => Step(todos, ErrorResult("Todo not found: " + id.value))
        case Some(c) => Step(Dict.Remove(todos, id.value), SuccessResult("Completed todo [" + id.value + "]: " + c))
    else if action == "list" then Step(todos, SuccessResult(Listing(todos)))
    else if action == "clear" then Step([], SuccessResult("Cleared " + NatToString(|todos|) + " todos"))
    else Step(todos, ErrorResult("Unknown action: " + action))
  }

  /**
   * Adding under an id not yet used appends exactly one entry and keeps the others;
   * completing a known (non-empty) id removes exactly that entry. Ids stay distinct.
   */
  lemma ApplyKeepsOthers(todos: Todos, action: string, id: Option<string>, content: Option<string>, freshId: string, k: string)
    requires Dict.DistinctKeys(todos)
    ensures var s := Apply(todos, action, id, content, freshId);
      Dict.DistinctKeys(s.todos)
      && (Lower(action) == "add" && content.Some? && content.value != [] && freshId !in Dict.Keys(todos) ==>
            s.todos == todos + [(freshId, content.value)])
      && (Lower(action) == "complete" && id.Some? && id.value != [] && id.value in Dict.Keys(todos) ==>
            Dict.Get(s.todos, id.value).None?
            && (k != id.value ==> Dict.Get(s.todos, k) == Dict.Get(todos, k))
            && |s.todos| == |todos| - 1)
  {
    var s := Apply(todos, action, id, content, freshId);
    if Lower(action) == "add" && content.Some? && content.value != [] {
      Dict.PutDistinct(todos, freshId, content.value);
      if freshId !in Dict.Keys(todos) {
        PutFresh(todos, freshId, content.value);
      }
    } else if Lower(action) == "complete" && id.Some? && id.value != [] {
      Dict.KeysRemove(todos, id.value);
      Dict.GetRemove(todos, id.value, k);
      Dict.GetRemove(todos, id.value, id.value);
    }
  }

  class TodoList {
    var todos: Todos

    ghost predicate Valid()
      reads this
    {
      Dict.DistinctKeys(todos)
    }

    constructor ()
      ensures Valid() && todos == []
    {
      todos := [];
    }

    /** `execute`, on this list. */
    method Execute(action: string, id: Option<string>, content: Option<string>, freshId: string) returns (r: ToolResult)
      requires Valid()
      modifies this`todos
      ensures Valid()
      ensures Step(todos, r) == Apply(old(todos), action, id, content, freshId)
    {
      var act := Lower(action);
      if act == "add" || act == "complete" {
        ApplyKeepsOthers(todos, action, id, content, freshId, "");
        var s := Apply(todos, action, id, content, freshId);
        todos, r := s.todos, s.result;
      } else if action == "list" {
        var text := ListText();
        r := SuccessResult(text);
      } else if action == "clear" {
        var count := |todos|;
        todos := [];
        r := SuccessResult("Cleared " + NatToString(count) + " todos");
      } else {
        r := ErrorResult("Unknown action: " + action);
      }
    }

    /** The `list` branch's loop over the entries. */
    method ListText() returns (text: string)
      ensures text == Listing(todos)
    {
      if todos == [] {
        return "No todos";
      }
      var lines := ["Todos:"];
      var i := 0;
      while i < |todos|
        invariant 0 <= i <= |todos|
        invariant lines == ["Todos:"] + TodoLines(todos[..i])
      {
        assert todos[..i + 1] == todos[..i] + [todos[i]];
        TodoLinesSnoc(todos[..i], todos[i]);
        lines := lines + [TodoLine(todos[i])];
        i := i + 1;
      }
      assert todos[..i] == todos;
      text := Join(lines, "\n");
    }
  }

  lemma TodoLinesSnoc(todos: Todos, e: (string, string))
    ensures TodoLines(todos + [e]) == TodoLines(todos) + [TodoLine(e)]
  {
    var a, b := TodoLines(todos + [e]), TodoLines(todos) + [TodoLine(e)];
    assert |a| == |b|;
    forall i | 0 <= i < |a| ensures a[i] == b[i] {
      if i < |todos| {
        assert (todos + [e])[i] == todos[i];
      }
    }
  }
}
