/** The `list_dir` tool: the entries of one directory, directories first, by case-folded name. */
module ListDir {
  import opened Common
  import opened Json
  import opened Paths
  import opened ToolBase
  import opened FileStore
  import opened Sorting

  /** `ListDirParams`, once pydantic has accepted the arguments. */
  datatype ListDirParams = ListDirParams(path: string, includeHidden: bool)

  /** One item of `iterdir()`: its name and whether it is a directory. */
  datatype Entry = Entry(name: string, isDir: bool)

  function Target(resolve: Path -> Path, cwd: Path, params: ListDirParams): Path {
    ResolvePath(resolve, ToString(cwd), params.path)
  }

  /** The order of the sort key `(not p.is_dir(), p.name.lower())`. */
  predicate EntryLe(a: Entry, b: Entry) {
    (a.isDir && !b.isDir) || (a.isDir == b.isDir && StrLe(Lower(a.name), Lower(b.name)))
  }

  lemma EntryLePreorder()
    ensures TotalPreorder(EntryLe)
  {
    forall a, b ensures EntryLe(a, b) || EntryLe(b, a) {
      StrLeTotal(Lower(a.name), Lower(b.name));
    }
    forall a, b, c | EntryLe(a, b) && EntryLe(b, c) ensures EntryLe(a, c) {
      if a.isDir == b.isDir == c.isDir {
        StrLeTrans(Lower(a.name), Lower(b.name), Lower(c.name));
      }
    }
  }

  predicate Hidden(e: Entry) {
    StartsWith(e.name, ".")
  }

  /** The items left after the hidden filter, in the order given. */
  function Visible(entries: seq<Entry>, includeHidden: bool): (r: seq<Entry>)
    ensures |r| <= |entries|
  {
    if entries == [] then []
    else (if includeHidden || !Hidden(entries[0]) then [entries[0]] else []) + Visible(entries[1..], includeHidden)
  }

  /** The items listed: sorted, then filtered. */
  function Listed(entries: seq<Entry>, includeHidden: bool): seq<Entry> {
    Visible(SortBy(entries, EntryLe), includeHidden)
  }

  /** `f"{item.name}/"` for a directory, the bare name for a file. */
  function EntryLine(e: Entry): string {
    if e.isDir then e.name + "/" else e.name
  }

  function EntryLines(entries: seq<Entry>): (r: seq<string>)
    ensures |r| == |entries|
    ensures forall k :: 0 <= k < |entries| ==> r[k] == EntryLine(entries[k])
  {
    if entries == [] then [] else [EntryLine(entries[0])] + EntryLines(entries[1..])
  }

  /**
   * `execute`. `iterdir` is what listing the directory gave: its items in directory order, or
   * the message of the exception it raised.
   */
  function Execute(ws: Workspace, resolve: Path -> Path, cwd: Path, params: ListDirParams,
                   iterdir: Outcome<seq<Entry>>): (r: ToolResult)
    reads ws
    ensures var p := Target(resolve, cwd, params);
      !ws.IsDir(p) ==> r == ErrorResult("Directory does not exist: " + ToString(p))
    ensures iterdir.Raised? ==> !r.success
    ensures var p := Target(resolve, cwd, params);
      ws.IsDir(p) && iterdir.Ok? ==>
        r.success && r.metadata == [("path", JStr(ToString(p))), ("entries", JInt(|Listed(iterdir.value, params.includeHidden)|))]
    ensures ws.IsDir(Target(resolve, cwd, params)) && iterdir.Ok? && Listed(iterdir.value, params.includeHidden) == [] ==>
              r.output == "Directory is empty"
    ensures ws.IsDir(Target(resolve, cwd, params)) && iterdir.Ok? && Listed(iterdir.value, params.includeHidden) != [] ==>
              r.output == Join(EntryLines(Listed(iterdir.value, params.includeHidden)), "\n")
  {
    var p := Target(resolve, cwd, params);
    if !ws.Exists(p) || !ws.IsDir(p) then ErrorResult("Directory does not exist: " + ToString(p))
    else match iterdir
      case Raised(e) => ErrorResult("Error listing directory: " + e)
      case Ok(items) =>
        var listed := Listed(items, params.includeHidden);
        var meta := [("path", JStr(ToString(p))), ("entries", JInt(|listed|))];
        if listed == [] then SuccessResult("Directory is empty", metadata := meta)
        else SuccessResult(Join(EntryLines(listed), "\n"), metadata := meta)
  }

  // ---------------------------------------------------------------------
  // Properties of the listing

  /** The hidden filter keeps exactly the shown items, in order and with their multiplicity. */
  lemma {:induction false} VisibleMultiset(entries: seq<Entry>, includeHidden: bool, e: Entry)
    ensures multiset(Visible(entries, includeHidden))[e]
            == if includeHidden || !Hidden(e) then multiset(entries)[e] else 0
  {
    if entries != [] {
      var head := if includeHidden || !Hidden(entries[0]) then [entries[0]] else [];
      VisibleMultiset(entries[1..], includeHidden, e);
      assert multiset(Visible(entries, includeHidden)) == multiset(head) + multiset(Visible(entries[1..], includeHidden));
      assert multiset(entries) == multiset([entries[0]]) + multiset(entries[1..]) by {
        assert entries == [entries[0]] + entries[1..];
      }
    }
  }

  /** Dropping items from an ordered sequence keeps it ordered. */
  lemma {:induction false} VisibleSorted(entries: seq<Entry>, includeHidden: bool)
    requires SortedBy(entries, EntryLe)
    ensures SortedBy(Visible(entries, includeHidden), EntryLe)
  {
    if entries != [] {
      var rest := entries[1..];
      assert SortedBy(rest, EntryLe) by {
        forall i, j | 0 <= i < j < |rest| ensures EntryLe(rest[i], rest[j]) {
          assert rest[i] == entries[i + 1] && rest[j] == entries[j + 1];
        }
      }
      VisibleSorted(rest, includeHidden);
      var v := Visible(rest, includeHidden);
      forall k | 0 <= k < |v| ensures EntryLe(entries[0], v[k]) {
        VisibleMember(rest, includeHidden, v[k]);
        var j :| 0 <= j < |rest| && rest[j] == v[k];
        assert entries[j + 1] == rest[j];
      }
    }
  }

  lemma {:induction false} VisibleMember(entries: seq<Entry>, includeHidden: bool, e: Entry)
    requires e in Visible(entries, includeHidden)
    ensures e in entries
  {
    VisibleMultiset(entries, includeHidden, e);
  }

  /**
   * The listing shows each visible item as often as the directory holds it, and no hidden item
   * unless asked to; directories come before files, each group by case-folded name.
   */
  lemma ListedProperties(entries: seq<Entry>, includeHidden: bool, e: Entry)
    ensures multiset(Listed(entries, includeHidden))[e] == if includeHidden || !Hidden(e) then multiset(entries)[e] else 0
    ensures var l := Listed(entries, includeHidden);
      forall i, j :: 0 <= i < j < |l| ==>
        (l[i].isDir && !l[j].isDir) || (l[i].isDir == l[j].isDir && StrLe(Lower(l[i].name), Lower(l[j].name)))
  {
    EntryLePreorder();
    SortByCorrect(entries, EntryLe);
    VisibleMultiset(SortBy(entries, EntryLe), includeHidden, e);
    VisibleSorted(SortBy(entries, EntryLe), includeHidden);
  }
}
