/**
 * `config/loader.py`: the recursive merge of configuration dicts and the precedence
 * of system file, project file, defaults and `AGENT.MD` in `load_config`.
 */
module ConfigLoader {
  import opened Common
  import opened Json
  import opened Paths
  import opened Config
  import Dict

  /** `_merge_dicts(base, override)` for an override given as the dict value `o`. */
  function Merge(base: Object, o: Json): Object
    requires o.JObj?
    decreases o, |o.fields| + 1
  {
    MergeFrom(base, o, 0)
  }

  /** The merge loop from entry `i` of the override onwards, with `result` built so far. */
  function MergeFrom(result: Object, o: Json, i: nat): Object
    requires o.JObj? && i <= |o.fields|
    decreases o, |o.fields| - i
  {
    if i == |o.fields| then result
    else
      var k := o.fields[i].0;
      var v := o.fields[i].1;
      var cur := Dict.Get(result, k);
      var nv := if cur.Some? && cur.value.JObj? && v.JObj? then JObj(Merge(cur.value.fields, v)) else v;
      MergeFrom(Dict.Put(result, k, nv), o, i + 1)
  }

  /** `_merge_dicts`: a copy of `base` updated entry by entry, recursing where both sides hold a dict. */
  method MergeDicts(base: Object, override: Object) returns (result: Object)
    ensures result == Merge(base, JObj(override))
    decreases JObj(override)
  {
    result := base;
    var i := 0;
    while i < |override|
      invariant 0 <= i <= |override|
      invariant MergeFrom(result, JObj(override), i) == Merge(base, JObj(override))
    {
      var k := override[i].0;
      var v := override[i].1;
      var cur := Dict.Get(result, k);
      if cur.Some? && cur.value.JObj? && v.JObj? {
        assert v == JObj(v.fields);
        var sub := MergeDicts(cur.value.fields, v.fields);
        result := Dict.Put(result, k, JObj(sub));
      } else {
        result := Dict.Put(result, k, v);
      }
      i := i + 1;
    }
  }

  /** The keys of an override from position `i` on. */
  function KeysFrom(o: Object, i: nat): set<string>
    requires i <= |o|
  {
    set j | i <= j < |o| :: o[j].0
  }

  lemma {:induction false} MergeFromKeys(result: Object, o: Json, i: nat)
    requires o.JObj? && i <= |o.fields|
    ensures forall k :: k in Dict.Keys(MergeFrom(result, o, i)) <==> k in Dict.Keys(result) || k in KeysFrom(o.fields, i)
    decreases |o.fields| - i
  {
    if i < |o.fields| {
      var k := o.fields[i].0;
      var v := o.fields[i].1;
      var cur := Dict.Get(result, k);
      var nv := if cur.Some? && cur.value.JObj? && v.JObj? then JObj(Merge(cur.value.fields, v)) else v;
      Dict.KeysPut(result, k, nv);
      MergeFromKeys(Dict.Put(result, k, nv), o, i + 1);
      assert KeysFrom(o.fields, i) == {k} + KeysFrom(o.fields, i + 1);
    }
  }

  /** The merged dict has exactly the keys of both arguments. */
  lemma MergeKeys(base: Object, override: Object)
    ensures forall k :: k in Dict.Keys(Merge(base, JObj(override))) <==> k in Dict.Keys(base) || k in Dict.Keys(override)
  {
    MergeFromKeys(base, JObj(override), 0);
    assert forall k :: k in KeysFrom(override, 0) <==> k in Dict.Keys(override) by {
      forall k | k in Dict.Keys(override) ensures k in KeysFrom(override, 0) {
        var j :| 0 <= j < |override| && Dict.Keys(override)[j] == k;
        assert override[j].0 == k;
      }
    }
  }

  /** The value the merge stores for `k`, given the base's value and the override's. */
  function MergedValue(b: Option<Json>, v: Json): Json {
    if b.Some? && b.value.JObj? && v.JObj? then JObj(Merge(b.value.fields, v)) else v
  }

  lemma {:induction false} MergeFromGet(result: Object, o: Json, i: nat, k: string)
    requires o.JObj? && i <= |o.fields| && Dict.DistinctKeys(o.fields)
    ensures k !in KeysFrom(o.fields, i) ==> Dict.Get(MergeFrom(result, o, i), k) == Dict.Get(result, k)
    ensures forall j :: i <= j < |o.fields| && o.fields[j].0 == k ==>
      Dict.Get(MergeFrom(result, o, i), k) == Some(MergedValue(Dict.Get(result, k), o.fields[j].1))
    decreases |o.fields| - i
  {
    if i < |o.fields| {
      var k0 := o.fields[i].0;
      var v := o.fields[i].1;
      var cur := Dict.Get(result, k0);
      var nv := if cur.Some? && cur.value.JObj? && v.JObj? then JObj(Merge(cur.value.fields, v)) else v;
      var next := Dict.Put(result, k0, nv);
      Dict.GetPut(result, k0, nv, k);
      MergeFromGet(next, o, i + 1, k);
      assert KeysFrom(o.fields, i) == {k0} + KeysFrom(o.fields, i + 1);
      if k0 == k {
        assert k !in KeysFrom(o.fields, i + 1);
      }
    }
  }

  /** The override's value wins, except that two dicts under the same key are merged recursively. */
  lemma MergeGet(base: Object, override: Object, k: string)
    requires Dict.DistinctKeys(override)
    ensures k !in Dict.Keys(override) ==> Dict.Get(Merge(base, JObj(override)), k) == Dict.Get(base, k)
    ensures k in Dict.Keys(override) ==>
      Dict.Get(Merge(base, JObj(override)), k) == Some(MergedValue(Dict.Get(base, k), Dict.Get(override, k).value))
  {
    MergeFromGet(base, JObj(override), 0, k);
    if k in Dict.Keys(override) {
      var j := GetIndex(override, k);
      assert override[j].0 == k;
    }
  }

  /** The position of a present key, where `Dict.Get` finds its value. */
  lemma {:induction false} GetIndexExists(d: Object, k: string)
    requires k in Dict.Keys(d)
    ensures exists j :: 0 <= j < |d| && d[j].0 == k && Dict.Get(d, k) == Some(d[j].1)
  {
    if d[0].0 != k {
      assert Dict.Keys(d) == [d[0].0] + Dict.Keys(d[1..]);
      GetIndexExists(d[1..], k);
      var j :| 0 <= j < |d[1..]| && d[1..][j].0 == k && Dict.Get(d[1..], k) == Some(d[1..][j].1);
      assert d[j + 1] == d[1..][j];
    } else {
      assert d[0].0 == k && Dict.Get(d, k) == Some(d[0].1);
    }
  }

  lemma GetIndex(d: Object, k: string) returns (j: nat)
    requires k in Dict.Keys(d)
    ensures j < |d| && d[j].0 == k && Dict.Get(d, k) == Some(d[j].1)
  {
    GetIndexExists(d, k);
    j :| 0 <= j < |d| && d[j].0 == k && Dict.Get(d, k) == Some(d[j].1);
  }

  // ---------------------------------------------------------------------
  // load_config

  /** The system dict overlaid with the project dict; a missing or unparsable file contributes nothing. */
  function MergedFiles(system: Option<Outcome<Object>>, project: Option<Outcome<Object>>): Object {
    var sys: Object := if system.Some? && system.value.Ok? then system.value.value else [];
    if project.Some? && project.value.Ok? then Merge(sys, JObj(project.value.value)) else sys
  }

  /**
   * The dict `load_config` hands to `Config(**...)`.  `system` is `None` when the
   * system file does not exist and `Raised` when it does not parse; `project` is
   * `None` when there is no `.ai-agent/config.toml`; `agentMd` is the text of `AGENT.MD`.
   */
  function LoadConfigDict(cwd: Path, system: Option<Outcome<Object>>, project: Option<Outcome<Object>>,
                          agentMd: Option<string>): Object
  {
    var d1 := MergedFiles(system, project);
    var d2 := if "cwd" !in Dict.Keys(d1) then Dict.Put(d1, "cwd", JStr(ToString(cwd))) else d1;
    if "developer_instructions" !in Dict.Keys(d2) && Present(agentMd) then
      Dict.Put(d2, "developer_instructions", JStr(agentMd.value))
    else d2
  }

  /**
   * `load_config`: `cwd or Path.cwd()` is `cwd.GetOr(processCwd)`; `build` stands for
   * pydantic's `Config(**d)`, whose failure becomes "Invalid configuration: ...".
   */
  function LoadConfig(cwd: Option<Path>, processCwd: Path, system: Option<Outcome<Object>>,
                      project: Option<Outcome<Object>>, agentMd: Option<string>,
                      build: Object -> Outcome<AgentConfig>): (r: Outcome<AgentConfig>)
    ensures var d := LoadConfigDict(cwd.GetOr(processCwd), system, project, agentMd);
      (r.Ok? <==> build(d).Ok?) && (r.Ok? ==> r.value == build(d).value)
      && (r.Raised? ==> StartsWith(r.message, "Invalid configuration: ") && EndsWith(r.message, build(d).message))
  {
    var d := LoadConfigDict(cwd.GetOr(processCwd), system, project, agentMd);
    match build(d)
    case Ok(c) => Ok(c)
    case Raised(m) =>
      var msg := "Invalid configuration: " + m;
      assert msg[..23] == "Invalid configuration: ";
      assert msg[|msg| - |m|..] == m;
      Raised(msg)
  }

  /** Project keys override system keys (merging nested dicts); other keys come from the system file. */
  lemma LoadPrecedence(cwd: Path, sys: Object, proj: Object, agentMd: Option<string>, k: string)
    requires Dict.DistinctKeys(proj)
    requires k != "cwd" && k != "developer_instructions"
    ensures var r := LoadConfigDict(cwd, Some(Ok(sys)), Some(Ok(proj)), agentMd);
      Dict.Get(r, k) == if k in Dict.Keys(proj) then Some(MergedValue(Dict.Get(sys, k), Dict.Get(proj, k).value))
                        else Dict.Get(sys, k)
  {
    var d1 := MergedFiles(Some(Ok(sys)), Some(Ok(proj)));
    MergeGet(sys, proj, k);
    var d2 := if "cwd" !in Dict.Keys(d1) then Dict.Put(d1, "cwd", JStr(ToString(cwd))) else d1;
    Dict.GetPut(d1, "cwd", JStr(ToString(cwd)), k);
    if agentMd.Some? {
      Dict.GetPut(d2, "developer_instructions", JStr(agentMd.value), k);
    }
  }

  /** A file that does not parse is skipped as if it were absent. */
  lemma UnparsableSkipped(cwd: Path, system: Option<Outcome<Object>>, project: Option<Outcome<Object>>,
                          agentMd: Option<string>, m: string)
    ensures LoadConfigDict(cwd, Some(Raised(m)), project, agentMd) == LoadConfigDict(cwd, None, project, agentMd)
    ensures LoadConfigDict(cwd, system, Some(Raised(m)), agentMd) == LoadConfigDict(cwd, system, None, agentMd)
  {
  }

  /** `cwd` is filled in from the argument only when the files did not set it. */
  lemma CwdDefaulted(cwd: Path, system: Option<Outcome<Object>>, project: Option<Outcome<Object>>, agentMd: Option<string>)
    ensures var merged := MergedFiles(system, project);
      Dict.Get(LoadConfigDict(cwd, system, project, agentMd), "cwd")
        == if "cwd" in Dict.Keys(merged) then Dict.Get(merged, "cwd") else Some(JStr(ToString(cwd)))
  {
    var merged := MergedFiles(system, project);
    var d2 := if "cwd" !in Dict.Keys(merged) then Dict.Put(merged, "cwd", JStr(ToString(cwd))) else merged;
    Dict.GetPut(merged, "cwd", JStr(ToString(cwd)), "cwd");
    if agentMd.Some? {
      Dict.GetPut(d2, "developer_instructions", JStr(agentMd.value), "cwd");
    }
  }

  /** `developer_instructions` comes from `AGENT.MD` only when the files did not set it and the text is not empty. */
  lemma DeveloperInstructionsDefaulted(cwd: Path, system: Option<Outcome<Object>>, project: Option<Outcome<Object>>,
                                       agentMd: Option<string>)
    ensures var merged := MergedFiles(system, project);
      Dict.Get(LoadConfigDict(cwd, system, project, agentMd), "developer_instructions")
        == if "developer_instructions" in Dict.Keys(merged) then Dict.Get(merged, "developer_instructions")
           else if Present(agentMd) then Some(JStr(agentMd.value)) else None
  {
    var merged := MergedFiles(system, project);
    var d2 := if "cwd" !in Dict.Keys(merged) then Dict.Put(merged, "cwd", JStr(ToString(cwd))) else merged;
    Dict.GetPut(merged, "cwd", JStr(ToString(cwd)), "developer_instructions");
    Dict.KeysPut(merged, "cwd", JStr(ToString(cwd)));
    if agentMd.Some? {
      Dict.GetPut(d2, "developer_instructions", JStr(agentMd.value), "developer_instructions");
    }
  }
}
