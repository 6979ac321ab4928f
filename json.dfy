/** JSON documents as the exporter sees them after `json.loads`: Python dicts,
    lists, strings, integers, booleans and None.  Floating-point numbers are
    not modelled.  Objects are maps, so key order is not part of a value. */
module Json {
  import opened Wrappers
  import Strings

  datatype Json =
    | JNull
    | JBool(b: bool)
    | JInt(i: int)
    | JStr(s: string)
    | JArr(items: seq<Json>)
    | JObj(fields: map<string, Json>)

  /** The dict a display `{k1: v1, k2: v2, ...}` builds: the entries in
      order, a later key overwriting an earlier one. */
  function DictOf(entries: seq<(string, Json)>): map<string, Json>
    decreases |entries|
  {
    if entries == [] then map[]
    else DictOf(entries[..|entries| - 1])[entries[|entries| - 1].0 := entries[|entries| - 1].1]
  }

  /** A key of the display maps to the value of its last entry. */
  lemma {:induction false} DictOfLast(entries: seq<(string, Json)>, i: nat)
    requires i < |entries|
    requires forall j :: i < j < |entries| ==> entries[j].0 != entries[i].0
    ensures entries[i].0 in DictOf(entries) && DictOf(entries)[entries[i].0] == entries[i].1
    decreases |entries|
  {
    if i < |entries| - 1 {
      DictOfLast(entries[..|entries| - 1], i);
    }
  }

  /** `j[key]`: KeyError when `j` is a dict without `key`, TypeError when `j` is
      not a dict (a list, a string, a number, a boolean or None). */
  function Get(j: Json, key: string): (r: Result<Json>)
    ensures r.Ok? <==> j.JObj? && key in j.fields
    ensures r.Ok? ==> r.value == j.fields[key]
    ensures r.Err? ==> r.error == (if j.JObj? then KeyError(key) else TypeError)
  {
    match j
    case JObj(m) => if key in m then Ok(m[key]) else Err(KeyError(key))
    case _ => Err(TypeError)
  }

  /** `j[k0][k1]...`, failing at the first lookup that fails. */
  function GetPath(j: Json, path: seq<string>): (r: Result<Json>)
    decreases |path|
  {
    if path == [] then Ok(j)
    else
      var next :- Get(j, path[0]);
      GetPath(next, path[1..])
  }

  /** A path of two keys is two lookups. */
  lemma GetPathTwo(j: Json, a: string, b: string)
    ensures GetPath(j, [a, b]) == (if Get(j, a).Ok? then Get(Get(j, a).value, b) else Err(Get(j, a).error))
  {
    assert [a, b][1..] == [b];
    if Get(j, a).Ok? {
      GetPathOne(Get(j, a).value, b);
    }
  }

  /** A path of one key is one lookup. */
  lemma GetPathOne(j: Json, a: string)
    ensures GetPath(j, [a]) == Get(j, a)
  {
    assert [a][1..] == [];
    if Get(j, a).Ok? {
      assert GetPath(Get(j, a).value, []) == Ok(Get(j, a).value);
    }
  }

  /** A path of three keys present in nested dicts reaches the innermost value. */
  lemma GetPathThreeFound(j: Json, a: string, b: string, c: string)
    requires j.JObj? && a in j.fields && j.fields[a].JObj? && b in j.fields[a].fields
    requires j.fields[a].fields[b].JObj? && c in j.fields[a].fields[b].fields
    ensures GetPath(j, [a, b, c]) == Ok(j.fields[a].fields[b].fields[c])
  {
    GetPathThree(j, a, b, c);
    GetPathTwo(j.fields[a], b, c);
  }

  /** The same for a path of four keys. */
  lemma GetPathFourFound(j: Json, a: string, b: string, c: string, d: string)
    requires j.JObj? && a in j.fields && j.fields[a].JObj? && b in j.fields[a].fields
    requires j.fields[a].fields[b].JObj? && c in j.fields[a].fields[b].fields
    requires j.fields[a].fields[b].fields[c].JObj? && d in j.fields[a].fields[b].fields[c].fields
    ensures GetPath(j, [a, b, c, d]) == Ok(j.fields[a].fields[b].fields[c].fields[d])
  {
    assert [a, b, c, d][1..] == [b, c, d];
    GetPathThreeFound(j.fields[a], b, c, d);
  }

  /** A path of three keys is three lookups. */
  lemma GetPathThree(j: Json, a: string, b: string, c: string)
    ensures GetPath(j, [a, b, c]) == (if Get(j, a).Ok? then GetPath(Get(j, a).value, [b, c]) else Err(Get(j, a).error))
  {
    assert [a, b, c][1..] == [b, c];
  }

  /** `j.get(key)` (or `j.get(key, default)`): only a dict has `get`. */
  function DictGetOr(j: Json, key: string, default: Json): (r: Result<Json>)
    ensures r.Ok? <==> j.JObj?
    ensures r.Ok? ==> r.value == (if key in j.fields then j.fields[key] else default)
  {
    if j.JObj? then Ok(if key in j.fields then j.fields[key] else default)
    else Err(AttributeError)
  }

  function DictGet(j: Json, key: string): Result<Json> {
    DictGetOr(j, key, JNull)
  }

  /** Python truthiness. */
  predicate Truthy(j: Json) {
    match j
    case JNull => false
    case JBool(b) => b
    case JInt(i) => i != 0
    case JStr(s) => s != ""
    case JArr(items) => items != []
    case JObj(m) => m != map[]
  }

  /** `str(j)` for the scalar values; the rendering of lists and dicts is not
      modelled (None). */
  function PyStr(j: Json): Option<string> {
    match j
    case JNull => Some("None")
    case JBool(b) => Some(if b then "True" else "False")
    case JInt(i) => Some(Strings.IntToString(i))
    case JStr(s) => Some(s)
    case _ => None
  }

  /** The text `str(j)` gives; empty for a list or a dict, whose rendering
      is not modelled. */
  function PyStrText(j: Json): string {
    var s := PyStr(j);
    if s.Some? then s.value else ""
  }

  /** `item in container` for a string `item`: element test on a list,
      substring test on a string, key test on a dict, TypeError otherwise. */
  function PyContains(container: Json, item: string): (r: Result<bool>)
    ensures r.Ok? <==> container.JArr? || container.JStr? || container.JObj?
    ensures container.JArr? ==> r == Ok(JStr(item) in container.items)
  {
    match container
    case JArr(items) => Ok(JStr(item) in items)
    case JStr(s) => Ok(Strings.Contains(s, item))
    case JObj(m) => Ok(item in m)
    case _ => Err(TypeError)
  }
}
