/**
 * A decoded JSON document, as the handlers receive it after `json.loads` or after the
 * Socket.IO client has decoded an event payload, together with the handful of Python
 * operations the handlers apply to it: truthiness, `d.get(k)`, `d[k]`, `for x in d`,
 * use as a dictionary key, and `float(x)`. Every operation that Python can make raise
 * returns `None` here.
 */
module Json {
  import opened Wrappers

  /** JSON numbers are one real-valued kind; objects keep their members in document order. */
  datatype Json =
    | JNull
    | JBool(b: bool)
    | JNum(n: real)
    | JStr(s: string)
    | JArr(items: seq<Json>)
    | JObj(members: seq<(string, Json)>)

  /** Python truthiness of the decoded value. */
  predicate Truthy(j: Json)
  {
    match j
    case JNull => false
    case JBool(b) => b
    case JNum(n) => n != 0.0
    case JStr(s) => s != []
    case JArr(items) => items != []
    case JObj(members) => members != []
  }

  /** The value of the last member named `key`: `json.loads` keeps the last of duplicate names. */
  function Lookup(members: seq<(string, Json)>, key: string): (r: Option<Json>)
    ensures r.Some? <==> exists i :: 0 <= i < |members| && members[i].0 == key
    ensures r.Some? ==> exists i :: 0 <= i < |members| && members[i] == (key, r.value)
    ensures r.Some? ==> exists i :: 0 <= i < |members| && members[i] == (key, r.value) &&
                          forall j :: i < j < |members| ==> members[j].0 != key
  {
    if members == [] then None
    else if members[|members| - 1].0 == key then Some(members[|members| - 1].1)
    else
      var r := Lookup(members[..|members| - 1], key);
      assert forall i :: 0 <= i < |members| - 1 ==> members[..|members| - 1][i] == members[i];
      r
  }

  /** `j.get(key)`: raises (None) unless `j` is a dict; a missing member reads as JSON null. */
  function Get(j: Json, key: string): (r: Option<Json>)
    ensures r.Some? <==> j.JObj?
    ensures j.JObj? && Lookup(j.members, key).None? ==> r == Some(JNull)
  {
    match j
    case JObj(members) => Some(Lookup(members, key).GetOr(JNull))
    case _ => None
  }

  /** `j[key]`: raises (None) unless `j` is a dict that has a member named `key`. */
  function Index(j: Json, key: string): (r: Option<Json>)
    ensures r.Some? <==> j.JObj? && exists i :: 0 <= i < |j.members| && j.members[i].0 == key
  {
    if j.JObj? then Lookup(j.members, key) else None
  }

  /**
   * The values `for x in j` visits: the items of a list, the one-character strings of a
   * string, the member names of a dict (one per member). Numbers, booleans and null are
   * not iterable.
   */
  function Elements(j: Json): (r: Option<seq<Json>>)
    ensures r.Some? <==> (j.JArr? || j.JStr? || j.JObj?)
    ensures r.Some? && !j.JArr? ==> forall x :: x in r.value ==> x.JStr?
    ensures r.Some? ==> (r.value == [] <==> !Truthy(j))
  {
    match j
    case JArr(items) => Some(items)
    case JStr(s) => Some(seq(|s|, i requires 0 <= i < |s| => JStr([s[i]])))
    case JObj(members) => Some(seq(|members|, i requires 0 <= i < |members| => JStr(members[i].0)))
    case _ => None
  }

  /**
   * Identity of a value used as a Python dictionary key. `True` and `False` hash and compare
   * as 1 and 0; lists and dicts are unhashable.
   */
  datatype Key = KNone | KNum(n: real) | KStr(s: string)

  function HashKey(j: Json): (r: Option<Key>)
    ensures r.None? <==> (j.JArr? || j.JObj?)
    ensures j.JStr? ==> r == Some(KStr(j.s))
    ensures j.JNum? ==> r == Some(KNum(j.n))
  {
    match j
    case JNull => Some(KNone)
    case JBool(b) => Some(KNum(if b then 1.0 else 0.0))
    case JNum(n) => Some(KNum(n))
    case JStr(s) => Some(KStr(s))
    case _ => None
  }

  /**
   * Python's `float(j)`. A number is itself, a boolean is 1.0 or 0.0, text is parsed by
   * `parseText` (Python's float() on a string, outside this model); anything else raises.
   */
  function ToFloat(j: Json, parseText: string -> Option<real>): (r: Option<real>)
    ensures j.JNum? ==> r == Some(j.n)
    ensures (j.JNull? || j.JArr? || j.JObj?) ==> r.None?
  {
    match j
    case JNum(n) => Some(n)
    case JBool(b) => Some(if b then 1.0 else 0.0)
    case JStr(s) => parseText(s)
    case _ => None
  }
}
