/** JSON values as `JSON.parse` produces them. An object is the sequence of
    its own properties in enumeration order; objects produced by
    `JSON.parse` never repeat a key, and for a sequence that does, lookup
    takes the first entry. Numbers stand for JavaScript numbers: nothing in
    the core computes with them. */
module JsonModel {
  import opened Wrappers

  datatype Json =
    | JNull
    | JBool(b: bool)
    | JNum(n: int)
    | JStr(s: string)
    | JArr(items: seq<Json>)
    | JObj(fields: seq<(string, Json)>)

  /** `isRecord` (validation.ts): a non-null, non-array object. */
  predicate IsRecord(j: Json) {
    j.JObj?
  }

  /** The position of the first entry named `key`, or -1. */
  function KeyIndex(fields: seq<(string, Json)>, key: string): (i: int)
    ensures -1 <= i < |fields|
    ensures i >= 0 ==> fields[i].0 == key && forall j :: 0 <= j < i ==> fields[j].0 != key
    ensures i == -1 <==> forall j :: 0 <= j < |fields| ==> fields[j].0 != key
  {
    if |fields| == 0 then -1
    else if fields[0].0 == key then 0
    else
      var k := KeyIndex(fields[1..], key);
      assert forall j :: 1 <= j < |fields| ==> fields[1..][j - 1] == fields[j];
      if k < 0 then -1 else k + 1
  }

  /** `key in obj` / `hasOwnProperty`. */
  predicate HasKey(fields: seq<(string, Json)>, key: string) {
    KeyIndex(fields, key) >= 0
  }

  /** `obj[key]`, with `None` for `undefined`. */
  function Get(fields: seq<(string, Json)>, key: string): (r: Option<Json>)
    ensures r.Some? <==> HasKey(fields, key)
    ensures r.Some? ==> exists j :: 0 <= j < |fields| && fields[j] == (key, r.value)
  {
    var i := KeyIndex(fields, key);
    if i < 0 then None else Some(fields[i].1)
  }

  /** `Object.keys(obj)`. */
  function Keys(fields: seq<(string, Json)>): (r: seq<string>)
    ensures |r| == |fields|
    ensures forall i :: 0 <= i < |fields| ==> r[i] == fields[i].0
  {
    if fields == [] then [] else [fields[0].0] + Keys(fields[1..])
  }

  /** A string-valued property, or `None` when the value is absent or of
      another type (`typeof v === 'string'`). */
  function GetString(fields: seq<(string, Json)>, key: string): (r: Option<string>)
    ensures r.Some? <==> Get(fields, key).Some? && Get(fields, key).value.JStr?
    ensures r.Some? ==> Get(fields, key) == Some(JStr(r.value))
  {
    match Get(fields, key)
    case Some(JStr(s)) => Some(s)
    case _ => None
  }
}
