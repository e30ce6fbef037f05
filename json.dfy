/**
 * Decoded JSON values, as json.loads returns them, and the few Python
 * operations the connector applies to them: `key in value`, `value[key]`,
 * `for x in value`, truth testing and `d[key] = v`.
 *
 * An object keeps its members in order. A decoded object never repeats a
 * key, so looking a key up takes its first (and only) member. Numbers are
 * integers: floating point is not modelled.
 */
module Json {
  import opened Failures

  datatype Json =
    | JNull
    | JBool(b: bool)
    | JInt(i: int)
    | JStr(s: string)
    | JArr(items: seq<Json>)
    | JObj(members: seq<(string, Json)>)

  /** The keys of an object, in order. */
  function Keys(members: seq<(string, Json)>): (ks: seq<string>)
    ensures |ks| == |members|
    ensures forall i :: 0 <= i < |members| ==> ks[i] == members[i].0
  {
    if |members| == 0 then [] else [members[0].0] + Keys(members[1..])
  }

  /** The value bound to `key`, if any. */
  function Lookup(members: seq<(string, Json)>, key: string): (r: Option<Json>)
    ensures r.Some? <==> key in Keys(members)
  {
    if |members| == 0 then None
    else if members[0].0 == key then Some(members[0].1)
    else Lookup(members[1..], key)
  }

  /** `key` occurs in `text` as a contiguous piece (Python's `key in text` on strings). */
  predicate IsInfix(key: string, text: string)
  {
    (|key| <= |text| && text[..|key|] == key) || (|text| > 0 && IsInfix(key, text[1..]))
  }

  /** Python's `key in value` for a string key. */
  function Contains(j: Json, key: string): Result<bool>
  {
    match j
    case JObj(members) => Ok(key in Keys(members))
    case JArr(items) => Ok(JStr(key) in items)
    case JStr(s) => Ok(IsInfix(key, s))
    case _ => Err(TypeError)
  }

  /** Python's `value[key]` for a string key. */
  function GetItem(j: Json, key: string): Result<Json>
  {
    match j
    case JObj(members) =>
      (match Lookup(members, key)
       case Some(v) => Ok(v)
       case None => Err(KeyError(key)))
    case _ => Err(TypeError)
  }

  /** What `for x in value` visits: list items, object keys, or the characters of a string. */
  function Iterate(j: Json): Result<seq<Json>>
  {
    match j
    case JArr(items) => Ok(items)
    case JObj(members) => Ok(seq(|members|, i requires 0 <= i < |members| => JStr(members[i].0)))
    case JStr(s) => Ok(seq(|s|, i requires 0 <= i < |s| => JStr([s[i]])))
    case _ => Err(TypeError)
  }

  /** Python's truth test: null, false, 0 and empty strings, lists and objects are false. */
  predicate Truthy(j: Json)
  {
    match j
    case JNull => false
    case JBool(b) => b
    case JInt(i) => i != 0
    case JStr(s) => s != ""
    case JArr(items) => items != []
    case JObj(members) => members != []
  }

  /**
   * Python's `d[key] = v`: the member for `key` gets the new value in place,
   * or is appended when the key is new. Every other key keeps its value, and
   * the order of the keys is kept.
   */
  function Assign(members: seq<(string, Json)>, key: string, v: Json): (r: seq<(string, Json)>)
    ensures Lookup(r, key) == Some(v)
    ensures forall k :: k != key ==> Lookup(r, k) == Lookup(members, k)
    ensures key in Keys(members) ==> Keys(r) == Keys(members)
    ensures key !in Keys(members) ==> Keys(r) == Keys(members) + [key]
  {
    if |members| == 0 then [(key, v)]
    else if members[0].0 == key then [(key, v)] + members[1..]
    else [members[0]] + Assign(members[1..], key, v)
  }
}
