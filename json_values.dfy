/** Decoded JSON documents, and the parts of Python's semantics for them that the
    engines rely on: truthiness, `key in x`, `x[key]`, `x.get(key)` and `for y in x`. */
module JsonValues {
  import opened Wrappers
  import Strings

  /** A decoded JSON document. An object keeps its members in insertion order, as a
      Python dict built by the JSON decoder does. */
  datatype Json =
    | JNull
    | JBool(b: bool)
    | JInt(i: int)
    | JFloat(r: real)
    | JString(s: string)
    | JArray(items: seq<Json>)
    | JObject(members: seq<(string, Json)>)

  /** The Python exceptions the modelled code raises or catches. */
  datatype PyError =
    | TypeError                   // `in`, `[]` or iteration on a value that does not support it
    | IndexError                  // `[0]` of an empty list
    | KeyError                    // `d[key]` with `key` missing
    | AttributeError              // `.get` on a non-dict, `.split` on None
    | FormatError                 // `str.format` failing on its template
    | DecodeError(cause: string)  // the body is not JSON
    | ApiError(message: string)   // the engine's own API exception

  /** Python's truth value of a decoded JSON value (`bool(x)`). */
  predicate Truthy(j: Json)
  {
    match j
    case JNull => false
    case JBool(b) => b
    case JInt(i) => i != 0
    case JFloat(r) => r != 0.0
    case JString(s) => s != ""
    case JArray(items) => items != []
    case JObject(members) => members != []
  }

  /** The value bound to `key` (objects from the decoder have distinct keys; with
      repeated keys this is the first binding). */
  function Lookup(members: seq<(string, Json)>, key: string): (r: Option<Json>)
    ensures r.Some? <==> exists i :: 0 <= i < |members| && members[i].0 == key
    ensures r.Some? ==> exists i :: 0 <= i < |members| && members[i] == (key, r.value)
  {
    if members == [] then None
    else if members[0].0 == key then Some(members[0].1)
    else
      var r := Lookup(members[1..], key);
      assert forall i :: 1 <= i < |members| ==> members[i] == members[1..][i - 1];
      r
  }

  /** `j.get(key)`: the bound value or None; AttributeError when `j` is not a dict. */
  function Get(j: Json, key: string): (r: Result<Option<Json>, PyError>)
    ensures r.Failure? <==> !j.JObject?
    ensures r.Failure? ==> r.error == AttributeError
    ensures r.Success? ==> r.value == Lookup(j.members, key)
  {
    match j
    case JObject(members) => Success(Lookup(members, key))
    case _ => Failure(AttributeError)
  }

  /** `key in j` for a string `key`: membership of a key in a dict, of an equal element
      in a list, of a substring in a string; TypeError for the other values. */
  function Contains(j: Json, key: string): (r: Result<bool, PyError>)
    ensures r.Failure? <==> !(j.JObject? || j.JArray? || j.JString?)
    ensures r.Failure? ==> r.error == TypeError
    ensures j.JObject? ==> r == Success(Lookup(j.members, key).Some?)
    ensures j.JArray? ==> r == Success(JString(key) in j.items)
    ensures j.JString? ==> r == Success(exists i :: 0 <= i <= |j.s| && Strings.OccursAt(j.s, key, i))
  {
    match j
    case JObject(members) => Success(Lookup(members, key).Some?)
    case JArray(items) => Success(JString(key) in items)
    case JString(s) => Success(Strings.Find(s, key) >= 0)
    case _ => Failure(TypeError)
  }

  /** `j[key]` for a string `key`: the bound value of a dict, KeyError when missing;
      TypeError for every other value (lists and strings take integer indices). */
  function GetItem(j: Json, key: string): (r: Result<Json, PyError>)
    ensures r.Success? <==> j.JObject? && Lookup(j.members, key).Some?
    ensures r.Success? ==> r.value == Lookup(j.members, key).value
    ensures r.Failure? ==> r.error == (if j.JObject? then KeyError else TypeError)
  {
    match j
    case JObject(members) =>
      (match Lookup(members, key)
       case Some(v) => Success(v)
       case None => Failure(KeyError))
    case _ => Failure(TypeError)
  }

  /** What `for y in j` visits: the items of a list, the keys of a dict, the
      one-character strings of a string; TypeError for the other values. */
  function Elements(j: Json): (r: Result<seq<Json>, PyError>)
    ensures r.Failure? <==> !(j.JObject? || j.JArray? || j.JString?)
    ensures r.Failure? ==> r.error == TypeError
    ensures j.JArray? ==> r == Success(j.items)
    ensures j.JObject? ==> r.Success? && |r.value| == |j.members|
                           && forall i :: 0 <= i < |j.members| ==> r.value[i] == JString(j.members[i].0)
    ensures j.JString? ==> r.Success? && |r.value| == |j.s|
                           && forall i :: 0 <= i < |j.s| ==> r.value[i] == JString([j.s[i]])
  {
    match j
    case JArray(items) => Success(items)
    case JObject(members) => Success(seq(|members|, i requires 0 <= i < |members| => JString(members[i].0)))
    case JString(s) => Success(seq(|s|, i requires 0 <= i < |s| => JString([s[i]])))
    case _ => Failure(TypeError)
  }
}
