/**
  Decoded JSON documents, as `response.json()` hands them to the
  application, and the handful of Python operations the application applies
  to them: truthiness, `d.get(k)`, `d[k]` and `k in v`. An operation that
  would raise in Python returns None here.
 */
module JsonValue {
  import opened Wrappers
  import opened Text

  datatype Json =
    | Null
    | Bool(b: bool)
    | Number(n: real)
    | Str(s: string)
    | Array(items: seq<Json>)
    | Object(fields: map<string, Json>)

  /** Python's `bool(v)`: None, False, zero and empty containers are false. */
  predicate Truthy(v: Json) {
    match v
    case Null => false
    case Bool(b) => b
    case Number(n) => n != 0.0
    case Str(s) => s != []
    case Array(xs) => xs != []
    case Object(m) => m != map[]
  }

  /** `v.get(key)`: the value, or Null when the key is absent; only a dict
      has `get`, so on any other value the call raises (None). */
  function Get(v: Json, key: string): (r: Option<Json>)
    ensures r.Some? <==> v.Object?
    ensures r.Some? && Truthy(r.value) ==> key in v.fields && v.fields[key] == r.value
  {
    if v.Object? then Some(if key in v.fields then v.fields[key] else Null) else None
  }

  /** `v[key]` with a string key: KeyError when a dict lacks the key,
      TypeError on a list, a string or a scalar. */
  function Subscript(v: Json, key: string): (r: Option<Json>)
    ensures r.Some? <==> v.Object? && key in v.fields
  {
    if v.Object? && key in v.fields then Some(v.fields[key]) else None
  }

  /** `d.get(k)` and `d[k]` agree wherever `d[k]` succeeds; where it
      raises on a dict, `get` answers None (Null), which is falsy. So once
      `item.get(k)` is truthy, `item[k]` succeeds with the same value. */
  lemma GetAgreesWithSubscript(v: Json, key: string)
    ensures Subscript(v, key).Some? ==> Get(v, key) == Subscript(v, key)
    ensures Get(v, key).Some? && Subscript(v, key).None? ==> Get(v, key) == Some(Null)
    ensures Get(v, key).Some? && Truthy(Get(v, key).value) ==> Subscript(v, key) == Get(v, key)
  {
  }

  /** `key in v`: a dict tests its keys, a list its elements, a string its
      substrings; on a number, a bool or None it raises TypeError. */
  function Contains(v: Json, key: string): Option<bool> {
    match v
    case Object(m) => Some(key in m)
    case Array(xs) => Some(Str(key) in xs)
    case Str(s) => Some(IsSubstring(key, s))
    case _ => None
  }
}
