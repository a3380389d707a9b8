/**
 * JSON values as the Python code sees them after `json.load`/`yaml.safe_load`:
 * objects are dictionaries that keep insertion order (Python 3.7+), numbers
 * are exact reals standing for Python's `int` and `float`.
 */
module Json {
  import opened Wrappers

  datatype Json =
    | JNull
    | JBool(b: bool)
    | JNum(n: real)
    | JStr(s: string)
    | JArr(items: seq<Json>)
    | JObj(fields: seq<(string, Json)>)

  type Fields = seq<(string, Json)>

  /** Python truthiness: `None`, `False`, `0`, `""`, `[]` and `{}` are false. */
  predicate Truthy(j: Json)
  {
    match j
    case JNull => false
    case JBool(b) => b
    case JNum(n) => n != 0.0
    case JStr(s) => s != ""
    case JArr(xs) => |xs| > 0
    case JObj(fs) => |fs| > 0
  }

  function Keys(fs: Fields): set<string>
  {
    if |fs| == 0 then {} else {fs[0].0} + Keys(fs[1..])
  }

  /** No key occurs twice, as in every Python `dict`. */
  predicate DistinctKeys(fs: Fields)
  {
    |fs| == 0 || (fs[0].0 !in Keys(fs[1..]) && DistinctKeys(fs[1..]))
  }

  /** `d.get(key)`: the value stored under `key`, if any. */
  function Lookup(fs: Fields, key: string): Option<Json>
  {
    if |fs| == 0 then None
    else if fs[0].0 == key then Some(fs[0].1)
    else Lookup(fs[1..], key)
  }

  /** A key has a value exactly when it is one of the keys. */
  lemma {:induction false} LookupKeys(fs: Fields, key: string)
    ensures Lookup(fs, key).Some? <==> key in Keys(fs)
  {
    if |fs| > 0 && fs[0].0 != key {
      LookupKeys(fs[1..], key);
    }
  }

  /** `d[key] = value`: replaces the value in place, or appends the key when it is new. */
  function Put(fs: Fields, key: string, value: Json): (r: Fields)
    ensures Lookup(r, key) == Some(value)
    ensures forall k :: k != key ==> Lookup(r, k) == Lookup(fs, k)
    ensures Keys(r) == Keys(fs) + {key}
    ensures DistinctKeys(fs) ==> DistinctKeys(r)
  {
    if |fs| == 0 then [(key, value)]
    else if fs[0].0 == key then [(key, value)] + fs[1..]
    else [fs[0]] + Put(fs[1..], key, value)
  }

  /** `obj.get(key, default)` on a value that may or may not be an object; a stored `null` is returned as it is. */
  function Get(j: Json, key: string, default: Json): Json
  {
    if j.JObj? then Lookup(j.fields, key).GetOr(default) else default
  }

  /** The field `key` of an object; nothing for a missing key or a value that is not an object. */
  function Member(j: Json, key: string): Option<Json>
  {
    if j.JObj? then Lookup(j.fields, key) else None
  }

  /** `data and isinstance(data, dict)` on what a fetch returned: a non-empty object. */
  predicate IsDictPayload(data: Option<Json>)
  {
    data.Some? && data.value.JObj? && Truthy(data.value)
  }
}
