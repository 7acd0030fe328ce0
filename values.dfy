/** Values shared by every module: optional values, results and decoded JSON. */
module Values {

  datatype Option<+T> = None | Some(value: T)

  datatype Result<+R, +E> = Ok(value: R) | Err(error: E)

  /** A decoded JSON document. Numbers are integers only; objects are keyed by strings. */
  datatype Json =
    | JNull
    | JBool(b: bool)
    | JNum(n: int)
    | JStr(s: string)
    | JArr(items: seq<Json>)
    | JObj(fields: map<string, Json>)

  /** `j[key]` in Python: a KeyError or TypeError unless `j` is an object holding `key`. */
  function Field(j: Json, key: string): (r: Option<Json>)
    ensures r.Some? <==> j.JObj? && key in j.fields
    ensures r.Some? ==> r.value == j.fields[key]
  {
    if j.JObj? && key in j.fields then Some(j.fields[key]) else None
  }

  /** `j[0]` in Python, where a string-keyed lookup follows: only a non-empty array yields
      an element that lookup can succeed on (the first character of a text would not). */
  function First(j: Json): (r: Option<Json>)
    ensures r.Some? <==> j.JArr? && |j.items| > 0
    ensures r.Some? ==> r.value == j.items[0]
  {
    if j.JArr? && |j.items| > 0 then Some(j.items[0]) else None
  }

  /** Python's `v == True`: `True` compares equal to itself and to the integer 1. */
  predicate EqualsTrue(v: Json) {
    v == JBool(true) || v == JNum(1)
  }

  /** `d.get(key, default)` on an options mapping. */
  function Get(d: map<string, Json>, key: string, default: Json): Json {
    if key in d then d[key] else default
  }
}
