/** JSON values as Python's `json` module decodes them, with Python truthiness. */
module JsonValues {
  import opened Base

  /** A decoded JSON document. Numbers are kept as reals, so Python's `5` and
      `5.0` are the same value here, although `str` and `json.dumps` render them
      differently; the rendering functions therefore see only the real. */
  datatype Json =
    | JNull
    | JBool(b: bool)
    | JNum(n: real)
    | JStr(s: string)
    | JArr(items: seq<Json>)
    | JObj(fields: map<string, Json>)

  /** Python's `bool(v)` for a decoded JSON value: `None`, `False`, zero and the
      empty string, list and dict are falsy; everything else is truthy. */
  predicate Truthy(j: Json) {
    match j
    case JNull => false
    case JBool(b) => b
    case JNum(n) => n != 0.0
    case JStr(s) => s != ""
    case JArr(items) => items != []
    case JObj(fields) => fields != map[]
  }

  /** Python's `d.get(key, None)` on a decoded JSON object. */
  function Member(fields: map<string, Json>, key: string): (r: Option<Json>)
    ensures r.Some? <==> key in fields
    ensures r.Some? ==> r.value == fields[key]
  {
    if key in fields then Some(fields[key]) else None
  }

  /** A JSON string array holding `items` in order, as `json.dumps` sees a list of str. */
  function StrArray(items: seq<string>): (r: Json)
    ensures r.JArr? && |r.items| == |items|
    ensures forall i :: 0 <= i < |items| ==> r.items[i] == JStr(items[i])
  {
    JArr(seq(|items|, i requires 0 <= i < |items| => JStr(items[i])))
  }
}
