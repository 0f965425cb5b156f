/**
 * The JSON values a content document is made of, as they stand after the
 * document has been read.  Numbers are exact reals, not double-precision
 * values: rounding, and a literal too large for a double becoming an
 * infinity, are not represented.  An object maps each key to its value (when
 * a document repeats a key, the last occurrence is the one that was kept).
 */
module JsonValue {
  import opened Wrappers

  datatype Json =
    | JNull
    | JBool(b: bool)
    | JNum(n: real)
    | JStr(s: string)
    | JArr(items: seq<Json>)
    | JObj(fields: map<string, Json>)

  /** The value stored under `key`, or None when the object has no such key. */
  function Lookup(o: map<string, Json>, key: string): (r: Option<Json>)
    ensures r.Some? <==> key in o
    ensures r.Some? ==> r.value == o[key]
  {
    if key in o then Some(o[key]) else None
  }
}
