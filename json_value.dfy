/**
 * The decoded form of a JSON frame. The agents exchange dictionaries whose
 * values are strings, numbers, booleans, null or nested dictionaries; this is
 * the level at which every message is modelled (JSON text is not).
 */
module JsonValue {
  import opened Wrappers

  datatype Value =
    | Null
    | Bool(b: bool)
    | Int(i: int)
    | Str(s: string)
    | Obj(fields: Dict)

  type Dict = map<string, Value>

  /** `d.get(key)`: the entry, or None when the key is absent. */
  function Get(d: Dict, key: string): (r: Option<Value>)
    ensures r.Some? <==> key in d
    ensures r.Some? ==> r.value == d[key]
  {
    if key in d then Some(d[key]) else None
  }

  /** `d.get(key, default)`. */
  function GetOr(d: Dict, key: string, default: Value): (r: Value)
    ensures key in d ==> r == d[key]
    ensures key !in d ==> r == default
  {
    if key in d then d[key] else default
  }

  /** Python truthiness of a string: only the empty string is false. */
  predicate NonEmpty(s: string) {
    s != []
  }
}
