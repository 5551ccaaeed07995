/** Decoded JSON values, as the formatters receive them from the Perfecto API. */
module Json {
  import opened Wrappers

  /** A JSON value; `Null` also stands for Python's `None`. Numbers are integers here. */
  datatype Value =
    | Null
    | Bool(b: bool)
    | Int(i: int)
    | Str(s: string)
    | Array(elems: seq<Value>)
    | Object(fields: map<string, Value>)

  /** Python's `d.get(key, default)`. */
  function GetOr(d: map<string, Value>, key: string, default: Value): (v: Value)
    ensures key in d ==> v == d[key]
    ensures key !in d ==> v == default
  {
    if key in d then d[key] else default
  }

  /** Python's `d.get(key)`: a missing key gives `None`. */
  function Get(d: map<string, Value>, key: string): Value {
    GetOr(d, key, Null)
  }

  /** Python's `len(v) > 0` on a string, list or dict; `None` means `len` raises. */
  function NonEmpty(v: Value): Option<bool> {
    match v
    case Str(s) => Some(|s| > 0)
    case Array(a) => Some(|a| > 0)
    case Object(m) => Some(|m| > 0)
    case _ => None
  }
}
