/** The values a JSON document decodes to, as Python's `json.loads` produces them. */
module Json {

  /** A decoded JSON value; objects are dictionaries keyed by strings. */
  datatype Value =
    | Null
    | Bool(b: bool)
    | Num(n: real)
    | Str(s: string)
    | Arr(items: seq<Value>)
    | Obj(fields: map<string, Value>)
}
