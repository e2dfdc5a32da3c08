/** JSON values as `json.loads` hands them to Python code. */
module JsonValues {
  /** A decoded JSON value; numbers with a fraction are not modelled. */
  datatype Json =
    | JNull
    | JBool(b: bool)
    | JInt(i: int)
    | JStr(s: string)
    | JArray(items: seq<Json>)
    | JObject(fields: map<string, Json>)

  /** Python's `d == v` for an `int` d: a JSON integer compares by value,
      `true` and `false` equal 1 and 0 (a `bool` is an `int`), and a string,
      `null`, a list or an object equals no integer. */
  predicate EqualsInt(v: Json, d: int) {
    match v
    case JInt(i) => i == d
    case JBool(b) => (if b then 1 else 0) == d
    case _ => false
  }
}
