/**
  The Python value that a decoded JSON document becomes, and that a JSON
  request body is built from. `JNull` is Python's `None`, so a function that
  returns "a string or `None`" returns a `Json` here.
 */
module Json {
  import opened Assoc

  datatype Json =
    | JNull
    | JBool(b: bool)
    | JNum(n: int)
    | JStr(s: string)
    | JArr(items: seq<Json>)
    | JObj(fields: Dict<string, Json>)

  /** Python's `bool(v)`: `None`, `False`, `0`, `""`, `[]` and `{}` are falsy. */
  predicate Truthy(v: Json) {
    match v
    case JNull => false
    case JBool(b) => b
    case JNum(n) => n != 0
    case JStr(s) => s != ""
    case JArr(items) => items != []
    case JObj(fields) => fields != []
  }

  /** A `Dict[str, str]` as the JSON object it is sent as. */
  function StrDict(m: Dict<string, string>): (o: Json)
    ensures o.JObj? && Keys(o.fields) == Keys(m)
    ensures forall k :: Get(m, k).Some? ==> Get(o.fields, k) == Some(JStr(Get(m, k).value))
  {
    if m == [] then JObj([])
    else
      var rest := StrDict(m[1..]);
      assert Keys(m) == [m[0].0] + Keys(m[1..]);
      JObj([(m[0].0, JStr(m[0].1))] + rest.fields)
  }
}
