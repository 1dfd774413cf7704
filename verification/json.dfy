/** JSON-serialisable Python values, as far as the scanner's response envelope
    needs them, with Python's truth test on them. */
module Json {

  datatype Json =
    | JNull
    | JBool(b: bool)
    | JNumber(n: int)
    | JString(s: string)
    | JArray(items: seq<Json>)
    | JObject(fields: map<string, Json>)

  const EmptyObject: Json := JObject(map[])
  const EmptyArray: Json := JArray([])

  /** Python's `bool(v)`: None, False, zero and empty containers are false. */
  predicate Truthy(v: Json)
    ensures !Truthy(v) <==>
      v in {JNull, JBool(false), JNumber(0), JString(""), EmptyArray, EmptyObject}
  {
    match v
    case JNull => false
    case JBool(b) => b
    case JNumber(n) => n != 0
    case JString(s) => s != ""
    case JArray(items) => items != []
    case JObject(fields) => fields != map[]
  }
}
