/**
  A JSON document after parsing, as Python's json module hands it over:
  null, booleans, integers, strings, arrays and objects keyed by strings.
  The text layer (json.dumps / json.loads) is not modelled.
 */
module Json {

  datatype Json =
    | JNull
    | JBool(b: bool)
    | JInt(i: int)
    | JString(s: string)
    | JArray(items: seq<Json>)
    | JObject(fields: map<string, Json>)

  /** A JSON object, the shape of a Python Dict[str, Any] that survives json.dumps. */
  type Object = map<string, Json>
}
