/**
 * The values `json.loads` produces. Parsing and serialising text are done by
 * Python's json module and appear in this model only as function parameters
 * (`loads: string -> Option<Json>`, `None` standing for `JSONDecodeError`).
 */
module JsonValue {

  datatype Json =
    | JNull
    | JBool(b: bool)
    | JNumber(literal: string)
    | JString(s: string)
    | JArray(items: seq<Json>)
    | JObject(members: seq<(string, Json)>)
}
