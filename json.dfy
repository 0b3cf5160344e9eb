/** A parsed JSON value, as `json.loads` returns it and as the state's
    `current_analysis` dictionary and Supabase rows hold it. */
module Json {
  import opened Wrappers
  import opened Text

  datatype Json =
    | JNull
    | JBool(b: bool)
    | JInt(n: int)
    | JStr(s: string)
    | JArray(items: seq<Json>)
    | JObject(fields: map<string, Json>)

  /** Python truthiness of the value (`if not value`). */
  predicate Truthy(j: Json) {
    match j
    case JNull => false
    case JBool(b) => b
    case JInt(n) => n != 0
    case JStr(s) => s != []
    case JArray(items) => items != []
    case JObject(fields) => fields != map[]
  }

  /** `d.get(key)` on an object; None for a missing key. */
  function Get(j: Json, key: string): Option<Json> {
    if j.JObject? && key in j.fields then Some(j.fields[key]) else None
  }

  /** Python `str(value)` inside an f-string, for the scalar values; a list or an
      object renders as the empty string here. */
  function Render(j: Json): string {
    match j
    case JNull => "None"
    case JBool(b) => if b then "True" else "False"
    case JInt(n) => IntToString(n)
    case JStr(s) => s
    case JArray(_) => ""
    case JObject(_) => ""
  }
}
