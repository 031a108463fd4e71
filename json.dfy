/** JSON values as the backend stores them in `raw_data` and `processed_data` columns. */
module Json {

  datatype Json =
    | JNull
    | JBool(b: bool)
    | JInt(i: int)
    | JReal(r: real)
    | JStr(s: string)
    | JList(items: seq<Json>)
    | JObject(fields: map<string, Json>)

  /** `key in value` for a dict; false for every other value. */
  predicate HasKey(value: Json, key: string) {
    value.JObject? && key in value.fields
  }
}
