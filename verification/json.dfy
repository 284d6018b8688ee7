/**
 * Parsed JSON values, as `json.load` hands them to the importers. Numbers
 * are the integral ones the resource files contain.
 */
module Json {
  datatype Json =
    | JNull
    | JBool(b: bool)
    | JInt(n: int)
    | JStr(s: string)
    | JList(items: seq<Json>)
    | JObject(fields: map<string, Json>)

  /** One object of a resource file's top-level array. */
  type Record = map<string, Json>
}
