/** JSON values as the policy engine and the templates exchange them: the
    Go values `nil`, `bool`, `float64`, `string`, `[]any` and
    `map[string]any` that `encoding/json` and gjson produce. */
module Json {

  datatype Json =
    | JNull
    | JBool(b: bool)
    | JNumber(n: real)
    | JString(s: string)
    | JArray(items: seq<Json>)
    | JObject(fields: map<string, Json>)
}
