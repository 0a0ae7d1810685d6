/** JSON values as the client sees them after `JSON.parse`, and the two
    library entry points it relies on, kept uninterpreted. */
module Json {
  import opened Wrappers

  /** A JSON value. Object members are kept in whatever order `parse`
      yields them; numbers are kept abstract. */
  datatype JsonValue =
    | JNull
    | JBool(b: bool)
    | JNumber(n: real)
    | JString(s: string)
    | JArray(items: seq<JsonValue>)
    | JObject(members: seq<(string, JsonValue)>)

  /** The `{}` literal the client falls back to. */
  const EmptyObject: JsonValue := JObject([])

  /** `JSON.parse` (a partial function: `None` is a thrown `SyntaxError`)
      and `JSON.stringify`, both supplied by the runtime. */
  datatype JsonCodec = JsonCodec(parse: string -> Option<JsonValue>, stringify: JsonValue -> string)
}
