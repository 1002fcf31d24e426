/** JSON values as `JSON.stringify` writes them and `JSON.parse` reads them. Both
    functions stay abstract: every operation that needs them takes them as parameters. */
module Json {
  import opened Wrappers

  datatype Json =
    | JNull
    | JBool(b: bool)
    | JNumber(text: string)
    | JString(s: string)
    | JArray(items: seq<Json>)
    | JObject(fields: map<string, Json>)

  /** `v.key` on a parsed value: only objects have properties, anything else gives `undefined`. */
  function Get(v: Json, key: string): (r: Option<Json>)
    ensures r.Some? <==> v.JObject? && key in v.fields
  {
    if v.JObject? && key in v.fields then Some(v.fields[key]) else None
  }

  /** An object property whose value may be `undefined`: `JSON.stringify` leaves such a key out. */
  function Field(key: string, value: Option<Json>): (m: map<string, Json>)
    ensures key in m <==> value.Some?
    ensures m.Keys <= {key}
  {
    if value.Some? then map[key := value.value] else map[]
  }
}
