/**
 * The JSON values exchanged with the rosbridge server and with browser sessions,
 * together with the Gson accessors the gateway relies on (`get`, `has`,
 * `getAsString`, `getAsDouble`). Numbers are modelled as reals.
 */
module Json {
  import opened Wrappers

  datatype Json =
    | JNull
    | JBool(b: bool)
    | JNum(n: real)
    | JStr(s: string)
    | JArr(items: seq<Json>)
    | JObj(fields: map<string, Json>)

  /** `JsonObject.get(key)`: the member stored under `key`, absent when `j` is not an object. */
  function Get(j: Json, key: string): (r: Option<Json>)
    ensures r.Some? <==> j.JObj? && key in j.fields
    ensures r.Some? ==> r.value == j.fields[key]
  {
    if j.JObj? && key in j.fields then Some(j.fields[key]) else None
  }

  /**
   * `JsonElement.getAsString()`: strings and booleans read as text, a one-element
   * array reads as its element, everything else throws (modelled as `None`).
   */
  function AsString(j: Json): (r: Option<string>)
    ensures j.JStr? ==> r == Some(j.s)
    ensures j.JNull? || j.JObj? ==> r.None?
    ensures j.JArr? && |j.items| != 1 ==> r.None?
  {
    match j
    case JStr(s) => Some(s)
    case JBool(b) => Some(if b then "true" else "false")
    case JArr(items) => if |items| == 1 then AsString(items[0]) else None
    case _ => None
  }

  /**
   * `JsonElement.getAsDouble()`: numbers read as their value, a one-element
   * array reads as its element, everything else throws (modelled as `None`).
   */
  function AsReal(j: Json): (r: Option<real>)
    ensures j.JNum? ==> r == Some(j.n)
    ensures j.JStr? || j.JNull? || j.JBool? || j.JObj? ==> r.None?
  {
    match j
    case JNum(n) => Some(n)
    case JArr(items) => if |items| == 1 then AsReal(items[0]) else None
    case _ => None
  }

  /** The member stored under `key`, JSON null when `j` is not an object or has no such member. */
  function Field(j: Json, key: string): (r: Json)
    ensures Get(j, key).Some? ==> r == Get(j, key).value
    ensures Get(j, key).None? ==> r == JNull
  {
    if j.JObj? && key in j.fields then j.fields[key] else JNull
  }
}
