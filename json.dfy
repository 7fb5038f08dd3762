/** Decoded JSON documents, as `json.load` hands them to the repair scripts. */
module JsonValue {

  /** A decoded JSON value. Arrays become Python lists and objects become
      Python dicts; numbers keep their literal text, since neither repair
      script looks at a number's value. */
  datatype Json =
    | JNull
    | JBool(b: bool)
    | JNumber(literal: string)
    | JString(s: string)
    | JArray(items: seq<Json>)
    | JObject(fields: map<string, Json>)

  /** Python's built-in `len` on a decoded value: strings, lists and dicts
      have a length; `len` of a number, a boolean or `None` raises
      `TypeError`, which is `None` here. */
  function PyLen(j: Json): (r: Option<nat>)
    ensures r.Some? <==> (j.JString? || j.JArray? || j.JObject?)
    ensures j.JArray? ==> r == Some(|j.items|)
    ensures j.JObject? ==> r == Some(|j.fields|)
    ensures j.JString? ==> r == Some(|j.s|)
  {
    match j
    case JString(s) => Some(|s|)
    case JArray(items) => Some(|items|)
    case JObject(fields) => Some(|fields|)
    case _ => None
  }

  datatype Option<+T> = None | Some(value: T)
}
