/** Decoded JSON documents, as kotlinx.serialization's `JsonElement` tree. */
module Json {
  import opened Wrappers

  datatype JsonValue =
    | JNull
    | JBool(b: bool)
    | JNumber(literal: string)
    | JString(s: string)
    | JArray(items: seq<JsonValue>)
    | JObject(fields: map<string, JsonValue>)

  /** Why a Kotlin JSON accessor throws. */
  datatype JsonError =
    | NotAnObject        // `.jsonObject` on an element that is not an object
    | NotAPrimitive      // `.jsonPrimitive` on an array or object

  /** `element.jsonPrimitive.content`: the text of a primitive; `JsonNull`'s text is "null". */
  function Content(v: JsonValue): (r: Result<string, JsonError>)
    ensures r.Err? <==> v.JArray? || v.JObject?
    ensures v.JString? ==> r == Ok(v.s)
    ensures v.JNull? ==> r == Ok("null")
  {
    match v
    case JNull => Ok("null")
    case JBool(b) => Ok(if b then "true" else "false")
    case JNumber(t) => Ok(t)
    case JString(s) => Ok(s)
    case JArray(_) => Err(NotAPrimitive)
    case JObject(_) => Err(NotAPrimitive)
  }
}
