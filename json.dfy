/**
 * A parsed JSON body as the Android `org.json` classes present it to the
 * provisioning screens. Parsing the response text is not modelled: a body
 * arrives already parsed, or as `Malformed` (see module Exchange).
 */
module JsonValue {
  import opened Wrappers

  /**
   * `JLiteral` stands for a number, `true`, `false` or `null`, carrying the
   * text the library gives it when it is read as a string.
   */
  datatype Json =
    | JString(s: string)
    | JLiteral(text: string)
    | JArray(items: seq<Json>)
    | JObject(fields: map<string, Json>)

  type Object = map<string, Json>

  datatype JsonError =
    | Unparseable
    | Missing(name: string)
    | NotAString(name: string)
    | NotAnArray(name: string)
    | NotAnObject(index: nat)

  /** Android's coercion of a stored value to a string: strings as they are, literals as their text. */
  function ScalarText(v: Json): Option<string> {
    match v
    case JString(s) => Some(s)
    case JLiteral(t) => Some(t)
    case _ => None
  }

  /** `JSONObject.getString(name)`: throws when the name is absent or the value is not a scalar. */
  function GetString(o: Object, name: string): Result<string, JsonError> {
    if name !in o then Failure(Missing(name))
    else match ScalarText(o[name])
      case Some(t) => Success(t)
      case None => Failure(NotAString(name))
  }

  /** `JSONObject.optString(name, fallback)`: never throws, falls back where getString would throw. */
  function OptString(o: Object, name: string, fallback: string): string {
    if name in o && ScalarText(o[name]).Some? then ScalarText(o[name]).value else fallback
  }

  /** `JSONObject.getJSONArray(name)`. */
  function GetArray(o: Object, name: string): Result<seq<Json>, JsonError> {
    if name !in o then Failure(Missing(name))
    else if o[name].JArray? then Success(o[name].items)
    else Failure(NotAnArray(name))
  }

  /** `JSONArray.getJSONObject(index)`. */
  function GetObject(items: seq<Json>, index: nat): Result<Object, JsonError>
    requires index < |items|
  {
    if items[index].JObject? then Success(items[index].fields) else Failure(NotAnObject(index))
  }

  /** The lenient read agrees with the strict one wherever the strict one succeeds, and falls back exactly where it throws. */
  lemma OptStringAgreesWithGetString(o: Object, name: string, fallback: string)
    ensures GetString(o, name).Success? ==> OptString(o, name, fallback) == GetString(o, name).value
    ensures GetString(o, name).Failure? ==> OptString(o, name, fallback) == fallback
  {
  }
}
