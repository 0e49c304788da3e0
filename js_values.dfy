/**
 * The JavaScript values that travel through the job handlers: JSON values as
 * JSON.parse produces them, their truthiness, and thrown Error objects.
 */
module JsValues {
  import opened Wrappers

  /** A value JSON.parse can return (numbers are rationals; NaN cannot be parsed). */
  datatype Json =
    | JNull
    | JBool(b: bool)
    | JNumber(n: real)
    | JString(s: string)
    | JArray(items: seq<Json>)
    | JObject(fields: seq<(string, Json)>)

  /** JavaScript's truthiness of a parsed value: null, false, 0 and "" are falsy. */
  predicate Truthy(v: Json) {
    match v
    case JNull => false
    case JBool(b) => b
    case JNumber(n) => n != 0.0
    case JString(s) => s != ""
    case _ => true
  }

  /** An optional string option is truthy when it is present and not empty. */
  predicate TruthyString(s: Option<string>) {
    s.Some? && s.value != ""
  }

  /** `s || fallback` for an optional string. */
  function OrElse(s: Option<string>, fallback: string): (r: string)
    ensures TruthyString(s) ==> r == s.value
    ensures !TruthyString(s) ==> r == fallback
  {
    if s.Some? && s.value != "" then s.value else fallback
  }

  /** `!!b` for an optional boolean option. */
  function TruthyBool(b: Option<bool>): (r: bool)
    ensures r <==> b == Some(true)
  {
    match b
    case Some(v) => v
    case None => false
  }

  /** A thrown Error: its message and its (possibly undefined) stack. */
  datatype JsError = JsError(message: string, stack: Option<string>)
}
