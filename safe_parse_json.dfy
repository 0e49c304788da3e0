/**
 * `safeParseJSON`: JSON.parse with a fallback. JSON.parse itself is a
 * parameter, a partial parser that yields None where it would throw.
 */
module SafeParse {
  import opened Wrappers
  import opened JsValues

  /** JSON.parse: the parsed value, or None where JSON.parse throws. */
  type Parser = string -> Option<Json>

  /**
   * Null for a missing or empty string, the parsed value when parsing
   * succeeds, and the string itself when it does not. It never throws.
   */
  function SafeParseJSON(str: Option<string>, parse: Parser): (r: Json)
    ensures str.None? || str == Some("") ==> r == JNull
    ensures str.Some? && str.value != "" && parse(str.value).Some? ==> r == parse(str.value).value
    ensures str.Some? && str.value != "" && parse(str.value).None? ==> r == JString(str.value)
  {
    if str.None? || str.value == "" then JNull
    else
      match parse(str.value)
      case Some(v) => v
      case None => JString(str.value)
  }
}
