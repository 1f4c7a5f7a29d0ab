/**
 * How JavaScript turns the report's values into text inside template literals.
 * Number formatting (`toFixed(2)` and the default number-to-string conversion)
 * is floating-point formatting; it is not defined here but passed in as a pair
 * of functions, so every property proved below holds whatever they return.
 */
module JsText {
  import opened Wrappers

  /** The two number-to-text conversions the bot uses. */
  datatype NumberText = NumberText(
    fixed2: real -> string,  // `x.toFixed(2)`
    show: real -> string     // `${x}` in a template literal
  )

  /** `${b}` for a boolean. */
  function ShowBool(b: bool): string {
    if b then "true" else "false"
  }

  /** `${s}` for a string that may be `null`. */
  function ShowNullable(s: Option<string>): string {
    match s
    case None => "null"
    case Some(v) => v
  }
}
