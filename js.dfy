/**
 * JavaScript values as they reach the handlers in a parsed JSON body or an
 * environment lookup, and the two operators the code applies to them:
 * truthiness (`!x`, `x || fallback`) and template interpolation (`${x}`).
 */
module Js {
  import opened Wrappers

  /**
   * A JSON/JavaScript value. Strings are kept exactly; every other kind is kept
   * only as far as the code observes it: its text when interpolated and whether
   * it is truthy (a number 0 is `Other("0", false)`, an object `Other("[object Object]", true)`).
   */
  datatype Value = Undefined | Null | Str(s: string) | Other(repr: string, truthy: bool)

  /** A parsed JSON object, such as a request body: field name to value. */
  type Body = map<string, Value>

  /**
   * What `await req.json()` gives a handler: an object's fields; the JSON
   * `null`, which parses but whose first field read throws; or a parse
   * failure, which lands in the handler's `catch` at once. Any other JSON
   * value reads as an object without the fields the handlers look at.
   */
  datatype Request = Parsed(fields: Body) | NullBody | Malformed(reason: string)

  /** The message of the `TypeError` thrown by reading field `f` of `null`. */
  function NullFieldError(f: string): string {
    "Cannot read properties of null (reading '" + f + "')"
  }

  /** `body[f]`: an absent field reads as `undefined`. */
  function Field(body: Body, f: string): Value {
    if f in body then body[f] else Undefined
  }

  /** JavaScript truthiness. */
  predicate Truthy(v: Value) {
    match v
    case Str(s) => s != ""
    case Other(_, t) => t
    case _ => false
  }

  /** A value that is a non-empty string: passes `!v || typeof v !== "string"` unrejected. */
  predicate NonEmptyString(v: Value) {
    v.Str? && v.s != ""
  }

  /** `${v}` inside a template string. */
  function Text(v: Value): string {
    match v
    case Undefined => "undefined"
    case Null => "null"
    case Str(s) => s
    case Other(r, _) => r
  }

  /** `v || fallback` with a string fallback. */
  function OrElse(v: Value, fallback: string): (r: Value)
    ensures Truthy(v) ==> r == v
    ensures !Truthy(v) ==> r == Str(fallback)
  {
    if Truthy(v) then v else Str(fallback)
  }

  /** `${v || fallback}` renders as `line`: the value's text when it is truthy, otherwise the fallback. */
  predicate RendersOr(line: string, v: Value, fallback: string) {
    (Truthy(v) && line == Text(v)) || (!Truthy(v) && line == fallback)
  }

  /** `s || fallback` on a value already known to be a string (a database text column). */
  function Or(s: string, fallback: string): string {
    if s != "" then s else fallback
  }

  /** A text that may be absent (an environment variable read with `Deno.env.get`, a nullable column) is usable when it is present and non-empty. */
  predicate Present(t: Option<string>) {
    t.Some? && t.value != ""
  }

  /** `t || fallback` on a text that may be absent. */
  function PresentOr(t: Option<string>, fallback: string): string {
    if Present(t) then t.value else fallback
  }
}
