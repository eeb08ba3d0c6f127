/**
 * The JavaScript values the core inspects: parsed JSON bodies with their
 * truthiness, property access and string conversion, and the numbers that
 * `Number(...)` produces on the server.
 */
module JsValues {
  import opened Wrappers

  /**
   * A value produced by `JSON.parse`. A number carries its value and the text
   * `String(n)` gives for it, since JavaScript's number formatting is not
   * modelled.
   */
  datatype Json =
    | JNull
    | JBool(b: bool)
    | JNum(n: real, text: string)
    | JStr(s: string)
    | JArr(items: seq<Json>)
    | JObj(fields: map<string, Json>)

  /** JavaScript truthiness of a possibly undefined value (`None` is `undefined`). */
  predicate Truthy(v: Option<Json>) {
    match v
    case None => false
    case Some(JNull) => false
    case Some(JBool(b)) => b
    case Some(JNum(n, _)) => n != 0.0
    case Some(JStr(s)) => s != ""
    case Some(JArr(_)) => true
    case Some(JObj(_)) => true
  }

  /**
   * `v?.key` for the property names the core reads: an object's own property,
   * and `undefined` for everything else (none of those names is an inherited
   * property of strings, numbers or arrays).
   */
  function Get(v: Option<Json>, key: string): (r: Option<Json>)
    ensures r.Some? <==> v.Some? && v.value.JObj? && key in v.value.fields
    ensures r.Some? ==> r.value == v.value.fields[key]
  {
    match v
    case Some(JObj(fields)) => if key in fields then Some(fields[key]) else None
    case _ => None
  }

  /** `Array.isArray(v)`. */
  predicate IsArray(v: Option<Json>) {
    v.Some? && v.value.JArr?
  }

  /** Joins texts with a separator, as `Array.prototype.join` does. */
  function Join(texts: seq<string>, sep: string): string {
    if texts == [] then ""
    else if |texts| == 1 then texts[0]
    else texts[0] + sep + Join(texts[1..], sep)
  }

  /** `String(v)`, as a template literal `${v}` converts a parsed JSON value. */
  function ToText(v: Json): string {
    match v
    case JNull => "null"
    case JBool(b) => if b then "true" else "false"
    case JNum(_, text) => text
    case JStr(s) => s
    case JArr(items) =>
      // an array prints as its elements joined by commas, null ones as ""
      Join(seq(|items|, i requires 0 <= i < |items| =>
        if items[i] == JNull then "" else ToText(items[i])), ",")
    case JObj(_) => "[object Object]"
  }

  /** A number as `Number(...)` produces it: finite, NaN or one of the infinities. */
  datatype JsNumber = Finite(value: real) | NaN | Infinity | NegInfinity

  /** `Number.isFinite(x)`. */
  predicate IsFinite(x: JsNumber) {
    x.Finite?
  }

  /** `x < c` for a finite constant `c`; NaN compares false with everything. */
  predicate LessThan(x: JsNumber, c: real) {
    match x
    case Finite(v) => v < c
    case NaN => false
    case Infinity => false
    case NegInfinity => true
  }

  /** `x > c` for a finite constant `c`. */
  predicate GreaterThan(x: JsNumber, c: real) {
    match x
    case Finite(v) => v > c
    case NaN => false
    case Infinity => true
    case NegInfinity => false
  }

  /** `x >= c` for a finite constant `c`. */
  predicate AtLeast(x: JsNumber, c: real) {
    match x
    case Finite(v) => v >= c
    case NaN => false
    case Infinity => true
    case NegInfinity => false
  }
}
