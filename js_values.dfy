/**
 * The JSON values a request handler finds in a parsed request body, and the two
 * JavaScript tests the handlers apply to them: truthiness (`!x`, `x || y`) and
 * `typeof x === "number"`.
 *
 * Numbers are integers here; fractional numbers and NaN are not modelled.
 * Objects and arrays are one opaque, truthy value.
 */
module JsValues {
  import opened Wrappers

  datatype JsValue =
    | Undefined
    | Null
    | Bool(boolean: bool)
    | Num(number: int)
    | Str(text: string)
    | Obj

  /** JavaScript truthiness: `undefined`, `null`, `false`, `0` and `""` are falsy. */
  predicate Truthy(v: JsValue)
  {
    match v
    case Undefined => false
    case Null => false
    case Bool(b) => b
    case Num(n) => n != 0
    case Str(s) => s != ""
    case Obj => true
  }

  /** `typeof v === "number" ? v : fallback` */
  function NumberOr(v: JsValue, fallback: int): int
  {
    if v.Num? then v.number else fallback
  }

  /** Truthiness of a string field of a typed request body: absent or empty is falsy. */
  predicate Given(field: Option<string>)
  {
    field.Some? && field.value != ""
  }

  /** Truthiness of a number field of a typed request body: absent or zero is falsy. */
  predicate GivenNumber(field: Option<int>)
  {
    field.Some? && field.value != 0
  }
}
