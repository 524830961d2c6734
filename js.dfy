/**
 * The slice of JavaScript value semantics that the agents' string templates
 * and `||` fallbacks depend on: truthiness, `typeof`, and the conversion a
 * template literal `${v}` applies to a value.
 */
module Js {
  import opened Wrappers
  import Decimal

  /**
   * A JavaScript value. Numbers are integral; arrays, functions, symbols and
   * bigints are not represented. An object is its own-property map.
   */
  datatype Value =
    | Undefined
    | Null
    | Bool(b: bool)
    | Num(n: int)
    | Str(s: string)
    | Object(fields: map<string, Value>)

  /**
   * How an awaited call settles: with a value, or by throwing (rejecting).
   * `message` is the thrown value's `message` property, absent when the
   * thrown value has none.
   */
  datatype Outcome<+T> = Returned(value: T) | Threw(message: Option<string>)

  /** `Boolean(v)`. */
  predicate Truthy(v: Value) {
    match v
    case Undefined => false
    case Null => false
    case Bool(b) => b
    case Num(n) => n != 0
    case Str(s) => s != ""
    case Object(_) => true
  }

  /** `a || b`: the left operand when it is truthy, the right one otherwise. */
  function Or(a: Value, b: Value): Value {
    if Truthy(a) then a else b
  }

  /** `typeof v`. */
  function TypeOf(v: Value): string {
    match v
    case Undefined => "undefined"
    case Null => "object"
    case Bool(_) => "boolean"
    case Num(_) => "number"
    case Str(_) => "string"
    case Object(_) => "object"
  }

  /** `String(v)`, which is what `${v}` inserts into a template literal. */
  function Render(v: Value): string {
    match v
    case Undefined => "undefined"
    case Null => "null"
    case Bool(b) => if b then "true" else "false"
    case Num(n) => Decimal.IntToString(n)
    case Str(s) => s
    case Object(_) => "[object Object]"
  }

  /** An optional string property as a value: `undefined` when it is absent. */
  function OptionalValue(s: Option<string>): Value {
    match s
    case None => Undefined
    case Some(t) => Str(t)
  }

  /** `s || fallback` for an optional string (such as `error.message`): `s` when it is present and non-empty. */
  function OrDefault(s: Option<string>, fallback: string): (r: string)
    ensures s.Some? && s.value != "" ==> r == s.value
    ensures s.None? || s.value == "" ==> r == fallback
  {
    Render(Or(OptionalValue(s), Str(fallback)))
  }

  /** `{ ...v }`: the own properties an object spread copies; `undefined`, `null`, booleans and numbers spread to nothing. */
  function Spread(v: Value): map<string, Value> {
    match v
    case Object(fields) => fields
    case _ => map[]
  }
}
