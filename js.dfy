/**
 * The JavaScript values a controller reads from a request body's `data`
 * object, and the two JavaScript operations the validators rely on:
 * property lookup and truthiness.
 */
module Js {

  /**
   * A line item's `quantity`: absent (`undefined`), a number, or any other
   * value.  For a non-number, `belowOne` is the outcome of the JavaScript
   * comparison `quantity < 1`, whose coercion rules are not modelled.
   */
  datatype Quantity = Missing | Number(n: int) | NonNumber(belowOne: bool)

  /** An element of an order's `dishes` array, as the validators read it. */
  datatype LineItem = LineItem(dishId: Value, quantity: Quantity)

  /** A JSON value; numbers are integers and arrays are read as line items. */
  datatype Value =
    | Undefined
    | Null
    | Bool(b: bool)
    | Num(n: int)
    | Str(s: string)
    | Object
    | Array(items: seq<LineItem>)

  /** The request body's `data` object (`{}` when the body has none). */
  type Data = map<string, Value>

  /** `data[key]`: a property that is not there reads as `undefined`. */
  function Get(data: Data, key: string): Value
  {
    if key in data then data[key] else Undefined
  }

  /** JavaScript truthiness: `undefined`, `null`, `false`, `0` and `""` are falsy. */
  predicate Truthy(v: Value)
  {
    match v
    case Undefined => false
    case Null => false
    case Bool(b) => b
    case Num(n) => n != 0
    case Str(s) => s != ""
    case Object => true
    case Array(_) => true
  }
}
