/**
 * The slice of JavaScript value semantics that the node callbacks rely on:
 * JSON-shaped values, `typeof x === 'number'`, `isNaN`, truthiness (what `&&`,
 * `||` and `!` test) and reading a property off a value.
 */
module Js {

  /** A JavaScript number: NaN, an infinity, or a finite value. */
  datatype Number = NaN | Infinity(negative: bool) | Finite(value: real)

  /**
   * A JavaScript value as it appears in a parsed decision-tree record.
   * An object is its own enumerable properties; key order is not modelled.
   */
  datatype JsValue =
    | Undefined
    | Null
    | Bool(b: bool)
    | Num(n: Number)
    | Str(s: string)
    | Arr(elems: seq<JsValue>)
    | Obj(props: map<string, JsValue>)

  /** `typeof v === 'number'`. */
  predicate IsNumber(v: JsValue) {
    v.Num?
  }

  /** `isNaN(v)` for a value already known to be a number. */
  predicate IsNaN(v: JsValue)
    requires IsNumber(v)
  {
    v.n.NaN?
  }

  /** JavaScript truthiness: the falsy values are undefined, null, false, 0, NaN and "". */
  predicate Truthy(v: JsValue) {
    match v
    case Undefined => false
    case Null => false
    case Bool(b) => b
    case Num(n) => !(n.NaN? || n == Finite(0.0))
    case Str(s) => s != ""
    case Arr(_) => true
    case Obj(_) => true
  }

  /**
   * `v.name` for the property names the callbacks read (`id`): an own property of
   * an object, and `undefined` for every other value (primitives and arrays carry
   * no such property).
   */
  function Property(v: JsValue, name: string): JsValue {
    if v.Obj? && name in v.props then v.props[name] else Undefined
  }

  /** Reading a field out of a destructured record: a missing key reads as `undefined`. */
  function Field(record: map<string, JsValue>, name: string): JsValue {
    if name in record then record[name] else Undefined
  }

  /** `a || b` on values: the first operand when it is truthy, else the second. */
  function Or(a: JsValue, b: JsValue): JsValue {
    if Truthy(a) then a else b
  }
}
