/**
  The slice of JavaScript value semantics the modelled code depends on:
  what `parseFloat` returns, what a decoded JSON body holds, which values
  are truthy, and how a template literal prints a value.
 */
module Js {

  /** A number produced by `parseFloat`: NaN or a finite value (Infinity is not modelled). */
  datatype Float = NaN | Finite(v: real)

  /** `0` and `NaN` are falsy; every other number is truthy. */
  predicate FloatTruthy(n: Float) {
    n.Finite? && n.v != 0.0
  }

  /** The expression `n || fallback` on a parsed number. */
  function FloatOr(n: Float, fallback: real): real {
    if FloatTruthy(n) then n.v else fallback
  }

  /**
    A property read from a decoded JSON body; `Undefined` is a missing property.
    `Numeric` carries the text JavaScript prints for the number, `Composite`
    (an array or object) the text its string conversion yields. `Unconvertible`
    is an object whose conversion to a primitive throws a TypeError, such as
    `{"toString": 1}`: neither `toString` nor `valueOf` yields a primitive.
   */
  datatype Value =
    | Undefined
    | Null
    | Boolean(b: bool)
    | Numeric(n: real, shown: string)
    | Text(s: string)
    | Composite(shown: string)
    | Unconvertible

  /** JavaScript truthiness: `undefined`, `null`, `false`, `0` and `""` are falsy. */
  predicate Truthy(v: Value) {
    match v
    case Undefined => false
    case Null => false
    case Boolean(b) => b
    case Numeric(n, _) => n != 0.0
    case Text(s) => s != ""
    case Composite(_) => true
    case Unconvertible => true
  }

  /** String conversion of the value succeeds. */
  predicate Printable(v: Value) {
    !v.Unconvertible?
  }

  /** What `${v}` inside a template literal produces; also the key a property lookup `table[v]` uses. */
  function Interpolate(v: Value): string
    requires Printable(v)
  {
    match v
    case Undefined => "undefined"
    case Null => "null"
    case Boolean(b) => if b then "true" else "false"
    case Numeric(_, shown) => shown
    case Text(s) => s
    case Composite(shown) => shown
  }

}
