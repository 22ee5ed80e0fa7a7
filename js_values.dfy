/** The JavaScript values a caller can hand to a `Step`, as far as the step
    looks at them: the only question it ever asks is `Number.isInteger`. */
module JsValues {

  /** A JavaScript value. Numbers are finite doubles, written as reals;
      `NaN` and the infinities are grouped as `NotFinite`. */
  datatype JsValue =
    | Undefined
    | Null
    | Boolean(b: bool)
    | Number(x: real)
    | NotFinite
    | BigInt(n: int)
    | Str(s: string)
    | Object

  /** `Number.isInteger(v)`: true exactly for a finite number with no fractional part
      (a BigInt is not a Number, so it is false for one). */
  predicate IsInteger(v: JsValue) {
    v.Number? && v.x.Floor as real == v.x
  }

  /** The integer an integral number denotes. */
  function IntegerValue(v: JsValue): (n: int)
    requires IsInteger(v)
    ensures n as real == v.x
  {
    v.x.Floor
  }

  /** The number value of a JavaScript integer, as `pullForward(this.#vel)` passes it. */
  function FromInt(n: int): (v: JsValue)
    ensures IsInteger(v) && IntegerValue(v) == n
  {
    Number(n as real)
  }
}
