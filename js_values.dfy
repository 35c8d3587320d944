/**
 * The fragment of JavaScript's value and number semantics that the widget's
 * numeric pipeline relies on. Numbers are exact reals or NaN: IEEE-754
 * rounding, the infinities and negative zero are not modelled.
 */
module JsValues {

  /** A JavaScript number: NaN or a finite value. */
  datatype Num = NaN | Fin(v: real)

  /** The JavaScript values that appear in a sensor-directory row. */
  datatype JsValue = Undefined | Number(num: Num) | Text(text: string)

  /** The exceptions the modelled code can throw. */
  datatype JsError = TypeError(message: string)

  /** `a + b`: NaN if either operand is NaN. */
  function Add(a: Num, b: Num): (r: Num)
    ensures r.NaN? <==> a.NaN? || b.NaN?
  {
    if a.Fin? && b.Fin? then Fin(a.v + b.v) else NaN
  }

  /** `a - b`: NaN if either operand is NaN. */
  function Sub(a: Num, b: Num): (r: Num)
    ensures r.NaN? <==> a.NaN? || b.NaN?
  {
    if a.Fin? && b.Fin? then Fin(a.v - b.v) else NaN
  }

  /** `k * a` for a finite constant `k`. */
  function Scale(k: real, a: Num): (r: Num)
    ensures r.NaN? <==> a.NaN?
  {
    if a.Fin? then Fin(k * a.v) else NaN
  }

  /** `a / k` for a non-zero constant `k`. */
  function DivBy(a: Num, k: real): (r: Num)
    requires k != 0.0
    ensures r.NaN? <==> a.NaN?
  {
    if a.Fin? then Fin(a.v / k) else NaN
  }

  /** `a > c`: every comparison with NaN is false. */
  predicate Greater(a: Num, c: real)
  {
    a.Fin? && a.v > c
  }

  /** `a < c`. */
  predicate Less(a: Num, c: real)
  {
    a.Fin? && a.v < c
  }

  /** `a >= c`. */
  predicate AtLeast(a: Num, c: real)
  {
    a.Fin? && a.v >= c
  }

  /**
   * `Math.round(x)`: the nearest integer, halves rounded towards +infinity.
   */
  function Round(x: real): (r: int)
    ensures r as real - 0.5 <= x < r as real + 0.5
  {
    (x + 0.5).Floor
  }

  /** JavaScript falsiness of a number: NaN and 0 are falsy, every other number is truthy. */
  predicate Falsy(x: Num)
  {
    x.NaN? || x == Fin(0.0)
  }

  /** `x || 0`: a falsy number gives 0, a truthy one gives itself; the result is never NaN. */
  function OrZero(x: Num): (r: Num)
    ensures r.Fin?
    ensures Falsy(x) <==> r == Fin(0.0)
    ensures !Falsy(x) ==> r == x
  {
    if Falsy(x) then Fin(0.0) else x
  }
}
