/**
 * The numeric vocabulary shared by the model: the circle constant, kept
 * abstract, and the part of JavaScript's number type that the modelled code
 * can reach (finite values, the two infinities and NaN). Floating-point
 * rounding is not modelled: finite values are exact reals.
 */
module Numbers {

  type Positive = r: real | r > 0.0 witness 1.0

  /** The circle constant. Only the fact that it is positive is known. */
  const PiValue: Positive
  const PI: real := PiValue

  datatype JsNumber = Finite(value: real) | PosInfinity | NegInfinity | NaN

  function Abs(x: real): (r: real)
    ensures r >= 0.0 && (r == x || r == -x)
  {
    if x < 0.0 then -x else x
  }

  /** JavaScript's `a / b` on finite operands. */
  function Div(a: real, b: real): (r: JsNumber)
    ensures r.Finite? <==> b != 0.0
    ensures r.Finite? ==> r.value * b == a
    ensures r == NaN <==> a == 0.0 && b == 0.0
    ensures r == PosInfinity <==> b == 0.0 && a > 0.0
  {
    if b != 0.0 then Finite(a / b)
    else if a > 0.0 then PosInfinity
    else if a < 0.0 then NegInfinity
    else NaN
  }

  /** JavaScript's `x * k` for a positive finite factor `k`. */
  function Scale(x: JsNumber, k: Positive): (r: JsNumber)
    ensures r.Finite? <==> x.Finite?
    ensures r.Finite? ==> r.value == x.value * k
    ensures !x.Finite? ==> r == x
  {
    match x
    case Finite(v) => Finite(v * k)
    case _ => x
  }

  /** JavaScript's `x + k` for a finite addend `k`. */
  function Offset(x: JsNumber, k: real): (r: JsNumber)
    ensures r.Finite? <==> x.Finite?
    ensures r.Finite? ==> r.value - k == x.value
    ensures !x.Finite? ==> r == x
  {
    match x
    case Finite(v) => Finite(v + k)
    case _ => x
  }
}
