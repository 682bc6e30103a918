/** JavaScript numbers as the pricing code sees them: a finite value or NaN.
    Values are exact reals; IEEE rounding and the infinities are not modelled. */
module Numbers {

  datatype Num = Finite(value: real) | NaN

  /** `a + b`: NaN as soon as either operand is NaN. */
  function Plus(a: Num, b: Num): (r: Num)
    ensures r.Finite? <==> a.Finite? && b.Finite?
    ensures r.Finite? ==> r.value == a.value + b.value
  {
    if a.Finite? && b.Finite? then Finite(a.value + b.value) else NaN
  }

  /** `a - b`. */
  function Minus(a: Num, b: Num): (r: Num)
    ensures r.Finite? <==> a.Finite? && b.Finite?
    ensures r.Finite? ==> r.value == a.value - b.value
  {
    if a.Finite? && b.Finite? then Finite(a.value - b.value) else NaN
  }

  /** `a * b`. */
  function Times(a: Num, b: Num): (r: Num)
    ensures r.Finite? <==> a.Finite? && b.Finite?
    ensures r.Finite? ==> r.value == a.value * b.value
  {
    if a.Finite? && b.Finite? then Finite(a.value * b.value) else NaN
  }

  /** `a / d` for a non-zero constant divisor. */
  function DividedBy(a: Num, d: real): (r: Num)
    requires d != 0.0
    ensures r.Finite? <==> a.Finite?
    ensures r.Finite? ==> r.value * d == a.value
  {
    if a.Finite? then Finite(a.value / d) else NaN
  }

  /** `Number(x) || 0`: NaN and zero are falsy, so both become 0. */
  function OrZero(a: Num): (r: real)
    ensures a.Finite? && a.value != 0.0 ==> r == a.value
    ensures a.NaN? || a == Finite(0.0) ==> r == 0.0
  {
    if a.Finite? then a.value else 0.0
  }
}
