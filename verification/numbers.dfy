/** The values a JavaScript number expression in the spotlight can take:
    exact finite amounts, plus the infinities and NaN that division by a zero
    installment count produces. */
module Numbers {
  import opened Cents

  datatype Num = Finite(value: real) | PosInfinity | NegInfinity | NaN

  /** `a / n` with IEEE 754 division by zero: a non-zero numerator gives the
      infinity of its sign, `0 / 0` gives NaN. */
  function Divide(a: real, n: int): (r: Num)
    ensures n != 0 <==> r.Finite?
    ensures r.Finite? ==> r.value * n as real == a
    ensures n == 0 && a > 0.0 ==> r == PosInfinity
    ensures n == 0 && a < 0.0 ==> r == NegInfinity
    ensures r == NaN <==> n == 0 && a == 0.0
  {
    if n != 0 then Finite(a / n as real)
    else if a > 0.0 then PosInfinity
    else if a < 0.0 then NegInfinity
    else NaN
  }

  /** `a + x` for a finite `a`: infinities and NaN absorb it. */
  function AddFinite(a: real, x: Num): (r: Num)
    ensures r.Finite? <==> x.Finite?
    ensures r.Finite? ==> r.value - a == x.value
    ensures !x.Finite? ==> r == x
  {
    match x
    case Finite(v) => Finite(a + v)
    case _ => x
  }

  /** `Math.ceil(x * 100) / 100`: finite values are rounded up to the cent;
      the infinities and NaN pass through unchanged. */
  function CeilCentsNum(x: Num): (r: Num)
    ensures r.Finite? <==> x.Finite?
    ensures r.Finite? ==> IsCents(r.value) && x.value <= r.value < x.value + 0.01
    ensures !x.Finite? ==> r == x
  {
    match x
    case Finite(v) => Finite(CeilCents(v))
    case _ => x
  }
}
