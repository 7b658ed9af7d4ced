/**
 * JavaScript numbers, as far as the workout logic observes them: a finite
 * value (modelled as an exact real), the two infinities, or NaN.
 */
module Numbers {

  datatype Num = Finite(value: real) | PosInf | NegInf | NaN

  /** `Number.isFinite`. */
  predicate IsFinite(x: Num) {
    x.Finite?
  }

  /** The comparison `x > 0`: true for positive values and for +Infinity, false for NaN. */
  predicate IsPositive(x: Num) {
    match x
    case Finite(r) => r > 0.0
    case PosInf => true
    case NegInf => false
    case NaN => false
  }

  /**
   * The quotient `a / b` of two finite numbers. A zero divisor gives
   * +Infinity or -Infinity by the sign of the dividend, and NaN for 0 / 0.
   */
  function Divide(a: real, b: real): (q: Num)
    ensures b != 0.0 ==> q.Finite? && q.value * b == a
    ensures b == 0.0 ==> (q == PosInf <==> a > 0.0) && (q == NegInf <==> a < 0.0) && (q == NaN <==> a == 0.0)
  {
    if b != 0.0 then Finite(a / b)
    else if a > 0.0 then PosInf
    else if a < 0.0 then NegInf
    else NaN
  }
}
