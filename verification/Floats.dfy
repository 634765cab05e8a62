/** Floating-point numbers as far as they matter here: without rounding, but with the values that are not numbers. */
module Floats {

  datatype Float = NaN | NegInf | Num(r: real) | PosInf

  /** The comparison `a < b`; it fails for whatever is compared with NaN. */
  predicate Less(a: Float, b: Float) {
    match (a, b)
    case (NaN, _) => false
    case (_, NaN) => false
    case (Num(x), Num(y)) => x < y
    case (NegInf, _) => b != NegInf
    case (PosInf, _) => false
    case (Num(_), _) => b == PosInf
  }

  function Plus(a: Float, b: Float): Float {
    match (a, b)
    case (Num(x), Num(y)) => Num(x + y)
    case (Num(_), _) => b
    case (_, Num(_)) => a
    case _ => if a == b then a else NaN
  }

  function Negated(a: Float): Float {
    match a
    case NaN => NaN
    case NegInf => PosInf
    case Num(x) => Num(-x)
    case PosInf => NegInf
  }

  function Minus(a: Float, b: Float): Float {
    Plus(a, Negated(b))
  }

  /** Division of two numbers; by 0 it tells the sign of the dividend only. */
  function Quotient(a: real, b: real): Float {
    if b != 0.0 then Num(a / b) else if a > 0.0 then PosInf else if a < 0.0 then NegInf else NaN
  }

  /** A base greater than 1, to the power `x`; `pow` says it for numbers. */
  function Power(pow: real -> real, x: Float): Float {
    match x
    case NaN => NaN
    case NegInf => Num(0.0)
    case Num(r) => Num(pow(r))
    case PosInf => PosInf
  }
}
