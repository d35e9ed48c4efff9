/**
  Float64 arithmetic with rounding abstracted away.

  A value is a finite real, one of the two infinities, or NaN, and the
  operations follow the rules of IEEE 754 for the special values: NaN is
  absorbing, a non-zero finite value over zero is an infinity of the
  matching sign, 0/0 and inf/inf are NaN, and a finite value over an
  infinity is zero. Signed zero is not distinguished (every zero is +0).
 */
module Floats {
  import opened Columns

  datatype Float = Finite(v: real) | PosInf | NegInf | NaN

  /** A Series entry as a float: a missing value is NaN. */
  function FromOption(o: Option<real>): Float {
    if o.Some? then Finite(o.value) else NaN
  }

  /** A float as a Series entry: NaN, and the infinities, read as undefined. */
  function ToOption(f: Float): Option<real> {
    if f.Finite? then Some(f.v) else None
  }

  function Neg(a: Float): Float {
    match a
    case Finite(x) => Finite(-x)
    case PosInf => NegInf
    case NegInf => PosInf
    case NaN => NaN
  }

  function Add(a: Float, b: Float): Float {
    match (a, b)
    case (NaN, _) => NaN
    case (_, NaN) => NaN
    case (PosInf, NegInf) => NaN
    case (NegInf, PosInf) => NaN
    case (PosInf, _) => PosInf
    case (_, PosInf) => PosInf
    case (NegInf, _) => NegInf
    case (_, NegInf) => NegInf
    case (Finite(x), Finite(y)) => Finite(x + y)
  }

  function Sub(a: Float, b: Float): Float {
    Add(a, Neg(b))
  }

  function Div(a: Float, b: Float): Float {
    match (a, b)
    case (NaN, _) => NaN
    case (_, NaN) => NaN
    case (Finite(x), Finite(y)) =>
      if y != 0.0 then Finite(x / y)
      else if x > 0.0 then PosInf
      else if x < 0.0 then NegInf
      else NaN
    case (Finite(_), _) => Finite(0.0)
    case (_, Finite(y)) => if y < 0.0 then Neg(a) else a
    case _ => NaN
  }
}
