/**
 * Doubles as the greedy decoder uses them: a real value or one of the IEEE 754
 * special values (+inf, -inf, NaN). Rounding is not modelled; what is modelled
 * is how the special values arise from `Math.log`, propagate through `+`, `-`
 * and `/`, and compare under `<`.
 */
module ExtendedReals {
  import opened LogMath

  datatype XReal = NegInf | Finite(value: real) | PosInf | NaN

  /** Unary minus. */
  function Neg(x: XReal): XReal
  {
    match x
    case NegInf => PosInf
    case Finite(v) => Finite(-v)
    case PosInf => NegInf
    case NaN => NaN
  }

  /** IEEE addition: NaN is absorbing, and +inf + -inf is NaN. */
  function Plus(x: XReal, y: XReal): XReal
  {
    if x.NaN? || y.NaN? then NaN
    else if (x.PosInf? && y.NegInf?) || (x.NegInf? && y.PosInf?) then NaN
    else if x.PosInf? || y.PosInf? then PosInf
    else if x.NegInf? || y.NegInf? then NegInf
    else Finite(x.value + y.value)
  }

  /** Division by a non-negative integer; x / 0 is +-inf for x != 0 and NaN for 0 and NaN. */
  function DivBy(x: XReal, d: nat): XReal
  {
    if d > 0 then
      match x
      case Finite(v) => Finite(v / d as real)
      case _ => x
    else
      match x
      case Finite(v) => if v > 0.0 then PosInf else if v < 0.0 then NegInf else NaN
      case _ => x
  }

  /** `Math.log` of a double: -inf at 0, NaN below 0. */
  function LogOf(p: real): XReal
  {
    if p > 0.0 then Finite(Log(p)) else if p == 0.0 then NegInf else NaN
  }

  /** IEEE `<`: false whenever NaN is involved. */
  predicate Less(x: XReal, y: XReal)
  {
    match (x, y)
    case (NegInf, Finite(_)) => true
    case (NegInf, PosInf) => true
    case (Finite(a), Finite(b)) => a < b
    case (Finite(_), PosInf) => true
    case _ => false
  }

  /** Without NaN, `<` is a strict total order; NaN is below and above nothing. */
  lemma LessIsStrictTotalOrder(x: XReal, y: XReal, z: XReal)
    ensures !Less(x, x)
    ensures Less(x, y) && Less(y, z) ==> Less(x, z)
    ensures !x.NaN? && !y.NaN? ==> Less(x, y) || x == y || Less(y, x)
    ensures x.NaN? ==> !Less(x, y) && !Less(y, x)
  {
  }
}
