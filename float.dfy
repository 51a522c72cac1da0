/**
 An IEEE 754 double as the match-admission rules need it: a finite value, an
 infinity or NaN, with the special-value rules of addition, multiplication,
 division and `>`. Rounding is not modelled (a finite result is the exact real
 result), nor is overflow to infinity, and every zero is +0.
 */
module Float {
  datatype F64 = Finite(value: real) | PosInf | NegInf | NaN

  /** `n as f64` for an integer small enough to be exact. */
  function FromInt(n: int): (r: F64)
    ensures r.Finite? && r.value == n as real
  {
    Finite(n as real)
  }

  /** The sign of a value that is not NaN: -1, 0 or 1. */
  function Sign(x: F64): (s: int)
    requires !x.NaN?
    ensures -1 <= s <= 1
    ensures x.PosInf? ==> s == 1
    ensures x.NegInf? ==> s == -1
    ensures x.Finite? ==> (s > 0 <==> x.value > 0.0) && (s < 0 <==> x.value < 0.0)
  {
    match x
    case Finite(v) => if v > 0.0 then 1 else if v < 0.0 then -1 else 0
    case PosInf => 1
    case NegInf => -1
  }

  /** The infinity of a sign (+inf for 0, the sign of +0). */
  function Infinity(sign: int): (r: F64)
    ensures r.PosInf? || r.NegInf?
    ensures r.NegInf? <==> sign < 0
  {
    if sign < 0 then NegInf else PosInf
  }

  function Neg(x: F64): (r: F64)
    ensures r.NaN? <==> x.NaN?
    ensures !x.NaN? ==> Sign(r) == -Sign(x)
  {
    match x
    case Finite(v) => Finite(-v)
    case PosInf => NegInf
    case NegInf => PosInf
    case NaN => NaN
  }

  /** x + y: NaN propagates, opposite infinities give NaN, an infinity absorbs a finite value. */
  function Add(x: F64, y: F64): (r: F64)
    ensures r.NaN? <==> x.NaN? || y.NaN? || (x.PosInf? && y.NegInf?) || (x.NegInf? && y.PosInf?)
    ensures x.Finite? && y.Finite? ==> r == Finite(x.value + y.value)
    ensures r.PosInf? <==> (x.PosInf? && !y.NaN? && !y.NegInf?) || (y.PosInf? && !x.NaN? && !x.NegInf?)
  {
    match (x, y)
    case (NaN, _) => NaN
    case (_, NaN) => NaN
    case (PosInf, NegInf) => NaN
    case (NegInf, PosInf) => NaN
    case (PosInf, _) => PosInf
    case (_, PosInf) => PosInf
    case (NegInf, _) => NegInf
    case (_, NegInf) => NegInf
    case (Finite(a), Finite(b)) => Finite(a + b)
  }

  function Sub(x: F64, y: F64): (r: F64)
    ensures x.Finite? && y.Finite? ==> r == Finite(x.value - y.value)
    ensures x.NaN? || y.NaN? ==> r.NaN?
  {
    Add(x, Neg(y))
  }

  /** x * y: NaN propagates, an infinity times zero is NaN, otherwise the signs multiply. */
  function Mul(x: F64, y: F64): (r: F64)
    ensures x.NaN? || y.NaN? ==> r.NaN?
    ensures x.Finite? && y.Finite? ==> r == Finite(x.value * y.value)
    ensures !x.NaN? && !y.NaN? && (x.PosInf? || x.NegInf? || y.PosInf? || y.NegInf?) ==>
      (r.NaN? <==> Sign(x) * Sign(y) == 0)
  {
    if x.NaN? || y.NaN? then NaN
    else if x.Finite? && y.Finite? then Finite(x.value * y.value)
    else if Sign(x) * Sign(y) == 0 then NaN
    else Infinity(Sign(x) * Sign(y))
  }

  /**
   x / y: NaN propagates; inf/inf and 0/0 are NaN; a finite value over an infinity
   is 0; a non-zero value over 0 is an infinity of the numerator's sign.
   */
  function Div(x: F64, y: F64): (r: F64)
    ensures x.NaN? || y.NaN? ==> r.NaN?
    ensures x.Finite? && y.Finite? && y.value != 0.0 ==> r == Finite(x.value / y.value)
    ensures x.Finite? && y.Finite? && y.value == 0.0 ==>
      (r.NaN? <==> x.value == 0.0) && (r.PosInf? <==> x.value > 0.0) && (r.NegInf? <==> x.value < 0.0)
  {
    if x.NaN? || y.NaN? then NaN
    else if x.Finite? && y.Finite? then
      if y.value != 0.0 then Finite(x.value / y.value)
      else if x.value == 0.0 then NaN
      else Infinity(Sign(x))
    else if x.Finite? then Finite(0.0)
    else if y.Finite? then Infinity(Sign(x) * (if y.value < 0.0 then -1 else 1))
    else NaN
  }

  /** x > y: false whenever either side is NaN; the infinities bound every finite value. */
  predicate Gt(x: F64, y: F64)
    ensures Gt(x, y) ==> !x.NaN? && !y.NaN?
    ensures x.Finite? && y.Finite? ==> (Gt(x, y) <==> x.value > y.value)
  {
    match (x, y)
    case (NaN, _) => false
    case (_, NaN) => false
    case (PosInf, _) => !y.PosInf?
    case (NegInf, _) => false
    case (Finite(_), PosInf) => false
    case (Finite(_), NegInf) => true
    case (Finite(a), Finite(b)) => a > b
  }
}
