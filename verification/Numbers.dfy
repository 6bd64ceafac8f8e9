/** Floating-point values with exact finite part: NaN, the infinities and the reals.
    Rounding, overflow and the sign of zero are not modelled. */
module Numbers {
  datatype Num = NaN | PosInf | NegInf | Fin(x: real)

  predicate IsFinite(a: Num) {
    a.Fin?
  }

  /** Comparisons with NaN are false. */
  predicate Lt(a: Num, b: Num) {
    match (a, b)
    case (NaN, _) => false
    case (_, NaN) => false
    case (Fin(x), Fin(y)) => x < y
    case (NegInf, _) => !b.NegInf?
    case (_, PosInf) => !a.PosInf?
    case _ => false
  }

  predicate Le(a: Num, b: Num) {
    Lt(a, b) || (a == b && !a.NaN?)
  }

  function Neg(a: Num): Num {
    match a
    case NaN => NaN
    case PosInf => NegInf
    case NegInf => PosInf
    case Fin(x) => Fin(-x)
  }

  function Add(a: Num, b: Num): Num {
    match (a, b)
    case (Fin(x), Fin(y)) => Fin(x + y)
    case (NaN, _) => NaN
    case (_, NaN) => NaN
    case (PosInf, NegInf) => NaN
    case (NegInf, PosInf) => NaN
    case (Fin(_), _) => b
    case _ => a
  }

  function Sub(a: Num, b: Num): Num {
    Add(a, Neg(b))
  }

  /** An infinity with the sign of `x`. */
  function Signed(x: real): Num {
    if x > 0.0 then PosInf else if x < 0.0 then NegInf else NaN
  }

  function Sign(a: Num): real {
    match a
    case NaN => 0.0
    case PosInf => 1.0
    case NegInf => -1.0
    case Fin(x) => if x > 0.0 then 1.0 else if x < 0.0 then -1.0 else 0.0
  }

  function Mul(a: Num, b: Num): Num {
    match (a, b)
    case (Fin(x), Fin(y)) => Fin(x * y)
    case (NaN, _) => NaN
    case (_, NaN) => NaN
    case _ => Signed(Sign(a) * Sign(b))
  }

  /** Division by zero gives an infinity of the dividend's sign, as numpy does for a positive zero. */
  function Div(a: Num, b: Num): Num {
    match (a, b)
    case (NaN, _) => NaN
    case (_, NaN) => NaN
    case (Fin(x), Fin(y)) => if y != 0.0 then Fin(x / y) else Signed(x)
    case (Fin(_), _) => Fin(0.0)
    case (_, Fin(y)) => if y < 0.0 then Neg(a) else a
    case _ => NaN
  }

  function Abs(a: Num): Num {
    if Lt(a, Fin(0.0)) then Neg(a) else a
  }

  /** The larger of two, leaving out NaN. */
  function FMax(a: Num, b: Num): Num {
    if a.NaN? then b else if b.NaN? then a else if Lt(a, b) then b else a
  }

  function FMin(a: Num, b: Num): Num {
    if a.NaN? then b else if b.NaN? then a else if Lt(b, a) then b else a
  }

  lemma Product(x: real, y: real, z: real)
    requires x * y == z
    ensures Mul(Fin(x), Fin(y)) == Fin(z)
  {
  }

  lemma Quotient(x: real, y: real, z: real)
    requires y != 0.0 && x / y == z
    ensures Div(Fin(x), Fin(y)) == Fin(z)
  {
  }
}
