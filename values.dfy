/**
 * Runtime values. The interpreter computes on IEEE-754 doubles; this model
 * keeps the numbers exact (no rounding, no signed zero) but keeps the
 * non-finite results the hardware gives, so that every arithmetic
 * instruction is total, division by zero included.
 */
module Values {

  datatype Value = Number(x: real) | PosInf | NegInf | NaN

  /** The infinity with the sign of `s`; zero counts as positive. */
  function Infinity(s: real): Value
  {
    if s < 0.0 then NegInf else PosInf
  }

  /** The sign of a non-NaN value, zero counting as positive. */
  function Sign(v: Value): real
    requires !v.NaN?
  {
    match v
    case Number(x) => if x < 0.0 then -1.0 else 1.0
    case PosInf => 1.0
    case NegInf => -1.0
  }

  /** NEGATE: flips the sign; the infinities swap and NaN stays NaN. */
  function Negation(a: Value): (r: Value)
    ensures a.Number? <==> r.Number?
    ensures a.Number? ==> r == Number(-a.x)
    ensures a == PosInf <==> r == NegInf
    ensures a == NegInf <==> r == PosInf
    ensures r.NaN? <==> a.NaN?
  {
    match a
    case Number(x) => Number(-x)
    case PosInf => NegInf
    case NegInf => PosInf
    case NaN => NaN
  }

  /** ADD: opposite infinities give NaN, any other infinity wins. */
  function Sum(a: Value, b: Value): (r: Value)
    ensures a.Number? && b.Number? ==> r == Number(a.x + b.x)
    ensures a.NaN? || b.NaN? ==> r.NaN?
  {
    match (a, b)
    case (NaN, _) => NaN
    case (_, NaN) => NaN
    case (PosInf, NegInf) => NaN
    case (NegInf, PosInf) => NaN
    case (PosInf, _) => PosInf
    case (NegInf, _) => NegInf
    case (_, PosInf) => PosInf
    case (_, NegInf) => NegInf
    case (Number(x), Number(y)) => Number(x + y)
  }

  /** Subtraction is addition of the negation, as in IEEE-754. */
  function Difference(a: Value, b: Value): (r: Value)
    ensures a.Number? && b.Number? ==> r == Number(a.x - b.x)
  {
    Sum(a, Negation(b))
  }

  /** MULTIPLY: zero times an infinity is NaN, otherwise the signs multiply. */
  function Product(a: Value, b: Value): (r: Value)
    ensures a.Number? && b.Number? ==> r == Number(a.x * b.x)
    ensures a.NaN? || b.NaN? ==> r.NaN?
  {
    if a.NaN? || b.NaN? then NaN
    else if a.Number? && b.Number? then Number(a.x * b.x)
    else if a == Number(0.0) || b == Number(0.0) then NaN
    else Infinity(Sign(a) * Sign(b))
  }

  /**
   * DIVIDE: a non-zero number over zero is the infinity of its sign, zero
   * over zero is NaN, a number over an infinity is zero.
   */
  function Quotient(a: Value, b: Value): (r: Value)
    ensures a.Number? && b.Number? && b.x != 0.0 ==> r == Number(a.x / b.x)
    ensures b == Number(0.0) ==> !r.Number?
  {
    match (a, b)
    case (NaN, _) => NaN
    case (_, NaN) => NaN
    case (Number(x), Number(y)) =>
      if y != 0.0 then Number(x / y)
      else if x == 0.0 then NaN
      else Infinity(Sign(a))
    case (Number(x), _) => Number(0.0)
    case (_, Number(y)) => Infinity(Sign(a) * Sign(b))
    case _ => NaN
  }

  /** Negating twice gives the value back. */
  lemma NegationInvolution(a: Value)
    ensures Negation(Negation(a)) == a
  {
  }

  /** Addition and multiplication do not depend on the order of their operands. */
  lemma Commutes(a: Value, b: Value)
    ensures Sum(a, b) == Sum(b, a)
    ensures Product(a, b) == Product(b, a)
  {
  }

  /** Dividing a number by zero never yields a number, whatever its sign. */
  lemma DivisionByZero(x: real)
    ensures x > 0.0 ==> Quotient(Number(x), Number(0.0)) == PosInf
    ensures x < 0.0 ==> Quotient(Number(x), Number(0.0)) == NegInf
    ensures x == 0.0 ==> Quotient(Number(x), Number(0.0)) == NaN
  {
  }
}
