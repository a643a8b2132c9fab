/**
 * JavaScript numbers as the form code sees them: a finite value, one of the
 * two infinities, or `NaN`. Finite values are exact reals (no rounding and no
 * overflow to infinity). Every comparison with `NaN` is false.
 */
module JsNumbers {

  datatype JsNumber = NaN | Finite(value: real) | Infinity(positive: bool)

  predicate IsNaN(n: JsNumber) { n.NaN? }

  /** `a < b`. */
  predicate Less(a: JsNumber, b: JsNumber)
  {
    match (a, b)
    case (Finite(x), Finite(y)) => x < y
    case (Infinity(p), Finite(_)) => !p
    case (Finite(_), Infinity(q)) => q
    case (Infinity(p), Infinity(q)) => !p && q
    case _ => false
  }

  /** `a <= b`: not the negation of `b < a`, because of `NaN`. */
  predicate LessEq(a: JsNumber, b: JsNumber)
  {
    !a.NaN? && !b.NaN? && !Less(b, a)
  }

  /** `a * b`. */
  function Mul(a: JsNumber, b: JsNumber): (r: JsNumber)
    ensures a.Finite? && b.Finite? ==> r == Finite(a.value * b.value)
    ensures a.NaN? || b.NaN? ==> r.NaN?
  {
    if a.Finite? && b.Finite? then Finite(a.value * b.value)
    else match (a, b)
    case (Infinity(p), Finite(y)) => if y == 0.0 then NaN else Infinity(p == (y > 0.0))
    case (Finite(x), Infinity(q)) => if x == 0.0 then NaN else Infinity(q == (x > 0.0))
    case (Infinity(p), Infinity(q)) => Infinity(p == q)
    case _ => NaN
  }

  /** `a - b`. */
  function Sub(a: JsNumber, b: JsNumber): (r: JsNumber)
    ensures a.Finite? && b.Finite? ==> r == Finite(a.value - b.value)
    ensures a.NaN? || b.NaN? ==> r.NaN?
  {
    match (a, b)
    case (Finite(x), Finite(y)) => Finite(x - y)
    case (Infinity(p), Finite(_)) => Infinity(p)
    case (Finite(_), Infinity(q)) => Infinity(!q)
    case (Infinity(p), Infinity(q)) => if p == q then NaN else Infinity(p)
    case _ => NaN
  }

  /** `Math.abs(a)`. */
  function Abs(a: JsNumber): (r: JsNumber)
    ensures a.Finite? ==> r.Finite? && r.value >= 0.0 && (r.value == a.value || r.value == -a.value)
    ensures a.NaN? <==> r.NaN?
  {
    match a
    case Finite(x) => Finite(if x < 0.0 then -x else x)
    case Infinity(_) => Infinity(true)
    case NaN => NaN
  }

  /** `Boolean(a)`: zero and `NaN` are the falsy numbers. */
  predicate Truthy(a: JsNumber)
  {
    !(a.NaN? || a == Finite(0.0))
  }

  /** On finite numbers the comparisons are those of the reals. */
  lemma FiniteOrder(x: real, y: real)
    ensures Less(Finite(x), Finite(y)) <==> x < y
    ensures LessEq(Finite(x), Finite(y)) <==> x <= y
  {
  }

  /** `a < b` and `a <= b` both fail as soon as one side is `NaN`. */
  lemma NaNIncomparable(a: JsNumber)
    ensures !Less(a, NaN) && !Less(NaN, a) && !LessEq(a, NaN) && !LessEq(NaN, a)
  {
  }
}
