/** The parts of Python's `math` module the projection uses, and the error a failed
    analysis step raises. `exp`, `log` and `sqrt` have no Dafny counterpart: they are
    parameters, and each lemma states the laws of them it relies on. */
module Numerics {

  /** `math.log`, `math.exp` and the square root (`x ** 0.5`). */
  datatype Math = Math(ln: real -> real, exp: real -> real, sqrt: real -> real)

  /** `EmptySeries`: `.iloc[-1]` of an empty column (IndexError).
      `MathDomain`: `math.log` of a non-positive number (ValueError).
      `MathRange`: `math.exp` of an argument whose exponential exceeds the largest
      double (OverflowError). */
  datatype AnalysisError = EmptySeries | MathDomain | MathRange

  /** The largest argument `math.exp` accepts: ln of the largest double, rounded to the
      nearest double. */
  const ExpLimit: real := 709.782712893384

  ghost predicate ExpMonotone(m: Math)
  {
    forall x, y :: x <= y ==> m.exp(x) <= m.exp(y)
  }

  ghost predicate ExpInvertsLn(m: Math)
  {
    forall x :: 0.0 < x ==> m.exp(m.ln(x)) == x
  }

  ghost predicate SqrtNonNegative(m: Math)
  {
    forall x :: 0.0 <= x ==> 0.0 <= m.sqrt(x)
  }

  /** The square root of a non-negative number is non-negative and squares back;
      the root of zero is zero. */
  ghost predicate SqrtLaw(m: Math)
  {
    && m.sqrt(0.0) == 0.0
    && forall x :: 0.0 <= x ==> 0.0 <= m.sqrt(x) && m.sqrt(x) * m.sqrt(x) == x
  }

  lemma SqrtLawNonNegative(m: Math)
    requires SqrtLaw(m)
    ensures SqrtNonNegative(m)
  {
  }

  lemma SqrtOf(m: Math, v: real)
    requires SqrtLaw(m) && 0.0 <= v
    ensures 0.0 <= m.sqrt(v) && m.sqrt(v) * m.sqrt(v) == v
  {
  }

  lemma MulNonNegative(x: real, y: real)
    requires 0.0 <= x && 0.0 <= y
    ensures 0.0 <= x * y
  {
  }

  lemma DivNonNegative(x: real, y: real)
    requires 0.0 <= x && 0.0 < y
    ensures 0.0 <= x / y
  {
  }

  lemma DivPositive(x: real, y: real)
    requires 0.0 < x && 0.0 < y
    ensures 0.0 < x / y
  {
  }
}
