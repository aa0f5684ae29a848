/**
 * Python floats as the insight engine sees them. A numeric cell that pandas
 * coerced is either a number or NaN; NaN is `None`. Every comparison with NaN
 * is false and every arithmetic operation on NaN yields NaN. Rounding is not
 * modelled: numbers are exact reals.
 */
module Numbers {
  import opened Wrappers

  /** A coerced numeric cell: `None` is NaN. */
  type Num = Option<real>

  /** `x > bound`, false for NaN. */
  predicate Above(x: Num, bound: real) {
    x.Some? && x.value > bound
  }

  /** `x < bound`, false for NaN. */
  predicate Below(x: Num, bound: real) {
    x.Some? && x.value < bound
  }

  /** Python's `abs`. */
  function Abs(x: Num): (r: Num)
    ensures r.Some? <==> x.Some?
    ensures r.Some? ==> r.value >= 0.0 && (r.value == x.value || r.value == -x.value)
  {
    match x
    case None => None
    case Some(v) => Some(if v < 0.0 then -v else v)
  }
  /** `abs(x) > bound` holds exactly when `x` lies beyond the bound on either side. */
  lemma AbsAbove(x: Num, bound: real)
    requires bound >= 0.0
    ensures Above(Abs(x), bound) <==> Above(x, bound) || Below(x, -bound)
  {
  }


  function Minus(a: Num, b: Num): Num {
    if a.Some? && b.Some? then Some(a.value - b.value) else None
  }

  function Times(a: Num, k: real): Num {
    if a.Some? then Some(a.value * k) else None
  }

  /** Float division; a zero divisor raises before the dividend is looked at. */
  function Quotient(a: Num, b: Num): Num
    requires b != Some(0.0)
  {
    if a.Some? && b.Some? then Some(a.value / b.value) else None
  }

  /** Python's `int(x)` on a finite float: truncation toward zero. */
  function Truncate(x: real): (n: int)
    ensures x >= 0.0 ==> 0 <= n && n as real <= x < n as real + 1.0
    ensures x < 0.0 ==> n <= 0 && n as real - 1.0 < x <= n as real
  {
    if x >= 0.0 then x.Floor else -((-x).Floor)
  }
}
