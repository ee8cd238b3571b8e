/**
 * The parts of JavaScript's number semantics that the callout pass relies on,
 * stated over exact reals: the truncating remainder operator `%` and the
 * truthiness test applied to an optional number.
 */
module JsNumber {
  import opened Wrappers

  /** Truncation toward zero: the quotient JavaScript's `%` rounds with. */
  function Trunc(x: real): (q: int)
    ensures 0.0 <= x ==> q as real <= x < q as real + 1.0
    ensures x < 0.0 ==> q as real - 1.0 < x <= q as real
    ensures 0 <= q <==> -1.0 < x
  {
    if 0.0 <= x then x.Floor else -((-x).Floor)
  }

  /** Adding one to a value that keeps its sign adds one to its truncation. */
  lemma TruncStep(x: real)
    requires 0.0 <= x || x + 1.0 <= 0.0
    ensures Trunc(x + 1.0) == Trunc(x) + 1
  {
  }

  /**
   * JavaScript's `a % n` for a positive divisor: `a - n * Trunc(a / n)`, whose
   * sign is the sign of the dividend.
   */
  function JsRem(a: real, n: real): real
    requires 0.0 < n
  {
    a - n * Trunc(a / n) as real
  }

  /** `x` and `y` are `k` whole multiples of `n` apart. */
  predicate MultiplesApart(x: real, y: real, n: real, k: int) {
    x - y == n * k as real
  }

  /**
   * JavaScript truthiness of an optional number: an absent value and zero are
   * falsy, every other number is truthy.
   */
  predicate Truthy(o: Option<real>) {
    o.Some? && o.value != 0.0
  }
}
