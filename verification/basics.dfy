/** Shared vocabulary: an optional value and the clamps the store applies to every metric. */
module Basics {

  /** A value that may be absent, as a nullable field or an optional property. */
  datatype Option<T> = None | Some(value: T)

  /** `Math.min` on two reals. */
  function Min(a: real, b: real): (r: real)
    ensures r <= a && r <= b
    ensures r == a || r == b
  {
    if a <= b then a else b
  }

  /** `Math.max` on two reals. */
  function Max(a: real, b: real): (r: real)
    ensures r >= a && r >= b
    ensures r == a || r == b
  {
    if a >= b then a else b
  }

  /** Every metric of the planet lives in the closed range [0,100]. */
  predicate InRange(x: real) {
    0.0 <= x <= 100.0
  }

  /** `Math.max(0, Math.min(100, x))`: the nearest point of [0,100] to `x`. */
  function Clamp(x: real): (r: real)
    ensures InRange(r)
    ensures InRange(x) ==> r == x
    ensures x < 0.0 ==> r == 0.0
    ensures x > 100.0 ==> r == 100.0
  {
    Max(0.0, Min(100.0, x))
  }

  /** Clamping never reverses the order of two values. */
  lemma ClampMonotone(x: real, y: real)
    requires x <= y
    ensures Clamp(x) <= Clamp(y)
  {
  }
}
