/** Arithmetic of real numbers shared by the models. */
module Reals {
  function Min(a: real, b: real): real {
    if a <= b then a else b
  }

  function Max(a: real, b: real): real {
    if a >= b then a else b
  }

  /** The least whole number that is not below `x`. */
  function Ceil(x: real): (r: real)
    ensures x <= r < x + 1.0 && r == r.Floor as real
  {
    if x.Floor as real == x then x else (x.Floor + 1) as real
  }

  lemma ProductIsNonNegative(a: real, b: real)
    requires a >= 0.0 && b >= 0.0
    ensures a * b >= 0.0
  {
  }

  lemma SignOfFactor(x: real, a: real)
    requires a > 0.0 && x * a >= 0.0
    ensures x >= 0.0
  {
  }
}
