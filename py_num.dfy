/**
 * The few Python numeric built-ins the player applies to floats, stated on
 * Dafny's exact reals: `int(x)` truncates toward zero, `min`/`max` pick one of
 * their arguments.  Python's `%` with a positive divisor is floor-modulo,
 * which agrees with Dafny's Euclidean `%` on `int`, so it is used as is.
 */
module PyNum {

  /** Python's `int(x)` on a float: rounds toward zero. */
  function Trunc(x: real): (i: int)
    ensures 0.0 <= x ==> i as real <= x < i as real + 1.0
    ensures x < 0.0 ==> i as real - 1.0 < x <= i as real
  {
    if x >= 0.0 then x.Floor else -((-x).Floor)
  }

  /** On non-negative arguments, adding a whole number commutes with truncation. */
  lemma TruncShift(y: real, k: nat)
    requires 0.0 <= y
    ensures Trunc(y + k as real) == Trunc(y) + k
  {
  }

  /** Python's `min(a, b)`. */
  function Min(a: real, b: real): (r: real)
    ensures r <= a && r <= b && (r == a || r == b)
  {
    if b < a then b else a
  }

  /** Python's `max(a, b)`. */
  function Max(a: real, b: real): (r: real)
    ensures a <= r && b <= r && (r == a || r == b)
  {
    if b > a then b else a
  }
}
