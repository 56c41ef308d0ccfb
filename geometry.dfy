/** Bearing arithmetic of the decision core: the absolute value used by the
    angle windows and `pi2pi`, the normalisation applied to the bearing of the
    enemy relative to the robot's heading. */
module Geometry {

  function Abs(x: real): (r: real)
    ensures r >= 0.0 && (r == x || r == -x)
  {
    if x < 0.0 then -x else x
  }

  /** The whole number of turns of 360 units at or below `a`. */
  function Turns(a: real): int {
    (a / 360.0).Floor
  }

  /** True when `a` is a whole number of turns of 360 units. */
  predicate WholeTurns(a: real) {
    a == 360.0 * Turns(a) as real
  }

  lemma WholeTurnsOf(a: real, k: int)
    requires a == 360.0 * k as real
    ensures WholeTurns(a) && Turns(a) == k
  {
    assert a / 360.0 == k as real;
  }

  /** Python's float `x % 360`: the remainder takes the sign of the divisor,
      so it lies in [0, 360). */
  function PyMod360(x: real): (m: real)
    ensures 0.0 <= m < 360.0
    ensures WholeTurns(x - m)
  {
    var q := Turns(x);
    WholeTurnsOf(360.0 * q as real, q);
    x - 360.0 * q as real
  }

  /** `pi2pi`: folds the remainder modulo 360 into (-180, 180]. The period is
      360 whatever the unit of the argument. */
  function Pi2Pi(x: real): (r: real)
    ensures -180.0 < r <= 180.0
    ensures WholeTurns(x - r)
  {
    var m := PyMod360(x);
    if m > 180.0 then
      WholeTurnsOf(x - (-360.0 + m), Turns(x - m) + 1);
      -360.0 + m
    else
      m
  }

  /** Two values in (-180, 180] that differ by whole turns are equal. */
  lemma HalfOpenTurnUnique(a: real, b: real)
    requires -180.0 < a <= 180.0 && -180.0 < b <= 180.0
    requires WholeTurns(a - b)
    ensures a == b
  {
    var k := Turns(a - b);
    assert -360.0 < 360.0 * k as real < 360.0;
    assert k == 0;
  }

  lemma WholeTurnsSum(a: real, b: real)
    requires WholeTurns(a) && WholeTurns(b)
    ensures WholeTurns(a + b) && WholeTurns(a - b)
  {
    var p, q := Turns(a), Turns(b);
    WholeTurnsOf(a + b, p + q);
    WholeTurnsOf(a - b, p - q);
  }

  /** `pi2pi(x)` is THE value of (-180, 180] that differs from `x` by whole
      turns: any such value is the result. */
  lemma Pi2PiUnique(x: real, y: real)
    requires -180.0 < y <= 180.0
    requires WholeTurns(x - y)
    ensures Pi2Pi(x) == y
  {
    var r := Pi2Pi(x);
    WholeTurnsSum(x - y, x - r);
    assert (x - y) - (x - r) == r - y;
    HalfOpenTurnUnique(r, y);
  }

  /** Normalising twice is normalising once. */
  lemma Pi2PiIdempotent(x: real)
    ensures Pi2Pi(Pi2Pi(x)) == Pi2Pi(x)
  {
    var r := Pi2Pi(x);
    assert r - r == 0.0;
    Pi2PiUnique(r, r);
  }

  /** Adding whole turns to the argument does not change the result. */
  lemma Pi2PiPeriodic(x: real, k: int)
    ensures Pi2Pi(x + 360.0 * k as real) == Pi2Pi(x)
  {
    var r := Pi2Pi(x);
    var y := x + 360.0 * k as real;
    assert (y - x) / 360.0 == k as real;
    WholeTurnsSum(y - x, x - r);
    assert (y - x) + (x - r) == y - r;
    Pi2PiUnique(y, r);
  }

  /** Every argument already in (-180, 180] comes back unchanged. Bearings
      are handed to `pi2pi` in radians, as a difference of two angles in
      [-pi, pi], so that difference lies in [-2 pi, 2 pi], inside this range, and is never
      folded: a difference of 6.0 rad stays 6.0 rather than 6.0 - 2 pi. */
  lemma Pi2PiFixesHalfTurn(x: real)
    requires -180.0 < x <= 180.0
    ensures Pi2Pi(x) == x
  {
    assert x - x == 0.0;
    Pi2PiUnique(x, x);
  }
}
