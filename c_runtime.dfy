/** The parts of the C library and of C's conversions that the drivers' arithmetic rests on. */
module CRuntime {

  /** RAND_MAX of the GNU C library. */
  const RandMax: nat := 0x7fff_ffff

  /** A value `rand()` can return: an integer in [0, RAND_MAX]. */
  type Draw = d: nat | d <= RandMax

  /** `(double)rand() / (double)RAND_MAX`: a draw scaled into the closed unit interval. */
  function UnitFraction(d: Draw): (u: real)
    ensures 0.0 <= u <= 1.0
    ensures u == 0.0 <==> d == 0
    ensures u == 1.0 <==> d == RandMax
  {
    d as real / RandMax as real
  }

  /** C's conversion of a floating value to an integer type: the fraction is discarded, rounding toward zero. */
  function Trunc(r: real): (t: int)
    ensures 0.0 <= r ==> 0 <= t && t as real <= r < t as real + 1.0
    ensures r < 0.0 ==> t <= 0 && t as real - 1.0 < r <= t as real
  {
    if 0.0 <= r then r.Floor else -((-r).Floor)
  }

  /** Truncation keeps the order of non-negative values. */
  lemma TruncMonotone(a: real, b: real)
    requires 0.0 <= a <= b
    ensures Trunc(a) <= Trunc(b)
  {
    assert Trunc(a) as real <= a <= b < Trunc(b) as real + 1.0;
  }
}
