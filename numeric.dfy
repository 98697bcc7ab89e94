/**
 * Python's integer conversions and rounding on exact reals. Floating-point
 * representation error is not modelled: every value is an exact real.
 */
module Numeric {

  /** `int(x)`: truncation toward zero. */
  function Trunc(x: real): (i: int)
    ensures x >= 0.0 ==> i as real <= x < i as real + 1.0
    ensures x < 0.0 ==> i as real - 1.0 < x <= i as real
  {
    if x >= 0.0 then x.Floor else -((-x).Floor)
  }

  /** `x % m` for floats with a positive modulus (floored, as in Python). */
  function Mod(x: real, m: real): (r: real)
    requires m > 0.0
    ensures 0.0 <= r < m
    ensures x == m * (x / m).Floor as real + r
  {
    FloorBounds(x, m);
    x - m * (x / m).Floor as real
  }

  lemma FloorBounds(x: real, m: real)
    requires m > 0.0
    ensures m * (x / m).Floor as real <= x < m * (x / m).Floor as real + m
  {
    var y := x / m;
    var q := y.Floor as real;
    var d := y - q;
    MulStrict(m, d, 1.0);
    MulMonotone(m, 0.0, d);
    assert m * y == x;
    assert m * (q + d) == m * q + m * d;
    assert m * 1.0 == m;
    assert x == m * q + m * d;
  }

  lemma MulMonotone(m: real, a: real, b: real)
    requires m > 0.0 && a <= b
    ensures m * a <= m * b
  {
  }

  lemma MulStrict(m: real, a: real, b: real)
    requires m > 0.0 && a < b
    ensures m * a < m * b
  {
  }

  /** Rounding to the nearest integer, halves away from negative infinity. */
  function RoundHalfUp(x: real): (n: int)
    ensures n as real - 0.5 <= x < n as real + 0.5
  {
    (x + 0.5).Floor
  }

  /** `round(x, 2)`, with halves rounded up. */
  function Round2(x: real): (r: real)
    ensures r * 100.0 == RoundHalfUp(x * 100.0) as real
    ensures x - 0.005 < r <= x + 0.005
  {
    RoundHalfUp(x * 100.0) as real / 100.0
  }

  /** `max(lo, min(hi, x))`. */
  function Clamp(x: int, lo: int, hi: int): (r: int)
    requires lo <= hi
    ensures lo <= r <= hi
    ensures lo <= x <= hi ==> r == x
    ensures x < lo ==> r == lo
    ensures x > hi ==> r == hi
  {
    if x < lo then lo else if x > hi then hi else x
  }

  lemma TruncMonotone(x: real, y: real)
    requires x <= y
    ensures Trunc(x) <= Trunc(y)
  {
  }

  lemma ClampMonotone(x: int, y: int, lo: int, hi: int)
    requires lo <= hi && x <= y
    ensures Clamp(x, lo, hi) <= Clamp(y, lo, hi)
  {
  }

  /** Hours of `t`, as `int(t // 3600)`. */
  function Hours(t: real): int {
    (t / 3600.0).Floor
  }

  /** Minutes past the hour, as `int((t % 3600) // 60)`. */
  function Minutes(t: real): int {
    (Mod(t, 3600.0) / 60.0).Floor
  }

  /** Hours, minutes and `t % 60` recompose `t`; the minutes lie in [0, 59]. */
  lemma ClockSplit(t: real)
    ensures 0 <= Minutes(t) < 60
    ensures t == 3600.0 * Hours(t) as real + 60.0 * Minutes(t) as real + Mod(t, 60.0)
  {
    var h := Hours(t);
    var r1 := Mod(t, 3600.0);
    var m := Minutes(t);
    var r2 := Mod(r1, 60.0);
    assert t == 3600.0 * h as real + r1;
    assert r1 == 60.0 * m as real + r2;
    assert t == 60.0 * (60 * h + m) as real + r2;
    assert (t / 60.0).Floor == 60 * h + m;
  }
}
