/** Python's `round(x, 2)`, taken on the exact value of `x`. */
module Rounding {

  /** `x` is a whole number of hundredths. */
  predicate IsCents(x: real) {
    (x * 100.0).Floor as real == x * 100.0
  }

  /** `x` rounded to the nearest hundredth; a value exactly halfway goes to the
      even hundredth, as Python's `round` does. */
  function Round2(x: real): (r: real)
    ensures IsCents(r)
    ensures x - 0.005 <= r <= x + 0.005
    ensures IsCents(x) ==> r == x
    ensures x * 100.0 - (x * 100.0).Floor as real == 0.5 ==> (r * 100.0).Floor % 2 == 0
  {
    var y := x * 100.0;
    var f := y.Floor;
    var frac := y - f as real;
    assert 0.0 <= frac < 1.0;
    var n := if frac < 0.5 then f
             else if frac > 0.5 then f + 1
             else if f % 2 == 0 then f else f + 1;
    assert y - 0.5 <= n as real <= y + 0.5;
    assert frac == 0.5 ==> n % 2 == 0;
    assert (n as real / 100.0) * 100.0 == n as real;
    assert (n as real).Floor == n;
    n as real / 100.0
  }

  /** Rounding never reverses the order of two amounts. */
  lemma Round2Monotonic(x: real, y: real)
    requires x <= y
    ensures Round2(x) <= Round2(y)
  {
    var fx, fy := (x * 100.0).Floor, (y * 100.0).Floor;
    assert fx <= fy;
    if fx < fy {
      assert Round2(x) * 100.0 <= (fx + 1) as real;
      assert Round2(y) * 100.0 >= fy as real;
    }
  }
}
