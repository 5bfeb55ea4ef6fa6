/** JavaScript's rounding of numbers, over exact reals. */
module Numbers {

  /** `Math.round(y)`: the integer nearest to `y`, ties rounded up. */
  function HalfUp(y: real): (n: int)
    ensures y - 0.5 < n as real <= y + 0.5
  {
    (y + 0.5).Floor
  }

  /** `x.toFixed(2)` read back as a number: the nearest multiple of 0.01,
      ties rounded away from zero: upward for a non-negative `x`, downward
      for a non-positive one. */
  function ToFixed2(x: real): (r: real)
    ensures x - 0.005 <= r <= x + 0.005
    ensures x >= 0.0 ==> x - 0.005 < r <= x + 0.005
    ensures x <= 0.0 ==> x - 0.005 <= r < x + 0.005
    ensures (r * 100.0).Floor as real == r * 100.0
    ensures x >= 0.0 ==> r >= 0.0
    ensures x <= 0.0 ==> r <= 0.0
  {
    var n := if x >= 0.0 then HalfUp(x * 100.0) else -HalfUp(-x * 100.0);
    assert (n as real / 100.0) * 100.0 == n as real;
    n as real / 100.0
  }
}
