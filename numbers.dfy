/** Python's `round(x, 2)` and `int(x)` on numbers modelled as reals. */
module Numbers {

  /**
   * Python's `round(x, 2)`: the nearest multiple of 1/100, halves going to
   * the even neighbour.
   */
  function Round2(x: real): (r: real)
    ensures -0.005 <= r - x <= 0.005
    ensures x >= 0.0 ==> r >= 0.0
    ensures x <= 0.0 ==> r <= 0.0
  {
    var y := x * 100.0;
    var n := (y + 0.5).Floor;
    var m := if n as real == y + 0.5 && n % 2 != 0 then n - 1 else n;
    m as real / 100.0
  }

  /** Python's `int(x)` for a float: the integer part, truncating toward zero. */
  function TruncateToInt(x: real): (n: int)
    ensures x >= 0.0 ==> 0 <= n && n as real <= x < n as real + 1.0
    ensures x < 0.0 ==> n <= 0 && n as real - 1.0 < x <= n as real
  {
    if x >= 0.0 then x.Floor else -((-x).Floor)
  }
}
