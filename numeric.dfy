/** Python's float helpers used by the analyzers: `round(x, 3)`, `min`,
    `max` and the clamp to [0, 1], stated on exact reals. */
module Numeric {

  /** `round(x, 3)`, half to even, on the exact value of `x`. */
  function Round3(x: real): (r: real)
    ensures -0.5 <= r * 1000.0 - x * 1000.0 <= 0.5
    ensures (r * 1000.0).Floor as real == r * 1000.0
  {
    var y := x * 1000.0;
    var f := y.Floor;
    var d := y - f as real;
    var n := if d < 0.5 then f else if d > 0.5 then f + 1 else if f % 2 == 0 then f else f + 1;
    assert n as real / 1000.0 * 1000.0 == n as real;
    n as real / 1000.0
  }

  /** Rounding never crosses a multiple of 0.001: a bound that is such a
      multiple bounds the rounded value too. */
  lemma RoundWithin(x: real, lo: int, hi: int)
    requires lo as real / 1000.0 <= x <= hi as real / 1000.0
    ensures lo as real / 1000.0 <= Round3(x) <= hi as real / 1000.0
  {
    var n := (Round3(x) * 1000.0).Floor;
    assert n as real == Round3(x) * 1000.0;
    assert lo as real <= x * 1000.0 <= hi as real;
    assert lo <= n <= hi;
  }

  /** A count divided by a larger positive count lies in [0, 1], and is 0
      only for a zero count. */
  lemma RatioInUnit(a: nat, b: nat)
    requires 0 < b && a <= b
    ensures 0.0 <= a as real / b as real <= 1.0
    ensures a as real / b as real == 0.0 <==> a == 0
  {
    var q := a as real / b as real;
    assert q * b as real == a as real;
  }

  /** Python's `min` and `max` of two floats. */
  function Min(a: real, b: real): real { if a <= b then a else b }

  function Max(a: real, b: real): real { if a >= b then a else b }

  /** `min(max(x, 0.0), 1.0)`: a value below 0 becomes 0, one above 1
      becomes 1, and one in [0, 1] is kept. */
  function Clamp01(x: real): (r: real)
    ensures 0.0 <= r <= 1.0
    ensures 0.0 <= x <= 1.0 ==> r == x
    ensures x < 0.0 ==> r == 0.0
    ensures x > 1.0 ==> r == 1.0
  {
    Min(Max(x, 0.0), 1.0)
  }
}
