/**
 * The pieces of Unity's Mathf and of C# integer arithmetic that the game scripts rely on.
 * Floating-point values are modelled as reals.
 */
module Numerics {

  const Int32Min: int := -0x8000_0000
  const Int32Max: int := 0x7FFF_FFFF

  /** C# unchecked `int` arithmetic: the exact value reduced into the 32-bit two's-complement range. */
  function WrapInt32(x: int): (r: int)
    ensures Int32Min <= r <= Int32Max
    ensures (x - r) % 0x1_0000_0000 == 0
    ensures Int32Min <= x <= Int32Max ==> r == x
  {
    (x - Int32Min) % 0x1_0000_0000 + Int32Min
  }

  /** Mathf.RoundToInt: the nearest integer, a tie going to the even neighbour (Math.Round's default). */
  function RoundToInt(x: real): (r: int)
    ensures x - 0.5 <= r as real <= x + 0.5
    ensures (r as real - x == 0.5 || x - r as real == 0.5) ==> r % 2 == 0
  {
    var f := x.Floor;
    var frac := x - f as real;
    if frac < 0.5 then f
    else if frac > 0.5 then f + 1
    else if f % 2 == 0 then f else f + 1
  }

  /** Rounding never reverses the order of two values. */
  lemma RoundToIntMonotone(x: real, y: real)
    requires x <= y
    ensures RoundToInt(x) <= RoundToInt(y)
  {
  }

  /** Rounding an integral value gives that value back. */
  lemma RoundToIntOfInt(n: int)
    ensures RoundToInt(n as real) == n
  {
  }

  /** Mathf.Clamp on ints: `min` if below it, else `max` if above it, else the value itself. */
  function ClampInt(value: int, min: int, max: int): (r: int)
    ensures min <= max ==> min <= r <= max
    ensures min <= value <= max ==> r == value
    ensures r == value || r == min || r == max
  {
    if value < min then min else if value > max then max else value
  }

  /** Mathf.Clamp01 on floats. */
  function Clamp01(value: real): (r: real)
    ensures 0.0 <= r <= 1.0
    ensures 0.0 <= value <= 1.0 ==> r == value
  {
    if value < 0.0 then 0.0 else if value > 1.0 then 1.0 else value
  }

  /** Mathf.Max on floats. */
  function MaxReal(a: real, b: real): (r: real)
    ensures r >= a && r >= b
    ensures r == a || r == b
  {
    if a > b then a else b
  }

  /** Mathf.Min on ints. */
  function MinInt(a: int, b: int): (r: int)
    ensures r <= a && r <= b
    ensures r == a || r == b
  {
    if a < b then a else b
  }

  /** Mathf.Max's int overload (the one GuessYearsFromResult and the "-" button's floor use), beside MaxReal's float one. */
  function MaxInt(a: int, b: int): (r: int)
    ensures r >= a && r >= b
    ensures r == a || r == b
  {
    if a > b then a else b
  }

  /** Euclidean division is unique: a quotient and a remainder in [0, d) that rebuild `a` are Dafny's. */
  lemma DivModUnique(a: int, d: int, q: int, r: int)
    requires d > 0 && 0 <= r < d && a == q * d + r
    ensures a % d == r && a / d == q
  {
    var q', r' := a / d, a % d;
    assert a == q' * d + r';
    var e := q - q';
    assert e * d == r' - r by {
      assert q * d - q' * d == (q - q') * d;
    }
  }

  lemma MultipleMod(k: int, d: int)
    requires d > 0
    ensures (k * d) % d == 0
  {
    DivModUnique(k * d, d, k, 0);
  }

  lemma ShiftMod(a: int, d: int, k: int)
    requires d > 0 && (k == 1 || k == -1)
    ensures (a + k * d) % d == a % d
  {
    var q, r := a / d, a % d;
    assert a + k * d == (q + k) * d + r;
    DivModUnique(a + k * d, d, q + k, r);
  }

  /** A non-negative extent scaled by a fraction in [0, 1] stays within [0, extent]. */
  lemma ScaledWithin(extent: real, t: real)
    requires extent >= 0.0 && 0.0 <= t <= 1.0
    ensures 0.0 <= extent * t <= extent
  {
    assert extent - extent * t == extent * (1.0 - t);
  }
}
