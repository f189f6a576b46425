/**
 * Round-to-nearest binary64 (IEEE 754 double) arithmetic on positive values
 * below 2^52, enough to follow what PHP does with a price stored as a double:
 * the price itself is the double nearest the decimal amount, and multiplying
 * it by 100 rounds once more.
 *
 * Below 2^52 a normal double is `mantissa / 2^shift` with a 53-bit mantissa
 * (2^52 <= mantissa < 2^53); a value that rounds up to 2^53 is kept as is,
 * which denotes the same number as the next binade's 2^52.
 */
module Binary64 {
  /** 2 to the power k. */
  function Pow2(k: nat): (r: nat)
    ensures r >= 1
    ensures k > 0 ==> r >= 2
  {
    if k == 0 then 1 else 2 * Pow2(k - 1)
  }

  lemma {:induction false} Pow2Add(a: nat, b: nat)
    ensures Pow2(a + b) == Pow2(a) * Pow2(b)
  {
    if b > 0 {
      Pow2Add(a, b - 1);
      assert Pow2(a + b) == 2 * Pow2(a + b - 1);
      MulTwice(Pow2(a), Pow2(b - 1), Pow2(b));
    }
  }

  lemma {:induction false} Pow2Monotone(a: nat, b: nat)
    requires a <= b
    ensures Pow2(a) <= Pow2(b)
  {
    if a < b {
      Pow2Monotone(a, b - 1);
    }
  }

  lemma MulMonotone(x: nat, y: nat, z: nat)
    requires y <= z
    ensures x * y <= x * z
  {
  }

  /** `a / b = d + r / b` rounded: down below the half, up above it, to the even neighbour at it. */
  function PickNeighbour(d: nat, r: nat, b: nat): nat {
    if 2 * r < b then d else if 2 * r > b then d + 1 else if d % 2 == 0 then d else d + 1
  }

  lemma PickNeighbourNearest(a: nat, b: nat, d: nat, r: nat)
    requires b > 0 && a == d * b + r && r < b
    ensures var q := PickNeighbour(d, r, b);
      2 * a <= 2 * q * b + b && 2 * q * b <= 2 * a + b &&
      ((2 * a == 2 * q * b + b || 2 * a + b == 2 * q * b) ==> q % 2 == 0)
  {
    var q := PickNeighbour(d, r, b);
    assert 2 * q * b == 2 * (q * b);
    if 2 * r < b {
      assert q * b == d * b;
    } else if 2 * r > b {
      assert q * b == d * b + b;
    } else if d % 2 == 0 {
      assert q * b == d * b;
    } else {
      assert q * b == d * b + b;
    }
  }

  /** `a / b` rounded to the nearest integer, ties to the even neighbour. */
  function RoundDiv(a: nat, b: nat): (q: nat)
    requires b > 0
    ensures 2 * a <= 2 * q * b + b && 2 * q * b <= 2 * a + b
    ensures (2 * a == 2 * q * b + b || 2 * a + b == 2 * q * b) ==> q % 2 == 0
  {
    DivMod(a, b);
    PickNeighbourNearest(a, b, a / b, a % b);
    PickNeighbour(a / b, a % b, b)
  }

  lemma DivMod(a: nat, b: nat)
    requires b > 0
    ensures a == a / b * b + a % b && 0 <= a % b < b
  {
  }

  /** The largest integer not above `a / b`: PHP's `(int)` cast of a positive value. */
  function Truncate(a: nat, b: nat): (n: nat)
    requires b > 0
    ensures n * b <= a < (n + 1) * b
  {
    a / b
  }

  /** PHP's `round` of a positive value `a / b`: to the nearest integer, halves up. */
  function RoundHalfUp(a: nat, b: nat): (n: nat)
    requires b > 0
    ensures 2 * n * b <= 2 * a + b < 2 * (n + 1) * b
  {
    (2 * a + b) / (2 * b)
  }

  /** A positive double below 2^52: `mantissa / 2^shift`. */
  datatype Double = Double(mantissa: nat, shift: nat)

  /**
   * The smallest shift from `s` on that brings `num / den * 2^shift` up to
   * 2^52, the bottom of the 53-bit mantissa range.
   */
  function Shift(num: nat, den: nat, s: nat): (r: nat)
    requires num > 0 && den > 0
    ensures r >= s
    ensures num * Pow2(r) >= Pow2(52) * den
    ensures r > s ==> num * Pow2(r - 1) < Pow2(52) * den
    decreases Pow2(52) * den - num * Pow2(s)
  {
    if num * Pow2(s) >= Pow2(52) * den then s
    else
      MulTwice(num, Pow2(s), Pow2(s + 1));
      Shift(num, den, s + 1)
  }

  /** Any shift meeting `Shift`'s two conditions is the one it finds. */
  lemma {:induction false} ShiftIs(num: nat, den: nat, t: nat, s: nat)
    requires num > 0 && den > 0 && t <= s
    requires num * Pow2(s) >= Pow2(52) * den
    requires s > t ==> num * Pow2(s - 1) < Pow2(52) * den
    ensures Shift(num, den, t) == s
    decreases s - t
  {
    if t < s {
      Pow2Monotone(t, s - 1);
      MulMonotone(num, Pow2(t), Pow2(s - 1));
      ShiftIs(num, den, t + 1, s);
    }
  }

  lemma MulCancel(x: int, y: int, b: int)
    requires b > 0 && x * b <= y * b
    ensures x <= y
  {
  }

  lemma MulTwice(x: nat, p: nat, q: nat)
    requires q == 2 * p
    ensures x * q == 2 * (x * p)
  {
  }

  /** A quotient rounded to the nearest integer stays in the binade of the exact one. */
  lemma RoundedInRange(a: nat, den: nat, q: nat, b: nat)
    requires den > 0 && b * den <= a < 2 * b * den
    requires 2 * a <= 2 * q * den + den && 2 * q * den <= 2 * a + den
    ensures b <= q <= 2 * b
  {
    assert (2 * b) * den == 2 * (b * den);
    assert (2 * q + 1) * den == 2 * q * den + den;
    MulCancel(2 * b, 2 * q + 1, den);
    assert (4 * b + 1) * den == 2 * (2 * b * den) + den;
    MulCancel(2 * q, 4 * b + 1, den);
  }

  /** The scaled value `Shift` picks lies in [2^52, 2^53). */
  lemma ShiftedInRange(num: nat, den: nat, s: nat)
    requires 0 < num && 0 < den && num < Pow2(52) * den
    requires s == Shift(num, den, 0)
    ensures Pow2(52) * den <= num * Pow2(s) < 2 * Pow2(52) * den
  {
    assert 2 * Pow2(52) * den == 2 * (Pow2(52) * den);
    MulTwice(num, Pow2(s - 1), Pow2(s));
  }

  /**
   * The double nearest the rational `num / den` (for a positive value below
   * 2^52): its mantissa has 53 bits, and it lies within half a unit in the
   * last place of `num / den`.
   */
  function Nearest(num: nat, den: nat): (d: Double)
    requires 0 < num && 0 < den && num < Pow2(52) * den
    ensures Pow2(52) <= d.mantissa <= 2 * Pow2(52)
    ensures 2 * (num * Pow2(d.shift)) <= 2 * d.mantissa * den + den
    ensures 2 * d.mantissa * den <= 2 * (num * Pow2(d.shift)) + den
  {
    var s := Shift(num, den, 0);
    var a := num * Pow2(s);
    var q := RoundDiv(a, den);
    ShiftedInRange(num, den, s);
    RoundedInRange(a, den, q, Pow2(52));
    Double(q, s)
  }
}
