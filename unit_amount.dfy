/**
 * The Checkout line item's `unit_amount`: the queued payment's amount is a
 * PHP float, and the form converts it to cents with `(int)($amount * 100)`.
 * The amount is the double nearest the decimal price, the product is rounded
 * to a double once more, and the cast truncates, so a price whose double lies
 * just below it loses a cent. Rounding the product instead gives the cents
 * back exactly.
 */
module UnitAmount {
  import opened Binary64

  /** The largest price, in cents, this conversion is modelled for (2^44). */
  const MaxCents: nat := 17592186044416

  lemma Pow2Of52()
    ensures Pow2(52) == 4503599627370496
  {
    assert Pow2(4) == 16;
    assert Pow2(8) == 256;
    Pow2Add(8, 8);
    Pow2Add(16, 16);
    Pow2Add(32, 16);
    Pow2Add(48, 4);
  }

  /** The amount as PHP holds it: the double nearest `cents / 100`. */
  function Amount(cents: nat): (d: Double)
    requires 0 < cents <= MaxCents
  {
    Pow2Of52();
    Nearest(cents, 100)
  }

  /** The exact product of a stored amount and 100 stays below 2^52. */
  lemma ProductBelow(cents: nat, m: nat, x: nat, b: nat)
    requires b == 4503599627370496 && 0 < cents <= MaxCents && x >= 1
    requires 2 * m * 100 <= 2 * (cents * x) + 100
    ensures 100 * m < b * x
  {
  }

  /** `$amount * 100`: the double nearest the exact product. */
  function Times100(cents: nat): (d: Double)
    requires 0 < cents <= MaxCents
  {
    var a := Amount(cents);
    Pow2Of52();
    ProductBelow(cents, a.mantissa, Pow2(a.shift), Pow2(52));
    Nearest(100 * a.mantissa, Pow2(a.shift))
  }

  /** `(int)($amount * 100)` as the form writes it: the product truncated. */
  function UnitAmountAsWritten(cents: nat): nat
    requires 0 < cents <= MaxCents
  {
    var p := Times100(cents);
    Truncate(p.mantissa, Pow2(p.shift))
  }

  lemma MulLe(a: int, b: int, y: int)
    requires a <= b && y >= 0
    ensures a * y <= b * y
  {
  }

  /**
   * The two roundings move the product less than half a cent from the exact
   * number of cents: `2 * |m2 / y - c| < 1` for the product `m2 / y`.
   */
  lemma ErrorArith(c: int, x: int, m1: int, n: int, y: int, m2: int)
    requires x >= 256 && y >= 2 && n == 100 * m1
    requires 2 * (c * x) <= 2 * m1 * 100 + 100 && 2 * m1 * 100 <= 2 * (c * x) + 100
    requires 2 * (n * y) <= 2 * m2 * x + x && 2 * m2 * x <= 2 * (n * y) + x
    ensures 2 * c * y < 2 * m2 + y && 2 * m2 < 2 * c * y + y
  {
    var e1 := 2 * n - 2 * (c * x);
    var e2 := 2 * m2 * x - 2 * (n * y);
    var d := 2 * m2 - 2 * c * y;
    assert d * x == e2 + e1 * y;
    MulLe(-100, e1, y);
    MulLe(e1, 100, y);
    MulLe(156, x - 100, y - 1);
    assert x * y > x + 100 * y;
    if d >= y {
      MulLe(y, d, x);
    }
    if d <= -y {
      MulLe(d, -y, x);
    }
  }

  /** The product stays within half a cent of the price. */
  predicate WithinHalfACent(cents: nat, p: Double) {
    2 * cents * Pow2(p.shift) < 2 * p.mantissa + Pow2(p.shift) &&
    2 * p.mantissa < 2 * cents * Pow2(p.shift) + Pow2(p.shift)
  }

  lemma ScaleAtLeast256(cents: nat, x: nat)
    requires 0 < cents <= MaxCents
    requires cents * x >= 100 * 4503599627370496 - 50
    ensures x >= 256
  {
    if x < 256 {
      MulLe(cents, MaxCents, x);
      MulLe(x, 255, MaxCents);
    }
  }

  lemma ProductShifted(cents: nat, x: nat, m1: nat, m2: nat, y: nat)
    requires 0 < cents <= MaxCents && x >= 1 && y >= 1 && m2 >= 4503599627370496
    requires 2 * m1 * 100 <= 2 * (cents * x) + 100
    requires 2 * m2 * x <= 2 * (100 * m1 * y) + x
    ensures y >= 2
  {
    if y == 1 {
      MulLe(4503599627370496, m2, x);
      MulLe(cents, MaxCents, x);
    }
  }

  /** The product, as a double `m / 2^shift`, is within half a cent of `cents`. */
  lemma ProductError(cents: nat)
    requires 0 < cents <= MaxCents
    ensures WithinHalfACent(cents, Times100(cents))
  {
    Pow2Of52();
    var a := Amount(cents);
    var p := Times100(cents);
    var x := Pow2(a.shift);
    var y := Pow2(p.shift);
    ScaleAtLeast256(cents, x);
    ProductShifted(cents, x, a.mantissa, p.mantissa, y);
    ErrorArith(cents, x, a.mantissa, 100 * a.mantissa, y, p.mantissa);
  }

  lemma TruncArith(c: int, y: int, m: int, n: int)
    requires y >= 1 && 2 * c * y < 2 * m + y && 2 * m < 2 * c * y + y
    requires n * y <= m < (n + 1) * y
    ensures n == c || n == c - 1
  {
    if n >= c + 1 {
      MulLe(c + 1, n, y);
    }
    if n <= c - 2 {
      MulLe(n + 1, c - 1, y);
    }
  }

  lemma RoundArith(c: int, y: int, m: int, n: int)
    requires y >= 1 && 2 * c * y < 2 * m + y && 2 * m < 2 * c * y + y
    requires 2 * n * y <= 2 * m + y < 2 * (n + 1) * y
    ensures n == c
  {
    if n >= c + 1 {
      MulLe(c + 1, n, y);
    }
    if n <= c - 1 {
      MulLe(n + 1, c, y);
    }
  }

  /** As written, the cast yields the cents or one cent less. */
  lemma AsWrittenWithinACent(cents: nat)
    requires 0 < cents <= MaxCents
    ensures UnitAmountAsWritten(cents) == cents || UnitAmountAsWritten(cents) == cents - 1
  {
    var p := Times100(cents);
    ProductError(cents);
    TruncArith(cents, Pow2(p.shift), p.mantissa, UnitAmountAsWritten(cents));
  }

  /**
   * A price of 19.99 is charged 19.98: the double nearest 19.99 is
   * 5626684784446013 / 2^48, just below it, and its product with 100 rounds to
   * 8791694975696895 / 2^42 = 1998.99999999999977..., which truncates to 1998.
   */
  lemma UnitAmountLosesACent()
    ensures UnitAmountAsWritten(1999) == 1998
  {
    Pow2Of52();
    Pow2Add(42, 6);
    Pow2Add(41, 1);
    Pow2Add(47, 1);
    Pow2Add(48, 4);
    assert Pow2(1) == 2;
    assert Pow2(6) == 64;
    Pow2Add(36, 6);
    Pow2Add(32, 4);
    Pow2Add(16, 16);
    Pow2Add(8, 8);
    assert Pow2(4) == 16;
    assert Pow2(8) == 256;
    assert Pow2(42) == 4398046511104;
    assert Pow2(48) == 281474976710656;
    ShiftIs(1999, 100, 0, 48);
    var a := Amount(1999);
    assert a.mantissa == 5626684784446013;
    ShiftIs(562668478444601300, 281474976710656, 0, 42);
    var p := Times100(1999);
    assert p.mantissa == 8791694975696895;
  }

  /**
   * The line item's `unit_amount` for a queued payment of `cents`: the double
   * conversion as written for the amounts it is modelled for; any other amount
   * is taken at its whole cents.
   */
  function LineItemCents(cents: int): (r: int)
    ensures 0 < cents <= MaxCents ==> r == UnitAmountAsWritten(cents)
    ensures 0 < cents <= MaxCents ==> r == cents || r == cents - 1
    ensures !(0 < cents <= MaxCents) ==> r == cents
  {
    if 0 < cents <= MaxCents then
      AsWrittenWithinACent(cents);
      UnitAmountAsWritten(cents)
    else cents
  }

  /** `(int)round($amount * 100)`: the product rounded to the nearest cent. */
  function UnitAmountRounded(cents: nat): (r: nat)
    requires 0 < cents <= MaxCents
    ensures r == cents
  {
    var p := Times100(cents);
    var r := RoundHalfUp(p.mantissa, Pow2(p.shift));
    ProductError(cents);
    RoundArith(cents, Pow2(p.shift), p.mantissa, r);
    r
  }
}
