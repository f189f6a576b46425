/**
 * Decimal text for integers and for amounts in minor units.
 *
 * `NatToString` is how PHP prints an integer; `FormatCents` is
 * `number_format($amount, 2, '.', '')` applied to an amount held as whole
 * cents: an optional '-', the whole units without thousands separators, a
 * '.', and exactly two fractional digits. `ParseCents` reads that form back.
 */
module Decimal {
  import opened Optional

  predicate IsDigit(c: char) {
    '0' <= c <= '9'
  }

  predicate AllDigits(s: string) {
    forall i :: 0 <= i < |s| ==> IsDigit(s[i])
  }

  /** The digit character for `d`. */
  function Digit(d: nat): (c: char)
    requires d < 10
    ensures IsDigit(c) && c as int - '0' as int == d
  {
    (d + '0' as int) as char
  }

  /** The value of a string of decimal digits, most significant first. */
  function DigitsValue(s: string): nat
    requires AllDigits(s)
  {
    if s == [] then 0
    else 10 * DigitsValue(s[..|s| - 1]) + (s[|s| - 1] as int - '0' as int)
  }

  /** Canonical decimal text of `n`: digits only, no leading zero. */
  function NatToString(n: nat): (s: string)
    ensures |s| >= 1 && AllDigits(s)
    ensures s[0] == '0' ==> n == 0
    decreases n
  {
    if n < 10 then [Digit(n)] else NatToString(n / 10) + [Digit(n % 10)]
  }

  /** PHP's `(string)` of an integer. */
  function IntToString(i: int): string {
    if i < 0 then "-" + NatToString(-i) else NatToString(i)
  }

  lemma {:induction false} NatToStringValue(n: nat)
    ensures DigitsValue(NatToString(n)) == n
    decreases n
  {
    if n >= 10 {
      var s := NatToString(n);
      assert s[..|s| - 1] == NatToString(n / 10);
      NatToStringValue(n / 10);
    }
  }

  /** Distinct numbers print differently. */
  lemma NatToStringInjective(m: nat, n: nat)
    requires NatToString(m) == NatToString(n)
    ensures m == n
  {
    NatToStringValue(m);
    NatToStringValue(n);
  }

  /** Two fractional digits of a cent amount `m` (the value of `m % 100`). */
  function Cents2(m: nat): (s: string)
    ensures |s| == 2 && AllDigits(s) && DigitsValue(s) == m % 100
  {
    var s := [Digit(m % 100 / 10), Digit(m % 10)];
    assert s[..1][..0] == [];
    assert DigitsValue(s[..1]) == m % 100 / 10;
    s
  }

  /**
   * `number_format` with two decimals, '.' and no thousands separator, of an
   * amount given in cents.
   */
  function FormatCents(c: int): (s: string)
    ensures |s| >= 4 && s[|s| - 3] == '.'
    ensures (s[0] == '-') <==> c < 0
    ensures forall i :: 0 <= i < |s| && i != |s| - 3 && !(i == 0 && c < 0) ==> IsDigit(s[i])
    // no zero padding: a whole part that starts with '0' is just "0"
    ensures var k := if c < 0 then 1 else 0; s[k] == '0' ==> s[k + 1] == '.'
  {
    var m := if c < 0 then -c else c;
    (if c < 0 then "-" else "") + NatToString(m / 100) + "." + Cents2(m)
  }

  /** Reads "[-]D.DD" (at least one whole digit, exactly two fractional digits). */
  function ParseCents(s: string): Option<int> {
    var neg := |s| > 0 && s[0] == '-';
    var body := if neg then s[1..] else s;
    if |body| < 4 || body[|body| - 3] != '.' then None
    else
      var whole := body[..|body| - 3];
      var frac := body[|body| - 2..];
      if !AllDigits(whole) || !AllDigits(frac) then None
      else
        var mag := DigitsValue(whole) * 100 + DigitsValue(frac);
        Some(if neg then -mag else mag)
  }

  /** The primary purchase amount text reads back as the same number of cents. */
  lemma FormatCentsRoundTrip(c: int)
    ensures ParseCents(FormatCents(c)) == Some(c)
  {
    var m := if c < 0 then -c else c;
    var w := NatToString(m / 100);
    var body := w + "." + Cents2(m);
    var s := FormatCents(c);
    assert s == (if c < 0 then "-" else "") + body;
    assert |body| >= 4 && body[|body| - 3] == '.';
    assert (if c < 0 then s[1..] else s) == body;
    assert body[..|body| - 3] == w;
    assert body[|body| - 2..] == Cents2(m);
    NatToStringValue(m / 100);
  }
}
