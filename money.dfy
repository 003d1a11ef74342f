/**
 * Money in integer cents. Every amount in the order models is a decimal with
 * two fractional digits, so one cent is the exact unit and no arithmetic here
 * loses precision.
 */
module Money {
  import opened Wrappers
  import opened Text

  /** An amount of money in cents; negative for refund rows. */
  type Cents = int

  /** The sales-tax rate, in percent, applied to an order's subtotal. */
  const TaxRatePercent: nat := 12

  /**
   * `n / d` rounded to the nearest integer, ties going to the even neighbour:
   * `Decimal.quantize` under the default decimal context (ROUND_HALF_EVEN).
   */
  function DivRoundHalfEven(n: int, d: int): (q: int)
    requires d > 0
    ensures -d <= 2 * (n - q * d) <= d
    ensures (2 * (n - q * d) == d || 2 * (n - q * d) == -d) ==> q % 2 == 0
  {
    var f := n / d;
    var r := n % d;
    if 2 * r < d then f
    else if 2 * r > d then f + 1
    else if f % 2 == 0 then f else f + 1
  }

  /** `(subtotal * 0.12).quantize(Decimal('0.01'))`, in cents. */
  function TaxCents(subtotal: Cents): Cents
  {
    DivRoundHalfEven(TaxRatePercent * subtotal, 100)
  }

  /**
   * Twelve percent of a whole number of cents is never exactly half-way
   * between two cents, so the tax is the nearest cent and the rounding mode
   * (half-even in the source) never decides anything: rounding half-up gives
   * the same tax.
   */
  lemma {:induction false} TaxIsNearestCent(subtotal: Cents)
    ensures -50 < 100 * TaxCents(subtotal) - TaxRatePercent * subtotal < 50
    ensures TaxCents(subtotal) == (TaxRatePercent * subtotal + 50) / 100
  {
    var n := TaxRatePercent * subtotal;
    var t := TaxCents(subtotal);
    var k := n / 100;
    var rem := n % 100;
    assert n == 100 * k + rem;
    // 12 * subtotal == 100 * k + 50 would halve to 6 * subtotal (even)
    // == 50 * k + 25 (odd).
    if rem == 50 {
      assert false;
    }
    assert 2 * (n - t * 100) != 100 && 2 * (n - t * 100) != -100;
  }

  /** A non-negative subtotal has a non-negative tax, no larger than the subtotal. */
  lemma TaxBounds(subtotal: Cents)
    requires subtotal >= 0
    ensures 0 <= TaxCents(subtotal) <= subtotal
  {
    TaxIsNearestCent(subtotal);
  }

  /** 1050.00 is taxed 126.00 and 250.00 is taxed 30.00; 0.04 is taxed nothing and 0.05 one cent. */
  lemma TaxExamples()
    ensures TaxCents(105000) == 12600 && TaxCents(25000) == 3000
    ensures TaxCents(4) == 0 && TaxCents(5) == 1
  {
    TaxIsNearestCent(105000);
    TaxIsNearestCent(25000);
    TaxIsNearestCent(4);
    TaxIsNearestCent(5);
  }

  /** Python's `str` of a two-place Decimal: optional sign, integer part, point, two digits. */
  function FormatCents(c: Cents): (s: string)
    ensures |s| >= 4 && s[|s| - 3] == '.' && AllDigits(s[|s| - 2..])
  {
    var a: nat := if c < 0 then -c else c;
    (if c < 0 then "-" else "") + Decimal(a / 100) + "." + PadDigits(a % 100, 2)
  }

  /** Reads back an amount written by FormatCents. */
  function ParseCents(s: string): Option<Cents>
  {
    if |s| > 0 && s[0] == '-' then
      match ParseUnsigned(s[1..])
      case Some(v) => Some(0 - v as int)
      case None => None
    else
      match ParseUnsigned(s)
      case Some(v) => Some(v as int)
      case None => None
  }

  function ParseUnsigned(s: string): Option<nat>
  {
    if |s| >= 4 && s[|s| - 3] == '.' && AllDigits(s[..|s| - 3]) && AllDigits(s[|s| - 2..])
    then Some(100 * DigitsValue(s[..|s| - 3]) + DigitsValue(s[|s| - 2..]))
    else None
  }

  /** The unsigned part of FormatCents reads back as the absolute amount. */
  lemma UnsignedRoundTrip(a: nat)
    ensures ParseUnsigned(Decimal(a / 100) + "." + PadDigits(a % 100, 2)) == Some(a)
  {
    var d := Decimal(a / 100);
    var p := PadDigits(a % 100, 2);
    var u := d + "." + p;
    assert |u| >= 4 && u[|u| - 3] == '.' && u[..|u| - 3] == d && u[|u| - 2..] == p;
    assert 100 * DigitsValue(d) + DigitsValue(p) == a by {
      DecimalRoundTrip(a / 100);
      PadDigitsRoundTrip(a % 100, 2);
    }
  }

  /** The amount written into an order's notes can be read back exactly. */
  lemma FormatCentsRoundTrip(c: Cents)
    ensures ParseCents(FormatCents(c)) == Some(c)
  {
    var a: nat := if c < 0 then -c else c;
    var u := Decimal(a / 100) + "." + PadDigits(a % 100, 2);
    UnsignedRoundTrip(a);
    if c < 0 {
      assert FormatCents(c) == "-" + u;
      assert FormatCents(c)[1..] == u;
    } else {
      assert FormatCents(c) == u;
      assert u[0] == Decimal(a / 100)[0];
    }
  }
}
