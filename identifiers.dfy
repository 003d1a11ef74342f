/**
 * Order numbers and transaction ids: `<PREFIX>-<YYYYmmddHHMMSS>-<HEX>` built
 * from a clock reading and the first hex digits of a random UUID, both of
 * which are inputs here.
 */
module Identifiers {
  import opened Text

  /** A reading of `datetime.now()`, to the second. */
  datatype DateTime = DateTime(year: nat, month: nat, day: nat, hour: nat, minute: nat, second: nat)

  /** A clock reading whose `%Y` is four digits and whose fields are in range. */
  predicate ValidClock(t: DateTime)
  {
    1000 <= t.year <= 9999 && 1 <= t.month <= 12 && 1 <= t.day <= 31
    && t.hour < 24 && t.minute < 60 && t.second < 60
  }

  /** `uuid4().hex`: 32 lower-case hexadecimal digits. */
  predicate IsUuidHex(h: string)
  {
    |h| == 32 && forall i :: 0 <= i < |h| ==> IsLowerHex(h[i])
  }

  /** `strftime('%Y%m%d%H%M%S')`. */
  function Stamp(t: DateTime): (s: string)
    requires ValidClock(t)
    ensures |s| == 14 && AllDigits(s)
  {
    PadDigits(t.year, 4) + PadDigits(t.month, 2) + PadDigits(t.day, 2)
    + PadDigits(t.hour, 2) + PadDigits(t.minute, 2) + PadDigits(t.second, 2)
  }

  /** `f"{prefix}-{timestamp}-{uuid.hex[:width].upper()}"`. */
  function Identifier(prefix: string, t: DateTime, uuidHex: string, width: nat): string
    requires ValidClock(t) && IsUuidHex(uuidHex) && width <= 32
  {
    prefix + "-" + Stamp(t) + "-" + Upper(uuidHex[..width])
  }

  /** `generate_order_number`. */
  function OrderNumber(t: DateTime, uuidHex: string): string
    requires ValidClock(t) && IsUuidHex(uuidHex)
  {
    Identifier("ORD", t, uuidHex, 6)
  }

  /** `generate_transaction_id`. */
  function TransactionId(t: DateTime, uuidHex: string): string
    requires ValidClock(t) && IsUuidHex(uuidHex)
  {
    Identifier("TXN", t, uuidHex, 8)
  }

  /** The shape of a generated identifier: prefix, dash, 14 digits, dash, `width` upper-case hex digits. */
  lemma IdentifierShape(prefix: string, t: DateTime, uuidHex: string, width: nat)
    requires ValidClock(t) && IsUuidHex(uuidHex) && width <= 32
    ensures var s := Identifier(prefix, t, uuidHex, width);
      && |s| == |prefix| + 16 + width
      && s[..|prefix|] == prefix && s[|prefix|] == '-'
      && AllDigits(s[|prefix| + 1..|prefix| + 15]) && s[|prefix| + 15] == '-'
      && forall i :: |prefix| + 16 <= i < |s| ==> IsUpperHex(s[i])
  {
    var s := Identifier(prefix, t, uuidHex, width);
    var h := uuidHex[..width];
    UpperHex(h, h);
    assert s[|prefix| + 1..|prefix| + 15] == Stamp(t);
    forall i | |prefix| + 16 <= i < |s| ensures IsUpperHex(s[i]) {
      assert s[i] == Upper(h)[i - |prefix| - 16];
    }
  }

  /** Order numbers are 25 characters: "ORD-", 14 digits, "-", 6 upper-case hex digits. */
  lemma OrderNumberShape(t: DateTime, uuidHex: string)
    requires ValidClock(t) && IsUuidHex(uuidHex)
    ensures var s := OrderNumber(t, uuidHex);
      && |s| == 25 && s[..4] == "ORD-" && AllDigits(s[4..18]) && s[18] == '-'
      && forall i :: 19 <= i < 25 ==> IsUpperHex(s[i])
  {
    IdentifierShape("ORD", t, uuidHex, 6);
  }

  /** Transaction ids are 27 characters: "TXN-", 14 digits, "-", 8 upper-case hex digits. */
  lemma TransactionIdShape(t: DateTime, uuidHex: string)
    requires ValidClock(t) && IsUuidHex(uuidHex)
    ensures var s := TransactionId(t, uuidHex);
      && |s| == 27 && s[..4] == "TXN-" && AllDigits(s[4..18]) && s[18] == '-'
      && forall i :: 19 <= i < 27 ==> IsUpperHex(s[i])
  {
    IdentifierShape("TXN", t, uuidHex, 8);
  }

  /** Different clock readings give different timestamps. */
  lemma StampInjective(t1: DateTime, t2: DateTime)
    requires ValidClock(t1) && ValidClock(t2) && Stamp(t1) == Stamp(t2)
    ensures t1 == t2
  {
    var s := Stamp(t1);
    assert Pow10(2) == 100 && Pow10(4) == 10000;
    assert s[..4] == PadDigits(t1.year, 4) == PadDigits(t2.year, 4);
    assert s[4..6] == PadDigits(t1.month, 2) == PadDigits(t2.month, 2);
    assert s[6..8] == PadDigits(t1.day, 2) == PadDigits(t2.day, 2);
    assert s[8..10] == PadDigits(t1.hour, 2) == PadDigits(t2.hour, 2);
    assert s[10..12] == PadDigits(t1.minute, 2) == PadDigits(t2.minute, 2);
    assert s[12..] == PadDigits(t1.second, 2) == PadDigits(t2.second, 2);
    PadDigitsRoundTrip(t1.year, 4); PadDigitsRoundTrip(t2.year, 4);
    PadDigitsRoundTrip(t1.month, 2); PadDigitsRoundTrip(t2.month, 2);
    PadDigitsRoundTrip(t1.day, 2); PadDigitsRoundTrip(t2.day, 2);
    PadDigitsRoundTrip(t1.hour, 2); PadDigitsRoundTrip(t2.hour, 2);
    PadDigitsRoundTrip(t1.minute, 2); PadDigitsRoundTrip(t2.minute, 2);
    PadDigitsRoundTrip(t1.second, 2); PadDigitsRoundTrip(t2.second, 2);
  }

  /**
   * Two generated identifiers with the same prefix and width are equal only
   * when the clock readings and the first `width` hex digits of the UUIDs are:
   * uniqueness rests on the clock and the random suffix alone.
   */
  lemma IdentifierInjective(prefix: string, t1: DateTime, h1: string, t2: DateTime, h2: string, width: nat)
    requires ValidClock(t1) && IsUuidHex(h1) && ValidClock(t2) && IsUuidHex(h2) && width <= 32
    requires Identifier(prefix, t1, h1, width) == Identifier(prefix, t2, h2, width)
    ensures t1 == t2 && h1[..width] == h2[..width]
  {
    IdentifierParts(prefix, t1, h1, width);
    IdentifierParts(prefix, t2, h2, width);
    StampInjective(t1, t2);
    UpperHex(h1[..width], h2[..width]);
  }

  /** The timestamp and the suffix can be read back from their positions in an identifier. */
  lemma IdentifierParts(prefix: string, t: DateTime, h: string, width: nat)
    requires ValidClock(t) && IsUuidHex(h) && width <= 32
    ensures var s := Identifier(prefix, t, h, width);
      && |s| == |prefix| + 16 + width
      && s[|prefix| + 1..|prefix| + 15] == Stamp(t) && s[|prefix| + 16..] == Upper(h[..width])
  {
  }
}
