/** The Money value object: integer cents in one currency, and the floating-point detour a
    price takes from the inventory table to an order line. */
module MoneyValues {
  import opened Wrappers

  datatype Money = Money(cents: int, currency: string)

  const DEFAULT_CURRENCY := "USD"

  function Add(a: Money, b: Money): Result<Money, string> {
    if a.currency != b.currency
    then Failure("Currency mismatch: " + a.currency + " vs " + b.currency)
    else Success(Money(a.cents + b.cents, a.currency))
  }

  function Multiply(m: Money, factor: int): Money {
    Money(m.cents * factor, m.currency)
  }

  // ---------- rounding ----------

  /** Math.round: the nearest integer, ties going up. */
  function Round(x: real): int {
    (x + 0.5).Floor
  }

  lemma RoundIsNearest(x: real)
    ensures Round(x) as real - 0.5 <= x < Round(x) as real + 0.5
  {
  }

  function Abs(x: real): real {
    if x < 0.0 then -x else x
  }

  /** Half a unit in the last place of a binary64 number, relative to its size. */
  const UNIT_ROUNDOFF: real := 1.0 / 9007199254740992.0

  /** y is x rounded to a binary64 number: section 4.3 of IEEE 754-2019 bounds the relative
      error of a result in the normal range. */
  predicate IsRounded(y: real, x: real) {
    Abs(y - x) <= UNIT_ROUNDOFF * Abs(x)
  }

  /** Larger than every 32-bit price. */
  const PRICE_LIMIT := 0x4_0000_0000_0000

  /** A price read as `price_cents / 100` and turned back with `Math.round(dollars * 100)`
      is the price in the table, however the two products were rounded. */
  lemma PriceSurvivesDollars(priceCents: int, dollars: real, product: real)
    requires -PRICE_LIMIT <= priceCents <= PRICE_LIMIT
    requires IsRounded(dollars, priceCents as real / 100.0)
    requires IsRounded(product, dollars * 100.0)
    ensures Round(product) == priceCents
  {
    var p := priceCents as real;
    var size := Abs(p);
    assert Abs(p / 100.0) == size / 100.0;
    assert Abs(dollars - p / 100.0) <= UNIT_ROUNDOFF * (size / 100.0);
    assert Abs(dollars * 100.0 - p) <= UNIT_ROUNDOFF * size;
    assert Abs(dollars * 100.0) <= size + UNIT_ROUNDOFF * size <= 2.0 * size;
    assert Abs(product - dollars * 100.0) <= UNIT_ROUNDOFF * (2.0 * size);
    assert Abs(product - p) <= UNIT_ROUNDOFF * (3.0 * size) < 0.5;
  }

  // ---------- rendering ----------

  function Digit(d: int): char
    requires 0 <= d < 10
  {
    '0' + d as char
  }

  function DigitValue(c: char): int {
    c as int - '0' as int
  }

  function Digits(n: nat): (s: string)
    ensures |s| >= 1 && forall c :: c in s ==> '0' <= c <= '9'
  {
    if n < 10 then [Digit(n)] else Digits(n / 10) + [Digit(n % 10)]
  }

  function NatValue(s: string): int {
    if s == [] then 0 else 10 * NatValue(s[..|s| - 1]) + DigitValue(s[|s| - 1])
  }

  /** `(cents / 100).toFixed(2)` */
  function Fixed2(cents: int): (s: string)
    ensures ' ' !in s
  {
    var size := if cents < 0 then -cents else cents;
    (if cents < 0 then "-" else "")
    + Digits(size / 100) + ['.', Digit(size / 10 % 10), Digit(size % 10)]
  }

  function ToString(m: Money): string {
    Fixed2(m.cents) + " " + m.currency
  }

  lemma {:induction false} NatValueOfDigits(n: nat)
    ensures NatValue(Digits(n)) == n
  {
    if n >= 10 {
      NatValueOfDigits(n / 10);
      assert Digits(n)[..|Digits(n)| - 1] == Digits(n / 10);
    }
  }

  function Unsigned(body: string): int
    requires |body| >= 3
  {
    var n := |body|;
    100 * NatValue(body[..n - 3]) + 10 * DigitValue(body[n - 2]) + DigitValue(body[n - 1])
  }

  /** Reads a rendered amount back. */
  function FixedValue(s: string): int
    requires |s| >= 4
  {
    if s[0] == '-' then -Unsigned(s[1..]) else Unsigned(s)
  }

  lemma LastTwo(size: nat)
    ensures 10 * (size / 10 % 10) + size % 10 == size % 100
  {
    var hundreds, rest := size / 100, size % 100;
    assert size == 10 * (10 * hundreds + rest / 10) + rest % 10;
    assert size / 10 == 10 * hundreds + rest / 10;
  }

  lemma UnsignedRoundTrip(size: nat)
    ensures Unsigned(Digits(size / 100) + ['.', Digit(size / 10 % 10), Digit(size % 10)]) == size
  {
    NatValueOfDigits(size / 100);
    var digits := Digits(size / 100);
    var body := digits + ['.', Digit(size / 10 % 10), Digit(size % 10)];
    assert body[..|body| - 3] == digits;
    LastTwo(size);
    assert size == 100 * (size / 100) + size % 100;
  }

  lemma FixedRoundTrip(cents: int)
    ensures |Fixed2(cents)| >= 4 && FixedValue(Fixed2(cents)) == cents
  {
    var size := if cents < 0 then -cents else cents;
    UnsignedRoundTrip(size);
    var body := Digits(size / 100) + ['.', Digit(size / 10 % 10), Digit(size % 10)];
    assert body[0] in Digits(size / 100);
    if cents < 0 {
      assert Fixed2(cents) == ['-'] + body;
    } else {
      assert Fixed2(cents) == body;
    }
  }

  function BeforeSpace(s: string): string {
    if s == [] || s[0] == ' ' then [] else [s[0]] + BeforeSpace(s[1..])
  }

  lemma {:induction false} BeforeSpaceSplits(word: string, rest: string)
    requires ' ' !in word
    ensures BeforeSpace(word + " " + rest) == word
  {
    if word != [] {
      assert (word + " " + rest)[1..] == word[1..] + " " + rest;
      BeforeSpaceSplits(word[1..], rest);
    }
  }

  /** Two amounts that look the same in a snapshot are the same amount of the same currency. */
  lemma ToStringInjective(a: Money, b: Money)
    requires ToString(a) == ToString(b)
    ensures a == b
  {
    var x, y := Fixed2(a.cents), Fixed2(b.cents);
    BeforeSpaceSplits(x, a.currency);
    BeforeSpaceSplits(y, b.currency);
    assert a.currency == ToString(a)[|x| + 1..] && b.currency == ToString(b)[|y| + 1..];
    FixedRoundTrip(a.cents);
    FixedRoundTrip(b.cents);
  }

  /** The amount that a rendered value shows. */
  function AmountShown(s: string): int {
    var word := BeforeSpace(s);
    if |word| >= 4 then FixedValue(word) else 0
  }

  /** Reading a rendered amount back gives the cents it was made from. */
  lemma AmountRoundTrip(m: Money)
    ensures AmountShown(ToString(m)) == m.cents && CurrencyShown(ToString(m)) == m.currency
  {
    BeforeSpaceSplits(Fixed2(m.cents), m.currency);
    FixedRoundTrip(m.cents);
  }

  /** What follows the first space. */
  function CurrencyShown(s: string): string {
    var n := |BeforeSpace(s)|;
    if n + 1 <= |s| then s[n + 1..] else ""
  }

  predicate AllDigits(s: string) {
    forall c :: c in s ==> '0' <= c <= '9'
  }

  lemma {:induction false} NoLeadingZero(n: nat)
    ensures Digits(n)[0] == '0' <==> n == 0
    ensures n < 10 <==> |Digits(n)| == 1
  {
    if n >= 10 { NoLeadingZero(n / 10); }
  }

  /** The text exactly: a sign for less than zero, whole units without leading zeros, a point, two
      digits of cents, a space, the currency. */
  lemma RenderedForm(m: Money) returns (units: string, tens: char, ones: char)
    ensures ToString(m) == (if m.cents < 0 then "-" else "") + units + "." + [tens, ones] + " " + m.currency
    ensures AllDigits(units + [tens, ones]) && |units| >= 1 && (units[0] == '0' ==> |units| == 1)
    ensures var size := if m.cents < 0 then -m.cents else m.cents;
            NatValue(units) == size / 100 && NatValue([tens, ones]) == size % 100
  {
    var size := if m.cents < 0 then -m.cents else m.cents;
    units, tens, ones := Digits(size / 100), Digit(size / 10 % 10), Digit(size % 10);
    NatValueOfDigits(size / 100);
    NoLeadingZero(size / 100);
    TwoDigits(size);
    var sign := if m.cents < 0 then "-" else "";
    assert sign + units + ['.', tens, ones] == sign + units + "." + [tens, ones];
  }

  lemma TwoDigits(size: nat)
    ensures NatValue([Digit(size / 10 % 10), Digit(size % 10)]) == size % 100
  {
    var tens, ones := Digit(size / 10 % 10), Digit(size % 10);
    assert [tens, ones][..1] == [tens] && [tens][..0] == [];
    assert NatValue([tens]) == DigitValue(tens);
    assert NatValue([tens, ones]) == 10 * DigitValue(tens) + DigitValue(ones);
    LastTwo(size);
  }
}
