/**
 * Decimal amounts on the wire. Stored amounts are exact decimals; the API
 * renders them with `toFixed(2)`: the value rounded half-up to whole cents,
 * written as a canonical integer part, a '.', and exactly two digits.
 */
module Amounts {
  import opened Wrappers

  /** A stored decimal amount. Every write path admits only positive amounts. */
  type Money = r: real | 0.0 <= r

  predicate IsDigit(c: char) {
    '0' <= c <= '9'
  }

  predicate AllDigits(s: string) {
    forall i :: 0 <= i < |s| ==> IsDigit(s[i])
  }

  /** A non-empty digit string without a superfluous leading zero. */
  predicate IsCanonicalNat(s: string) {
    |s| >= 1 && AllDigits(s) && (|s| > 1 ==> s[0] != '0')
  }

  function DigitChar(d: int): (c: char)
    requires 0 <= d < 10
    ensures IsDigit(c)
  {
    ('0' as int + d) as char
  }

  function DigitValue(c: char): (d: nat)
    requires IsDigit(c)
    ensures d < 10 && DigitChar(d) == c
  {
    c as int - '0' as int
  }

  lemma DigitValueOfDigitChar(d: int)
    requires 0 <= d < 10
    ensures DigitValue(DigitChar(d)) == d
  {
  }

  /** The number a string of decimal digits denotes. */
  function DecimalValue(s: string): nat
    requires AllDigits(s)
  {
    if |s| == 0 then 0 else DecimalValue(s[..|s| - 1]) * 10 + DigitValue(s[|s| - 1])
  }

  /** The canonical decimal rendering of `n` (`String(n)` for a whole number). */
  function NatToDecimal(n: nat): (s: string)
    ensures |s| >= 1 && AllDigits(s)
  {
    if n < 10 then [DigitChar(n)] else NatToDecimal(n / 10) + [DigitChar(n % 10)]
  }

  lemma {:induction false} DecimalValueOfNatToDecimal(n: nat)
    ensures IsCanonicalNat(NatToDecimal(n))
    ensures DecimalValue(NatToDecimal(n)) == n
  {
    if n >= 10 {
      DecimalValueOfNatToDecimal(n / 10);
      var s := NatToDecimal(n);
      assert s[..|s| - 1] == NatToDecimal(n / 10);
      assert s[0] == NatToDecimal(n / 10)[0];
      if |NatToDecimal(n / 10)| == 1 {
        assert NatToDecimal(n / 10)[0] != '0' by {
          assert DigitValue(NatToDecimal(n / 10)[0]) == n / 10;
        }
      }
    }
  }

  /** A canonical digit string whose first digit is not zero denotes a positive number. */
  lemma {:induction false} LeadingDigitPositive(s: string)
    requires AllDigits(s) && |s| >= 1 && s[0] != '0'
    ensures DecimalValue(s) >= 1
  {
    if |s| > 1 {
      LeadingDigitPositive(s[..|s| - 1]);
    }
  }

  lemma {:induction false} NatToDecimalOfDecimalValue(s: string)
    requires IsCanonicalNat(s)
    ensures NatToDecimal(DecimalValue(s)) == s
  {
    if |s| > 1 {
      var p := s[..|s| - 1];
      LeadingDigitPositive(p);
      NatToDecimalOfDecimalValue(p);
      var v := DecimalValue(s);
      assert v / 10 == DecimalValue(p);
      assert v % 10 == DigitValue(s[|s| - 1]);
      assert s == p + [s[|s| - 1]];
    }
  }

  /** Rounds a non-negative amount to whole cents, halves rounding up. */
  function Cents(r: Money): (c: nat)
    ensures r * 100.0 - 0.5 < c as real <= r * 100.0 + 0.5
  {
    (r * 100.0 + 0.5).Floor
  }

  /** `c` cents rendered as integer part, '.', and two fraction digits. */
  function FormatCents(c: nat): string {
    NatToDecimal(c / 100) + ['.', DigitChar(c % 100 / 10), DigitChar(c % 10)]
  }

  /** The shape every rendered amount has. */
  predicate IsTwoDecimal(s: string) {
    && |s| >= 4
    && s[|s| - 3] == '.'
    && IsCanonicalNat(s[..|s| - 3])
    && IsDigit(s[|s| - 2]) && IsDigit(s[|s| - 1])
  }

  /** Reads a rendered amount back as cents. */
  function ParseCents(s: string): (r: Option<nat>)
    ensures r.Some? <==> IsTwoDecimal(s)
  {
    if IsTwoDecimal(s) then
      Some(DecimalValue(s[..|s| - 3]) * 100 + DigitValue(s[|s| - 2]) * 10 + DigitValue(s[|s| - 1]))
    else None
  }

  lemma CentsSplit(c: nat)
    ensures c == (c / 100) * 100 + (c % 100 / 10) * 10 + c % 10
  {
  }

  /** Reading an integer part, a '.', and two digits. */
  lemma ParseParts(p: string, a: char, b: char)
    requires IsCanonicalNat(p) && IsDigit(a) && IsDigit(b)
    ensures ParseCents(p + ['.', a, b]) == Some(DecimalValue(p) * 100 + DigitValue(a) * 10 + DigitValue(b))
  {
    var s := p + ['.', a, b];
    assert s[..|s| - 3] == p;
    assert IsTwoDecimal(s);
  }

  /** Every rendering has the two-decimal shape and reads back as the cents it came from. */
  lemma ParseFormatCents(c: nat)
    ensures IsTwoDecimal(FormatCents(c))
    ensures ParseCents(FormatCents(c)) == Some(c)
  {
    DecimalValueOfNatToDecimal(c / 100);
    DigitValueOfDigitChar(c % 100 / 10);
    DigitValueOfDigitChar(c % 10);
    ParseParts(NatToDecimal(c / 100), DigitChar(c % 100 / 10), DigitChar(c % 10));
    CentsSplit(c);
  }

  lemma DivModParts(v: nat, d1: nat, d2: nat, c: nat)
    requires d1 < 10 && d2 < 10
    requires c == v * 100 + d1 * 10 + d2
    ensures c / 100 == v && c % 100 / 10 == d1 && c % 10 == d2
  {
  }

  /** Conversely, every string of the two-decimal shape is the rendering of what it reads as. */
  lemma FormatParseCents(s: string)
    requires IsTwoDecimal(s)
    ensures FormatCents(ParseCents(s).value) == s
  {
    var ip := s[..|s| - 3];
    var c := ParseCents(s).value;
    DivModParts(DecimalValue(ip), DigitValue(s[|s| - 2]), DigitValue(s[|s| - 1]), c);
    NatToDecimalOfDecimalValue(ip);
    assert s == ip + ['.', s[|s| - 2], s[|s| - 1]];
  }

  /** `amount.toFixed(2)` for a stored decimal. */
  function FormatAmount(r: Money): (s: string)
    ensures IsTwoDecimal(s)
    ensures ParseCents(s) == Some(Cents(r))
  {
    ParseFormatCents(Cents(r));
    FormatCents(Cents(r))
  }
}
