/**
 Small value-level helpers shared by the whole model: an optional value, the
 JavaScript `||` fallback on a possibly-missing string, and the decimal
 rendering that a template literal such as `${status}` applies to an integer.
 */
module Values {

  /** A value that may be missing (`null` or `undefined` in TypeScript). */
  datatype Option<+T> = None | Some(value: T)

  /** JavaScript truthiness of a possibly-missing string: present and non-empty. */
  predicate Truthy(v: Option<string>) {
    v.Some? && v.value != ""
  }

  /** The JavaScript expression `v || fallback` on a possibly-missing string. */
  function OrElse(v: Option<string>, fallback: string): (r: string)
    ensures Truthy(v) ==> r == v.value
    ensures !Truthy(v) ==> r == fallback
    ensures fallback != "" ==> r != ""
  {
    if Truthy(v) then v.value else fallback
  }

  predicate IsDigit(c: char) {
    '0' <= c <= '9'
  }

  function DigitChar(d: nat): (c: char)
    requires d < 10
    ensures IsDigit(c)
    ensures c as int - '0' as int == d
  {
    "0123456789"[d]
  }

  /** Decimal digits of a natural number, most significant first, no leading zeros. */
  function NatToDecimal(n: nat): (s: string)
    ensures |s| >= 1
    ensures AllDigits(s)
    ensures |s| > 1 ==> s[0] != '0'
    decreases n
  {
    if n < 10 then [DigitChar(n)] else NatToDecimal(n / 10) + [DigitChar(n % 10)]
  }

  /** Decimal rendering of an integer, as `String(n)` does for a JavaScript integer. */
  function IntToDecimal(n: int): (s: string)
    ensures |s| >= 1
    ensures s[0] == '-' <==> n < 0
  {
    if n < 0 then "-" + NatToDecimal(-n) else NatToDecimal(n)
  }

  predicate AllDigits(s: string) {
    forall i :: 0 <= i < |s| ==> IsDigit(s[i])
  }

  /** Reads back a string of decimal digits; the inverse of NatToDecimal. */
  function DecimalToNat(s: string): nat
    requires AllDigits(s)
  {
    if |s| == 0 then 0
    else
      var last := s[|s| - 1];
      assert IsDigit(last);
      DecimalToNat(s[..|s| - 1]) * 10 + (last as int - '0' as int)
  }

  /** Reads back a rendered integer; the inverse of IntToDecimal. */
  function DecimalToInt(s: string): int
  {
    if |s| > 0 && s[0] == '-' && AllDigits(s[1..]) then
      0 - DecimalToNat(s[1..])
    else if AllDigits(s) then
      DecimalToNat(s)
    else
      0
  }

  lemma {:induction false} NatDecimalRoundTrip(n: nat)
    ensures DecimalToNat(NatToDecimal(n)) == n
    decreases n
  {
    if n >= 10 {
      var s := NatToDecimal(n);
      assert s[..|s| - 1] == NatToDecimal(n / 10);
      NatDecimalRoundTrip(n / 10);
    }
  }

  lemma IntDecimalRoundTrip(n: int)
    ensures DecimalToInt(IntToDecimal(n)) == n
  {
    if n < 0 {
      var d := NatToDecimal(-n);
      var s := "-" + d;
      assert s[1..] == d;
      NatDecimalRoundTrip(-n);
      assert DecimalToInt(s) == 0 - DecimalToNat(d);
    } else {
      var s := NatToDecimal(n);
      assert IsDigit(s[0]);
      NatDecimalRoundTrip(n);
      assert DecimalToInt(s) == DecimalToNat(s);
    }
  }

  /** Distinct integers render to distinct strings. */
  lemma IntToDecimalInjective(a: int, b: int)
    requires IntToDecimal(a) == IntToDecimal(b)
    ensures a == b
  {
    IntDecimalRoundTrip(a);
    IntDecimalRoundTrip(b);
  }
}
