/**
 * Decimal rendering of naturals (fmt's `%d`) and ASCII bytes, with the
 * parse-back functions that make the rendering invertible.
 */
module Text {

  newtype byte = x: int | 0 <= x < 256

  type Bytes = seq<byte>

  predicate IsDigit(c: char) {
    '0' <= c <= '9'
  }

  predicate IsDigitByte(b: byte) {
    48 <= b <= 57
  }

  function DigitChar(d: nat): (c: char)
    requires d < 10
    ensures IsDigit(c) && c as int - '0' as int == d
  {
    ('0' as int + d) as char
  }

  /** The decimal digits of `n`, most significant first, without leading zeros (Go's `%d`). */
  function NatToDecimal(n: nat): (s: string)
    ensures |s| >= 1
    ensures forall i :: 0 <= i < |s| ==> IsDigit(s[i])
    ensures n < 10 <==> |s| == 1
    decreases n
  {
    if n < 10 then [DigitChar(n)] else NatToDecimal(n / 10) + [DigitChar(n % 10)]
  }

  /** The bytes of an ASCII string (code points are taken modulo 256). */
  function Ascii(s: string): (b: Bytes)
    ensures |b| == |s|
    ensures forall i :: 0 <= i < |s| ==> b[i] as int == (s[i] as int) % 256
  {
    seq(|s|, i requires 0 <= i < |s| => ((s[i] as int) % 256) as byte)
  }

  lemma AsciiAppend(s: string, t: string)
    ensures Ascii(s + t) == Ascii(s) + Ascii(t)
  {
    assert forall i :: 0 <= i < |s + t| ==> Ascii(s + t)[i] == (Ascii(s) + Ascii(t))[i];
  }

  /** Length of the run of ASCII digits at the start of `b`. */
  function DigitRun(b: Bytes): (k: nat)
    ensures k <= |b|
    ensures forall i :: 0 <= i < k ==> IsDigitByte(b[i])
    ensures k < |b| ==> !IsDigitByte(b[k])
  {
    if b == [] || !IsDigitByte(b[0]) then 0 else 1 + DigitRun(b[1..])
  }

  /** The natural number spelled by a sequence of ASCII digits. */
  function DigitsValue(b: Bytes): nat
    requires forall i :: 0 <= i < |b| ==> IsDigitByte(b[i])
  {
    if b == [] then 0
    else
      assert IsDigitByte(b[|b| - 1]);
      DigitsValue(b[..|b| - 1]) * 10 + (b[|b| - 1] as int - 48)
  }

  /** The ASCII bytes of `NatToDecimal(n)`, as `%d` writes them to a byte stream. */
  function DecimalBytes(n: nat): (b: Bytes)
    ensures |b| == |NatToDecimal(n)|
    ensures forall i :: 0 <= i < |b| ==> IsDigitByte(b[i])
  {
    Ascii(NatToDecimal(n))
  }

  /** Round trip: reading back the decimal rendering of `n` gives `n`. */
  lemma {:induction false} DecimalRoundTrip(n: nat)
    ensures DigitsValue(DecimalBytes(n)) == n
    decreases n
  {
    if n >= 10 {
      var hi := NatToDecimal(n / 10);
      var d := [DigitChar(n % 10)];
      AsciiAppend(hi, d);
      var b := DecimalBytes(n);
      assert b == DecimalBytes(n / 10) + Ascii(d);
      assert b[..|b| - 1] == DecimalBytes(n / 10);
      DecimalRoundTrip(n / 10);
    }
  }

  /** Distinct numbers have distinct decimal renderings. */
  lemma DecimalInjective(m: nat, n: nat)
    ensures NatToDecimal(m) == NatToDecimal(n) ==> m == n
  {
    DecimalRoundTrip(m);
    DecimalRoundTrip(n);
  }
}
