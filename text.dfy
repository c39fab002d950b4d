/**
 * Text helpers the server relies on: the ASCII writer Netty uses for the
 * response body, and Java's Integer.toString used for header values and
 * system-property values. Each encoder is paired with a reference decoder so
 * that what it produces can be stated as a round trip.
 */
module Text {

  datatype Option<T> = None | Some(value: T)

  newtype byte = b: int | 0 <= b < 0x100

  /** '?', the byte Netty's ASCII writer puts in place of a character above 0xFF. */
  const REPLACEMENT: byte := 0x3F

  predicate IsAsciiChar(c: char) { c as int < 0x80 }

  predicate IsAscii(s: string) {
    forall i :: 0 <= i < |s| ==> IsAsciiChar(s[i])
  }

  /** Characters 0..255, the ones the ASCII writer keeps as their own byte. */
  predicate IsLatin1(s: string) {
    forall i :: 0 <= i < |s| ==> s[i] as int < 0x100
  }

  /** AsciiString.c2b: a character's low byte up to 0xFF, '?' above. */
  function UnitByte(c: char): (b: byte)
    ensures (b as int as char == c) <==> c as int < 0x100
    ensures c as int >= 0x100 ==> b == REPLACEMENT
  {
    if c as int < 0x100 then c as int as byte else REPLACEMENT
  }

  /** Netty's ASCII writer (ByteBufUtil.writeAscii): one byte per character, c2b on each, in order. */
  function EncodeAscii(s: string): (b: seq<byte>)
    ensures |b| == |s|
  {
    seq(|s|, i requires 0 <= i < |s| => UnitByte(s[i]))
  }

  /** Reference decoder (ISO-8859-1): each byte is the character with that code. */
  function DecodeLatin1(b: seq<byte>): (s: string)
    ensures |s| == |b| && IsLatin1(s)
  {
    seq(|b|, i requires 0 <= i < |b| => b[i] as int as char)
  }

  /** Each character is written in place: its own code up to 0xFF, '?' above. */
  lemma EncodeAsciiAt(s: string, i: nat)
    requires i < |s|
    ensures EncodeAscii(s)[i] == if s[i] as int < 0x100 then s[i] as int as byte else REPLACEMENT
  {
  }

  lemma AsciiIsLatin1(s: string)
    requires IsAscii(s)
    ensures IsLatin1(s)
  {
    forall i | 0 <= i < |s| ensures s[i] as int < 0x100 {
      assert IsAsciiChar(s[i]);
    }
  }

  lemma AsciiConcat(a: string, b: string)
    ensures IsAscii(a) && IsAscii(b) ==> IsAscii(a + b)
  {
    var c := a + b;
    forall i | 0 <= i < |c| && IsAscii(a) && IsAscii(b) ensures IsAsciiChar(c[i]) {
      if i < |a| {
        assert c[i] == a[i];
      } else {
        assert c[i] == b[i - |a|];
      }
    }
  }

  /** Decoding undoes encoding exactly on text of characters 0..255; any other character becomes '?' and is lost. */
  lemma AsciiRoundTrip(s: string)
    ensures IsLatin1(s) <==> DecodeLatin1(EncodeAscii(s)) == s
  {
    var d := DecodeLatin1(EncodeAscii(s));
    if !IsLatin1(s) {
      var i :| 0 <= i < |s| && s[i] as int >= 0x100;
      assert d[i] == '?' != s[i];
    }
  }

  // ---------------------------------------------------------------------------
  // Decimal rendering (Java's Integer.toString) and its reference parser

  predicate IsDigit(c: char) { '0' <= c <= '9' }

  function DigitChar(d: nat): char
    requires d < 10
  {
    ('0' as int + d) as char
  }

  /** Decimal digits of n, most significant first, without leading zeros. */
  function NatToDecimal(n: nat): (s: string)
    ensures |s| > 0 && AllDigits(s)
    decreases n
  {
    if n < 10 then [DigitChar(n)] else NatToDecimal(n / 10) + [DigitChar(n % 10)]
  }

  /** Integer.toString: a '-' sign for negative values, then the digits of the magnitude. */
  function IntToDecimal(n: int): (s: string)
    ensures |s| > 0 && (s[0] == '-' <==> n < 0)
    ensures n >= 0 ==> AllDigits(s)
  {
    if n < 0 then "-" + NatToDecimal(-n) else NatToDecimal(n)
  }

  predicate AllDigits(s: string) {
    forall i :: 0 <= i < |s| ==> IsDigit(s[i])
  }

  /** Value of a string of decimal digits, read most significant first. */
  function DigitsValue(s: string): (v: nat)
    requires AllDigits(s)
  {
    if s == [] then 0 else DigitsValue(s[..|s| - 1]) * 10 + (s[|s| - 1] as int - '0' as int)
  }

  /** Reference parser: an optional '-' followed by at least one digit. */
  function ParseInt(s: string): (r: Option<int>) {
    if |s| > 0 && s[0] == '-' then
      (if |s| > 1 && AllDigits(s[1..]) then Some(0 - DigitsValue(s[1..]) as int) else None)
    else if |s| > 0 && AllDigits(s) then Some(DigitsValue(s))
    else None
  }

  lemma {:induction false} NatToDecimalDigits(n: nat)
    ensures DigitsValue(NatToDecimal(n)) == n
    decreases n
  {
    if n >= 10 {
      NatToDecimalDigits(n / 10);
      var s := NatToDecimal(n);
      assert s[..|s| - 1] == NatToDecimal(n / 10);
    }
  }

  lemma DigitsAreAscii(s: string)
    requires AllDigits(s)
    ensures IsAscii(s)
  {
    forall i | 0 <= i < |s| ensures IsAsciiChar(s[i]) {
      assert IsDigit(s[i]);
    }
  }

  lemma ParseDigits(d: string)
    requires |d| > 0 && AllDigits(d)
    ensures ParseInt(d) == Some(DigitsValue(d) as int)
  {
    assert IsDigit(d[0]);
  }

  lemma ParseSignedDigits(d: string)
    requires |d| > 0 && AllDigits(d)
    ensures ParseInt("-" + d) == Some(0 - DigitsValue(d) as int)
  {
    var s := "-" + d;
    assert s[1..] == d;
  }

  lemma SignedAscii(d: string)
    requires IsAscii(d)
    ensures IsAscii("-" + d)
  {
    var s := "-" + d;
    forall i | 0 <= i < |s| ensures IsAsciiChar(s[i]) {
      if i > 0 {
        assert s[i] == d[i - 1];
      }
    }
  }

  /** Reading Integer.toString's output back gives the number it rendered. */
  lemma IntDecimalRoundTrip(n: int)
    ensures |IntToDecimal(n)| > 0 && IsAscii(IntToDecimal(n))
    ensures ParseInt(IntToDecimal(n)) == Some(n)
  {
    var m := if n < 0 then -n else n;
    var d := NatToDecimal(m);
    NatToDecimalDigits(m);
    DigitsAreAscii(d);
    if n < 0 {
      ParseSignedDigits(d);
      SignedAscii(d);
    } else {
      ParseDigits(d);
    }
  }

  /** Integer.toString never renders two different numbers as the same text. */
  lemma IntToDecimalInjective(a: int, b: int)
    requires IntToDecimal(a) == IntToDecimal(b)
    ensures a == b
  {
    IntDecimalRoundTrip(a);
    IntDecimalRoundTrip(b);
  }
}
