/**
 * `JobManager::genUUID`: eight draws of `mt_rand` printed with
 * `%04X%04X-%04X-%04X-%04X-%04X%04X%04X`. The random source is not modelled;
 * the eight numbers are an input.
 */
module Uuid {

  /** A number `%04X` prints as exactly four digits. */
  type Word = x: int | 0 <= x < 0x1_0000

  /** The eight `mt_rand` results, in the order `genUUID` draws them. */
  datatype Draw = Draw(a: Word, b: Word, c: Word, d: Word, e: Word, f: Word, g: Word, h: Word)

  /**
   * The ranges `genUUID` asks of `mt_rand`: the fourth number in 16384..20479
   * (version nibble 4), the fifth in 32768..49151 (variant bits 10).
   */
  predicate InRange(x: Draw)
  {
    0x4000 <= x.d <= 0x4FFF && 0x8000 <= x.e <= 0xBFFF
  }

  predicate IsUpperHex(ch: char)
  {
    '0' <= ch <= '9' || 'A' <= ch <= 'F'
  }

  /** The upper-case hexadecimal digit for `n`. */
  function HexDigit(n: nat): (ch: char)
    requires n < 16
    ensures IsUpperHex(ch)
  {
    if n < 10 then ('0' as int + n) as char else ('A' as int + n - 10) as char
  }

  /** The value of one upper-case hexadecimal digit. */
  function DigitValue(ch: char): (v: nat)
    requires IsUpperHex(ch)
    ensures v < 16 && HexDigit(v) == ch
  {
    if '0' <= ch <= '9' then ch as int - '0' as int else ch as int - 'A' as int + 10
  }

  /** `sprintf('%04X', w)`: the four base-16 digits of `w`, most significant first. */
  function Hex4(w: Word): (r: string)
    ensures |r| == 4 && forall k :: 0 <= k < 4 ==> IsUpperHex(r[k])
  {
    [HexDigit(w / 16 / 16 / 16), HexDigit(w / 16 / 16 % 16), HexDigit(w / 16 % 16), HexDigit(w % 16)]
  }

  /** Reads four upper-case hexadecimal digits back as a number. */
  function Hex4Value(s: string): nat
    requires |s| == 4 && forall k :: 0 <= k < 4 ==> IsUpperHex(s[k])
  {
    DigitValue(s[0]) * 0x1000 + DigitValue(s[1]) * 0x100 + DigitValue(s[2]) * 16 + DigitValue(s[3])
  }

  lemma Hex4RoundTrip(w: Word)
    ensures Hex4Value(Hex4(w)) == w
  {
    var u := w / 16;
    var v := u / 16;
    var t := v / 16;
    assert w == 16 * u + w % 16;
    assert u == 16 * v + u % 16;
    assert v == 16 * t + v % 16;
    assert t < 16;
    var r := Hex4(w);
    assert DigitValue(r[0]) == t by { assert r[0] == HexDigit(t); }
    assert DigitValue(r[1]) == v % 16 by { assert r[1] == HexDigit(v % 16); }
    assert DigitValue(r[2]) == u % 16 by { assert r[2] == HexDigit(u % 16); }
    assert DigitValue(r[3]) == w % 16 by { assert r[3] == HexDigit(w % 16); }
  }

  /** A position of the printed id that holds a hyphen. */
  predicate IsHyphenAt(k: int)
  {
    k == 8 || k == 13 || k == 18 || k == 23
  }

  /** `genUUID()` for the given draws. */
  function Format(x: Draw): (r: string)
    ensures |r| == 36
  {
    Hex4(x.a) + Hex4(x.b) + "-" + Hex4(x.c) + "-" + Hex4(x.d) + "-" + Hex4(x.e) + "-"
      + Hex4(x.f) + Hex4(x.g) + Hex4(x.h)
  }

  /** Every printed id has hyphens at 8, 13, 18 and 23 and upper-case hex digits elsewhere. */
  lemma FormatShape(x: Draw)
    ensures var r := Format(x);
      forall k :: 0 <= k < 36 ==> if IsHyphenAt(k) then r[k] == '-' else IsUpperHex(r[k])
  {
  }

  /** The draws are laid out at fixed offsets of the printed id. */
  lemma FormatFields(x: Draw)
    ensures var r := Format(x);
      && r[0..4] == Hex4(x.a) && r[4..8] == Hex4(x.b) && r[9..13] == Hex4(x.c)
      && r[14..18] == Hex4(x.d) && r[19..23] == Hex4(x.e) && r[24..28] == Hex4(x.f)
      && r[28..32] == Hex4(x.g) && r[32..36] == Hex4(x.h)
  {
  }

  /** Draws in `genUUID`'s ranges print a version-4 id with an RFC 4122 variant digit. */
  lemma VersionAndVariant(x: Draw)
    requires InRange(x)
    ensures Format(x)[14] == '4'
    ensures Format(x)[19] in "89AB"
  {
    FormatFields(x);
    assert Format(x)[14] == Hex4(x.d)[0];
    assert Format(x)[19] == Hex4(x.e)[0];
    VersionDigit(x.d);
    VariantDigit(x.e);
  }

  lemma VersionDigit(w: Word)
    requires 0x4000 <= w <= 0x4FFF
    ensures Hex4(w)[0] == '4'
  {
    assert w / 16 / 16 / 16 == 4;
  }

  lemma VariantDigit(w: Word)
    requires 0x8000 <= w <= 0xBFFF
    ensures Hex4(w)[0] in "89AB"
  {
    var n := w / 16 / 16 / 16;
    assert 8 <= n <= 11;
    assert Hex4(w)[0] == HexDigit(n);
  }

  /** Distinct draws never print the same id: the formatter loses nothing. */
  lemma FormatInjective(x: Draw, y: Draw)
    requires Format(x) == Format(y)
    ensures x == y
  {
    FormatFields(x);
    FormatFields(y);
    Hex4RoundTrip(x.a); Hex4RoundTrip(y.a);
    Hex4RoundTrip(x.b); Hex4RoundTrip(y.b);
    Hex4RoundTrip(x.c); Hex4RoundTrip(y.c);
    Hex4RoundTrip(x.d); Hex4RoundTrip(y.d);
    Hex4RoundTrip(x.e); Hex4RoundTrip(y.e);
    Hex4RoundTrip(x.f); Hex4RoundTrip(y.f);
    Hex4RoundTrip(x.g); Hex4RoundTrip(y.g);
    Hex4RoundTrip(x.h); Hex4RoundTrip(y.h);
  }
}
