/** Numbers as text: printing in decimal and fixed-width hex, and base-detecting parsing. */
module Numerals {
  import opened VideoFrames

  const WORD64: nat := 0x1_0000_0000_0000_0000
  const WORD32: nat := 0x1_0000_0000

  function Digit(c: char): Option<nat> {
    if '0' <= c <= '9' then Some(c as nat - '0' as nat)
    else if 'a' <= c <= 'f' then Some(c as nat - 'a' as nat + 10)
    else if 'A' <= c <= 'F' then Some(c as nat - 'A' as nat + 10)
    else None
  }

  /** Value of a non-empty run of digits of the base; None when any character is not one. */
  function DigitsValue(s: string, base: nat): Option<nat> {
    if |s| == 0 then None
    else
      var d := Digit(s[|s| - 1]);
      if d.None? || d.value >= base then None
      else if |s| == 1 then d
      else
        var high := DigitsValue(s[..|s| - 1], base);
        if high.None? then None else Some(high.value * base + d.value)
  }

  /** strtoull's base 0, on text that must be used up: 0x is hex, a leading 0 octal, else decimal. */
  function Magnitude(s: string): Option<nat> {
    if |s| > 2 && s[0] == '0' && (s[1] == 'x' || s[1] == 'X') then DigitsValue(s[2..], 16)
    else if |s| > 0 && s[0] == '0' then DigitsValue(s, 8)
    else DigitsValue(s, 10)
  }

  predicate IsSpace(c: char) { c == ' ' || '\t' <= c <= '\r' }

  function SkipSpace(s: string): string {
    if |s| > 0 && IsSpace(s[0]) then SkipSpace(s[1..]) else s
  }

  /** strtoull(s, &end, 0) with nothing left over and no range error. */
  function ParseUnsigned(s: string): (r: Option<nat>)
    ensures r.Some? ==> r.value < WORD64
  {
    var t := SkipSpace(s);
    var negative := |t| > 0 && t[0] == '-';
    var m := Magnitude(if negative || (|t| > 0 && t[0] == '+') then t[1..] else t);
    if m.None? || m.value >= WORD64 then None
    else if negative then Some((WORD64 - m.value) % WORD64) else m
  }

  /** A signed integer scalar of the given range. */
  function ParseSigned(s: string, limit: int): (r: Option<int>)
    ensures r.Some? ==> -limit <= r.value < limit
  {
    var negative := |s| > 0 && s[0] == '-';
    var m := Magnitude(if negative || (|s| > 0 && s[0] == '+') then s[1..] else s);
    if m.None? then None
    else
      var v: int := if negative then 0 - m.value else m.value;
      if -limit <= v < limit then Some(v) else None
  }

  // ---- printing ------------------------------------------------------------------------------

  function DigitChar(d: nat): (c: char)
    requires d < 16
    ensures Digit(c) == Some(d)
  {
    if d < 10 then '0' + d as char else 'a' + (d - 10) as char
  }

  function Power16(k: nat): (p: nat)
    ensures p > 0
  {
    if k == 0 then 1 else 16 * Power16(k - 1)
  }

  /** The last k hex digits of n. */
  function Hex(n: nat, k: nat): (s: string)
    ensures |s| == k
  {
    if k == 0 then "" else Hex(n / 16, k - 1) + [DigitChar(n % 16)]
  }

  function Decimal(n: nat): (s: string)
    ensures |s| > 0
  {
    if n < 10 then [DigitChar(n)] else Decimal(n / 10) + [DigitChar(n % 10)]
  }

  function SignedDecimal(v: int): string {
    if v < 0 then "-" + Decimal(-v) else Decimal(v)
  }

  lemma ValueOfAppended(high: string, d: nat, base: nat)
    requires d < base <= 16 && |high| > 0 && DigitsValue(high, base).Some?
    ensures DigitsValue(high + [DigitChar(d)], base) == Some(DigitsValue(high, base).value * base + d)
  {
    assert (high + [DigitChar(d)])[..|high|] == high;
  }

  lemma {:induction false} HexValue(n: nat, k: nat)
    requires k > 0 && n < Power16(k)
    ensures DigitsValue(Hex(n, k), 16) == Some(n)
  {
    if k > 1 {
      HexValue(n / 16, k - 1);
      ValueOfAppended(Hex(n / 16, k - 1), n % 16, 16);
    } else {
      assert Power16(0) == 1;
      assert Hex(n / 16, 0) == "";
    }
  }

  lemma {:induction false} DecimalValue(n: nat)
    ensures DigitsValue(Decimal(n), 10) == Some(n)
    ensures n > 0 ==> '1' <= Decimal(n)[0] <= '9'
  {
    if n >= 10 {
      DecimalValue(n / 10);
      ValueOfAppended(Decimal(n / 10), n % 10, 10);
      assert Decimal(n)[0] == Decimal(n / 10)[0];
    }
  }

  lemma ZeroReads(n: nat)
    requires n == 0
    ensures Magnitude(Decimal(n)) == Some(n)
  {
    assert Decimal(n) == [DigitChar(n)];
  }

  /** Printed decimals are never mistaken for octal or hex. */
  lemma DecimalReads(n: nat)
    ensures Magnitude(Decimal(n)) == Some(n)
    ensures !IsSpace(Decimal(n)[0]) && Decimal(n)[0] != '-' && Decimal(n)[0] != '+'
  {
    DecimalValue(n);
    if n == 0 {
      ZeroReads(n);
    }
  }

  lemma SignedDecimalReads(v: int, limit: int)
    requires -limit <= v < limit
    ensures ParseSigned(SignedDecimal(v), limit) == Some(v)
  {
    if v < 0 {
      DecimalReads(-v);
      assert ("-" + Decimal(-v))[1..] == Decimal(-v);
    } else {
      DecimalReads(v);
    }
  }

  // ---- control ids ------------------------------------------------------------------------------

  /** "0x%08x". */
  function FormatControlId(id: nat): string { "0x" + Hex(id, 8) }

  /** The reader's id: an empty or unparsable scalar is refused; the rest keeps its low 32 bits. */
  function ParseControlId(s: string): (r: Option<nat>)
    ensures r.Some? ==> r.value < WORD32
  {
    if |s| == 0 then None
    else match ParseUnsigned(s)
      case None => None
      case Some(v) => Some(v % WORD32)
  }

  lemma Powers()
    ensures Power16(8) == WORD32 && Power16(16) == WORD64
  {
    var two, four, eight := 2, 4, 8;
    assert Power16(two) == 256;
    assert Power16(four) == 65536 by {
      assert Power16(3) == 16 * Power16(two);
    }
    assert Power16(6) == 16 * 16 * Power16(four);
    assert Power16(eight) == 16 * 16 * Power16(6);
    assert Power16(10) == 16 * 16 * Power16(eight);
    assert Power16(12) == 16 * 16 * Power16(10);
    assert Power16(14) == 16 * 16 * Power16(12);
    assert Power16(16) == 16 * 16 * Power16(14);
  }

  /** A hex scalar of any width that fits 64 bits is read as its low 32 bits. */
  lemma HexScalarReads(n: nat, k: nat)
    requires k > 0 && n < Power16(k) && n < WORD64
    ensures ParseControlId("0x" + Hex(n, k)) == Some(n % WORD32)
  {
    HexValue(n, k);
    var s := "0x" + Hex(n, k);
    assert s[2..] == Hex(n, k);
    assert SkipSpace(s) == s;
  }

  /** Every 32-bit id survives the written form, and the plain decimal form. */
  lemma ControlIdRoundTrip(id: nat)
    requires id < WORD32
    ensures ParseControlId(FormatControlId(id)) == Some(id)
    ensures ParseControlId(Decimal(id)) == Some(id)
  {
    hide *;
    WrittenIdReads(id);
    DecimalIdReads(id);
  }

  lemma WrittenIdReads(id: nat)
    requires id < WORD32
    ensures ParseControlId(FormatControlId(id)) == Some(id)
  {
    hide Hex, Power16, ParseControlId;
    Powers();
    HexScalarReads(id, 8);
  }

  lemma DecimalIdReads(id: nat)
    requires id < WORD32
    ensures ParseControlId(Decimal(id)) == Some(id)
  {
    hide Decimal, Magnitude;
    DecimalReads(id);
    assert SkipSpace(Decimal(id)) == Decimal(id);
  }

  /** A wider id in a hand-written file is not refused but cut to 32 bits: of all 64-bit ids in
      hex, exactly those below 2^32 are read as themselves. */
  lemma HexIdKeptIff(v: nat)
    requires v < WORD64
    ensures ParseControlId("0x" + Hex(v, 16)) == Some(v) <==> v < WORD32
  {
    hide Hex, Power16, ParseControlId;
    Powers();
    HexScalarReads(v, 16);
  }

  // ---- hand-written scalars ----------------------------------------------------------------------

  /** The last k octal digits of n. */
  function Octal(n: nat, k: nat): (s: string)
    ensures |s| == k
  {
    if k == 0 then "" else Octal(n / 8, k - 1) + [DigitChar(n % 8)]
  }

  function Power8(k: nat): nat {
    if k == 0 then 1 else 8 * Power8(k - 1)
  }

  lemma {:induction false} OctalValue(n: nat, k: nat)
    requires k > 0 && n < Power8(k)
    ensures DigitsValue(Octal(n, k), 8) == Some(n)
  {
    if k > 1 {
      OctalValue(n / 8, k - 1);
      ValueOfAppended(Octal(n / 8, k - 1), n % 8, 8);
    } else {
      assert Power8(0) == 1;
      assert Octal(n / 8, 0) == "";
    }
  }

  lemma {:induction false} OctalStart(n: nat, k: nat)
    requires 0 < k && n < Power8(k - 1)
    ensures Octal(n, k)[0] == '0' && (k > 1 ==> '0' <= Octal(n, k)[1] <= '7')
  {
    if k > 1 {
      assert n / 8 < Power8(k - 2) || k == 2;
      if k == 2 {
        assert Octal(n / 8, 1) == Octal(n / 8 / 8, 0) + [DigitChar(n / 8 % 8)];
        assert Power8(1) == 8 * Power8(0);
      } else {
        OctalStart(n / 8, k - 1);
      }
    } else {
      assert Octal(n, 1) == Octal(n / 8, 0) + [DigitChar(n % 8)];
      assert Power8(0) == 1;
    }
  }

  /** A leading 0 makes a number octal. */
  lemma LeadingZeroIsOctal(n: nat, k: nat)
    requires k > 0 && n < Power8(k - 1) && n < WORD64
    ensures ParseControlId(Octal(n, k)) == Some(n % WORD32)
  {
    hide Octal, DigitsValue, Power8;
    assert n < Power8(k) by {
      Power8Grows(k);
    }
    OctalValue(n, k);
    OctalStart(n, k);
    assert SkipSpace(Octal(n, k)) == Octal(n, k);
  }

  lemma Power8Grows(k: nat)
    requires k > 0
    ensures Power8(k) == 8 * Power8(k - 1)
  {
  }

  /** A minus sign is not refused: the id is the complement to 2^32. */
  lemma NegativeIdWraps(n: nat)
    requires n < WORD64
    ensures ParseControlId("-" + Decimal(n)) == Some((WORD64 - n) % WORD32)
    ensures ParseControlId("+" + Decimal(n)) == Some(n % WORD32)
  {
    hide Decimal, Magnitude, DigitsValue;
    DecimalReads(n);
    assert ("-" + Decimal(n))[1..] == Decimal(n);
    assert ("+" + Decimal(n))[1..] == Decimal(n);
    assert SkipSpace("-" + Decimal(n)) == "-" + Decimal(n);
    assert SkipSpace("+" + Decimal(n)) == "+" + Decimal(n);
    LowWord(n);
  }

  lemma LowWord(n: nat)
    requires n < WORD64
    ensures (WORD64 - n) % WORD64 % WORD32 == (WORD64 - n) % WORD32
  {
    if n == 0 {
      assert WORD64 == WORD32 * WORD32;
    }
  }

  /** White space before a number is skipped, behind it nothing may follow. */
  lemma SpaceAround(s: string, c: char)
    requires c == ' ' || c == '\t' || c == '\n' || c == '\r' || c as int == 11 || c as int == 12
    ensures ParseUnsigned([c] + s) == ParseUnsigned(s)
    ensures ParseUnsigned(s + [c]).None?
  {
    assert ([c] + s)[1..] == s;
    TrailingNonDigit(s, c);
  }

  lemma {:induction false} TrailingNonDigit(s: string, c: char)
    requires IsSpace(c) && Digit(c).None? && c != '+' && c != '-' && c != 'x' && c != 'X'
    ensures ParseUnsigned(s + [c]).None?
  {
    var t := s + [c];
    if IsSpace(t[0]) {
      if |s| > 0 {
        TrailingNonDigit(s[1..], c);
        assert t[1..] == s[1..] + [c];
      } else {
        assert |t[1..]| == 0;
        assert |SkipSpace(t[1..])| == 0;
        EndsBadly(t[1..], 10);
      }
    } else {
      var u := if t[0] == '-' || t[0] == '+' then t[1..] else t;
      assert u[|u| - 1] == c;
      EndsBadly(u, 8);
      EndsBadly(u, 10);
      if |u| > 2 {
        EndsBadly(u[2..], 16);
      }
    }
  }

  lemma EndsBadly(u: string, base: nat)
    requires |u| > 0 ==> Digit(u[|u| - 1]).None?
    ensures DigitsValue(u, base).None?
  {
  }

  /** Both cases of hex digits and of the prefix; no digit 8 in an octal number; no empty number. */
  lemma ScalarExamples()
    ensures ParseControlId("0X1f") == ParseControlId("0x1F") == Some(31)
    ensures ParseControlId("08").None? && ParseControlId("0x").None? && ParseControlId("").None?
    ensures ParseControlId("12a").None? && ParseControlId("-").None?
  {
    assert "0X1f"[2..] == "1f" && "0x1F"[2..] == "1F";
    assert "1f"[..1] == "1" && "1F"[..1] == "1";
    assert DigitsValue("1f", 16) == Some(31) && DigitsValue("1F", 16) == Some(31);
    EndsBadly("-"[1..], 10);
  }
}
