/**
 * Hexadecimal rendering of non-negative integers, as `Number.prototype.toString(16)`
 * followed by the zero padding of `toByteString`, `toWordString` and `toAddress_`.
 */
module Hex {
  import opened Text

  predicate IsHexDigit(c: char) {
    '0' <= c <= '9' || 'a' <= c <= 'f'
  }

  predicate IsHexString(s: string) {
    forall i :: 0 <= i < |s| ==> IsHexDigit(s[i])
  }

  function HexDigit(d: nat): (c: char)
    requires d < 16
    ensures IsHexDigit(c) && DigitValue(c) == d
  {
    "0123456789abcdef"[d]
  }

  /** The value of one lower-case hex digit; inverse of HexDigit. */
  function DigitValue(c: char): (d: nat)
    requires IsHexDigit(c)
    ensures d < 16
  {
    if c <= '9' then c as int - '0' as int else c as int - 'a' as int + 10
  }

  function Pow16(w: nat): (p: nat)
    ensures p >= 1
  {
    if w == 0 then 1 else 16 * Pow16(w - 1)
  }

  /** `n.toString(16)`: the shortest lower-case hex numeral of `n` ("0" for zero). */
  function ToHex(n: nat): (r: string)
    ensures 1 <= |r| && IsHexString(r)
    ensures |r| > 1 ==> r[0] != '0'
    decreases n
  {
    if n < 16 then [HexDigit(n)] else ToHex(n / 16) + [HexDigit(n % 16)]
  }

  /** Reads a hex numeral back (most significant digit first). */
  function ParseHex(s: string): nat
    requires IsHexString(s)
  {
    if s == [] then 0 else ParseHex(s[..|s| - 1]) * 16 + DigitValue(s[|s| - 1])
  }

  lemma {:induction false} ParseToHex(n: nat)
    ensures ParseHex(ToHex(n)) == n
    decreases n
  {
    if n >= 16 {
      ParseToHex(n / 16);
      var r := ToHex(n);
      assert r[..|r| - 1] == ToHex(n / 16);
    }
  }

  /** A numeral has at most `w` digits exactly when the number is below 16^w. */
  lemma {:induction false} ToHexLength(n: nat, w: nat)
    requires w >= 1
    ensures |ToHex(n)| <= w <==> n < Pow16(w)
    decreases n
  {
    if n >= 16 {
      if w == 1 {
        assert Pow16(1) == 16;
      } else {
        ToHexLength(n / 16, w - 1);
      }
    } else {
      assert Pow16(w) >= 16 by { Pow16AtLeast16(w); }
    }
  }

  lemma {:induction false} Pow16AtLeast16(w: nat)
    requires w >= 1
    ensures Pow16(w) >= 16
  {
    if w > 1 { Pow16AtLeast16(w - 1); }
  }

  /** Leading zeros do not change the value of a numeral. */
  lemma {:induction false} ParseLeadingZeros(k: nat, s: string)
    requires IsHexString(s)
    ensures IsHexString(Repeat('0', k) + s) && ParseHex(Repeat('0', k) + s) == ParseHex(s)
    decreases |s|
  {
    var t := Repeat('0', k) + s;
    if s == [] {
      assert t == Repeat('0', k);
      ParseZeros(k);
    } else {
      ParseLeadingZeros(k, s[..|s| - 1]);
      assert t[..|t| - 1] == Repeat('0', k) + s[..|s| - 1];
    }
  }

  lemma {:induction false} ParseZeros(k: nat)
    ensures ParseHex(Repeat('0', k)) == 0
  {
    if k > 0 {
      ParseZeros(k - 1);
      assert Repeat('0', k)[..k - 1] == Repeat('0', k - 1);
    }
  }

  /**
   * `"0x" + "0…0".substr(0, width - hex.length) + hex`: the numeral is left-padded with
   * zeros to `width` digits and never truncated (a negative substr length gives "").
   */
  function Padded(n: nat, width: nat): (r: string)
    requires width >= 1
    ensures |r| >= 3 && r[..2] == "0x" && IsHexString(r[2..])
    ensures ParseHex(r[2..]) == n
    ensures n < Pow16(width) ==> |r| == 2 + width
    ensures n >= Pow16(width) ==> r == "0x" + ToHex(n) && |r| > 2 + width
  {
    var hex := ToHex(n);
    var pad := if |hex| < width then width - |hex| else 0;
    PaddedFacts(n, width, hex, pad);
    "0x" + Repeat('0', pad) + hex
  }

  lemma PaddedFacts(n: nat, width: nat, hex: string, pad: nat)
    requires width >= 1 && hex == ToHex(n) && pad == (if |hex| < width then width - |hex| else 0)
    ensures |"0x" + Repeat('0', pad) + hex| >= 3 && ("0x" + Repeat('0', pad) + hex)[..2] == "0x"
    ensures ("0x" + Repeat('0', pad) + hex)[2..] == Repeat('0', pad) + hex
    ensures IsHexString(Repeat('0', pad) + hex) && ParseHex(Repeat('0', pad) + hex) == n
    ensures n < Pow16(width) ==> |"0x" + Repeat('0', pad) + hex| == 2 + width
    ensures n >= Pow16(width) ==> pad == 0 && |hex| > width
  {
    ToHexLength(n, width);
    ParseToHex(n);
    ParseLeadingZeros(pad, hex);
    var r := "0x" + Repeat('0', pad) + hex;
    assert r[2..] == Repeat('0', pad) + hex;
    if n >= Pow16(width) {
      assert Repeat('0', 0) + hex == hex;
    }
  }

  /** `Disasm.toByteString`: for a byte, "0x" and exactly two lower-case hex digits. */
  function ToByteString(n: nat): (r: string)
    ensures n < 256 ==> |r| == 4 && r[..2] == "0x" && IsHexString(r[2..]) && ParseHex(r[2..]) == n
  {
    assert Pow16(2) == 256;
    Padded(n, 2)
  }

  /** `Disasm.toWordString`: for a 16-bit value, "0x" and exactly four hex digits. */
  function ToWordString(n: nat): (r: string)
    ensures n < 0x1_0000 ==> |r| == 6 && r[..2] == "0x" && IsHexString(r[2..]) && ParseHex(r[2..]) == n
  {
    assert Pow16(4) == 0x1_0000;
    Padded(n, 4)
  }

  /** `Disasm.toAddress_`: the same four-digit rendering, used for listing addresses. */
  function ToAddress(n: nat): (r: string)
    ensures n < 0x1_0000 ==> |r| == 6 && r[..2] == "0x" && IsHexString(r[2..]) && ParseHex(r[2..]) == n
    ensures n >= 0x1_0000 ==> |r| > 6 && r == "0x" + ToHex(n)
  {
    assert Pow16(4) == 0x1_0000;
    Padded(n, 4)
  }

  /** Distinct values render differently: the rendering loses nothing. */
  lemma WordStringInjective(m: nat, n: nat)
    requires ToWordString(m) == ToWordString(n)
    ensures m == n
  {
    assert ParseHex(ToWordString(m)[2..]) == m;
  }

  lemma PaddedOneLine(n: nat, width: nat)
    requires width >= 1
    ensures '\n' !in Padded(n, width)
  {
  }
}
