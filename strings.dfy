/** The text primitives the formatter is built from: .NET's numeric format
    strings (`x`, `x16`, `{0,16:x}`, default decimal), alignment and padding,
    `Path.GetFileName`, and the `Guid.ToString("D").ToUpper()` layout. Each
    rendering comes with the parser that reads it back. */
module Strings {
  import opened Ints
  import opened Wrappers

  /** Every line the model writes ends with this terminator. */
  const NewLine: string := "\n"

  const UpperDigits: string := "0123456789ABCDEF"

  // ---------------------------------------------------------------- numbers

  predicate IsRadix(radix: nat) { radix == 10 || radix == 16 }

  /** The lower-case digit for `d` (as .NET's `x` and decimal formats write it). */
  function DigitChar(d: nat): (c: char)
    requires d < 16
    ensures IsDigitChar(c)
  {
    if d < 10 then ('0' as int + d) as char else ('a' as int + d - 10) as char
  }

  predicate IsDigitChar(c: char) { '0' <= c <= '9' || 'a' <= c <= 'f' }

  /** The numeric value of a lower-case digit character; 0 for anything else. */
  function DigitValue(c: char): (d: nat)
    ensures d < 16
  {
    if '0' <= c <= '9' then (c - '0') as nat
    else if 'a' <= c <= 'f' then (c - 'a') as nat + 10
    else 0
  }

  lemma DigitRoundTrip(d: nat)
    requires d < 16
    ensures DigitValue(DigitChar(d)) == d
  {
  }

  /** The digits of `n` in `radix`, most significant first, with no leading
      zero: .NET's `{n}` for radix 10 and `{n:x}` for radix 16. */
  function Digits(n: nat, radix: nat): (s: string)
    requires IsRadix(radix)
    ensures |s| >= 1
    decreases n
  {
    if n < radix then [DigitChar(n)] else Digits(n / radix, radix) + [DigitChar(n % radix)]
  }

  /** Every character `Digits` writes is a digit. */
  lemma {:induction false} DigitsAreDigits(n: nat, radix: nat)
    requires IsRadix(radix)
    ensures forall i :: 0 <= i < |Digits(n, radix)| ==> IsDigitChar(Digits(n, radix)[i])
    decreases n
  {
    if n >= radix {
      DivMod(n, radix);
      DigitsAreDigits(n / radix, radix);
    }
  }

  /** Reads a string of digits in `radix` back as a number (the inverse of
      `Digits`, tolerant of leading zeros). */
  function DigitsValue(s: string, radix: nat): nat
    requires IsRadix(radix)
  {
    if s == [] then 0 else DigitsValue(s[..|s| - 1], radix) * radix + DigitValue(s[|s| - 1])
  }

  lemma DivMod(n: nat, radix: nat)
    requires IsRadix(radix)
    ensures n == (n / radix) * radix + n % radix
    ensures n % radix < radix
    ensures n >= radix ==> 0 < n / radix < n
  {
    if radix == 10 { } else { }
  }

  lemma DigitsValueSnoc(s: string, c: char, radix: nat)
    requires IsRadix(radix)
    ensures DigitsValue(s + [c], radix) == DigitsValue(s, radix) * radix + DigitValue(c)
  {
    assert (s + [c])[..|s|] == s;
  }

  lemma {:induction false} DigitsRoundTrip(n: nat, radix: nat)
    requires IsRadix(radix)
    ensures DigitsValue(Digits(n, radix), radix) == n
    decreases n
  {
    if n < radix {
      assert Digits(n, radix) == [] + [DigitChar(n)];
      DigitsValueSnoc([], DigitChar(n), radix);
      DigitRoundTrip(n);
    } else {
      var q, m := n / radix, n % radix;
      DivMod(n, radix);
      DigitsRoundTrip(q, radix);
      DigitsValueSnoc(Digits(q, radix), DigitChar(m), radix);
      DigitRoundTrip(m);
    }
  }

  /** `Digits` writes no leading zero: its first digit is `0` only for the
      number zero, so it is the shortest rendering. */
  lemma {:induction false} DigitsAreMinimal(n: nat, radix: nat)
    requires IsRadix(radix)
    ensures Digits(n, radix)[0] == '0' <==> n == 0
    ensures |Digits(n, radix)| == 1 <==> n < radix
    decreases n
  {
    if n >= radix {
      DivMod(n, radix);
      DigitsAreMinimal(n / radix, radix);
    }
  }

  /** `n` copies of `c`. */
  function Repeat(c: char, n: nat): (r: string)
    ensures |r| == n
  {
    if n == 0 then [] else Repeat(c, n - 1) + [c]
  }

  lemma {:induction false} RepeatAt(c: char, n: nat, i: nat)
    requires i < n
    ensures Repeat(c, n)[i] == c
  {
    if i < n - 1 {
      RepeatAt(c, n - 1, i);
    }
  }

  lemma {:induction false} LeadingZerosValue(z: nat, s: string, radix: nat)
    requires IsRadix(radix)
    ensures DigitsValue(Repeat('0', z) + s, radix) == DigitsValue(s, radix)
    decreases |s|, z
  {
    var t := Repeat('0', z) + s;
    if s == [] {
      if z > 0 {
        assert t[..|t| - 1] == Repeat('0', z - 1) + [];
        LeadingZerosValue(z - 1, [], radix);
      }
    } else {
      assert t[..|t| - 1] == Repeat('0', z) + s[..|s| - 1];
      LeadingZerosValue(z, s[..|s| - 1], radix);
    }
  }

  /** `{n}` for an unsigned integer. */
  function Decimal(n: nat): (s: string)
    ensures |s| >= 1 && '-' !in s
  {
    DigitsAreDigits(n, 10);
    Digits(n, 10)
  }

  /** `{n}` for a signed integer: a minus sign, then the digits of `|n|`. */
  function SignedDecimal(n: int): (s: string)
    ensures |s| >= 1
    ensures n < 0 <==> s[0] == '-'
  {
    if n < 0 then "-" + Decimal(-n) else Decimal(n)
  }

  /** Reads `SignedDecimal` back. */
  function SignedDecimalValue(s: string): int
  {
    if |s| > 0 && s[0] == '-' then -(DigitsValue(s[1..], 10) as int) else DigitsValue(s, 10)
  }

  lemma SignedDecimalRoundTrip(n: int)
    ensures SignedDecimalValue(SignedDecimal(n)) == n
  {
    if n < 0 {
      var d := Decimal(-n);
      assert SignedDecimal(n) == "-" + d;
      assert ("-" + d)[0] == '-' && ("-" + d)[1..] == d;
      DigitsRoundTrip(-n, 10);
    } else {
      var d := Decimal(n);
      assert d[0] != '-' by {
        assert d[0] in d;
      }
      DigitsRoundTrip(n, 10);
    }
  }

  /** `{n:x}`: lower-case hex with no padding. */
  function Hex(n: nat): string
  {
    Digits(n, 16)
  }

  /** `16^k`: how many numbers `k` hex digits can write. */
  function Pow16(k: nat): (p: nat)
    ensures p >= 1
  {
    if k == 0 then 1 else 16 * Pow16(k - 1)
  }

  /** A number below `16^k` needs at most `k` hex digits. */
  lemma {:induction false} HexFitsWidth(n: nat, k: nat)
    requires 1 <= k && n < Pow16(k)
    ensures |Hex(n)| <= k
    decreases k
  {
    if n >= 16 {
      DivMod(n, 16);
      assert n / 16 < Pow16(k - 1);
      HexFitsWidth(n / 16, k - 1);
    }
  }

  /** `{n:xW}`: lower-case hex zero-padded to at least `width` digits. */
  function ZeroPaddedHex(n: nat, width: nat): (s: string)
    ensures |s| == if |Hex(n)| < width then width else |Hex(n)|
  {
    PadLeft(Hex(n), width, '0')
  }

  /** The zero-padded text reads back to the number it was written from. */
  lemma ZeroPaddedHexValue(n: nat, width: nat)
    ensures DigitsValue(ZeroPaddedHex(n, width), 16) == n
  {
    DigitsRoundTrip(n, 16);
    LeadingZerosValue(if |Hex(n)| < width then width - |Hex(n)| else 0, Hex(n), 16);
  }

  /** `{n,W:x}`: lower-case hex right-aligned with spaces in `width` columns. */
  function SpacePaddedHex(n: nat, width: nat): (s: string)
    ensures |s| == if |Hex(n)| < width then width else |Hex(n)|
    ensures s[|s| - |Hex(n)|..] == Hex(n)
    ensures s[..|s| - |Hex(n)|] == Repeat(' ', |s| - |Hex(n)|)
  {
    PadLeftShape(Hex(n), width, ' ');
    PadLeft(Hex(n), width, ' ')
  }

  // -------------------------------------------------------------- alignment

  /** `{s,W}` / `PadLeft(W)`: right-aligns `s`, filling with `fill`; never truncates. */
  function PadLeft(s: string, width: nat, fill: char): (r: string)
    ensures |r| == if |s| < width then width else |s|
  {
    if |s| >= width then s else Repeat(fill, width - |s|) + s
  }

  /** `PadLeft` puts the fill characters in front and keeps `s` whole at the end. */
  lemma PadLeftShape(s: string, width: nat, fill: char)
    ensures var r := PadLeft(s, width, fill);
            r[..|r| - |s|] == Repeat(fill, |r| - |s|) && r[|r| - |s|..] == s
  {
  }

  /** `{s,-W}` / `PadRight(W)`: left-aligns `s`, filling with `fill`; never truncates. */
  function PadRight(s: string, width: nat, fill: char): (r: string)
    ensures |r| == if |s| < width then width else |s|
  {
    if |s| >= width then s else s + Repeat(fill, width - |s|)
  }

  /** `PadRight` keeps `s` whole at the start and puts the fill characters after it. */
  lemma PadRightShape(s: string, width: nat, fill: char)
    ensures var r := PadRight(s, width, fill);
            r[..|s|] == s && r[|s|..] == Repeat(fill, |r| - |s|)
  {
  }

  /** `PadRight(W)` followed by `Substring(0, W)` when longer: exactly `width`
      columns, cut without any ellipsis. */
  function FitWidth(s: string, width: nat): (r: string)
    ensures |r| == width
  {
    var padded := PadRight(s, width, ' ');
    if |padded| > width then padded[..width] else padded
  }

  /** `FitWidth` cuts a long string to its first `width` characters and pads
      a short one with spaces on the right. */
  lemma FitWidthShape(s: string, width: nat)
    ensures |s| >= width ==> FitWidth(s, width) == s[..width]
    ensures |s| < width ==> FitWidth(s, width) == s + Repeat(' ', width - |s|)
  {
  }

  // ------------------------------------------------------------------ paths

  /** `Path.GetFileName` with `/` as the only separator: the part of `path`
      after its last `/`, or all of it when it has none. */
  function FileName(path: string): (r: string)
    ensures '/' !in r
    ensures |r| <= |path| && path[|path| - |r|..] == r
    ensures |r| == |path| || path[|path| - |r| - 1] == '/'
  {
    if path == [] then []
    else if path[|path| - 1] == '/' then []
    else
      var rest := FileName(path[..|path| - 1]);
      rest + [path[|path| - 1]]
  }

  // ------------------------------------------------------------------ GUIDs

  /** Two upper-case hex digits for one byte. */
  function HexByte(b: byte): (s: string)
    ensures |s| == 2
  {
    [UpperDigits[b / 16], UpperDigits[b % 16]]
  }

  /** Upper-case hex for a run of bytes, two digits each, in order. */
  function HexBytes(bs: seq<byte>): (s: string)
    ensures |s| == 2 * |bs|
  {
    if bs == [] then [] else HexByte(bs[0]) + HexBytes(bs[1..])
  }

  function UpperDigitValue(c: char): nat
  {
    if '0' <= c <= '9' then (c - '0') as nat
    else if 'A' <= c <= 'F' then (c - 'A') as nat + 10
    else 0
  }

  /** Reads `HexBytes` back, two digits per byte (a trailing odd digit is dropped). */
  function HexBytesValue(s: string): (bs: seq<nat>)
    ensures |bs| == |s| / 2
  {
    if |s| < 2 then [] else [UpperDigitValue(s[0]) * 16 + UpperDigitValue(s[1])] + HexBytesValue(s[2..])
  }

  lemma UpperDigitRoundTrip(d: nat)
    requires d < 16
    ensures UpperDigitValue(UpperDigits[d]) == d
  {
  }

  lemma HexByteRoundTrip(b: byte)
    ensures UpperDigitValue(HexByte(b)[0]) * 16 + UpperDigitValue(HexByte(b)[1]) == b
  {
    UpperDigitRoundTrip(b / 16);
    UpperDigitRoundTrip(b % 16);
  }

  /** Reading a two-digit pair in front of more pairs yields its value first. */
  lemma HexPairCons(hi: char, lo: char, t: string)
    ensures HexBytesValue([hi, lo] + t) == [UpperDigitValue(hi) * 16 + UpperDigitValue(lo)] + HexBytesValue(t)
  {
    var s := [hi, lo] + t;
    assert s[2..] == t;
  }

  lemma {:induction false} HexBytesRoundTrip(bs: seq<byte>)
    ensures HexBytesValue(HexBytes(bs)) == bs
  {
    if bs != [] {
      HexByteRoundTrip(bs[0]);
      HexPairCons(UpperDigits[bs[0] / 16], UpperDigits[bs[0] % 16], HexBytes(bs[1..]));
      HexBytesRoundTrip(bs[1..]);
      assert bs == [bs[0]] + bs[1..];
    }
  }

  /** `new Guid(bytes).ToString("D").ToUpper()`: .NET reads the first three
      groups as little-endian 32-, 16- and 16-bit numbers and the last eight
      bytes in order, and separates the five groups with hyphens. */
  function GuidText(b: seq<byte>): (s: string)
    requires |b| == 16
    ensures |s| == 36
    ensures s[8] == '-' && s[13] == '-' && s[18] == '-' && s[23] == '-'
  {
    HexBytes([b[3], b[2], b[1], b[0]]) + "-" + HexBytes([b[5], b[4]]) + "-"
    + HexBytes([b[7], b[6]]) + "-" + HexBytes(b[8..10]) + "-" + HexBytes(b[10..])
  }

  /** Reads the 16 bytes back out of a GUID text. */
  function GuidBytes(s: string): (b: seq<nat>)
    requires |s| == 36
    ensures |b| == 16
  {
    var g1, g2, g3 := HexBytesValue(s[0..8]), HexBytesValue(s[9..13]), HexBytesValue(s[14..18]);
    [g1[3], g1[2], g1[1], g1[0], g2[1], g2[0], g3[1], g3[0]]
    + HexBytesValue(s[19..23]) + HexBytesValue(s[24..])
  }

  /** Where the five groups of a GUID text sit. */
  lemma GuidLayout(g1: string, g2: string, g3: string, g4: string, g5: string)
    requires |g1| == 8 && |g2| == 4 && |g3| == 4 && |g4| == 4 && |g5| == 12
    ensures var s := g1 + "-" + g2 + "-" + g3 + "-" + g4 + "-" + g5;
            s[0..8] == g1 && s[9..13] == g2 && s[14..18] == g3 && s[19..23] == g4 && s[24..] == g5
  {
  }

  lemma SixteenBytes(b: seq<byte>)
    requires |b| == 16
    ensures b == [b[0], b[1], b[2], b[3], b[4], b[5], b[6], b[7]] + b[8..10] + b[10..]
  {
  }

  /** The GUID text keeps every byte: different byte strings give different texts. */
  lemma GuidTextRoundTrip(b: seq<byte>)
    requires |b| == 16
    ensures GuidBytes(GuidText(b)) == b
  {
    var s := GuidText(b);
    var p1, p2, p3 := [b[3], b[2], b[1], b[0]], [b[5], b[4]], [b[7], b[6]];
    GuidLayout(HexBytes(p1), HexBytes(p2), HexBytes(p3), HexBytes(b[8..10]), HexBytes(b[10..]));
    HexBytesRoundTrip(p1);
    HexBytesRoundTrip(p2);
    HexBytesRoundTrip(p3);
    HexBytesRoundTrip(b[8..10]);
    HexBytesRoundTrip(b[10..]);
    SixteenBytes(b);
  }
}
