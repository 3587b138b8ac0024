/**
 * The card's colour from hex text (`Color(hex:)` in
 * Expenses/Views/CreditCardView.swift): trim the text, read its leading
 * hexadecimal number, and take the channels apart by the text's length.
 * Channels are kept as the integers 0..255 the code computes before its
 * floating-point division by 255.
 */
module CardColor {

  /** ASCII letters and digits. */
  predicate IsAlphanumeric(c: char)
  {
    ('a' <= c <= 'z') || ('A' <= c <= 'Z') || ('0' <= c <= '9')
  }

  /** Position of the first letter or digit, or `|s|`. */
  function FirstKept(s: string): (i: nat)
    ensures i <= |s|
    ensures forall k :: 0 <= k < i ==> !IsAlphanumeric(s[k])
    ensures i < |s| ==> IsAlphanumeric(s[i])
  {
    if s == [] || IsAlphanumeric(s[0]) then 0 else 1 + FirstKept(s[1..])
  }

  /** One past the last letter or digit, or 0. */
  function KeptEnd(s: string): (j: nat)
    ensures j <= |s|
    ensures forall k :: j <= k < |s| ==> !IsAlphanumeric(s[k])
    ensures j > 0 ==> IsAlphanumeric(s[j - 1])
  {
    if s == [] || IsAlphanumeric(s[|s| - 1]) then |s| else KeptEnd(s[..|s| - 1])
  }

  /**
   * `trimmingCharacters(in: CharacterSet.alphanumerics.inverted)`: the
   * text between the first and the last letter or digit; characters in
   * between are kept whatever they are.
   */
  function Trim(s: string): (t: string)
    ensures |t| <= |s|
  {
    var i := FirstKept(s);
    if i == |s| then [] else s[i..KeptEnd(s)]
  }

  /**
   * Only characters that are not letters or digits are cut, and only at
   * the two ends: the result is one slice of the text, starting and
   * ending with a letter or digit; text that starts and ends with one is
   * left as it is.
   */
  lemma TrimFacts(s: string)
    ensures var i, j := FirstKept(s), KeptEnd(s);
      || (Trim(s) == [] && forall k :: 0 <= k < |s| ==> !IsAlphanumeric(s[k]))
      || (&& i < j && Trim(s) == s[i..j]
          && (forall k :: 0 <= k < i ==> !IsAlphanumeric(s[k]))
          && (forall k :: j <= k < |s| ==> !IsAlphanumeric(s[k]))
          && IsAlphanumeric(Trim(s)[0]) && IsAlphanumeric(Trim(s)[|Trim(s)| - 1]))
    ensures |s| > 0 && IsAlphanumeric(s[0]) && IsAlphanumeric(s[|s| - 1]) ==> Trim(s) == s
  {
    if FirstKept(s) < |s| {
      TrimNonEmpty(s);
    }
    if |s| > 0 && IsAlphanumeric(s[0]) && IsAlphanumeric(s[|s| - 1]) {
      TrimOfTrimmed(s);
    }
  }

  lemma TrimNonEmpty(s: string)
    requires FirstKept(s) < |s|
    ensures var i, j := FirstKept(s), KeptEnd(s);
      && i < j && Trim(s) == s[i..j]
      && IsAlphanumeric(Trim(s)[0]) && IsAlphanumeric(Trim(s)[|Trim(s)| - 1])
  {
    var i, j := FirstKept(s), KeptEnd(s);
    assert IsAlphanumeric(s[i]);
    assert i < j;
    assert IsAlphanumeric(s[j - 1]);
    var t := Trim(s);
    assert t == s[i..j];
    SliceEnds(s, i, j);
    assert t[0] == s[i] && t[|t| - 1] == s[j - 1];
  }

  lemma SliceEnds(s: string, i: nat, j: nat)
    requires i < j <= |s|
    ensures var t := s[i..j]; t[0] == s[i] && t[|t| - 1] == s[j - 1]
  {
  }

  lemma TrimOfTrimmed(s: string)
    requires |s| > 0 && IsAlphanumeric(s[0]) && IsAlphanumeric(s[|s| - 1])
    ensures Trim(s) == s
  {
    assert FirstKept(s) == 0 && KeptEnd(s) == |s|;
    assert s[0..|s|] == s;
  }

  predicate IsHexDigit(c: char)
  {
    ('0' <= c <= '9') || ('a' <= c <= 'f') || ('A' <= c <= 'F')
  }

  predicate AllHex(s: string)
  {
    forall k :: 0 <= k < |s| ==> IsHexDigit(s[k])
  }

  function HexDigitValue(c: char): (d: nat)
    requires IsHexDigit(c)
    ensures d < 16
  {
    if '0' <= c <= '9' then c as int - '0' as int
    else if 'a' <= c <= 'f' then c as int - 'a' as int + 10
    else c as int - 'A' as int + 10
  }

  function Pow16(n: nat): (p: nat)
    ensures p > 0
  {
    if n == 0 then 1 else 16 * Pow16(n - 1)
  }

  /** The number a run of hexadecimal digits denotes. */
  function HexDigitsValue(s: string): (v: nat)
    requires AllHex(s)
    ensures v < Pow16(|s|)
  {
    if s == [] then 0 else HexDigitsValue(s[..|s| - 1]) * 16 + HexDigitValue(s[|s| - 1])
  }

  /** Number of hexadecimal digits at the start of `s`. */
  function HexRun(s: string): (n: nat)
    ensures n <= |s| && AllHex(s[..n])
    ensures n < |s| ==> !IsHexDigit(s[n])
  {
    if s == [] || !IsHexDigit(s[0]) then 0
    else
      var n := 1 + HexRun(s[1..]);
      assert forall k :: 1 <= k < n ==> s[..n][k] == s[1..][..n - 1][k - 1];
      n
  }

  /** Where the digits start: after an optional "0x" or "0X". */
  function DigitsStart(s: string): (i: nat)
    ensures i <= |s|
  {
    if |s| >= 2 && s[0] == '0' && (s[1] == 'x' || s[1] == 'X') then 2 else 0
  }

  /** The largest `UInt64`. */
  const UInt64Max: nat := 0xFFFF_FFFF_FFFF_FFFF

  function Min(a: nat, b: nat): nat
  {
    if a < b then a else b
  }

  /**
   * `Scanner.scanHexInt64`: the value of the hexadecimal digits at the
   * start of the text (after an optional "0x"), 0 when there are none,
   * and `UInt64.max` when the value does not fit.
   */
  function ScanHexValue(s: string): (v: nat)
    ensures v <= UInt64Max
  {
    var body := s[DigitsStart(s)..];
    Min(HexDigitsValue(body[..HexRun(body)]), UInt64Max)
  }

  /** A colour's four channels, alpha first. */
  datatype Argb = Argb(a: nat, r: nat, g: nat, b: nat)

  /**
   * `Color(hex:)`: the channels of the trimmed text's leading hexadecimal
   * number, taken apart by the trimmed text's length.
   */
  function HexArgb(text: string): Argb
  {
    var hex := Trim(text);
    var v := ScanHexValue(hex);
    if |hex| == 3 then Argb(255, (v / 256) * 17, (v / 16 % 16) * 17, (v % 16) * 17)
    else if |hex| == 6 then Argb(255, v / 65536, v / 256 % 256, v % 256)
    else if |hex| == 8 then Argb(v / 16777216, v / 65536 % 256, v / 256 % 256, v % 256)
    else Argb(1, 1, 1, 0)
  }

  lemma {:induction false} Pow16Monotone(m: nat, n: nat)
    requires m <= n
    ensures Pow16(m) <= Pow16(n)
  {
    if m < n {
      Pow16Monotone(m, n - 1);
    }
  }

  lemma Pow16Values()
    ensures Pow16(3) == 0x1000 && Pow16(6) == 0x100_0000 && Pow16(8) == 0x1_0000_0000
    ensures Pow16(16) == UInt64Max + 1
  {
    assert Pow16(4) == 0x1_0000;
    assert Pow16(8) == 0x1_0000_0000;
    assert Pow16(12) == 0x1_0000_0000_0000;
  }

  /** The scanned value never has more digits than the text has characters. */
  lemma ScanHexBound(s: string)
    ensures ScanHexValue(s) < Pow16(|s|)
  {
    var body := s[DigitsStart(s)..];
    Pow16Monotone(HexRun(body), |s|);
  }

  /** For the lengths 3, 6 and 8 every channel is in 0..255. */
  lemma ChannelsInRange(text: string)
    requires |Trim(text)| in {3, 6, 8}
    ensures var c := HexArgb(text); c.a <= 255 && c.r <= 255 && c.g <= 255 && c.b <= 255
  {
    ScanHexBound(Trim(text));
    Pow16Values();
  }

  /** Any other length gives the fallback (1, 1, 1, 0). */
  lemma OtherLengthFallback(text: string)
    requires |Trim(text)| !in {3, 6, 8}
    ensures HexArgb(text) == Argb(1, 1, 1, 0)
  {
  }

  lemma {:induction false} HexRunAll(s: string)
    requires AllHex(s)
    ensures HexRun(s) == |s|
  {
    if s != [] {
      HexRunAll(s[1..]);
    }
  }

  /** Text of two to sixteen hexadecimal digits is its own trim and scans to its full value. */
  lemma PureHexScan(s: string)
    requires 2 <= |s| <= 16 && AllHex(s)
    ensures Trim(s) == s
    ensures ScanHexValue(s) == HexDigitsValue(s)
  {
    assert IsHexDigit(s[0]) && IsHexDigit(s[1]) && IsHexDigit(s[|s| - 1]);
    assert DigitsStart(s) == 0;
    assert s[0..] == s;
    HexRunAll(s);
    assert s[..|s|] == s;
    Pow16Monotone(|s|, 16);
    Pow16Values();
  }

  /** Splitting off the last digit of a prefix. */
  lemma PrefixValue(s: string, k: nat)
    requires AllHex(s) && 0 < k <= |s|
    ensures AllHex(s[..k]) && AllHex(s[..k - 1])
    ensures HexDigitsValue(s[..k]) == HexDigitsValue(s[..k - 1]) * 16 + HexDigitValue(s[k - 1])
  {
    assert s[..k][..k - 1] == s[..k - 1];
  }

  lemma {:induction false} MulMonotone(a: nat, b: nat, m: nat)
    requires a <= b
    ensures a * m <= b * m
  {
    if a < b {
      MulMonotone(a, b - 1, m);
      assert b * m == (b - 1) * m + m;
    }
  }

  /** Euclidean division has one quotient and one remainder. */
  lemma DivModUnique(v: nat, m: nat, q: nat, r: nat)
    requires m > 0 && v == q * m + r && r < m
    ensures v / m == q && v % m == r
  {
    var q', r' := v / m, v % m;
    assert v == q' * m + r';
    if q' < q {
      MulMonotone(q' + 1, q, m);
      assert false;
    } else if q < q' {
      MulMonotone(q + 1, q', m);
      assert false;
    }
  }

  /** The byte two hexadecimal digits spell. */
  function ByteAt(s: string, k: nat): (b: nat)
    requires k + 2 <= |s| && AllHex(s)
    ensures b < 256
  {
    HexDigitValue(s[k]) * 16 + HexDigitValue(s[k + 1])
  }

  /** Three hexadecimal digits: opaque, each channel its digit times 17 (so "F" gives 255). */
  lemma ThreeDigits(s: string)
    requires |s| == 3 && AllHex(s)
    ensures HexArgb(s) == Argb(255, HexDigitValue(s[0]) * 17, HexDigitValue(s[1]) * 17, HexDigitValue(s[2]) * 17)
  {
    PureHexScan(s);
    var d0, d1, d2 := HexDigitValue(s[0]), HexDigitValue(s[1]), HexDigitValue(s[2]);
    PrefixValue(s, 1);
    PrefixValue(s, 2);
    PrefixValue(s, 3);
    assert s[..3] == s && s[..0] == [];
    ThreeChannels(HexDigitsValue(s), d0, d1, d2);
  }

  /** Three base-16 digits read back from their value. */
  lemma ThreeChannels(v: nat, d0: nat, d1: nat, d2: nat)
    requires d0 < 16 && d1 < 16 && d2 < 16
    requires v == (d0 * 16 + d1) * 16 + d2
    ensures v / 256 == d0 && v / 16 % 16 == d1 && v % 16 == d2
  {
    DivModUnique(v, 256, d0, d1 * 16 + d2);
    DivModUnique(v, 16, d0 * 16 + d1, d2);
    DivModUnique(d0 * 16 + d1, 16, d0, d1);
  }

  /** Splitting off the last two digits of a prefix. */
  lemma PairValue(s: string, k: nat)
    requires AllHex(s) && k + 2 <= |s|
    ensures AllHex(s[..k]) && AllHex(s[..k + 2])
    ensures HexDigitsValue(s[..k + 2]) == HexDigitsValue(s[..k]) * 256 + ByteAt(s, k)
  {
    PrefixValue(s, k + 2);
    PrefixValue(s, k + 1);
  }

  /** The value of the first six hexadecimal digits, byte by byte. */
  lemma SixValue(s: string)
    requires 6 <= |s| && AllHex(s)
    ensures AllHex(s[..6]) && HexDigitsValue(s[..6]) == ByteAt(s, 0) * 65536 + (ByteAt(s, 2) * 256 + ByteAt(s, 4))
  {
    FourValue(s);
    PairValue(s, 4);
  }

  /** Six hexadecimal digits: opaque, and red, green, blue are the three bytes from the left. */
  lemma SixDigits(s: string)
    requires |s| == 6 && AllHex(s)
    ensures HexArgb(s) == Argb(255, ByteAt(s, 0), ByteAt(s, 2), ByteAt(s, 4))
  {
    PureHexScan(s);
    SixValue(s);
    assert s[..6] == s;
    SixChannels(HexDigitsValue(s), ByteAt(s, 0), ByteAt(s, 2), ByteAt(s, 4));
  }

  /** Three bytes read back from their value. */
  lemma SixChannels(v: nat, r: nat, g: nat, b: nat)
    requires r < 256 && g < 256 && b < 256
    requires v == r * 65536 + (g * 256 + b)
    ensures v / 65536 == r && v / 256 % 256 == g && v % 256 == b
  {
    DivModUnique(v, 65536, r, g * 256 + b);
    DivModUnique(v, 256, r * 256 + g, b);
    DivModUnique(r * 256 + g, 256, r, g);
  }

  /** The value of eight hexadecimal digits, byte by byte. */
  lemma EightValue(s: string)
    requires |s| == 8 && AllHex(s)
    ensures HexDigitsValue(s) == ByteAt(s, 0) * 16777216 + ((ByteAt(s, 2) * 256 + ByteAt(s, 4)) * 256 + ByteAt(s, 6))
  {
    SixValue(s);
    PairValue(s, 6);
    assert s[..8] == s;
  }

  /** The first four hexadecimal digits, byte by byte. */
  lemma FourValue(s: string)
    requires 4 <= |s| && AllHex(s)
    ensures AllHex(s[..4]) && HexDigitsValue(s[..4]) == ByteAt(s, 0) * 256 + ByteAt(s, 2)
  {
    PairValue(s, 0);
    PairValue(s, 2);
    assert s[..0] == [];
  }

  /** Eight hexadecimal digits are alpha, red, green, blue, in that order, a byte each. */
  lemma EightDigits(s: string)
    requires |s| == 8 && AllHex(s)
    ensures HexArgb(s) == Argb(ByteAt(s, 0), ByteAt(s, 2), ByteAt(s, 4), ByteAt(s, 6))
  {
    PureHexScan(s);
    EightValue(s);
    EightChannels(HexDigitsValue(s), ByteAt(s, 0), ByteAt(s, 2), ByteAt(s, 4), ByteAt(s, 6));
  }

  /** Four bytes read back from their value. */
  lemma EightChannels(v: nat, a: nat, r: nat, g: nat, b: nat)
    requires a < 256 && r < 256 && g < 256 && b < 256
    requires v == a * 16777216 + ((r * 256 + g) * 256 + b)
    ensures v / 16777216 == a && v / 65536 % 256 == r && v / 256 % 256 == g && v % 256 == b
  {
    DivModUnique(v, 16777216, a, (r * 256 + g) * 256 + b);
    DivModUnique(v, 65536, a * 256 + r, g * 256 + b);
    DivModUnique(a * 256 + r, 256, a, r);
    DivModUnique(v, 256, (a * 256 + r) * 256 + g, b);
    DivModUnique((a * 256 + r) * 256 + g, 256, a * 256 + r, g);
  }

  /** Six hexadecimal digits `xyxyxz` name the opaque grey (0xxy, 0xxy, 0xxz). */
  lemma GreyStop(s: string, x: char, y: char, z: char)
    requires IsHexDigit(x) && IsHexDigit(y) && IsHexDigit(z)
    requires s == [x, y, x, y, x, z]
    ensures var v := HexDigitValue(x) * 16 + HexDigitValue(y);
      HexArgb(s) == Argb(255, v, v, HexDigitValue(x) * 16 + HexDigitValue(z))
  {
    assert AllHex(s) by {
      forall k | 0 <= k < 6
        ensures IsHexDigit(s[k])
      {
        assert s[k] in {x, y, z};
      }
    }
    SixDigits(s);
  }

  /** The card's two gradient stops. */
  lemma CardGradientColors()
    ensures HexArgb("1c1c1e") == Argb(255, 0x1c, 0x1c, 0x1e)
    ensures HexArgb("2c2c2e") == Argb(255, 0x2c, 0x2c, 0x2e)
  {
    GreyStop("1c1c1e", '1', 'c', 'e');
    GreyStop("2c2c2e", '2', 'c', 'e');
  }
}
