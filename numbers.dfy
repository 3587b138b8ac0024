/**
 * Decimal text to number, standing in for Swift's `Double(String)`: an
 * optional sign, a significand of digits with at most one `.` and at
 * least one digit, and an optional exponent `e`/`E` with an optional
 * sign and at least one digit. The value is exact (a `real`).
 */
module NumberParsing {
  import opened Wrappers
  import opened Text

  predicate IsDigit(c: char)
  {
    '0' <= c <= '9'
  }

  predicate AllDigits(s: string)
  {
    forall i :: 0 <= i < |s| ==> IsDigit(s[i])
  }

  function DigitValue(c: char): (d: nat)
    requires IsDigit(c)
    ensures d < 10
  {
    c as int - '0' as int
  }

  /** The natural number a run of decimal digits denotes. */
  function DigitsValue(s: string): nat
    requires AllDigits(s)
  {
    if s == [] then 0 else DigitsValue(s[..|s| - 1]) * 10 + DigitValue(s[|s| - 1])
  }

  function Pow10(n: nat): (p: nat)
    ensures p > 0
  {
    if n == 0 then 1 else 10 * Pow10(n - 1)
  }

  /** Digits, optionally split by a single `.`, with at least one digit overall. */
  function ParseSignificand(m: string): Option<real>
  {
    var k := IndexOf(m, '.');
    var whole := m[..k];
    var frac := if k < |m| then m[k + 1..] else "";
    if AllDigits(whole) && AllDigits(frac) && |whole| + |frac| > 0 then
      Some(DigitsValue(whole) as real + DigitsValue(frac) as real / Pow10(|frac|) as real)
    else
      None
  }

  /** An exponent: an optional sign followed by at least one digit. */
  function ParseExponent(e: string): Option<int>
  {
    if |e| > 0 && (e[0] == '+' || e[0] == '-') then
      var digits := e[1..];
      if |digits| > 0 && AllDigits(digits) then
        var v: int := if e[0] == '-' then -(DigitsValue(digits) as int) else DigitsValue(digits);
        Some(v)
      else None
    else if |e| > 0 && AllDigits(e) then Some(DigitsValue(e))
    else None
  }

  /** Position of the first exponent marker, or `|s|`. */
  function ExponentAt(s: string): (k: nat)
    ensures k <= |s|
    ensures k < |s| ==> s[k] == 'e' || s[k] == 'E'
    ensures forall i :: 0 <= i < k ==> s[i] != 'e' && s[i] != 'E'
  {
    if s == [] || s[0] == 'e' || s[0] == 'E' then 0 else 1 + ExponentAt(s[1..])
  }

  function Scale(e: int): real
  {
    if e >= 0 then Pow10(e) as real else 1.0 / Pow10(-e) as real
  }

  function ParseUnsigned(s: string): Option<real>
  {
    var k := ExponentAt(s);
    if k == |s| then ParseSignificand(s)
    else
      match ParseSignificand(s[..k])
      case None => None
      case Some(m) =>
        match ParseExponent(s[k + 1..])
        case None => None
        case Some(e) => Some(m * Scale(e))
  }

  /** `Double(s)`: `None` when `s` is not a number in the accepted form. */
  function ParseDouble(s: string): Option<real>
  {
    if |s| > 0 && s[0] == '-' then
      match ParseUnsigned(s[1..])
      case None => None
      case Some(v) => Some(-v)
    else if |s| > 0 && s[0] == '+' then ParseUnsigned(s[1..])
    else ParseUnsigned(s)
  }

  /** The characters the amount field keeps. */
  predicate IsAmountChar(c: char)
  {
    IsDigit(c) || c == '.'
  }

  predicate AmountAlphabet(s: string)
  {
    forall i :: 0 <= i < |s| ==> IsAmountChar(s[i])
  }

  predicate HasDigit(s: string)
  {
    exists i :: 0 <= i < |s| && IsDigit(s[i])
  }

  lemma {:induction false} AmountAlphabetNoExponent(s: string)
    requires AmountAlphabet(s)
    ensures ExponentAt(s) == |s|
  {
    if s != [] {
      assert IsAmountChar(s[0]);
      AmountAlphabetNoExponent(s[1..]);
    }
  }

  /** Amount text has no sign and no exponent, so only the significand rule applies. */
  lemma AmountTextIsSignificand(s: string)
    requires AmountAlphabet(s)
    ensures ParseDouble(s) == ParseSignificand(s)
  {
    AmountAlphabetNoExponent(s);
    if |s| > 0 {
      assert IsAmountChar(s[0]);
    }
  }

  /** Amount text without a `.` in it is all digits. */
  lemma AmountTextWithoutDot(s: string)
    requires AmountAlphabet(s) && '.' !in s
    ensures AllDigits(s)
  {
    forall i | 0 <= i < |s|
      ensures IsDigit(s[i])
    {
      assert IsAmountChar(s[i]) && s[i] != '.';
    }
  }

  lemma AmountTextPieces(s: string, k: nat)
    requires AmountAlphabet(s)
    requires k < |s| && s[k] == '.'
    requires forall i :: 0 <= i < k ==> s[i] != '.'
    ensures s == s[..k] + ['.'] + s[k + 1..]
    ensures AmountAlphabet(s[..k]) && '.' !in s[..k]
    ensures AmountAlphabet(s[k + 1..])
    ensures Count(s, '.') == 1 + Count(s[k + 1..], '.')
    ensures HasDigit(s) <==> HasDigit(s[..k]) || HasDigit(s[k + 1..])
  {
    var whole, frac := s[..k], s[k + 1..];
    assert s == whole + ['.'] + frac;
    CountAfterFirst(s, '.', k);
    HasDigitAroundDot(s, k);
  }

  lemma HasDigitAroundDot(s: string, k: nat)
    requires k < |s| && s[k] == '.'
    ensures HasDigit(s) <==> HasDigit(s[..k]) || HasDigit(s[k + 1..])
  {
    var whole, frac := s[..k], s[k + 1..];
    if HasDigit(s) {
      var i :| 0 <= i < |s| && IsDigit(s[i]);
      if i < k {
        assert IsDigit(whole[i]);
      } else {
        assert i != k;
        assert IsDigit(frac[i - k - 1]);
      }
    }
    if HasDigit(whole) {
      var i :| 0 <= i < |whole| && IsDigit(whole[i]);
      assert IsDigit(s[i]);
    }
    if HasDigit(frac) {
      var i :| 0 <= i < |frac| && IsDigit(frac[i]);
      assert IsDigit(s[k + 1 + i]);
    }
  }

  lemma AllDigitsHasDigit(s: string)
    requires AllDigits(s)
    ensures HasDigit(s) <==> |s| > 0
  {
    if |s| > 0 {
      assert IsDigit(s[0]);
    }
  }

  /** A significand reads as a number exactly when both sides of its `.` are digits and there is one; never negative. */
  lemma SignificandFacts(m: string)
    ensures var k := IndexOf(m, '.');
      ParseSignificand(m).Some? <==>
        AllDigits(m[..k]) && AllDigits(if k < |m| then m[k + 1..] else "") && k + |if k < |m| then m[k + 1..] else ""| > 0
    ensures ParseSignificand(m).Some? ==> ParseSignificand(m).value >= 0.0
  {
    var k := IndexOf(m, '.');
    var frac := if k < |m| then m[k + 1..] else "";
    if ParseSignificand(m).Some? {
      QuotientNonNegative(DigitsValue(frac) as real, Pow10(|frac|) as real);
    }
  }

  lemma QuotientNonNegative(a: real, b: real)
    requires a >= 0.0 && b > 0.0
    ensures a / b >= 0.0
  {
    assert (a / b) * b == a;
  }

  /** Amount text without a `.`: a number exactly when there is a digit. */
  lemma ParseAmountTextWithoutDot(s: string)
    requires AmountAlphabet(s) && '.' !in s
    ensures ParseSignificand(s).Some? <==> Count(s, '.') <= 1 && HasDigit(s)
    ensures ParseSignificand(s).Some? ==> ParseSignificand(s).value >= 0.0
  {
    SignificandFacts(s);
    AmountTextWithoutDot(s);
    AllDigitsHasDigit(s);
    CountZero(s, '.');
    assert s[..|s|] == s;
  }

  /** Amount text with a `.` at `k`: a number exactly when no other `.` follows and there is a digit. */
  lemma ParseAmountTextWithDot(s: string, k: nat)
    requires AmountAlphabet(s)
    requires k == IndexOf(s, '.') && k < |s|
    ensures ParseSignificand(s).Some? <==> Count(s, '.') <= 1 && HasDigit(s)
    ensures ParseSignificand(s).Some? ==> ParseSignificand(s).value >= 0.0
  {
    SignificandFacts(s);
    AmountTextPieces(s, k);
    var whole, frac := s[..k], s[k + 1..];
    AmountTextWithoutDot(whole);
    AllDigitsHasDigit(whole);
    CountZero(frac, '.');
    if '.' !in frac {
      AmountTextWithoutDot(frac);
      AllDigitsHasDigit(frac);
    } else {
      assert !AllDigits(frac) by {
        var j := IndexOf(frac, '.');
        assert !IsDigit(frac[j]);
      }
    }
  }

  /**
   * On text made only of digits and `.`, a number is read exactly when
   * there is at most one `.` and at least one digit, and it is never
   * negative.
   */
  lemma ParseAmountText(s: string)
    requires AmountAlphabet(s)
    ensures ParseDouble(s).Some? <==> Count(s, '.') <= 1 && HasDigit(s)
    ensures ParseDouble(s).Some? ==> ParseDouble(s).value >= 0.0
  {
    AmountTextIsSignificand(s);
    var k := IndexOf(s, '.');
    if k == |s| {
      ParseAmountTextWithoutDot(s);
    } else {
      ParseAmountTextWithDot(s, k);
    }
  }

  lemma ParseDoubleExamples()
    ensures ParseDouble("450") == Some(450.0)
    ensures ParseDouble(".") == None
    ensures ParseDouble("") == None
  {
    ParseWholeNumber();
    ParseLoneDot();
    ParseEmpty();
  }

  lemma ParseWholeNumber()
    ensures ParseDouble("450") == Some(450.0)
  {
    assert AmountAlphabet("450");
    AmountTextIsSignificand("450");
    SignificandOfWholeNumber();
  }

  lemma SignificandOfWholeNumber()
    ensures ParseSignificand("450") == Some(450.0)
  {
    var s := "450";
    assert IndexOf(s, '.') == 3;
    assert s[..3] == s;
    ValueOfWholeNumber();
    assert Pow10(0) == 1;
  }

  lemma ValueOfWholeNumber()
    ensures AllDigits("450") && DigitsValue("450") == 450
  {
    var s := "450";
    assert AllDigits(s);
    assert s[..2] == "45" && "45"[..1] == "4" && "4"[..0] == "";
  }

  lemma ParseLoneDot()
    ensures ParseDouble(".") == None
  {
    ParseAmountText(".");
    assert !HasDigit(".");
  }

  lemma ParseEmpty()
    ensures ParseDouble("") == None
  {
    ParseAmountText("");
  }
}
