/**
  * parseNumber of JsonParserString: validation of a maximal run of number
  * characters against the number grammar of RFC 8259 (section 6), kept as
  * sign, mantissa and decimal exponent.
  */
module JsonNumber {
  import opened Wrappers
  import opened JavaText
  import opened ReaderErrors

  /** The number (-1)^negative * mantissa * 10^exponent. */
  datatype NumberParts = NumberParts(negative: bool, mantissa: nat, exponent: int)

  /** isNumberChar: the characters a number run may contain. */
  predicate IsNumberChar(c: char)
  {
    IsDigit(c) || c == '.' || c == '-' || c == '+' || c == 'e' || c == 'E'
  }

  /** The end of the maximal run of digits starting at i. */
  function DigitRunEnd(s: string, i: nat): (j: nat)
    requires i <= |s|
    ensures i <= j <= |s| && AllDigits(s[i..j])
    ensures j < |s| ==> !IsDigit(s[j])
    decreases |s| - i
  {
    if i < |s| && IsDigit(s[i]) then
      var j := DigitRunEnd(s, i + 1);
      assert s[i..j] == [s[i]] + s[i + 1..j];
      j
    else i
  }

  /** A digit run that stops at a non-digit (or the end) is the maximal one. */
  lemma {:induction false} DigitRunEndUnique(s: string, i: nat, j: nat)
    requires i <= j <= |s| && AllDigits(s[i..j]) && (j < |s| ==> !IsDigit(s[j]))
    ensures DigitRunEnd(s, i) == j
    decreases j - i
  {
    if i < j {
      assert s[i..j] == [s[i]] + s[i + 1..j];
      DigitRunEndUnique(s, i + 1, j);
    }
  }

  /** parseNumber on one run s (its first character is a digit or '-'). */
  function LexNumber(s: string): Result<NumberParts, ReadError>
    requires |s| > 0
  {
    var neg := s[0] == '-';
    var i := if neg then 1 else 0;
    if i >= |s| then Err(IsolatedMinus)
    else if s[i] == '0' then
      if i + 1 < |s| && IsDigit(s[i + 1]) then Err(LeadingZero)
      else LexFraction(s, neg, i + 1, "")
    else
      var j := DigitRunEnd(s, i);
      if j == i then Err(ExpectedDigit) else LexFraction(s, neg, j, s[i..j])
  }

  /** The optional fraction; its digits extend the mantissa and lower the exponent. */
  function LexFraction(s: string, neg: bool, i: nat, digits: string): Result<NumberParts, ReadError>
    requires i <= |s| && AllDigits(digits)
  {
    if i < |s| && s[i] == '.' then
      var j := DigitRunEnd(s, i + 1);
      if j == i + 1 then Err(ExpectedFractionDigit)
      else LexExponent(s, neg, j, digits + s[i + 1..j], j - (i + 1))
    else LexExponent(s, neg, i, digits, 0)
  }

  /** The optional exponent: 'e' or 'E', an optional sign, at least one digit. */
  function LexExponent(s: string, neg: bool, i: nat, digits: string, fracLen: nat): Result<NumberParts, ReadError>
    requires i <= |s| && AllDigits(digits)
  {
    if i < |s| && (s[i] == 'e' || s[i] == 'E') then
      var k := i + 1;
      var eNeg := k < |s| && s[k] == '-';
      var k2 := if eNeg || (k < |s| && s[k] == '+') then k + 1 else k;
      var j := DigitRunEnd(s, k2);
      if j == k2 then Err(ExpectedExponentDigit)
      else
        var e: int := DigitsValue(s[k2..j]);
        LexEnd(s, neg, j, digits, (if eNeg then -e else e) - fracLen)
    else
      var f: int := fracLen;
      LexEnd(s, neg, i, digits, -f)
  }

  /** Nothing may follow the number inside the run. */
  function LexEnd(s: string, neg: bool, i: nat, digits: string, exp: int): Result<NumberParts, ReadError>
    requires AllDigits(digits)
  {
    if i != |s| then Err(InvalidNumberSyntax) else Ok(NumberParts(neg, DigitsValue(digits), exp))
  }

  // The grammar of RFC 8259, section 6: number = [ minus ] int [ frac ] [ exp ].

  predicate IntPart(b: string)
  {
    b == "0" || (|b| >= 1 && '1' <= b[0] <= '9' && AllDigits(b))
  }

  predicate FracPart(c: string)
  {
    c == "" || (|c| >= 2 && c[0] == '.' && AllDigits(c[1..]))
  }

  /** The digits of an exponent part, after 'e' or 'E' and the optional sign. */
  function ExpDigits(d: string): string
    requires |d| >= 1
  {
    if |d| >= 2 && (d[1] == '+' || d[1] == '-') then d[2..] else d[1..]
  }

  predicate ExpPart(d: string)
  {
    d == "" || (|d| >= 2 && (d[0] == 'e' || d[0] == 'E') && |ExpDigits(d)| >= 1 && AllDigits(ExpDigits(d)))
  }

  predicate NumberShape(s: string, a: string, b: string, c: string, d: string)
  {
    s == a + b + c + d && (a == "" || a == "-") && IntPart(b) && FracPart(c) && ExpPart(d)
  }

  function IntDigits(b: string): string { if b == "0" then "" else b }

  function FracDigits(c: string): string { if c == "" then "" else c[1..] }

  function ExpValue(d: string): int
    requires ExpPart(d)
  {
    if d == "" then 0
    else
      var e: int := DigitsValue(ExpDigits(d));
      if d[1] == '-' then -e else e
  }

  /** The parts the grammar assigns to a decomposed number. */
  function ShapeParts(a: string, b: string, c: string, d: string): NumberParts
    requires IntPart(b) && FracPart(c) && ExpPart(d)
  {
    AllDigitsConcat(IntDigits(b), FracDigits(c));
    NumberParts(a == "-", DigitsValue(IntDigits(b) + FracDigits(c)), ExpValue(d) - |FracDigits(c)|)
  }

  lemma AllDigitsConcat(x: string, y: string)
    requires AllDigits(x) && AllDigits(y)
    ensures AllDigits(x + y)
  {
    assert forall k | |x| <= k < |x + y| :: (x + y)[k] == y[k - |x|];
  }

  /** The exponent phase: a grammatical exponent part (or none) ends the run. */
  lemma ExpPhase(s: string, neg: bool, ei: nat, digits: string, fracLen: nat, d: string)
    requires ei <= |s| && s[ei..] == d && ExpPart(d) && AllDigits(digits)
    ensures LexExponent(s, neg, ei, digits, fracLen) == Ok(NumberParts(neg, DigitsValue(digits), ExpValue(d) - fracLen))
  {
    if d != "" {
      assert s[ei] == d[0] && s[ei + 1] == d[1];
      var k2 := if d[1] == '+' || d[1] == '-' then ei + 2 else ei + 1;
      assert s[k2..|s|] == ExpDigits(d);
      DigitRunEndUnique(s, k2, |s|);
      var e: int := DigitsValue(s[k2..|s|]);
      assert LexExponent(s, neg, ei, digits, fracLen) == LexEnd(s, neg, |s|, digits, (if d[1] == '-' then -e else e) - fracLen);
    } else {
      var f: int := fracLen;
      assert LexExponent(s, neg, ei, digits, fracLen) == LexEnd(s, neg, |s|, digits, -f);
    }
  }

  /** The fraction phase: a grammatical fraction c = s[fi..ei] (or none) followed by an exponent part d gives the parts p. */
  lemma FracPhase(s: string, neg: bool, fi: nat, ei: nat, digits: string, c: string, d: string, p: NumberParts)
    requires fi <= ei <= |s| && s[fi..ei] == c && s[ei..] == d
    requires FracPart(c) && ExpPart(d) && AllDigits(digits) && AllDigits(digits + FracDigits(c))
    requires p == NumberParts(neg, DigitsValue(digits + FracDigits(c)), ExpValue(d) - |FracDigits(c)|)
    ensures LexFraction(s, neg, fi, digits) == Ok(p)
  {
    var all := digits + FracDigits(c);
    var fl := |FracDigits(c)|;
    FracStep(s, neg, fi, ei, digits, c, d);
    ExpPhase(s, neg, ei, all, fl, d);
    assert LexFraction(s, neg, fi, digits) == LexExponent(s, neg, ei, all, fl);
    assert LexExponent(s, neg, ei, all, fl) == Ok(p);
  }

  /** A grammatical fraction (or none) hands the exponent phase its digits and its length. */
  lemma FracStep(s: string, neg: bool, fi: nat, ei: nat, digits: string, c: string, d: string)
    requires fi <= ei <= |s| && s[fi..ei] == c && s[ei..] == d
    requires FracPart(c) && ExpPart(d) && AllDigits(digits) && AllDigits(digits + FracDigits(c))
    ensures LexFraction(s, neg, fi, digits) == LexExponent(s, neg, ei, digits + FracDigits(c), |FracDigits(c)|)
  {
    if c != "" {
      assert s[fi] == c[0];
      assert s[fi + 1..ei] == c[1..];
      DigitRunEndUnique(s, fi + 1, ei);
    } else {
      assert ei < |s| ==> s[ei] == d[0];
      assert digits + FracDigits(c) == digits;
    }
  }

  /** The integer phase: "0", or a digit run s[i..fi] that does not start with 0, then a non-digit or the end. */
  lemma IntPhase(s: string, i: nat, fi: nat, neg: bool, b: string, digits: string)
    requires i < fi <= |s| && (i == 0 || (i == 1 && s[0] == '-')) && (i == 0 ==> s[0] != '-')
    requires b == s[i..fi] && IntPart(b) && (fi < |s| ==> !IsDigit(s[fi]))
    requires neg == (i == 1) && digits == IntDigits(b)
    ensures AllDigits(digits) && |s| > 0 && LexNumber(s) == LexFraction(s, neg, fi, digits)
  {
    assert s[i] == b[0];
    if b != "0" {
      DigitRunEndUnique(s, i, fi);
    }
  }

  /** The cut points of a decomposed number, and what sits at them. */
  lemma ShapeCuts(s: string, a: string, b: string, c: string, d: string)
    requires s == a + b + c + d && (a == "" || a == "-") && |b| >= 1 && b[0] != '-'
    requires c != "" ==> c[0] == '.'
    requires d != "" ==> (d[0] == 'e' || d[0] == 'E')
    ensures s[|a|..|a| + |b|] == b && s[|a| + |b|..|a| + |b| + |c|] == c && s[|a| + |b| + |c|..] == d
    ensures |a| + |b| < |s| ==> !IsDigit(s[|a| + |b|])
    ensures a == "" ==> s[0] != '-'
    ensures a == "-" ==> s[0] == '-'
  {
    assert s[0] == (if a == "-" then '-' else b[0]);
    if |a| + |b| < |s| {
      assert s[|a| + |b|] == (c + d)[0];
    }
  }

  /** Every number of the grammar is accepted, with the parts the grammar gives it. */
  lemma LexNumberComplete(s: string, a: string, b: string, c: string, d: string)
    requires NumberShape(s, a, b, c, d)
    ensures |s| > 0 && LexNumber(s) == Ok(ShapeParts(a, b, c, d))
  {
    var fi := |a| + |b|;
    var digits := IntDigits(b);
    var neg := a == "-";
    ShapeCuts(s, a, b, c, d);
    assert neg == (|a| == 1);
    IntPhase(s, |a|, fi, neg, b, digits);
    ShapeFracPhase(s, a, b, c, d, fi, digits);
  }

  /** The fraction and exponent phases of a decomposed number, cut where the parts meet, give the grammar's parts. */
  lemma ShapeFracPhase(s: string, a: string, b: string, c: string, d: string, fi: nat, digits: string)
    requires fi == |a| + |b| && fi + |c| <= |s| && s[fi..fi + |c|] == c && s[fi + |c|..] == d
    requires IntPart(b) && FracPart(c) && ExpPart(d) && digits == IntDigits(b)
    ensures AllDigits(digits) && LexFraction(s, a == "-", fi, digits) == Ok(ShapeParts(a, b, c, d))
  {
    AllDigitsConcat(digits, FracDigits(c));
    FracPhase(s, a == "-", fi, fi + |c|, digits, c, d, ShapeParts(a, b, c, d));
  }

  /** Where the fraction part that starts at fi ends. */
  function FracEnd(s: string, fi: nat): (ei: nat)
    requires fi <= |s|
    ensures fi <= ei <= |s|
  {
    if fi < |s| && s[fi] == '.' then DigitRunEnd(s, fi + 1) else fi
  }

  /** An accepted exponent phase consumed a grammatical exponent part up to the end. */
  lemma ExpSound(s: string, neg: bool, i: nat, digits: string, fracLen: nat)
    requires i <= |s| && AllDigits(digits) && LexExponent(s, neg, i, digits, fracLen).Ok?
    ensures ExpPart(s[i..])
  {
    var d := s[i..];
    if d != "" {
      assert s[i] == 'e' || s[i] == 'E';
      var k := i + 1;
      var k2 := if k < |s| && (s[k] == '-' || s[k] == '+') then k + 1 else k;
      var j := DigitRunEnd(s, k2);
      assert k2 < j == |s|;
      assert d[0] == s[i] && |d| >= 2 && d[1] == s[k];
      assert ExpDigits(d) == s[k2..j];
    }
  }

  /** An accepted fraction phase consumed a grammatical fraction part. */
  lemma FracSound(s: string, neg: bool, fi: nat, digits: string)
    requires fi <= |s| && AllDigits(digits) && LexFraction(s, neg, fi, digits).Ok?
    ensures FracPart(s[fi..FracEnd(s, fi)]) && ExpPart(s[FracEnd(s, fi)..])
  {
    var ei := FracEnd(s, fi);
    if ei != fi {
      assert s[fi..ei][1..] == s[fi + 1..ei];
      ExpSound(s, neg, ei, digits + s[fi + 1..ei], ei - (fi + 1));
    } else {
      ExpSound(s, neg, ei, digits, 0);
    }
  }

  /** Where the integer part of a run ends: after a leading 0, or after the digit run. */
  function IntEnd(s: string): (fi: nat)
    requires |s| > 0
    ensures fi <= |s|
  {
    var i := if s[0] == '-' then 1 else 0;
    if i >= |s| then i else if s[i] == '0' then i + 1 else DigitRunEnd(s, i)
  }

  /** An accepted run starts with an optional minus and a grammatical integer part. */
  lemma IntSound(s: string)
    requires |s| > 0 && LexNumber(s).Ok?
    ensures var i := if s[0] == '-' then 1 else 0;
            i < IntEnd(s) && IntPart(s[i..IntEnd(s)])
            && LexNumber(s) == LexFraction(s, s[0] == '-', IntEnd(s), IntDigits(s[i..IntEnd(s)]))
  {
    var i := if s[0] == '-' then 1 else 0;
    var b := s[i..IntEnd(s)];
    assert b[0] == s[i];
  }

  /** Cutting a run at the three phase boundaries gives a decomposition of the grammar. */
  lemma ShapeFromCuts(s: string, i: nat, fi: nat, ei: nat)
    requires i <= fi <= ei <= |s| && (i == 0 || (i == 1 && s[0] == '-'))
    requires IntPart(s[i..fi]) && FracPart(s[fi..ei]) && ExpPart(s[ei..])
    ensures NumberShape(s, s[..i], s[i..fi], s[fi..ei], s[ei..])
  {
    assert s == s[..i] + s[i..fi] + s[fi..ei] + s[ei..];
  }

  /** Every accepted run is a number of the grammar. */
  lemma LexNumberSound(s: string)
    requires |s| > 0 && LexNumber(s).Ok?
    ensures exists a, b, c, d :: NumberShape(s, a, b, c, d)
  {
    var i := if s[0] == '-' then 1 else 0;
    IntSound(s);
    var fi := IntEnd(s);
    FracSound(s, s[0] == '-', fi, IntDigits(s[i..fi]));
    var ei := FracEnd(s, fi);
    ShapeFromCuts(s, i, fi, ei);
  }

  /** The runs the grammar refuses, each with the error parseNumber raises. */
  lemma RejectedRuns()
    ensures LexNumber("-") == Err(IsolatedMinus)
    ensures LexNumber("01") == Err(LeadingZero)
    ensures LexNumber("-a") == Err(ExpectedDigit)
    ensures LexNumber("1.") == Err(ExpectedFractionDigit)
    ensures LexNumber("1e") == Err(ExpectedExponentDigit)
    ensures LexNumber("1-2") == Err(InvalidNumberSyntax)
  {
    assert DigitRunEnd("-a", 1) == 1;
    assert DigitRunEnd("1.", 0) == 1;
    assert DigitRunEnd("1.", 2) == 2;
    assert DigitRunEnd("1e", 0) == 1;
    assert DigitRunEnd("1e", 2) == 2;
    assert DigitRunEnd("1-2", 0) == 1;
  }

  /** A fraction and a signed exponent: 1.5e+2 is 15 * 10^1. */
  lemma AcceptedRun()
    ensures LexNumber("1.5e+2") == Ok(NumberParts(false, 15, 1))
  {
    assert NumberShape("1.5e+2", "", "1", ".5", "e+2");
    LexNumberComplete("1.5e+2", "", "1", ".5", "e+2");
    AcceptedRunParts();
  }

  lemma AcceptedRunParts()
    ensures IntPart("1") && FracPart(".5") && ExpPart("e+2")
    ensures ShapeParts("", "1", ".5", "e+2") == NumberParts(false, 15, 1)
  {
    assert ".5"[1..] == "5" && ExpDigits("e+2") == "2";
    assert "1" + "5" == "15";
    assert DigitsValue("15") == 15 by {
      assert "15"[..1] == "1";
    }
    assert DigitsValue("2") == 2;
  }

  function Pow10(n: nat): (p: nat)
    ensures p >= 1
  {
    if n == 0 then 1 else 10 * Pow10(n - 1)
  }

  /** The exact decimal value of the parts (the double rounding of lines 171-173 is not modelled). */
  function PartsValue(p: NumberParts): real
  {
    var m := p.mantissa as real;
    var mag := if p.exponent >= 0 then m * (Pow10(p.exponent) as real) else m / (Pow10(-p.exponent) as real);
    if p.negative then -mag else mag
  }

  /** The digit-accumulating loop of parseNumber: mantissa = mantissa * 10 + digit. */
  method AccumulateDigits(s: string, start: nat, ghost prefix: string, m0: nat) returns (j: nat, m: nat)
    requires start <= |s| && AllDigits(prefix) && m0 == DigitsValue(prefix)
    ensures j == DigitRunEnd(s, start)
    ensures AllDigits(prefix + s[start..j]) && m == DigitsValue(prefix + s[start..j])
  {
    j, m := start, m0;
    assert prefix + s[start..j] == prefix;
    while j < |s| && IsDigit(s[j])
      invariant start <= j <= |s| && AllDigits(s[start..j])
      invariant AllDigits(prefix + s[start..j]) && m == DigitsValue(prefix + s[start..j])
    {
      DigitsValueSnoc(prefix + s[start..j], s[j]);
      DigitsValueSnoc(s[start..j], s[j]);
      assert s[start..j + 1] == s[start..j] + [s[j]];
      assert prefix + s[start..j + 1] == (prefix + s[start..j]) + [s[j]];
      m := m * 10 + DigitValue(s[j]);
      j := j + 1;
    }
    DigitRunEndUnique(s, start, j);
  }

  /**
    * parseNumber(json, start, end), sign and integer part: one forward pass
    * that accumulates the mantissa digit by digit.
    */
  method ParseNumber(s: string) returns (r: Result<NumberParts, ReadError>)
    requires |s| > 0
    ensures r == LexNumber(s)
  {
    var mantissa: nat := 0;
    var i: nat := 0;
    var neg := s[0] == '-';
    if neg {
      i := 1;
      if i >= |s| {
        return Err(IsolatedMinus);
      }
    }
    if s[i] == '0' {
      i := i + 1;
      if i < |s| && IsDigit(s[i]) {
        return Err(LeadingZero);
      }
      r := ParseFraction(s, neg, i, "", mantissa);
    } else {
      var start := i;
      i, mantissa := AccumulateDigits(s, start, "", 0);
      if i == start {
        return Err(ExpectedDigit);
      }
      assert "" + s[start..i] == s[start..i];
      r := ParseFraction(s, neg, i, s[start..i], mantissa);
    }
  }

  /** parseNumber, fraction part: each fraction digit extends the mantissa and lowers the exponent. */
  method ParseFraction(s: string, neg: bool, i0: nat, ghost digits: string, mantissa0: nat) returns (r: Result<NumberParts, ReadError>)
    requires i0 <= |s| && AllDigits(digits) && mantissa0 == DigitsValue(digits)
    ensures r == LexFraction(s, neg, i0, digits)
  {
    var i, mantissa, exp := i0, mantissa0, 0;
    if i < |s| && s[i] == '.' {
      var start := i + 1;
      i, mantissa := AccumulateDigits(s, start, digits, mantissa);
      if i == start {
        return Err(ExpectedFractionDigit);
      }
      exp := exp - (i - start);
      r := ParseExponent(s, neg, i, digits + s[start..i], mantissa, exp, i - start);
    } else {
      r := ParseExponent(s, neg, i, digits, mantissa, exp, 0);
    }
  }

  /** parseNumber, exponent part and the final check that the run is used up. */
  method ParseExponent(s: string, neg: bool, i0: nat, ghost digits: string, mantissa: nat, exp0: int, ghost fracLen: nat)
    returns (r: Result<NumberParts, ReadError>)
    requires i0 <= |s| && AllDigits(digits) && mantissa == DigitsValue(digits) && exp0 == -(fracLen as int)
    ensures r == LexExponent(s, neg, i0, digits, fracLen)
  {
    var i, exp := i0, exp0;
    if i < |s| && (s[i] == 'e' || s[i] == 'E') {
      i := i + 1;
      var eNeg := i < |s| && s[i] == '-';
      if eNeg || (i < |s| && s[i] == '+') {
        i := i + 1;
      }
      var start := i;
      var eVal: nat;
      i, eVal := AccumulateDigits(s, start, "", 0);
      assert "" + s[start..i] == s[start..i];
      if i == start {
        return Err(ExpectedExponentDigit);
      }
      var e: int := eVal;
      exp := exp + (if eNeg then -e else e);
    }
    if i != |s| {
      return Err(InvalidNumberSyntax);
    }
    return Ok(NumberParts(neg, mantissa, exp));
  }
}
