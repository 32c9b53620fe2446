/**
  * The parts of java.lang.String, Integer, Character and the int/double
  * conversions that the engine relies on, stated over strings of Unicode
  * scalar values.
  */
module JavaText {
  import opened Wrappers

  const INT_MIN: int := -0x8000_0000
  const INT_MAX: int := 0x7FFF_FFFF

  predicate IsDigit(c: char) { '0' <= c <= '9' }

  predicate AllDigits(s: string) { forall k | 0 <= k < |s| :: IsDigit(s[k]) }

  function DigitValue(c: char): nat
    requires IsDigit(c)
  {
    (c as int) - ('0' as int)
  }

  function DigitChar(n: nat): (c: char)
    requires n < 10
    ensures IsDigit(c) && DigitValue(c) == n
  {
    (('0' as int) + n) as char
  }

  /** The value of a decimal digit string, most significant digit first. */
  function DigitsValue(d: string): nat
    requires AllDigits(d)
  {
    if d == [] then 0 else DigitsValue(d[..|d| - 1]) * 10 + DigitValue(d[|d| - 1])
  }

  lemma DigitsValueSnoc(d: string, c: char)
    requires AllDigits(d) && IsDigit(c)
    ensures AllDigits(d + [c])
    ensures DigitsValue(d + [c]) == DigitsValue(d) * 10 + DigitValue(c)
  {
    assert (d + [c])[..|d|] == d;
  }

  /** Integer.toString of a non-negative value: decimal digits, most significant first. */
  function NatToString(n: nat): (s: string)
    ensures |s| > 0
    decreases n
  {
    if n < 10 then [DigitChar(n)]
    else NatToString(n / 10) + [DigitChar(n % 10)]
  }

  /** The digits NatToString writes are the value's own, with no leading zero. */
  lemma {:induction false} NatToStringDigits(n: nat)
    ensures AllDigits(NatToString(n))
    ensures DigitsValue(NatToString(n)) == n
    ensures |NatToString(n)| > 1 ==> NatToString(n)[0] != '0'
    decreases n
  {
    if n >= 10 {
      var prefix := NatToString(n / 10);
      NatToStringDigits(n / 10);
      DigitsValueSnoc(prefix, DigitChar(n % 10));
      assert NatToString(n) == prefix + [DigitChar(n % 10)];
    }
  }

  /** Integer.toString / String.format("%d") of any int. */
  function IntToString(i: int): (s: string)
    ensures |s| > 0
  {
    if i < 0 then "-" + NatToString(-i) else NatToString(i)
  }

  /**
    * Integer.parseInt(s) in radix 10: an optional '+' or '-', then at least
    * one digit, and the value must fit in 32 bits; anything else is a
    * NumberFormatException (None). Only ASCII digits are accepted here.
    */
  function ParseInt(s: string): (r: Option<int>)
    ensures r.Some? ==> INT_MIN <= r.value <= INT_MAX
  {
    if |s| == 0 then None
    else
      var signed := s[0] == '-' || s[0] == '+';
      var digits := if signed then s[1..] else s;
      if |digits| == 0 || !AllDigits(digits) then None
      else
        var mag: int := DigitsValue(digits);
        var v := if s[0] == '-' then -mag else mag;
        if INT_MIN <= v <= INT_MAX then Some(v) else None
  }

  /** Every int that Integer.toString renders is read back by Integer.parseInt. */
  lemma ParseIntOfIntToString(i: int)
    requires INT_MIN <= i <= INT_MAX
    ensures ParseInt(IntToString(i)) == Some(i)
  {
    var s := IntToString(i);
    if i < 0 {
      NatToStringDigits(-i);
      assert s[1..] == NatToString(-i);
      assert s[0] == '-';
    } else {
      NatToStringDigits(i);
      assert NatToString(i)[0] != '-' by { assert IsDigit(NatToString(i)[0]); }
    }
  }

  /** A string with a leading letter is never an int. */
  lemma ParseIntRejectsLetters(s: string)
    requires |s| > 0 && 'a' <= s[0] <= 'z'
    ensures ParseInt(s) == None
  {
    assert !IsDigit(s[0]);
  }

  /** The pieces between the dots of s, including empty ones. */
  function SplitAll(s: string): (r: seq<string>)
    ensures |r| >= 1
    ensures forall k | 0 <= k < |r| :: '.' !in r[k]
    decreases |s|
  {
    if s == [] then [""]
    else
      var rest := SplitAll(s[1..]);
      if s[0] == '.' then [""] + rest
      else [[s[0]] + rest[0]] + rest[1..]
  }

  function JoinDots(pieces: seq<string>): string
    requires |pieces| >= 1
  {
    if |pieces| == 1 then pieces[0] else pieces[0] + "." + JoinDots(pieces[1..])
  }

  /** SplitAll loses nothing: joining its pieces with dots gives the input back. */
  lemma {:induction false} JoinSplitAll(s: string)
    ensures JoinDots(SplitAll(s)) == s
    decreases |s|
  {
    if s != [] {
      var rest := SplitAll(s[1..]);
      JoinSplitAll(s[1..]);
      if s[0] == '.' {
        assert SplitAll(s) == [""] + rest;
        assert s == [s[0]] + s[1..];
      } else {
        assert s == [s[0]] + s[1..];
        if |rest| == 1 {
          assert SplitAll(s) == [[s[0]] + rest[0]];
        } else {
          var r := SplitAll(s);
          assert r[1..] == rest[1..];
          assert JoinDots(r) == ([s[0]] + rest[0]) + "." + JoinDots(rest[1..]);
        }
      }
    }
  }

  function DropTrailingEmpty(pieces: seq<string>): (r: seq<string>)
    ensures |r| <= |pieces| && r == pieces[..|r|]
    ensures forall k | |r| <= k < |pieces| :: pieces[k] == ""
    ensures |r| > 0 ==> r[|r| - 1] != ""
  {
    if |pieces| > 0 && pieces[|pieces| - 1] == "" then DropTrailingEmpty(pieces[..|pieces| - 1])
    else pieces
  }

  /**
    * String.split("\\."): a string without a dot is returned whole;
    * otherwise the dot-separated pieces with trailing empty pieces removed.
    */
  function JavaSplitDots(s: string): seq<string>
  {
    if '.' !in s then [s] else DropTrailingEmpty(SplitAll(s))
  }

  /** s starts, at index i, with the string p (String.startsWith(p, i)). */
  predicate StartsWithAt(s: string, i: nat, p: string)
  {
    i + |p| <= |s| && s[i..i + |p|] == p
  }

  /** String.contains: needle occurs somewhere inside hay. */
  predicate Contains(hay: string, needle: string)
  {
    exists i | 0 <= i <= |hay| - |needle| :: StartsWithAt(hay, i, needle)
  }

  /** Character.isWhitespace. */
  predicate IsJavaWhitespace(c: char)
  {
    c == ' ' || c == '\t' || c == '\n' || c == '\U{000B}' || c == '\U{000C}' || c == '\r'
    || ('\U{001C}' <= c <= '\U{001F}')
    || c == '\U{1680}' || ('\U{2000}' <= c <= '\U{2006}') || ('\U{2008}' <= c <= '\U{200A}')
    || c == '\U{2028}' || c == '\U{2029}' || c == '\U{205F}' || c == '\U{3000}'
  }

  /** String.isBlank: empty or whitespace only. */
  predicate IsBlank(s: string) { forall k | 0 <= k < |s| :: IsJavaWhitespace(s[k]) }

  /** String.trim().isEmpty(): every character is at most U+0020. */
  predicate TrimIsEmpty(s: string) { forall k | 0 <= k < |s| :: s[k] <= ' ' }

  /** The low 32 bits of x as a signed int (Java int arithmetic and Long.intValue). */
  function Wrap32(x: int): (r: int)
    ensures INT_MIN <= r <= INT_MAX
    ensures INT_MIN <= x <= INT_MAX ==> r == x
  {
    (x - INT_MIN) % 0x1_0000_0000 + INT_MIN
  }

  /** Truncation toward zero of a real. */
  function Truncate(r: real): int
  {
    if r >= 0.0 then r.Floor else -((-r).Floor)
  }

  /** Double.intValue: truncation toward zero, saturated to the int range. */
  function DoubleToInt(r: real): (i: int)
    ensures INT_MIN <= i <= INT_MAX
  {
    var t := Truncate(r);
    if t < INT_MIN then INT_MIN else if t > INT_MAX then INT_MAX else t
  }
}
