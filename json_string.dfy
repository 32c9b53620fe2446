/**
  * String literals of JsonParserString: the scan up to the closing quote,
  * the escapes (section 7 of RFC 8259) and the UTF-16 code units a Java
  * StringBuilder holds.
  */
module JsonStrings {
  import opened Wrappers
  import opened JavaText
  import opened ReaderErrors

  // UTF-16 code units: a Java string is a sequence of them, a Dafny string a sequence of scalar values.

  predicate IsUnit(u: int) { 0 <= u < 0x1_0000 }

  predicate IsHighSurrogate(u: int) { 0xD800 <= u < 0xDC00 }

  predicate IsLowSurrogate(u: int) { 0xDC00 <= u < 0xE000 }

  predicate AllUnits(us: seq<int>) { forall k | 0 <= k < |us| :: IsUnit(us[k]) }

  /** The code units of one character: itself, or a surrogate pair above U+FFFF. */
  function Utf16(c: char): (us: seq<int>)
    ensures AllUnits(us) && 1 <= |us| <= 2
  {
    var n := c as int;
    if n < 0x1_0000 then [n]
    else [0xD800 + (n - 0x1_0000) / 0x400, 0xDC00 + (n - 0x1_0000) % 0x400]
  }

  function Utf16String(s: string): (us: seq<int>)
    ensures AllUnits(us)
  {
    if s == [] then [] else Utf16(s[0]) + Utf16String(s[1..])
  }

  lemma AllUnitsAppend(us: seq<int>, vs: seq<int>)
    requires AllUnits(us) && AllUnits(vs)
    ensures AllUnits(us + vs)
  {
  }

  lemma {:induction false} Utf16StringConcat(a: string, b: string)
    ensures Utf16String(a + b) == Utf16String(a) + Utf16String(b)
    decreases |a|
  {
    if a != [] {
      assert (a + b)[1..] == a[1..] + b;
      Utf16StringConcat(a[1..], b);
    } else {
      assert a + b == b;
    }
  }

  /** Code units back to characters; an unpaired surrogate has no character (None). */
  function DecodeUtf16(us: seq<int>): Option<string>
    requires AllUnits(us)
    decreases |us|
  {
    if us == [] then Some([])
    else if IsHighSurrogate(us[0]) then
      if |us| >= 2 && IsLowSurrogate(us[1]) then
        var c := 0x1_0000 + (us[0] - 0xD800) * 0x400 + (us[1] - 0xDC00);
        match DecodeUtf16(us[2..])
        case None => None
        case Some(rest) => Some([c as char] + rest)
      else None
    else if IsLowSurrogate(us[0]) then None
    else
      match DecodeUtf16(us[1..])
      case None => None
      case Some(rest) => Some([us[0] as char] + rest)
  }

  /** Decoding the code units of any string gives the string back. */
  lemma {:induction false} DecodeUtf16String(s: string)
    ensures DecodeUtf16(Utf16String(s)) == Some(s)
    decreases |s|
  {
    if s != [] {
      var us := Utf16String(s);
      var n := s[0] as int;
      DecodeUtf16String(s[1..]);
      if n < 0x1_0000 {
        assert us[1..] == Utf16String(s[1..]);
      } else {
        assert us[2..] == Utf16String(s[1..]);
        assert 0x1_0000 + (us[0] - 0xD800) * 0x400 + (us[1] - 0xDC00) == n;
      }
      assert s == [s[0]] + s[1..];
    }
  }

  /** parseHexDigit: the value of one hexadecimal digit, or -1. */
  function HexDigit(c: char): (v: int)
    ensures -1 <= v < 16
    ensures v == -1 <==> !(IsDigit(c) || 'a' <= c <= 'f' || 'A' <= c <= 'F')
  {
    if '0' <= c <= '9' then (c as int) - ('0' as int)
    else if 'a' <= c <= 'f' then (c as int) - ('a' as int) + 10
    else if 'A' <= c <= 'F' then (c as int) - ('A' as int) + 10
    else -1
  }

  /** handleEscape: the eight named escapes, and any other character stands for itself. */
  function HandleEscape(c: char): char
  {
    match c
    case '\\' => '\\'
    case '/' => '/'
    case '"' => '"'
    case 'n' => '\n'
    case 'r' => '\r'
    case 't' => '\t'
    case 'b' => '\U{0008}'
    case 'f' => '\U{000C}'
    case _ => c
  }

  /** Only five escapes change their character; the quote, the solidus, the backslash and the rest keep theirs. */
  lemma HandleEscapeChanges(c: char)
    ensures HandleEscape(c) != c <==> c in "nrtbf"
    ensures c in "nrtbf" ==> HandleEscape(c) < ' '
  {
  }

  /**
    * The code unit of a \u escape whose 'u' is at index p: Java reads
    * charAt(p + 1) to charAt(p + 4), failing at the first character past the
    * end (StringIndexOutOfBoundsException) or the first non-hex digit.
    */
  function Hex4(text: string, p: nat): (r: Result<int, ReadError>)
    ensures r.Ok? ==> IsUnit(r.value)
  {
    HexFrom(text, p, 1, 0)
  }

  /** The escape's digits from the k-th on, after val has absorbed the earlier ones ((val << 4) | hex). */
  function HexFrom(text: string, p: nat, k: nat, val: int): (r: Result<int, ReadError>)
    requires 1 <= k <= 5 && 0 <= val < Pow16(k - 1)
    ensures r.Ok? ==> IsUnit(r.value)
    decreases 5 - k
  {
    if k == 5 then Ok(val)
    else if p + k >= |text| then Err(TruncatedEscape)
    else if HexDigit(text[p + k]) == -1 then Err(InvalidHex)
    else HexFrom(text, p, k + 1, val * 16 + HexDigit(text[p + k]))
  }

  /** 16^n for the four digit positions. */
  function Pow16(n: nat): nat
    requires n <= 4
  {
    if n == 0 then 1 else if n == 1 then 16 else if n == 2 then 256 else if n == 3 then 4096 else 0x1_0000
  }

  /** A \u escape is accepted exactly when four hex digits follow, and its unit is their value. */
  lemma Hex4Exact(text: string, p: nat)
    ensures Hex4(text, p).Ok? <==>
      p + 4 < |text| && HexDigit(text[p + 1]) != -1 && HexDigit(text[p + 2]) != -1
      && HexDigit(text[p + 3]) != -1 && HexDigit(text[p + 4]) != -1
    ensures Hex4(text, p).Ok? ==>
      Hex4(text, p).value
      == HexDigit(text[p + 1]) * 4096 + HexDigit(text[p + 2]) * 256 + HexDigit(text[p + 3]) * 16 + HexDigit(text[p + 4])
  {
  }

  /**
    * The scan loop from index i: stop at a quote or at the end of the text
    * (an unterminated string is accepted); the builder `sb` exists once the
    * first backslash was met, and then collects code units.
    */
  function StrLoop(text: string, start: nat, i: nat, sb: Option<seq<int>>): (r: Result<(nat, Option<seq<int>>), ReadError>)
    requires start <= i <= |text|
    requires sb.Some? ==> AllUnits(sb.value)
    ensures r.Ok? ==> i <= r.value.0 <= |text|
    ensures r.Ok? && r.value.1.Some? ==> AllUnits(r.value.1.value)
    decreases |text| - i
  {
    if i >= |text| || text[i] == '"' then Ok((i, sb))
    else if text[i] == '\\' then
      var sb0 := if sb.None? then Utf16String(text[start..i]) else sb.value;
      if i + 1 >= |text| then Err(TruncatedEscape)
      else if text[i + 1] == 'u' then
        match Hex4(text, i + 1)
        case Err(e) => Err(e)
        case Ok(v) => StrLoop(text, start, i + 6, Some(sb0 + [v]))
      else StrLoop(text, start, i + 2, Some(sb0 + Utf16(HandleEscape(text[i + 1]))))
    else StrLoop(text, start, i + 1, if sb.None? then None else Some(sb.value + Utf16(text[i])))
  }

  /**
    * The string literal whose content starts at `start`: the index of the
    * closing quote (or the end), and the decoded content.
    */
  function ScanStringSpec(text: string, start: nat): (r: Result<(nat, string), ReadError>)
    requires start <= |text|
    ensures r.Ok? ==> start <= r.value.0 <= |text|
  {
    match StrLoop(text, start, start, None)
    case Err(e) => Err(e)
    case Ok((i, sb)) =>
      if sb.None? then Ok((i, text[start..i]))
      else match DecodeUtf16(sb.value)
        case None => Err(LoneSurrogate)
        case Some(s) => Ok((i, s))
  }

  /** The \u loop of parse: four calls of parseHexDigit, shifting each digit in. */
  method ReadHex4(text: string, p: nat) returns (r: Result<int, ReadError>)
    ensures r == Hex4(text, p)
  {
    var val := 0;
    var j := 1;
    while j < 5
      invariant 1 <= j <= 5 && 0 <= val < Pow16(j - 1)
      invariant HexFrom(text, p, j, val) == Hex4(text, p)
    {
      if p + j >= |text| {
        return Err(TruncatedEscape);
      }
      var hex := HexDigit(text[p + j]);
      if hex == -1 {
        return Err(InvalidHex);
      }
      val := val * 16 + hex;
      j := j + 1;
    }
    return Ok(val);
  }

  /**
    * The string case of parse, from the character after the opening quote:
    * the text is copied as it is until the first backslash; from there on a
    * builder collects code units.
    */
  method ScanString(text: string, start: nat) returns (r: Result<(nat, string), ReadError>)
    requires start <= |text|
    ensures r == ScanStringSpec(text, start)
  {
    var i := start;
    var hasBuilder := false;
    var sb: seq<int> := [];
    while i < |text| && text[i] != '"'
      invariant start <= i <= |text| && AllUnits(sb)
      invariant StrLoop(text, start, i, if hasBuilder then Some(sb) else None) == StrLoop(text, start, start, None)
      decreases |text| - i
    {
      ghost var before := if hasBuilder then Some(sb) else None;
      if text[i] == '\\' {
        if !hasBuilder {
          sb := Utf16String(text[start..i]);
          hasBuilder := true;
        }
        var next := ReadEscape(text, start, i, before, sb);
        if next.Err? {
          return Err(next.error);
        }
        i, sb := next.value.0, next.value.1;
      } else {
        StepOrdinary(text, start, i, before);
        if hasBuilder {
          AllUnitsAppend(sb, Utf16(text[i]));
          sb := sb + Utf16(text[i]);
        }
        i := i + 1;
      }
    }
    ScanEnds(text, start, i, if hasBuilder then Some(sb) else None);
    if !hasBuilder {
      return Ok((i, text[start..i]));
    }
    var decoded := DecodeUtf16(sb);
    if decoded.None? {
      return Err(LoneSurrogate);
    }
    return Ok((i, decoded.value));
  }

  /**
    * The escape whose backslash is at i, appended to the builder sb0 (the
    * builder the scan state sb stands for): the index after the escape and
    * the extended builder.
    */
  method ReadEscape(text: string, start: nat, i: nat, ghost sb: Option<seq<int>>, sb0: seq<int>) returns (r: Result<(nat, seq<int>), ReadError>)
    requires start <= i < |text| && text[i] == '\\' && (sb.Some? ==> AllUnits(sb.value))
    requires sb0 == if sb.None? then Utf16String(text[start..i]) else sb.value
    ensures r.Err? ==> StrLoop(text, start, i, sb) == Err(r.error)
    ensures r.Ok? ==> i < r.value.0 <= |text| && AllUnits(r.value.1)
    ensures r.Ok? ==> StrLoop(text, start, i, sb) == StrLoop(text, start, r.value.0, Some(r.value.1))
  {
    var j := i + 1;
    if j >= |text| {
      return Err(TruncatedEscape);
    }
    var escaped := text[j];
    if escaped == 'u' {
      var v := ReadHex4(text, j);
      StepUnicode(text, start, i, sb, sb0);
      if v.Err? {
        return Err(v.error);
      }
      AllUnitsAppend(sb0, [v.value]);
      return Ok((j + 5, sb0 + [v.value]));
    }
    StepEscape(text, start, i, sb, sb0);
    AllUnitsAppend(sb0, Utf16(HandleEscape(escaped)));
    return Ok((j + 1, sb0 + Utf16(HandleEscape(escaped))));
  }

  /** Once the scan stands at a quote or at the end, the literal's value is the slice or the decoded builder. */
  lemma ScanEnds(text: string, start: nat, i: nat, sb: Option<seq<int>>)
    requires start <= i <= |text| && (i == |text| || text[i] == '"') && (sb.Some? ==> AllUnits(sb.value))
    requires StrLoop(text, start, i, sb) == StrLoop(text, start, start, None)
    ensures sb.None? ==> ScanStringSpec(text, start) == Ok((i, text[start..i]))
    ensures sb.Some? && DecodeUtf16(sb.value).None? ==> ScanStringSpec(text, start) == Err(LoneSurrogate)
    ensures sb.Some? && DecodeUtf16(sb.value).Some? ==> ScanStringSpec(text, start) == Ok((i, DecodeUtf16(sb.value).value))
  {
  }

  /** Text without quote or backslash is copied verbatim. */
  predicate Plain(s: string)
  {
    forall k | 0 <= k < |s| :: s[k] != '"' && s[k] != '\\'
  }

  /** A writer's escaping: a quote or backslash gets a backslash in front, everything else is itself. */
  function Escape(s: string): (e: string)
    ensures |e| >= |s|
  {
    if s == [] then []
    else (if s[0] == '"' || s[0] == '\\' then ['\\', s[0]] else [s[0]]) + Escape(s[1..])
  }

  /** A string without quotes or backslashes is written as itself. */
  lemma {:induction false} EscapePlain(s: string)
    requires Plain(s)
    ensures Escape(s) == s
  {
    if s != [] {
      PlainCons(s);
      EscapePlain(s[1..]);
    }
  }

  /** Up to the first quote, a literal without backslashes is read as the exact slice, terminated or not. */
  lemma {:induction false} PlainLiteral(text: string, start: nat, q: nat)
    requires start <= q <= |text| && Plain(text[start..q]) && (q < |text| ==> text[q] == '"')
    ensures ScanStringSpec(text, start) == Ok((q, text[start..q]))
  {
    PlainLoop(text, start, start, q);
  }

  lemma {:induction false} PlainLoop(text: string, start: nat, i: nat, q: nat)
    requires start <= i <= q <= |text| && Plain(text[start..q]) && (q < |text| ==> text[q] == '"')
    ensures StrLoop(text, start, i, None) == Ok((q, None))
    decreases q - i
  {
    if i < q {
      assert text[i] == text[start..q][i - start];
      PlainLoop(text, start, i + 1, q);
    }
  }

  /** One step of the scan over an ordinary character. */
  lemma StepOrdinary(text: string, start: nat, i: nat, sb: Option<seq<int>>)
    requires start <= i < |text| && text[i] != '"' && text[i] != '\\' && (sb.Some? ==> AllUnits(sb.value))
    ensures StrLoop(text, start, i, sb) == StrLoop(text, start, i + 1, if sb.None? then None else Some(sb.value + Utf16(text[i])))
  {
  }

  /** One step of the scan over a backslash followed by anything but 'u'; sb0 is the builder in use. */
  lemma StepEscape(text: string, start: nat, i: nat, sb: Option<seq<int>>, sb0: seq<int>)
    requires start <= i && i + 1 < |text| && text[i] == '\\' && text[i + 1] != 'u' && (sb.Some? ==> AllUnits(sb.value))
    requires sb0 == if sb.None? then Utf16String(text[start..i]) else sb.value
    ensures AllUnits(sb0)
    ensures StrLoop(text, start, i, sb) == StrLoop(text, start, i + 2, Some(sb0 + Utf16(HandleEscape(text[i + 1]))))
  {
  }

  /** One step of the scan over a \u escape: its four hex digits decide. */
  lemma StepUnicode(text: string, start: nat, i: nat, sb: Option<seq<int>>, sb0: seq<int>)
    requires start <= i && i + 1 < |text| && text[i] == '\\' && text[i + 1] == 'u' && (sb.Some? ==> AllUnits(sb.value))
    requires sb0 == if sb.None? then Utf16String(text[start..i]) else sb.value
    ensures AllUnits(sb0)
    ensures Hex4(text, i + 1).Err? ==> StrLoop(text, start, i, sb) == Err(Hex4(text, i + 1).error)
    ensures Hex4(text, i + 1).Ok? ==> i + 6 <= |text|
    ensures Hex4(text, i + 1).Ok? ==> StrLoop(text, start, i, sb) == StrLoop(text, start, i + 6, Some(sb0 + [Hex4(text, i + 1).value]))
  {
    Hex4Exact(text, i + 1);
  }

  /** Where the escaped form of a non-empty string sits in a text: its head, then the rest. */
  lemma EscapeHead(text: string, i: nat, t: string) returns (n: nat)
    requires t != [] && i + |Escape(t)| <= |text| && text[i..i + |Escape(t)|] == Escape(t)
    ensures n == (if t[0] == '"' || t[0] == '\\' then 2 else 1)
    ensures |Escape(t)| == n + |Escape(t[1..])|
    ensures text[i + n..i + |Escape(t)|] == Escape(t[1..])
    ensures n == 1 ==> text[i] == t[0]
    ensures n == 2 ==> text[i] == '\\' && text[i + 1] == t[0]
  {
    n := if t[0] == '"' || t[0] == '\\' then 2 else 1;
    var e := Escape(t);
    assert e[n..] == Escape(t[1..]);
    assert text[i + n..i + |e|] == e[n..];
    assert text[i] == e[0];
    if n == 2 { assert text[i + 1] == e[1]; }
  }

  /** Appending the units of a non-empty string is appending those of its head, then its tail. */
  lemma Utf16StringCons(acc: seq<int>, t: string)
    requires t != []
    ensures acc + Utf16(t[0]) + Utf16String(t[1..]) == acc + Utf16String(t)
  {
    var x, y := Utf16(t[0]), Utf16String(t[1..]);
    assert Utf16String(t) == x + y;
    assert (acc + x) + y == acc + (x + y);
  }

  /** With a builder in place, an escaped string followed by a quote adds exactly its code units. */
  lemma {:induction false} EscapedLoopWithBuilder(text: string, start: nat, i: nat, acc: seq<int>, t: string)
    requires start <= i && i + |Escape(t)| < |text| && AllUnits(acc)
    requires text[i..i + |Escape(t)|] == Escape(t) && text[i + |Escape(t)|] == '"'
    ensures StrLoop(text, start, i, Some(acc)) == Ok((i + |Escape(t)|, Some(acc + Utf16String(t))))
    decreases |t|
  {
    if t == [] {
      assert acc + Utf16String(t) == acc;
    } else {
      var n := EscapeHead(text, i, t);
      var acc' := acc + Utf16(t[0]);
      if n == 2 {
        assert HandleEscape(text[i + 1]) == t[0];
        StepEscape(text, start, i, Some(acc), acc);
      } else {
        StepOrdinary(text, start, i, Some(acc));
      }
      assert StrLoop(text, start, i, Some(acc)) == StrLoop(text, start, i + n, Some(acc'));
      EscapedLoopWithBuilder(text, start, i + n, acc', t[1..]);
      Utf16StringCons(acc, t);
    }
  }

  /** Plainness of a non-empty string is plainness of its head and of its tail. */
  lemma PlainCons(t: string)
    requires t != []
    ensures Plain(t) <==> t[0] != '"' && t[0] != '\\' && Plain(t[1..])
  {
    assert forall k | 1 <= k < |t| :: t[k] == t[1..][k - 1];
  }

  /** Before the first backslash, the scan copies; at it, the builder starts with the text so far. */
  lemma {:induction false} EscapedLoop(text: string, start: nat, i: nat, t: string)
    requires start <= i && i + |Escape(t)| < |text| && Plain(text[start..i])
    requires text[i..i + |Escape(t)|] == Escape(t) && text[i + |Escape(t)|] == '"'
    ensures Plain(t) ==> StrLoop(text, start, i, None) == Ok((i + |t|, None))
    ensures !Plain(t) ==> StrLoop(text, start, i, None) == Ok((i + |Escape(t)|, Some(Utf16String(text[start..i] + t))))
    decreases |t|
  {
    if t != [] {
      var n := EscapeHead(text, i, t);
      PlainCons(t);
      if n == 2 {
        EscapedLoopAtBackslash(text, start, i, t);
      } else {
        StepOrdinary(text, start, i, None);
        PlainSnoc(text, start, i, t);
        EscapedLoop(text, start, i + 1, t[1..]);
      }
    }
  }

  /** At the first backslash the builder starts with the code units of the text so far. */
  lemma EscapedLoopAtBackslash(text: string, start: nat, i: nat, t: string)
    requires start <= i && i + |Escape(t)| < |text| && t != [] && (t[0] == '"' || t[0] == '\\')
    requires text[i..i + |Escape(t)|] == Escape(t) && text[i + |Escape(t)|] == '"'
    ensures StrLoop(text, start, i, None) == Ok((i + |Escape(t)|, Some(Utf16String(text[start..i] + t))))
  {
    var n := EscapeHead(text, i, t);
    assert HandleEscape(text[i + 1]) == t[0];
    var acc := Utf16String(text[start..i]);
    StepEscape(text, start, i, None, acc);
    EscapedLoopWithBuilder(text, start, i + 2, acc + Utf16(t[0]), t[1..]);
    Utf16StringCons(acc, t);
    Utf16StringConcat(text[start..i], t);
  }

  /** A plain prefix stays plain when followed by a character that is neither quote nor backslash. */
  lemma PlainSnoc(text: string, start: nat, i: nat, t: string)
    requires start <= i < |text| && Plain(text[start..i]) && text[i] != '"' && text[i] != '\\'
    requires t != [] && t[0] == text[i]
    ensures Plain(text[start..i + 1])
    ensures text[start..i + 1] + t[1..] == text[start..i] + t
  {
    assert text[start..i + 1] == text[start..i] + [text[i]];
    assert t == [t[0]] + t[1..];
  }

  /** Reading back what the escaping wrote gives the original string and stops at the closing quote. */
  lemma EscapeRoundTrip(prefix: string, s: string, rest: string)
    ensures var text := prefix + Escape(s) + "\"" + rest;
            ScanStringSpec(text, |prefix|) == Ok((|prefix| + |Escape(s)|, s))
  {
    var e := Escape(s);
    var text := prefix + e + "\"" + rest;
    var i := |prefix|;
    assert text[i..i + |e|] == e by {
      assert text == prefix + (e + ("\"" + rest));
    }
    assert text[i + |e|] == '"';
    ScanEscaped(text, i, s, e);
  }

  /** An escaped string followed by a quote, wherever it sits in a text, is read back as that string. */
  lemma ScanEscaped(text: string, i: nat, s: string, e: string)
    requires e == Escape(s) && i + |e| < |text| && text[i..i + |e|] == e && text[i + |e|] == '"'
    ensures ScanStringSpec(text, i) == Ok((i + |e|, s))
  {
    assert text[i..i] == [];
    EscapedLoop(text, i, i, s);
    if Plain(s) {
      EscapePlain(s);
    } else {
      assert text[i..i] + s == s;
      DecodeUtf16String(s);
    }
  }
}
