/**
  * The index arithmetic of SubstringExpression once the text and the int
  * values of its numeric arguments are known. Java's String.substring
  * throws on a start outside the string; that is an IndexOutOfBounds error.
  */
module Substring {
  import opened Wrappers
  import opened JavaText
  import opened EvalErrors

  /** The start index: a negative start counts back from the end. */
  function StartIndex(len: nat, start: int): int
  {
    if start < 0 then len + start else start
  }

  /** substr with two arguments: from the start index to the end. */
  function SubstrFrom(text: string, start: int): (r: Result<string, EvalError>)
  {
    var s := StartIndex(|text|, start);
    if s < 0 then Ok("")
    else if s > |text| then Err(IndexOutOfBounds)
    else Ok(text[s..])
  }

  /**
    * substr with three arguments: a non-negative count is a length added
    * to the start (in 32-bit int arithmetic), a negative one is an offset
    * back from the end.
    */
  function SubstrRange(text: string, start: int, count: int): (r: Result<string, EvalError>)
    requires INT_MIN <= start <= INT_MAX && INT_MIN <= count <= INT_MAX
  {
    var s := StartIndex(|text|, start);
    var e := if count < 0 then |text| + count else Wrap32(count + s);
    if s > e || e > |text| then Ok("")
    else if s < 0 then Err(IndexOutOfBounds)
    else Ok(text[s..e])
  }

  /**
    * Two arguments: a start inside the string keeps the tail from it, a
    * negative start within the length keeps that many last characters,
    * one further back gives "", and one past the end is an error.
    */
  lemma SubstrFromCases(text: string, start: int)
    ensures 0 <= start <= |text| ==> SubstrFrom(text, start) == Ok(text[start..])
    ensures -|text| <= start < 0 ==>
              SubstrFrom(text, start).Ok? && |SubstrFrom(text, start).value| == -start &&
              SubstrFrom(text, start).value == text[|text| + start..]
    ensures start < -|text| ==> SubstrFrom(text, start) == Ok("")
    ensures start > |text| ==> SubstrFrom(text, start) == Err(IndexOutOfBounds)
  {
  }

  /**
    * Three arguments with a count: when start and start + count lie in the
    * string (whose length, as a Java string's, fits in an int) the result
    * is exactly the count characters from start.
    */
  lemma SubstrRangeLength(text: string, start: int, count: int)
    requires INT_MIN <= start <= INT_MAX && INT_MIN <= count <= INT_MAX
    requires |text| <= INT_MAX
    requires 0 <= start && 0 <= count && start + count <= |text|
    ensures SubstrRange(text, start, count) == Ok(text[start..start + count])
    ensures |SubstrRange(text, start, count).value| == count
  {
  }

  /**
    * Three arguments with a negative count: the result stops that many
    * characters before the end, and is "" once the end passes the start.
    */
  lemma SubstrRangeFromEnd(text: string, start: int, count: int)
    requires INT_MIN <= start <= INT_MAX && INT_MIN <= count <= INT_MAX
    requires 0 <= start <= |text| && count < 0
    ensures |text| + count >= start ==> SubstrRange(text, start, count) == Ok(text[start..|text| + count])
    ensures |text| + count < start ==> SubstrRange(text, start, count) == Ok("")
  {
  }

  /** A start still negative after counting back is an error once the end lies inside the string. */
  lemma SubstrRangeNegativeStart(text: string, start: int, count: int)
    requires INT_MIN <= start <= INT_MAX && INT_MIN <= count <= INT_MAX
    requires start < -|text| && count < 0 && -|text| <= count
    ensures SubstrRange(text, start, count) == Err(IndexOutOfBounds)
  {
  }

  /** The JsonLogic documentation's examples on "jsonlogic". */
  lemma SubstrExamples()
    ensures SubstrFrom("jsonlogic", 4) == Ok("logic")
    ensures SubstrFrom("jsonlogic", -5) == Ok("logic")
    ensures SubstrRange("jsonlogic", 1, 3) == Ok("son")
    ensures SubstrRange("jsonlogic", 4, -2) == Ok("log")
  {
    assert "jsonlogic"[4..] == "logic";
    assert "jsonlogic"[1..4] == "son";
    assert "jsonlogic"[4..7] == "log";
  }
}
