/**
  * JsonParserString.parse as the Java code runs it: a deque of values and
  * markers (a sequence with its top at the end), a growable `int[]
  * sizeStack` with its top index `sizePtr`, and an index moving through the
  * text. Every step is proved to do what JsonReader.Step says, so the whole
  * loop computes JsonReader.Read.
  */
module JsonParser {
  import opened Wrappers
  import opened JavaText
  import opened JsonValues
  import opened ReaderErrors
  import opened JsonNumber
  import opened JsonStrings
  import opened JsonReader

  /** Arrays.copyOf(a, n) with n >= a.Length: a new array with the old counters, then zeros. */
  method CopyOf(a: array<int>, n: nat) returns (b: array<int>)
    requires a.Length <= n
    ensures fresh(b) && b.Length == n
    ensures b[..a.Length] == a[..]
    ensures forall k | a.Length <= k < n :: b[k] == 0
  {
    b := new int[n];
    var k := 0;
    while k < n
      invariant k <= n
      invariant forall j | 0 <= j < k :: b[j] == (if j < a.Length then a[j] else 0)
    {
      b[k] := if k < a.Length then a[k] else 0;
      k := k + 1;
    }
  }

  /** `if (sizePtr >= 0 && sizeStack[sizePtr] != -1) sizeStack[sizePtr]++` */
  method BumpTop(sizeStack: array<int>, sizePtr: int)
    requires sizePtr < sizeStack.Length
    modifies sizeStack
    ensures sizeStack[..] == Bump(old(sizeStack[..]), sizePtr)
  {
    if 0 <= sizePtr && sizeStack[sizePtr] != -1 {
      sizeStack[sizePtr] := sizeStack[sizePtr] + 1;
    }
  }

  /**
    * '{' and '[': `++sizePtr`, a stack twice as long when it is full, then
    * the new counter (-1 for an object, 0 for an array). The answer is the
    * stack in use afterwards and the new top index.
    */
  method OpenFrame(values: seq<Raw>, sizeStack: array<int>, sizePtr: int, m: Marker)
    returns (r: Result<(array<int>, int), ReadError>)
    requires 1 <= sizeStack.Length && sizePtr < sizeStack.Length && (m == ObjectMarker || m == ArrayMarker)
    modifies sizeStack
    ensures r.Err? ==> Open(State(values, old(sizeStack[..]), sizePtr), m) == Err(r.error)
    ensures r.Ok? ==> r.value.0 == sizeStack || fresh(r.value.0)
    ensures r.Ok? ==> Open(State(values, old(sizeStack[..]), sizePtr), m) == Ok(State(values + [RMark(m)], r.value.0[..], r.value.1))
  {
    ghost var sizes := sizeStack[..];
    var ptr := sizePtr + 1;
    var stack := sizeStack;
    if ptr == sizeStack.Length {
      stack := CopyOf(sizeStack, 2 * sizeStack.Length);
      assert stack[..] == Grow(sizes);
    }
    if ptr < 0 {
      return Err(BadStackIndex);
    }
    stack[ptr] := if m == ObjectMarker then -1 else 0;
    return Ok((stack, ptr));
  }

  /**
    * The do-while of '}', with `val` already popped: COLON, then the key
    * (which must be a string), put the pair, then OBJECT ends the loop and
    * COMMA brings the next value.
    */
  method PopPairs(below: seq<Raw>, first: Raw) returns (r: Result<(seq<Raw>, seq<(string, Raw)>), ReadError>)
    ensures r == PairLoop(below, first, [])
  {
    var values := below;
    var val := first;
    var entries: seq<(string, Raw)> := [];
    while true
      invariant PairLoop(below, first, []) == PairLoop(values, val, entries)
      decreases |values|
    {
      if |values| == 0 {
        return Err(EmptyStack);
      }
      if Last(values) != RMark(ColonMarker) {
        return Err(ExpectedColon);
      }
      values := Drop(values);
      if |values| == 0 {
        return Err(EmptyStack);
      }
      if !Last(values).RStr? {
        return Err(KeyNotString);
      }
      entries := Put(entries, Last(values).s, Unsentinel(val));
      values := Drop(values);
      if |values| == 0 {
        return Err(EmptyStack);
      }
      val := Last(values);
      values := Drop(values);
      if val == RMark(ObjectMarker) {
        return Ok((values, entries));
      }
      if val != RMark(CommaMarker) {
        return Err(ExpectedComma);
      }
      if |values| == 0 {
        return Err(EmptyStack);
      }
      val := Last(values);
      values := Drop(values);
    }
  }

  /**
    * The for-loop of ']': `arr[j]` is filled from j = size - 1 down to 0,
    * each element but the first preceded by a COMMA on the deque.
    */
  method PopElements(below: seq<Raw>, size: nat) returns (r: Result<(seq<Raw>, seq<Raw>), ReadError>)
    ensures r == ElementsLoop(below, size - 1, [])
  {
    var arr := new Raw[size];
    var values := below;
    var j: int := size - 1;
    assert arr[j + 1..] == [];
    while j >= 0
      invariant -1 <= j < size
      invariant ElementsLoop(below, size - 1, []) == ElementsLoop(values, j, arr[j + 1..])
    {
      if |values| == 0 {
        return Err(EmptyStack);
      }
      var v := Last(values);
      values := Drop(values);
      ghost var tail := arr[j + 1..];
      arr[j] := Unsentinel(v);
      assert arr[j..] == [Unsentinel(v)] + tail;
      if j > 0 {
        if |values| == 0 {
          return Err(EmptyStack);
        }
        if Last(values) != RMark(CommaMarker) {
          return Err(ExpectedComma);
        }
        values := Drop(values);
      }
      j := j - 1;
    }
    return Ok((values, arr[..]));
  }

  /** '}': `sizePtr--`, then the map (empty when OBJECT is on top) replaces the popped entries. */
  method CloseObjectFrame(values: seq<Raw>, sizeStack: array<int>, sizePtr: int) returns (r: Result<(seq<Raw>, int), ReadError>)
    requires 1 <= sizeStack.Length && sizePtr < sizeStack.Length
    modifies sizeStack
    ensures r.Err? ==> CloseObject(State(values, old(sizeStack[..]), sizePtr)) == Err(r.error)
    ensures r.Ok? ==> CloseObject(State(values, old(sizeStack[..]), sizePtr)) == Ok(State(r.value.0, sizeStack[..], r.value.1))
  {
    var ptr := sizePtr - 1;
    if |values| == 0 {
      return Err(EmptyStack);
    }
    var val := Last(values);
    var rest := Drop(values);
    var entries: seq<(string, Raw)> := [];
    if val != RMark(ObjectMarker) {
      var pairs := PopPairs(rest, val);
      if pairs.Err? {
        return Err(pairs.error);
      }
      rest, entries := pairs.value.0, pairs.value.1;
    }
    BumpTop(sizeStack, ptr);
    return Ok((rest + [RMap(entries)], ptr));
  }

  /** ']': the counter of the frame being closed, `sizePtr--`, the elements, then ARRAY beneath them. */
  method CloseArrayFrame(values: seq<Raw>, sizeStack: array<int>, sizePtr: int) returns (r: Result<(seq<Raw>, int), ReadError>)
    requires 1 <= sizeStack.Length && sizePtr < sizeStack.Length
    modifies sizeStack
    ensures r.Err? ==> CloseArray(State(values, old(sizeStack[..]), sizePtr)) == Err(r.error)
    ensures r.Ok? ==> CloseArray(State(values, old(sizeStack[..]), sizePtr)) == Ok(State(r.value.0, sizeStack[..], r.value.1))
  {
    if sizePtr < 0 {
      return Err(BadStackIndex);
    }
    var size := sizeStack[sizePtr];
    var ptr := sizePtr - 1;
    if size < 0 {
      return Err(NegativeArraySize);
    }
    var popped := PopElements(values, size);
    if popped.Err? {
      return Err(popped.error);
    }
    var left := popped.value.0;
    if |left| == 0 {
      return Err(EmptyStack);
    }
    if Last(left) != RMark(ArrayMarker) {
      return Err(ExpectedCloseBracket);
    }
    BumpTop(sizeStack, ptr);
    return Ok((Drop(left) + [RList(popped.value.1)], ptr));
  }

  /** A character that starts a literal, a string or a number. */
  predicate StartsValue(c: char)
  {
    c == 't' || c == 'f' || c == 'n' || c == '"' || c == '-' || IsDigit(c)
  }

  /**
    * The value cases of the switch: the index after the value and the value
    * pushed (NULL stands for the literal null). Numbers take the maximal run
    * of number characters.
    */
  method ScanValue(text: string, i: nat, ghost st: State) returns (r: Result<(nat, Raw), ReadError>)
    requires i < |text| && StartsValue(text[i]) && Valid(st)
    ensures r.Err? ==> Step(text, i, st) == Err(r.error)
    ensures r.Ok? ==> Step(text, i, st) == Ok((r.value.0, Push(st, r.value.1)))
  {
    var c := text[i];
    if c == 't' {
      if !StartsWithAt(text, i, "true") {
        return Err(InvalidTrue);
      }
      return Ok((i + 4, RBool(true)));
    } else if c == 'f' {
      if !StartsWithAt(text, i, "false") {
        return Err(InvalidFalse);
      }
      return Ok((i + 5, RBool(false)));
    } else if c == 'n' {
      if !StartsWithAt(text, i, "null") {
        return Err(InvalidNull);
      }
      return Ok((i + 4, Sentinel));
    } else if c == '"' {
      var scanned := ScanString(text, i + 1);
      if scanned.Err? {
        return Err(scanned.error);
      }
      return Ok((scanned.value.0 + 1, RStr(scanned.value.1)));
    } else {
      var end := i;
      while end < |text| && IsNumberChar(text[end])
        invariant i <= end <= |text|
        invariant NumberRunEnd(text, i) == NumberRunEnd(text, end)
        decreases |text| - end
      {
        end := end + 1;
      }
      var parts := ParseNumber(text[i..end]);
      if parts.Err? {
        return Err(parts.error);
      }
      return Ok((end, RNum(parts.value)));
    }
  }

  /**
    * One turn of the main loop at character i: the index the loop goes on
    * from, the deque, the size stack in use and its top index.
    */
  method StepAt(text: string, i: nat, values: seq<Raw>, sizeStack: array<int>, sizePtr: int)
    returns (r: Result<(nat, seq<Raw>, array<int>, int), ReadError>)
    requires i < |text| && 1 <= sizeStack.Length && sizePtr < sizeStack.Length
    modifies sizeStack
    ensures r.Err? ==> Step(text, i, State(values, old(sizeStack[..]), sizePtr)) == Err(r.error)
    ensures r.Ok? ==> r.value.2 == sizeStack || fresh(r.value.2)
    ensures r.Ok? ==> Step(text, i, State(values, old(sizeStack[..]), sizePtr))
                      == Ok((r.value.0, State(r.value.1, r.value.2[..], r.value.3)))
  {
    var c := text[i];
    ghost var st := State(values, sizeStack[..], sizePtr);
    if c == '\n' || c == ' ' || c == '\t' || c == '\r' {
      return Ok((i + 1, values, sizeStack, sizePtr));
    } else if StartsValue(c) {
      var scanned := ScanValue(text, i, st);
      if scanned.Err? {
        return Err(scanned.error);
      }
      BumpTop(sizeStack, sizePtr);
      return Ok((scanned.value.0, values + [scanned.value.1], sizeStack, sizePtr));
    } else if c == '{' || c == '[' {
      var m := if c == '{' then ObjectMarker else ArrayMarker;
      var frame := OpenFrame(values, sizeStack, sizePtr, m);
      if frame.Err? {
        return Err(frame.error);
      }
      return Ok((i + 1, values + [RMark(m)], frame.value.0, frame.value.1));
    } else if c == '}' {
      var closed := CloseObjectFrame(values, sizeStack, sizePtr);
      if closed.Err? {
        return Err(closed.error);
      }
      return Ok((i + 1, closed.value.0, sizeStack, closed.value.1));
    } else if c == ']' {
      var closed := CloseArrayFrame(values, sizeStack, sizePtr);
      if closed.Err? {
        return Err(closed.error);
      }
      return Ok((i + 1, closed.value.0, sizeStack, closed.value.1));
    } else if c == ':' {
      if sizePtr < 0 || sizeStack[sizePtr] != -1 || !(|values| > 0 && Last(values).RStr?) {
        return Err(UnexpectedColon);
      }
      return Ok((i + 1, values + [RMark(ColonMarker)], sizeStack, sizePtr));
    } else if c == ',' {
      if sizePtr < 0 || (|values| > 0 && Last(values).RMark?) {
        return Err(UnexpectedComma);
      }
      return Ok((i + 1, values + [RMark(CommaMarker)], sizeStack, sizePtr));
    } else {
      return Err(UnexpectedChar);
    }
  }

  /**
    * JsonParserString.parse: blank text is null; otherwise the main loop
    * runs to the end of the text and exactly one value must be left.
    */
  method Parse(text: string) returns (r: Result<Raw, ReadError>)
    ensures r == Read(text)
  {
    if IsBlank(text) {
      return Ok(RNull);
    }
    var values: seq<Raw> := [];
    var sizeStack := new int[INITIAL_CAPACITY](_ => 0);
    var sizePtr := -1;
    assert sizeStack[..] == Init().sizes;
    var i: nat := 0;
    while i < |text|
      invariant fresh(sizeStack)
      invariant 1 <= sizeStack.Length && sizePtr < sizeStack.Length
      invariant Run(text, 0, Init()) == Run(text, i, State(values, sizeStack[..], sizePtr))
      decreases |text| - i
    {
      var step := StepAt(text, i, values, sizeStack, sizePtr);
      if step.Err? {
        return Err(step.error);
      }
      i, values, sizeStack, sizePtr := step.value.0, step.value.1, step.value.2, step.value.3;
    }
    if |values| != 1 {
      return Err(Unbalanced);
    }
    return Ok(Unsentinel(values[0]));
  }
}
