/**
  * JsonParserString.parse: one pass over the text as a stack machine. The
  * deque `values` holds finished values and the markers OBJECT, ARRAY,
  * COMMA and COLON; `sizeStack` holds one counter per open container
  * (the element count of an array, -1 for an object). Closing brackets
  * reduce the top of the deque into a list or a map.
  *
  * This module states the machine as functions (Step, Run, Read) and
  * proves the imperative reader against them.
  */
module JsonReader {
  import opened Wrappers
  import opened JavaText
  import opened JsonValues
  import opened ReaderErrors
  import opened JsonNumber
  import opened JsonStrings

  datatype Marker = ObjectMarker | ArrayMarker | CommaMarker | ColonMarker

  /**
    * What the deque and the finished containers hold. `Sentinel` is the
    * private NULL object pushed for the literal null; containers and the
    * final result hold `RNull` (Java null) in its place.
    */
  datatype Raw =
    | Sentinel
    | RNull
    | RBool(b: bool)
    | RNum(parts: NumberParts)
    | RStr(s: string)
    | RList(items: seq<Raw>)
    | RMap(entries: seq<(string, Raw)>)
    | RMark(m: Marker)

  /** The deque (top at the end), the size stack with its full capacity, and sizePtr. */
  datatype State = State(values: seq<Raw>, sizes: seq<int>, ptr: int)

  /** sizePtr never reaches the capacity, and the capacity is never zero. */
  predicate Valid(st: State)
  {
    1 <= |st.sizes| && st.ptr < |st.sizes|
  }

  const INITIAL_CAPACITY: nat := 64

  function Init(): (st: State)
    ensures Valid(st) && st.values == [] && st.ptr == -1
  {
    State([], seq(INITIAL_CAPACITY, _ => 0), -1)
  }

  function Last(vals: seq<Raw>): Raw
    requires |vals| > 0
  {
    vals[|vals| - 1]
  }

  function Drop(vals: seq<Raw>): seq<Raw>
    requires |vals| > 0
  {
    vals[..|vals| - 1]
  }

  /** `v == NULL ? null : v` */
  function Unsentinel(v: Raw): (r: Raw)
    ensures r != Sentinel
    ensures v != Sentinel ==> r == v
  {
    if v == Sentinel then RNull else v
  }

  /** `if (sizePtr >= 0 && sizeStack[sizePtr] != -1) sizeStack[sizePtr]++` */
  function Bump(sizes: seq<int>, ptr: int): (r: seq<int>)
    requires ptr < |sizes|
    ensures |r| == |sizes|
    ensures forall k | 0 <= k < |sizes| && k != ptr :: r[k] == sizes[k]
    ensures 0 <= ptr && sizes[ptr] != -1 ==> r[ptr] == sizes[ptr] + 1
    ensures 0 <= ptr && sizes[ptr] == -1 ==> r[ptr] == -1
  {
    if 0 <= ptr && sizes[ptr] != -1 then sizes[ptr := sizes[ptr] + 1] else sizes
  }

  /** values.push(v), then the counter of the enclosing array goes up by one. */
  function Push(st: State, v: Raw): (r: State)
    requires Valid(st)
    ensures Valid(r) && r.values == st.values + [v] && r.ptr == st.ptr
  {
    State(st.values + [v], Bump(st.sizes, st.ptr), st.ptr)
  }

  /** Arrays.copyOf(sizeStack, 2 * length): the old counters, then zeros. */
  function Grow(sizes: seq<int>): (r: seq<int>)
    ensures |r| == 2 * |sizes| && r[..|sizes|] == sizes
    ensures forall k | |sizes| <= k < |r| :: r[k] == 0
  {
    sizes + seq(|sizes|, _ => 0)
  }

  /** '{' or '[': push the marker, move sizePtr up (growing the stack when full), start the counter. */
  function Open(st: State, m: Marker): (r: Result<State, ReadError>)
    requires Valid(st) && (m == ObjectMarker || m == ArrayMarker)
    ensures r.Ok? ==> Valid(r.value) && r.value.ptr == st.ptr + 1 && r.value.values == st.values + [RMark(m)]
    ensures r.Ok? ==> 0 <= r.value.ptr && r.value.sizes[r.value.ptr] == (if m == ObjectMarker then -1 else 0)
    ensures r.Err? <==> st.ptr + 1 < 0
  {
    var ptr := st.ptr + 1;
    var sizes := if ptr == |st.sizes| then Grow(st.sizes) else st.sizes;
    if ptr < 0 then Err(BadStackIndex)
    else Ok(State(st.values + [RMark(m)], sizes[ptr := if m == ObjectMarker then -1 else 0], ptr))
  }

  /**
    * The do-while of '}': with `val` just popped, pop COLON and the key,
    * put the pair, then pop either OBJECT (done) or COMMA and the next value.
    * Returns what is left of the deque and the map.
    */
  function PairLoop(vals: seq<Raw>, val: Raw, entries: seq<(string, Raw)>): (r: Result<(seq<Raw>, seq<(string, Raw)>), ReadError>)
    ensures r.Ok? ==> |r.value.0| < |vals|
    decreases |vals|
  {
    if |vals| == 0 then Err(EmptyStack)
    else if Last(vals) != RMark(ColonMarker) then Err(ExpectedColon)
    else
      var v1 := Drop(vals);
      if |v1| == 0 then Err(EmptyStack)
      else if !Last(v1).RStr? then Err(KeyNotString)
      else
        var entries' := Put(entries, Last(v1).s, Unsentinel(val));
        var v2 := Drop(v1);
        if |v2| == 0 then Err(EmptyStack)
        else if Last(v2) == RMark(ObjectMarker) then Ok((Drop(v2), entries'))
        else if Last(v2) != RMark(CommaMarker) then Err(ExpectedComma)
        else
          var v3 := Drop(v2);
          if |v3| == 0 then Err(EmptyStack)
          else PairLoop(Drop(v3), Last(v3), entries')
  }

  /** '}': sizePtr goes down first; an immediate OBJECT is the empty map. */
  function CloseObject(st: State): (r: Result<State, ReadError>)
    requires Valid(st)
    ensures r.Ok? ==> Valid(r.value) && r.value.ptr == st.ptr - 1 && |r.value.values| <= |st.values|
  {
    var ptr := st.ptr - 1;
    if |st.values| == 0 then Err(EmptyStack)
    else
      var val := Last(st.values);
      var rest := Drop(st.values);
      if val == RMark(ObjectMarker) then
        Ok(State(rest + [RMap([])], Bump(st.sizes, ptr), ptr))
      else match PairLoop(rest, val, [])
        case Err(e) => Err(e)
        case Ok((left, entries)) => Ok(State(left + [RMap(entries)], Bump(st.sizes, ptr), ptr))
  }

  /**
    * The for-loop of ']', j running down from size - 1: pop the element
    * into arr[j] and, while j > 0, the COMMA in front of it. `acc` holds
    * arr[j + 1..]. Returns what is left of the deque and the whole array.
    */
  function ElementsLoop(vals: seq<Raw>, j: int, acc: seq<Raw>): (r: Result<(seq<Raw>, seq<Raw>), ReadError>)
    requires j >= -1
    ensures r.Ok? ==> |r.value.1| == |acc| + j + 1 && |r.value.0| <= |vals|
    decreases j + 1
  {
    if j < 0 then Ok((vals, acc))
    else if |vals| == 0 then Err(EmptyStack)
    else
      var v := Unsentinel(Last(vals));
      var rest := Drop(vals);
      if j > 0 then
        if |rest| == 0 then Err(EmptyStack)
        else if Last(rest) != RMark(CommaMarker) then Err(ExpectedComma)
        else ElementsLoop(Drop(rest), j - 1, [v] + acc)
      else ElementsLoop(rest, j - 1, [v] + acc)
  }

  /** ']': the counter of the frame being closed says how many elements to pop; ARRAY must be beneath them. */
  function CloseArray(st: State): (r: Result<State, ReadError>)
    requires Valid(st)
    ensures r.Ok? ==> Valid(r.value) && r.value.ptr == st.ptr - 1
  {
    if st.ptr < 0 then Err(BadStackIndex)
    else
      var size := st.sizes[st.ptr];
      var ptr := st.ptr - 1;
      if size < 0 then Err(NegativeArraySize)
      else match ElementsLoop(st.values, size - 1, [])
        case Err(e) => Err(e)
        case Ok((left, items)) =>
          if |left| == 0 then Err(EmptyStack)
          else if Last(left) != RMark(ArrayMarker) then Err(ExpectedCloseBracket)
          else Ok(State(Drop(left) + [RList(items)], Bump(st.sizes, ptr), ptr))
  }

  /** ':' is legal only in an open object (counter -1) right after a string. */
  predicate ColonAllowed(st: State)
    requires Valid(st)
  {
    0 <= st.ptr && st.sizes[st.ptr] == -1 && |st.values| > 0 && Last(st.values).RStr?
  }

  /** ',' is illegal at top level and right after a marker; on an empty deque peek gives null, which is allowed. */
  predicate CommaAllowed(st: State)
    requires Valid(st)
  {
    0 <= st.ptr && !(|st.values| > 0 && Last(st.values).RMark?)
  }

  /** The end of the maximal run of number characters starting at i. */
  function NumberRunEnd(text: string, i: nat): (j: nat)
    requires i <= |text|
    ensures i <= j <= |text|
    ensures forall k | i <= k < j :: IsNumberChar(text[k])
    ensures j < |text| ==> !IsNumberChar(text[j])
    decreases |text| - i
  {
    if i < |text| && IsNumberChar(text[i]) then NumberRunEnd(text, i + 1) else i
  }

  /** One iteration of the main loop at character i: the index the loop continues from, and the new state. */
  function Step(text: string, i: nat, st: State): (r: Result<(nat, State), ReadError>)
    requires i < |text| && Valid(st)
    ensures r.Ok? ==> r.value.0 > i && Valid(r.value.1)
  {
    var c := text[i];
    if c == '\n' || c == ' ' || c == '\t' || c == '\r' then Ok((i + 1, st))
    else if c == 't' then
      if StartsWithAt(text, i, "true") then Ok((i + 4, Push(st, RBool(true)))) else Err(InvalidTrue)
    else if c == 'f' then
      if StartsWithAt(text, i, "false") then Ok((i + 5, Push(st, RBool(false)))) else Err(InvalidFalse)
    else if c == 'n' then
      if StartsWithAt(text, i, "null") then Ok((i + 4, Push(st, Sentinel))) else Err(InvalidNull)
    else if c == '"' then
      match ScanStringSpec(text, i + 1)
      case Err(e) => Err(e)
      case Ok((j, s)) => Ok((j + 1, Push(st, RStr(s))))
    else if IsDigit(c) || c == '-' then
      var end := NumberRunEnd(text, i);
      match LexNumber(text[i..end])
      case Err(e) => Err(e)
      case Ok(p) => Ok((end, Push(st, RNum(p))))
    else if c == '{' then
      match Open(st, ObjectMarker)
      case Err(e) => Err(e)
      case Ok(st') => Ok((i + 1, st'))
    else if c == '[' then
      match Open(st, ArrayMarker)
      case Err(e) => Err(e)
      case Ok(st') => Ok((i + 1, st'))
    else if c == '}' then
      match CloseObject(st)
      case Err(e) => Err(e)
      case Ok(st') => Ok((i + 1, st'))
    else if c == ']' then
      match CloseArray(st)
      case Err(e) => Err(e)
      case Ok(st') => Ok((i + 1, st'))
    else if c == ':' then
      if ColonAllowed(st) then Ok((i + 1, st.(values := st.values + [RMark(ColonMarker)]))) else Err(UnexpectedColon)
    else if c == ',' then
      if CommaAllowed(st) then Ok((i + 1, st.(values := st.values + [RMark(CommaMarker)]))) else Err(UnexpectedComma)
    else Err(UnexpectedChar)
  }

  /** The main loop from index i to the end of the text. */
  function Run(text: string, i: nat, st: State): (r: Result<State, ReadError>)
    requires Valid(st)
    ensures r.Ok? ==> Valid(r.value)
    decreases |text| - i
  {
    if i >= |text| then Ok(st)
    else match Step(text, i, st)
      case Err(e) => Err(e)
      case Ok((j, st')) => Run(text, j, st')
  }

  /**
    * parse(json): blank text is null; otherwise the loop runs to the end and
    * exactly one value must be left, which is returned with the sentinel
    * turned back into null.
    */
  function Read(text: string): (r: Result<Raw, ReadError>)
  {
    if IsBlank(text) then Ok(RNull)
    else match Run(text, 0, Init())
      case Err(e) => Err(e)
      case Ok(st) => if |st.values| != 1 then Err(Unbalanced) else Ok(Unsentinel(st.values[0]))
  }

  // ---------------------------------------------------------------------
  // The NULL sentinel never escapes.
  // ---------------------------------------------------------------------

  /** No sentinel anywhere inside v. */
  predicate Clean(v: Raw)
  {
    match v
    case Sentinel => false
    case RList(items) => forall k | 0 <= k < |items| :: Clean(items[k])
    case RMap(entries) => forall k | 0 <= k < |entries| :: Clean(entries[k].1)
    case _ => true
  }

  /** Every value on the deque is the sentinel itself or free of it. */
  predicate StackClean(vals: seq<Raw>)
  {
    forall k | 0 <= k < |vals| :: Clean(Unsentinel(vals[k]))
  }

  predicate EntriesClean(entries: seq<(string, Raw)>)
  {
    forall k | 0 <= k < |entries| :: Clean(entries[k].1)
  }

  lemma {:induction false} PutClean(entries: seq<(string, Raw)>, key: string, v: Raw)
    requires EntriesClean(entries) && Clean(v)
    ensures EntriesClean(Put(entries, key, v))
  {
    if entries != [] && entries[0].0 != key {
      PutClean(entries[1..], key, v);
      var r := Put(entries, key, v);
      assert r == [entries[0]] + Put(entries[1..], key, v);
      forall k | 0 <= k < |r| ensures Clean(r[k].1) {
        if k > 0 { assert r[k] == Put(entries[1..], key, v)[k - 1]; }
      }
    } else if entries != [] {
      var r := Put(entries, key, v);
      forall k | 0 <= k < |r| ensures Clean(r[k].1) {
        if k > 0 { assert r[k] == entries[k]; }
      }
    }
  }

  lemma StackCleanDrop(vals: seq<Raw>)
    requires |vals| > 0 && StackClean(vals)
    ensures StackClean(Drop(vals)) && Clean(Unsentinel(Last(vals)))
  {
  }

  lemma StackCleanPush(vals: seq<Raw>, v: Raw)
    requires StackClean(vals) && Clean(Unsentinel(v))
    ensures StackClean(vals + [v])
  {
  }

  lemma {:induction false} PairLoopClean(vals: seq<Raw>, val: Raw, entries: seq<(string, Raw)>)
    requires StackClean(vals) && Clean(Unsentinel(val)) && EntriesClean(entries)
    ensures PairLoop(vals, val, entries).Ok? ==>
              StackClean(PairLoop(vals, val, entries).value.0) && EntriesClean(PairLoop(vals, val, entries).value.1)
    decreases |vals|
  {
    if |vals| > 0 && Last(vals) == RMark(ColonMarker) {
      var v1 := Drop(vals);
      StackCleanDrop(vals);
      if |v1| > 0 && Last(v1).RStr? {
        PutClean(entries, Last(v1).s, Unsentinel(val));
        var v2 := Drop(v1);
        StackCleanDrop(v1);
        if |v2| > 0 {
          StackCleanDrop(v2);
          var v3 := Drop(v2);
          if Last(v2) == RMark(CommaMarker) && |v3| > 0 {
            StackCleanDrop(v3);
            PairLoopClean(Drop(v3), Last(v3), Put(entries, Last(v1).s, Unsentinel(val)));
          }
        }
      }
    }
  }

  lemma {:induction false} ElementsLoopClean(vals: seq<Raw>, j: int, acc: seq<Raw>)
    requires j >= -1 && StackClean(vals) && forall k | 0 <= k < |acc| :: Clean(acc[k])
    ensures ElementsLoop(vals, j, acc).Ok? ==>
              var (left, items) := ElementsLoop(vals, j, acc).value;
              StackClean(left) && forall k | 0 <= k < |items| :: Clean(items[k])
    decreases j + 1
  {
    if j >= 0 && |vals| > 0 {
      StackCleanDrop(vals);
      var v := Unsentinel(Last(vals));
      var rest := Drop(vals);
      var acc' := [v] + acc;
      assert forall k | 0 <= k < |acc'| :: Clean(acc'[k]) by {
        forall k | 0 <= k < |acc'| ensures Clean(acc'[k]) {
          if k > 0 { assert acc'[k] == acc[k - 1]; }
        }
      }
      if j > 0 {
        if |rest| > 0 {
          StackCleanDrop(rest);
          ElementsLoopClean(Drop(rest), j - 1, acc');
        }
      } else {
        ElementsLoopClean(rest, j - 1, acc');
      }
    }
  }

  lemma CloseObjectClean(st: State)
    requires Valid(st) && StackClean(st.values)
    ensures CloseObject(st).Ok? ==> StackClean(CloseObject(st).value.values)
  {
    if |st.values| > 0 {
      StackCleanDrop(st.values);
      var val := Last(st.values);
      var rest := Drop(st.values);
      if val == RMark(ObjectMarker) {
        StackCleanPush(rest, RMap([]));
      } else {
        PairLoopClean(rest, val, []);
        if PairLoop(rest, val, []).Ok? {
          var (left, entries) := PairLoop(rest, val, []).value;
          StackCleanPush(left, RMap(entries));
        }
      }
    }
  }

  lemma CloseArrayClean(st: State)
    requires Valid(st) && StackClean(st.values)
    ensures CloseArray(st).Ok? ==> StackClean(CloseArray(st).value.values)
  {
    if 0 <= st.ptr && st.sizes[st.ptr] >= 0 {
      ElementsLoopClean(st.values, st.sizes[st.ptr] - 1, []);
      if ElementsLoop(st.values, st.sizes[st.ptr] - 1, []).Ok? {
        var (left, items) := ElementsLoop(st.values, st.sizes[st.ptr] - 1, []).value;
        if |left| > 0 {
          StackCleanDrop(left);
          StackCleanPush(Drop(left), RList(items));
        }
      }
    }
  }

  lemma StepClean(text: string, i: nat, st: State)
    requires i < |text| && Valid(st) && StackClean(st.values)
    ensures Step(text, i, st).Ok? ==> StackClean(Step(text, i, st).value.1.values)
  {
    var c := text[i];
    if c == '}' {
      CloseObjectClean(st);
    } else if c == ']' {
      CloseArrayClean(st);
    } else {
      StepPushesClean(text, i, st);
    }
  }

  /** Every character but '}' and ']' leaves the deque alone or pushes a scalar, a marker or the sentinel. */
  lemma StepPushesClean(text: string, i: nat, st: State)
    requires i < |text| && Valid(st) && StackClean(st.values) && text[i] != '}' && text[i] != ']'
    ensures Step(text, i, st).Ok? ==> StackClean(Step(text, i, st).value.1.values)
  {
    if Step(text, i, st).Ok? {
      var vals := Step(text, i, st).value.1.values;
      if vals != st.values {
        StackCleanPush(st.values, vals[|vals| - 1]);
      }
    }
  }

  lemma {:induction false} RunClean(text: string, i: nat, st: State)
    requires Valid(st) && StackClean(st.values)
    ensures Run(text, i, st).Ok? ==> StackClean(Run(text, i, st).value.values)
    decreases |text| - i
  {
    if i < |text| {
      StepClean(text, i, st);
      if Step(text, i, st).Ok? {
        var (j, st') := Step(text, i, st).value;
        RunClean(text, j, st');
      }
    }
  }

  /** The NULL sentinel never appears in a result, at any depth. */
  lemma ReadClean(text: string)
    ensures Read(text).Ok? ==> Clean(Read(text).value)
  {
    if !IsBlank(text) {
      RunClean(text, 0, Init());
    }
  }

  // ---------------------------------------------------------------------
  // What ']' and '}' reduce.
  // ---------------------------------------------------------------------

  /** The deque segment that the elements of an array leave: the values with a COMMA between each two. */
  function Commaed(items: seq<Raw>): seq<Raw>
  {
    if |items| <= 1 then items
    else Commaed(items[..|items| - 1]) + [RMark(CommaMarker), items[|items| - 1]]
  }

  /** The elements as the array stores them, sentinel turned back into null. */
  function Unsentinels(items: seq<Raw>): (r: seq<Raw>)
    ensures |r| == |items| && forall k | 0 <= k < |items| :: r[k] == Unsentinel(items[k])
  {
    seq(|items|, k requires 0 <= k < |items| => Unsentinel(items[k]))
  }

  /** The element loop over comma-separated values yields them all, in source order. */
  lemma {:induction false} ElementsOfCommaed(prefix: seq<Raw>, items: seq<Raw>, acc: seq<Raw>)
    requires |items| > 0
    ensures ElementsLoop(prefix + Commaed(items), |items| - 1, acc) == Ok((prefix, Unsentinels(items) + acc))
    decreases |items|
  {
    var n := |items|;
    var vals := prefix + Commaed(items);
    var x := items[n - 1];
    if n == 1 {
      assert vals == prefix + [x];
      DropOnce(prefix, x);
      assert Unsentinels(items) == [Unsentinel(x)];
    } else {
      var init := items[..n - 1];
      var below := prefix + Commaed(init);
      assert items == init + [x];
      CommaedSnoc(init, x);
      assert vals == below + [RMark(CommaMarker), x];
      DropTwice(below, RMark(CommaMarker), x);
      ElementsLoopStep(vals, n - 1, acc);
      ElementsOfCommaed(prefix, init, [Unsentinel(x)] + acc);
      UnsentinelsSnoc(init, x, acc);
    }
  }

  lemma DropOnce(below: seq<Raw>, x: Raw)
    ensures Last(below + [x]) == x && Drop(below + [x]) == below
  {
  }

  lemma UnsentinelsSnoc(init: seq<Raw>, x: Raw, acc: seq<Raw>)
    ensures Unsentinels(init) + ([Unsentinel(x)] + acc) == Unsentinels(init + [x]) + acc
  {
    assert Unsentinels(init + [x]) == Unsentinels(init) + [Unsentinel(x)];
  }

  /** One element of the loop when a comma lies beneath it. */
  lemma ElementsLoopStep(vals: seq<Raw>, j: int, acc: seq<Raw>)
    requires j > 0 && |vals| > 1 && Last(Drop(vals)) == RMark(CommaMarker)
    ensures ElementsLoop(vals, j, acc) == ElementsLoop(Drop(Drop(vals)), j - 1, [Unsentinel(Last(vals))] + acc)
  {
  }

  lemma CommaedSnoc(init: seq<Raw>, x: Raw)
    requires |init| > 0
    ensures Commaed(init + [x]) == Commaed(init) + [RMark(CommaMarker), x]
  {
    assert (init + [x])[..|init|] == init;
  }

  lemma DropTwice(below: seq<Raw>, x: Raw, y: Raw)
    ensures Last(below + [x, y]) == y && Drop(below + [x, y]) == below + [x]
    ensures Last(Drop(below + [x, y])) == x && Drop(Drop(below + [x, y])) == below
  {
    assert Drop(below + [x, y]) == below + [x];
  }

  /** Conversely, whatever the element loop accepts is comma-separated values. */
  lemma {:induction false} ElementsLoopShape(vals: seq<Raw>, j: int, acc: seq<Raw>, left: seq<Raw>, items: seq<Raw>)
    requires j >= 0 && ElementsLoop(vals, j, acc) == Ok((left, items))
    ensures exists raws: seq<Raw> :: |raws| == j + 1 && vals == left + Commaed(raws) && items == Unsentinels(raws) + acc
    decreases j
  {
    var x := Last(vals);
    var v := Unsentinel(x);
    if j == 0 {
      var raws := [x];
      assert vals == Drop(vals) + Commaed(raws);
      assert Unsentinels(raws) + acc == [v] + acc;
    } else {
      var below := Drop(Drop(vals));
      assert vals == below + [RMark(CommaMarker), x];
      ElementsLoopStep(vals, j, acc);
      ElementsLoopShape(below, j - 1, [v] + acc, left, items);
      var init: seq<Raw> :| |init| == j && below == left + Commaed(init) && items == Unsentinels(init) + ([v] + acc);
      ShapeSnoc(vals, below, left, init, x, acc, items);
      assert |init + [x]| == j + 1;
    }
  }

  /** One more value on top of comma-separated values, below a COMMA. */
  lemma ShapeSnoc(vals: seq<Raw>, below: seq<Raw>, left: seq<Raw>, init: seq<Raw>, x: Raw, acc: seq<Raw>, items: seq<Raw>)
    requires init != [] && vals == below + [RMark(CommaMarker), x] && below == left + Commaed(init)
    requires items == Unsentinels(init) + ([Unsentinel(x)] + acc)
    ensures vals == left + Commaed(init + [x]) && items == Unsentinels(init + [x]) + acc
  {
    CommaedSnoc(init, x);
    assert vals == (left + Commaed(init)) + [RMark(CommaMarker), x];
    assert Unsentinels(init + [x]) == Unsentinels(init) + [Unsentinel(x)];
  }

  /**
    * ']' over an ARRAY marker followed by exactly as many comma-separated
    * values as the frame counted replaces them with the list of those
    * values in source order.
    */
  lemma CloseArrayReads(st: State, prefix: seq<Raw>, items: seq<Raw>)
    requires Valid(st) && 0 <= st.ptr && st.sizes[st.ptr] == |items|
    requires st.values == prefix + [RMark(ArrayMarker)] + Commaed(items)
    ensures CloseArray(st) == Ok(State(prefix + [RList(Unsentinels(items))], Bump(st.sizes, st.ptr - 1), st.ptr - 1))
  {
    var left := prefix + [RMark(ArrayMarker)];
    DropOnce(prefix, RMark(ArrayMarker));
    if |items| > 0 {
      ElementsOfCommaed(left, items, []);
      assert Unsentinels(items) + [] == Unsentinels(items);
      CloseArrayByElements(st, left, Unsentinels(items));
    } else {
      assert st.values == left;
      CloseArrayByElements(st, left, []);
    }
  }

  /** ']' once the element loop has left an ARRAY marker on top. */
  lemma CloseArrayByElements(st: State, left: seq<Raw>, items: seq<Raw>)
    requires Valid(st) && 0 <= st.ptr && st.sizes[st.ptr] >= 0
    requires ElementsLoop(st.values, st.sizes[st.ptr] - 1, []) == Ok((left, items))
    requires |left| > 0 && Last(left) == RMark(ArrayMarker)
    ensures CloseArray(st) == Ok(State(Drop(left) + [RList(items)], Bump(st.sizes, st.ptr - 1), st.ptr - 1))
  {
  }

  /** Conversely, every successful ']' popped an ARRAY marker and counted, comma-separated values. */
  lemma CloseArrayShape(st: State)
    requires Valid(st) && CloseArray(st).Ok?
    ensures 0 <= st.ptr && st.sizes[st.ptr] >= 0
    ensures exists prefix: seq<Raw>, raws: seq<Raw> :: |raws| == st.sizes[st.ptr]
              && st.values == prefix + [RMark(ArrayMarker)] + Commaed(raws)
              && CloseArray(st).value.values == prefix + [RList(Unsentinels(raws))]
  {
    var size := st.sizes[st.ptr];
    var (left, items) := ElementsLoop(st.values, size - 1, []).value;
    var prefix := Drop(left);
    assert left == prefix + [RMark(ArrayMarker)];
    if size == 0 {
      assert st.values == prefix + [RMark(ArrayMarker)] + Commaed([]);
      assert items == Unsentinels([]);
    } else {
      ElementsLoopShape(st.values, size - 1, [], left, items);
      var raws: seq<Raw> :| |raws| == size && st.values == left + Commaed(raws) && items == Unsentinels(raws) + [];
      assert items == Unsentinels(raws);
    }
  }

  /** The deque segment an object's members leave: "key" COLON value, with a COMMA between members. */
  function Members(pairs: seq<(string, Raw)>): seq<Raw>
  {
    if |pairs| == 0 then []
    else
      var (k, v) := pairs[|pairs| - 1];
      if |pairs| == 1 then [RStr(k), RMark(ColonMarker), v]
      else Members(pairs[..|pairs| - 1]) + [RMark(CommaMarker), RStr(k), RMark(ColonMarker), v]
  }

  /** The map '}' builds: pairs put from the last to the first, each value with the sentinel turned into null. */
  function FromLast(pairs: seq<(string, Raw)>, acc: seq<(string, Raw)>): seq<(string, Raw)>
    decreases |pairs|
  {
    if pairs == [] then acc
    else
      var (k, v) := pairs[|pairs| - 1];
      FromLast(pairs[..|pairs| - 1], Put(acc, k, Unsentinel(v)))
  }

  /** The pair loop over an object's members puts every pair, last member first. */
  lemma {:induction false} PairLoopOfMembers(prefix: seq<Raw>, pairs: seq<(string, Raw)>, acc: seq<(string, Raw)>)
    requires |pairs| > 0
    ensures var vals := prefix + [RMark(ObjectMarker)] + Members(pairs);
            PairLoop(Drop(vals), Last(vals), acc) == Ok((prefix, FromLast(pairs, acc)))
    decreases |pairs|
  {
    var n := |pairs|;
    var (k, v) := pairs[n - 1];
    var init := pairs[..n - 1];
    var acc' := Put(acc, k, Unsentinel(v));
    var below := prefix + [RMark(ObjectMarker)] + Members(init);
    var vals := prefix + [RMark(ObjectMarker)] + Members(pairs);
    if n == 1 {
      assert vals == prefix + [RMark(ObjectMarker), RStr(k), RMark(ColonMarker), v];
      assert Drop(vals) == prefix + [RMark(ObjectMarker), RStr(k), RMark(ColonMarker)];
      assert Drop(Drop(vals)) == prefix + [RMark(ObjectMarker), RStr(k)];
      assert Drop(Drop(Drop(vals))) == prefix + [RMark(ObjectMarker)];
      assert FromLast(pairs, acc) == FromLast([], acc');
    } else {
      assert vals == below + [RMark(CommaMarker), RStr(k), RMark(ColonMarker), v];
      assert Drop(vals) == below + [RMark(CommaMarker), RStr(k), RMark(ColonMarker)];
      assert Drop(Drop(vals)) == below + [RMark(CommaMarker), RStr(k)];
      assert Drop(Drop(Drop(vals))) == below + [RMark(CommaMarker)];
      assert Drop(Drop(Drop(Drop(vals)))) == below;
      assert |Members(init)| > 0;
      PairLoopOfMembers(prefix, init, acc');
    }
  }

  /** '}' over an OBJECT marker followed by members whose values are finished values builds the map FromLast gives. */
  lemma CloseObjectReads(st: State, prefix: seq<Raw>, pairs: seq<(string, Raw)>)
    requires Valid(st) && st.values == prefix + [RMark(ObjectMarker)] + Members(pairs)
    requires forall k | 0 <= k < |pairs| :: !pairs[k].1.RMark?
    ensures CloseObject(st) == Ok(State(prefix + [RMap(FromLast(pairs, []))], Bump(st.sizes, st.ptr - 1), st.ptr - 1))
  {
    var n := |pairs|;
    if n > 0 {
      PairLoopOfMembers(prefix, pairs, []);
      MembersLast(prefix + [RMark(ObjectMarker)], pairs);
      CloseObjectByPairs(st, prefix, FromLast(pairs, []));
    } else {
      assert st.values == prefix + [RMark(ObjectMarker)];
      CloseObjectEmpty(st, prefix);
    }
  }

  lemma MembersLast(prefix: seq<Raw>, pairs: seq<(string, Raw)>)
    requires |pairs| > 0
    ensures |prefix + Members(pairs)| > 0 && Last(prefix + Members(pairs)) == pairs[|pairs| - 1].1
  {
  }

  lemma CloseObjectByPairs(st: State, left: seq<Raw>, entries: seq<(string, Raw)>)
    requires Valid(st) && |st.values| > 0 && Last(st.values) != RMark(ObjectMarker)
    requires PairLoop(Drop(st.values), Last(st.values), []) == Ok((left, entries))
    ensures CloseObject(st) == Ok(State(left + [RMap(entries)], Bump(st.sizes, st.ptr - 1), st.ptr - 1))
  {
  }

  lemma CloseObjectEmpty(st: State, prefix: seq<Raw>)
    requires Valid(st) && st.values == prefix + [RMark(ObjectMarker)]
    ensures CloseObject(st) == Ok(State(prefix + [RMap([])], Bump(st.sizes, st.ptr - 1), st.ptr - 1))
  {
    assert Last(st.values) == RMark(ObjectMarker) && Drop(st.values) == prefix;
  }

  // ---------------------------------------------------------------------
  // The map '}' builds.
  // ---------------------------------------------------------------------

  lemma HasKeySnoc(init: seq<(string, Raw)>, last: (string, Raw), k: string)
    ensures HasKey(init + [last], k) <==> HasKey(init, k) || last.0 == k
  {
    var all := init + [last];
    if HasKey(all, k) {
      var i :| 0 <= i < |all| && Keys(all)[i] == k;
      if i < |init| { assert Keys(init)[i] == k; }
    }
    if HasKey(init, k) {
      var i :| 0 <= i < |init| && Keys(init)[i] == k;
      assert Keys(all)[i] == k;
    }
    if last.0 == k { assert Keys(all)[|init|] == k; }
  }

  /** A new key is appended at the end. */
  lemma {:induction false} PutNew<V>(entries: seq<(string, V)>, k: string, v: V)
    requires !HasKey(entries, k)
    ensures Put(entries, k, v) == entries + [(k, v)]
  {
    if entries != [] {
      assert Keys(entries) == [entries[0].0] + Keys(entries[1..]);
      PutNew(entries[1..], k, v);
    }
  }

  /** The map holds a key exactly when the start map or some member does. */
  lemma {:induction false} FromLastKeys(pairs: seq<(string, Raw)>, acc: seq<(string, Raw)>, k: string)
    ensures HasKey(FromLast(pairs, acc), k) <==> HasKey(acc, k) || HasKey(pairs, k)
    decreases |pairs|
  {
    if pairs != [] {
      var n := |pairs|;
      var (kl, vl) := pairs[n - 1];
      var init := pairs[..n - 1];
      assert pairs == init + [pairs[n - 1]];
      HasKeySnoc(init, pairs[n - 1], k);
      FromLastKeys(init, Put(acc, kl, Unsentinel(vl)), k);
      PutKeys(acc, kl, Unsentinel(vl));
      if HasKey(acc, kl) {
        assert HasKey(Put(acc, kl, Unsentinel(vl)), k) <==> HasKey(acc, k);
      } else {
        assert HasKey(Put(acc, kl, Unsentinel(vl)), k) <==> HasKey(acc, k) || kl == k by {
          assert Keys(Put(acc, kl, Unsentinel(vl))) == Keys(acc) + [kl];
          if kl == k { assert Keys(acc + [(kl, Unsentinel(vl))])[|acc|] == k; }
        }
      }
    }
  }

  /** Members whose keys differ from k leave the value under k alone. */
  lemma {:induction false} FromLastAbsent(pairs: seq<(string, Raw)>, acc: seq<(string, Raw)>, k: string)
    requires !HasKey(pairs, k) && HasKey(acc, k)
    ensures HasKey(FromLast(pairs, acc), k) && Get(FromLast(pairs, acc), k) == Get(acc, k)
    decreases |pairs|
  {
    if pairs != [] {
      var n := |pairs|;
      var (kl, vl) := pairs[n - 1];
      var init := pairs[..n - 1];
      assert pairs == init + [pairs[n - 1]];
      HasKeySnoc(init, pairs[n - 1], k);
      PutOthers(acc, kl, Unsentinel(vl), k);
      FromLastAbsent(init, Put(acc, kl, Unsentinel(vl)), k);
    }
  }

  /** One member, the last one, put first. */
  lemma FromLastSnoc(pairs: seq<(string, Raw)>, acc: seq<(string, Raw)>)
    requires pairs != []
    ensures FromLast(pairs, acc)
         == FromLast(pairs[..|pairs| - 1], Put(acc, pairs[|pairs| - 1].0, Unsentinel(pairs[|pairs| - 1].1)))
  {
  }

  /** The last member's key, when it occurs nowhere earlier, keeps the last member's value. */
  lemma FromLastOnlyAtEnd(pairs: seq<(string, Raw)>, acc: seq<(string, Raw)>)
    requires pairs != [] && !HasKey(pairs[..|pairs| - 1], pairs[|pairs| - 1].0)
    ensures HasKey(FromLast(pairs, acc), pairs[|pairs| - 1].0)
    ensures Get(FromLast(pairs, acc), pairs[|pairs| - 1].0) == Unsentinel(pairs[|pairs| - 1].1)
  {
    var n := |pairs|;
    var acc' := Put(acc, pairs[n - 1].0, Unsentinel(pairs[n - 1].1));
    PutGet(acc, pairs[n - 1].0, Unsentinel(pairs[n - 1].1));
    FromLastSnoc(pairs, acc);
    FromLastAbsent(pairs[..n - 1], acc', pairs[n - 1].0);
  }

  /** For a repeated key the value of its earliest occurrence is the one that remains. */
  lemma {:induction false} FromLastFirstWins(pairs: seq<(string, Raw)>, acc: seq<(string, Raw)>, f: nat)
    requires f < |pairs| && !HasKey(pairs[..f], pairs[f].0)
    ensures HasKey(FromLast(pairs, acc), pairs[f].0)
    ensures Get(FromLast(pairs, acc), pairs[f].0) == Unsentinel(pairs[f].1)
    decreases |pairs|
  {
    var n := |pairs|;
    if f == n - 1 {
      FromLastOnlyAtEnd(pairs, acc);
    } else {
      var init := pairs[..n - 1];
      assert init[..f] == pairs[..f] && init[f] == pairs[f];
      FromLastSnoc(pairs, acc);
      FromLastFirstWins(init, Put(acc, pairs[n - 1].0, Unsentinel(pairs[n - 1].1)), f);
    }
  }

  /** The members from the last to the first, values with the sentinel turned into null. */
  function ReversedPairs(pairs: seq<(string, Raw)>): (r: seq<(string, Raw)>)
    ensures |r| == |pairs|
    ensures forall k | 0 <= k < |pairs| :: r[k] == (pairs[|pairs| - 1 - k].0, Unsentinel(pairs[|pairs| - 1 - k].1))
  {
    if pairs == [] then []
    else [(pairs[|pairs| - 1].0, Unsentinel(pairs[|pairs| - 1].1))] + ReversedPairs(pairs[..|pairs| - 1])
  }

  /** No member's key is already in acc. */
  predicate Disjoint(acc: seq<(string, Raw)>, pairs: seq<(string, Raw)>)
  {
    forall k | 0 <= k < |pairs| :: !HasKey(acc, pairs[k].0)
  }

  /** With distinct keys, nothing is overwritten: the map lists the members in reverse source order. */
  lemma {:induction false} FromLastDistinct(pairs: seq<(string, Raw)>, acc: seq<(string, Raw)>)
    requires UniqueKeys(pairs) && Disjoint(acc, pairs)
    ensures FromLast(pairs, acc) == acc + ReversedPairs(pairs)
    decreases |pairs|
  {
    if pairs == [] {
      assert acc + [] == acc;
    } else {
      var n := |pairs|;
      var last := (pairs[n - 1].0, Unsentinel(pairs[n - 1].1));
      var init := pairs[..n - 1];
      DistinctStep(pairs, acc);
      FromLastDistinct(init, acc + [last]);
      ReversedPairsSnoc(pairs);
      SnocThenRest(acc, last, ReversedPairs(init));
    }
  }

  lemma SnocThenRest(acc: seq<(string, Raw)>, last: (string, Raw), rest: seq<(string, Raw)>)
    ensures (acc + [last]) + rest == acc + ([last] + rest)
  {
  }

  lemma ReversedPairsSnoc(pairs: seq<(string, Raw)>)
    requires pairs != []
    ensures ReversedPairs(pairs) == [(pairs[|pairs| - 1].0, Unsentinel(pairs[|pairs| - 1].1))] + ReversedPairs(pairs[..|pairs| - 1])
  {
  }

  /** Putting the last member of distinct members appends it, and the rest stay distinct and absent. */
  lemma DistinctStep(pairs: seq<(string, Raw)>, acc: seq<(string, Raw)>)
    requires pairs != [] && UniqueKeys(pairs) && Disjoint(acc, pairs)
    ensures var last := (pairs[|pairs| - 1].0, Unsentinel(pairs[|pairs| - 1].1));
            && FromLast(pairs, acc) == FromLast(pairs[..|pairs| - 1], acc + [last])
            && UniqueKeys(pairs[..|pairs| - 1])
            && Disjoint(acc + [last], pairs[..|pairs| - 1])
  {
    var n := |pairs|;
    var last := (pairs[n - 1].0, Unsentinel(pairs[n - 1].1));
    assert !HasKey(acc, pairs[n - 1].0);
    FromLastSnoc(pairs, acc);
    PutNew(acc, last.0, last.1);
    UniqueKeysInit(pairs);
    DisjointSnoc(pairs, acc, last);
  }

  lemma UniqueKeysInit(pairs: seq<(string, Raw)>)
    requires pairs != [] && UniqueKeys(pairs)
    ensures UniqueKeys(pairs[..|pairs| - 1])
  {
    var init := pairs[..|pairs| - 1];
    forall i, j | 0 <= i < j < |init| ensures init[i].0 != init[j].0 {
      assert init[i] == pairs[i] && init[j] == pairs[j];
    }
  }

  lemma DisjointSnoc(pairs: seq<(string, Raw)>, acc: seq<(string, Raw)>, last: (string, Raw))
    requires pairs != [] && UniqueKeys(pairs) && Disjoint(acc, pairs) && last.0 == pairs[|pairs| - 1].0
    ensures Disjoint(acc + [last], pairs[..|pairs| - 1])
  {
    var init := pairs[..|pairs| - 1];
    forall k | 0 <= k < |init| ensures !HasKey(acc + [last], init[k].0) {
      assert init[k] == pairs[k];
      assert !HasKey(acc, pairs[k].0);
      assert pairs[k].0 != pairs[|pairs| - 1].0;
      HasKeySnoc(acc, last, pairs[k].0);
    }
  }
}
