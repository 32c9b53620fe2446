/**
  * What the reader hands on. JsonParserString.parse only checks that one
  * entry is left on its deque, so an unfinished text can return a marker
  * (input "[" returns the ARRAY marker itself); the corrected reading turns
  * such a result into the "Unbalanced" failure. A finished value becomes a
  * Json value, every number a Double of the value its digits denote.
  */
module ReadValue {
  import opened Wrappers
  import opened JavaText
  import opened JsonValues
  import opened ReaderErrors
  import opened JsonNumber
  import opened JsonReader

  /** Neither a marker nor the NULL sentinel anywhere inside v. */
  predicate Complete(v: Raw)
  {
    match v
    case Sentinel => false
    case RMark(_) => false
    case RList(items) => forall k | 0 <= k < |items| :: Complete(items[k])
    case RMap(entries) => forall k | 0 <= k < |entries| :: Complete(entries[k].1)
    case _ => true
  }

  /** parse("[") as written: the loop ends with the ARRAY marker as the one entry, and that is the result. */
  lemma ReadLeavesMarker()
    ensures Read("[") == Ok(RMark(ArrayMarker))
    ensures !Complete(Read("[").value)
  {
    var st := Init();
    assert !IsJavaWhitespace("["[0]);
    assert !IsBlank("[");
    var frame := State([RMark(ArrayMarker)], st.sizes[0 := 0], 0);
    assert |st.sizes| == INITIAL_CAPACITY;
    assert st.values + [RMark(ArrayMarker)] == [RMark(ArrayMarker)];
    assert Open(st, ArrayMarker) == Ok(frame);
    assert Step("[", 0, st) == Ok((1, frame));
    assert Run("[", 1, frame) == Ok(frame);
    assert Run("[", 0, st) == Ok(frame);
  }

  /** The corrected reading: a result that still holds a marker is unbalanced. */
  function ReadComplete(text: string): (r: Result<Raw, ReadError>)
    ensures r.Ok? ==> Complete(r.value) && Read(text) == r
    ensures Read(text).Err? ==> r == Read(text)
    ensures Read(text).Ok? && !Complete(Read(text).value) ==> r == Err(Unbalanced)
  {
    match Read(text)
    case Err(e) => Err(e)
    case Ok(v) => if Complete(v) then Ok(v) else Err(Unbalanced)
  }

  /** The corrected reading rejects the unfinished text "[" that the written one accepts. */
  lemma ReadCompleteRejectsMarker()
    ensures ReadComplete("[") == Err(Unbalanced)
  {
    ReadLeavesMarker();
  }

  /** The Json value of a finished reader value: null, booleans and strings as they are, numbers as Doubles. */
  function ToJson(v: Raw): (j: Json)
    requires Complete(v)
    decreases v, 1
  {
    match v
    case RNull => Null
    case RBool(b) => Bool(b)
    case RNum(p) => Num(PartsValue(p), Double)
    case RStr(s) => Str(s)
    case RList(items) => Arr(ToJsonItems(items))
    case RMap(entries) => Obj(ToJsonEntries(v, 0))
    case Sentinel => Null
    case RMark(_) => Null
  }

  function ToJsonItems(items: seq<Raw>): (r: seq<Json>)
    requires forall k | 0 <= k < |items| :: Complete(items[k])
    decreases items, 0
  {
    if items == [] then [] else [ToJson(items[0])] + ToJsonItems(items[1..])
  }

  /** The entries of the map m from position i on. */
  function ToJsonEntries(m: Raw, i: nat): (r: seq<(string, Json)>)
    requires m.RMap? && i <= |m.entries| && Complete(m)
    decreases m, 0, |m.entries| - i
  {
    if i == |m.entries| then [] else [(m.entries[i].0, ToJson(m.entries[i].1))] + ToJsonEntries(m, i + 1)
  }

  /** Every number of a Json value is a Double. */
  predicate AllDouble(j: Json)
  {
    match j
    case Num(_, kind) => kind == Double
    case Arr(items) => forall k | 0 <= k < |items| :: AllDouble(items[k])
    case Obj(entries) => forall k | 0 <= k < |entries| :: AllDouble(entries[k].1)
    case _ => true
  }

  /**
    * The conversion keeps the shape: a list keeps its length and order, a
    * map its keys in order, element by element converted; every number
    * comes out a Double.
    */
  lemma {:induction false} ToJsonShape(v: Raw)
    requires Complete(v)
    ensures AllDouble(ToJson(v))
    ensures v.RList? ==> |ToJson(v).items| == |v.items| &&
                         forall k | 0 <= k < |v.items| :: ToJson(v).items[k] == ToJson(v.items[k])
    ensures v.RMap? ==> |ToJson(v).entries| == |v.entries| &&
                        forall k | 0 <= k < |v.entries| :: ToJson(v).entries[k] == (v.entries[k].0, ToJson(v.entries[k].1))
    decreases v, 1
  {
    match v
    case RList(items) => ItemsShape(items);
    case RMap(entries) =>
      EntriesShape(v, 0);
      forall k | 0 <= k < |entries|
        ensures ToJson(v).entries[k] == (entries[k].0, ToJson(entries[k].1)) && AllDouble(ToJson(entries[k].1))
      {
        assert ToJson(v).entries[k] == ToJsonEntries(v, 0)[k - 0];
      }
    case _ =>
  }

  lemma {:induction false} ItemsShape(items: seq<Raw>)
    requires forall k | 0 <= k < |items| :: Complete(items[k])
    ensures |ToJsonItems(items)| == |items|
    ensures forall k | 0 <= k < |items| :: ToJsonItems(items)[k] == ToJson(items[k]) && AllDouble(ToJson(items[k]))
    decreases items, 0
  {
    if items != [] {
      ToJsonShape(items[0]);
      ItemsShape(items[1..]);
      forall k | 1 <= k < |items|
        ensures ToJsonItems(items)[k] == ToJson(items[k]) && AllDouble(ToJson(items[k]))
      {
        assert items[1..][k - 1] == items[k];
      }
    }
  }

  lemma {:induction false} EntriesShape(m: Raw, i: nat)
    requires m.RMap? && i <= |m.entries| && Complete(m)
    ensures |ToJsonEntries(m, i)| == |m.entries| - i
    ensures forall k | i <= k < |m.entries| ::
              ToJsonEntries(m, i)[k - i] == (m.entries[k].0, ToJson(m.entries[k].1)) && AllDouble(ToJson(m.entries[k].1))
    decreases m, 0, |m.entries| - i
  {
    if i < |m.entries| {
      ToJsonShape(m.entries[i].1);
      EntriesShape(m, i + 1);
    }
  }
}
