/**
  * The dotted-path walk of `var` in JsonLogicEvaluator: one step per
  * segment (evaluatePartialVariable) and the loop over the segments of
  * evaluateVar, with the MISSING sentinel as a `Missing` lookup.
  */
module VarPath {
  import opened Wrappers
  import opened JavaText
  import opened JsonValues
  import opened LogicAst
  import opened EvalErrors

  /** A lookup that found a value, or the MISSING sentinel. */
  datatype Lookup = Found(value: Json) | Missing

  /**
    * evaluatePartialVariable: a list is indexed by the segment read as an
    * int, a map by the segment as key (numbers come back as doubles),
    * null has nothing, and any other value gives null.
    */
  function PartialStep(key: string, data: Json, at: Path): (r: Result<Lookup, EvalError>)
    ensures r.Err? <==> data.Arr? && ParseInt(key).None?
    ensures r.Err? ==> r.error == NumberFormat(key, at)
    ensures r == Ok(Missing) <==>
              data.Null? || (data.Obj? && !HasKey(data.entries, key)) ||
              (data.Arr? && ParseInt(key).Some? && !(0 <= ParseInt(key).value < |data.items|))
    ensures r.Ok? && r.value.Found? ==> Transform(r.value.value) == r.value.value
  {
    match data
    case Arr(items) =>
      (match ParseInt(key)
       case None => Err(NumberFormat(key, at))
       case Some(index) =>
         if index < 0 || index >= |items| then Ok(Missing) else Ok(Found(Transform(items[index]))))
    case Obj(entries) => if HasKey(entries, key) then Ok(Found(Transform(Get(entries, key)))) else Ok(Missing)
    case Null => Ok(Missing)
    case _ => Ok(Found(Null))
  }

  /**
    * The loop of evaluateVar over the segments: MISSING ends the walk (the
    * caller then evaluates the default), a null ends it with null, and
    * whatever is left after the last segment is the answer.
    */
  function Walk(keys: seq<string>, data: Json, at: Path): Result<Lookup, EvalError>
    decreases |keys|
  {
    if keys == [] then Ok(Found(data))
    else
      match PartialStep(keys[0], data, at)
      case Err(e) => Err(e)
      case Ok(Missing) => Ok(Missing)
      case Ok(Found(v)) => if v == Null then Ok(Found(Null)) else Walk(keys[1..], v, at)
  }

  /** The loop as evaluateVar writes it, reassigning `result` segment by segment. */
  method WalkLoop(keys: seq<string>, data: Json, at: Path) returns (r: Result<Lookup, EvalError>)
    ensures r == Walk(keys, data, at)
  {
    var result := data;
    var i := 0;
    while i < |keys|
      invariant 0 <= i <= |keys|
      invariant Walk(keys[i..], result, at) == Walk(keys, data, at)
    {
      assert keys[i..][0] == keys[i] && keys[i..][1..] == keys[i + 1..];
      var step := PartialStep(keys[i], result, at);
      if step.Err? {
        return Err(step.error);
      }
      if step.value.Missing? {
        return Ok(Missing);
      }
      if step.value.value == Null {
        return Ok(Found(Null));
      }
      result := step.value.value;
      i := i + 1;
    }
    assert keys[i..] == [];
    return Ok(Found(result));
  }

  /** A value the walk finds after at least one segment is already normalised: its numbers are doubles. */
  lemma {:induction false} WalkFoundIsNormalised(keys: seq<string>, data: Json, at: Path)
    requires keys != [] && Walk(keys, data, at).Ok? && Walk(keys, data, at).value.Found?
    ensures Transform(Walk(keys, data, at).value.value) == Walk(keys, data, at).value.value
    decreases |keys|
  {
    var step := PartialStep(keys[0], data, at);
    if step.value.value != Null && keys[1..] != [] {
      WalkFoundIsNormalised(keys[1..], step.value.value, at);
    }
  }

  /**
    * Walking "a.b" is walking "a" and then "b" from what was found, unless
    * the first part already ended the walk (an error, MISSING, or a null
    * met on the way).
    */
  lemma {:induction false} WalkAppend(k1: seq<string>, k2: seq<string>, data: Json, at: Path)
    ensures Walk(k1 + k2, data, at) ==
              match Walk(k1, data, at)
              case Ok(Found(v)) => if v == Null && k1 != [] then Ok(Found(Null)) else Walk(k2, v, at)
              case other => other
    decreases |k1|
  {
    if k1 != [] {
      assert (k1 + k2)[0] == k1[0];
      assert (k1 + k2)[1..] == k1[1..] + k2;
      match PartialStep(k1[0], data, at)
      case Err(_) =>
      case Ok(Missing) =>
      case Ok(Found(v)) =>
        if v != Null {
          WalkAppend(k1[1..], k2, v, at);
        }
    } else {
      assert k1 + k2 == k2;
    }
  }

  /** Stepping through a map key on a map value and then reading the next key. */
  lemma WalkTwoKeys(a: string, b: string, data: Json, at: Path)
    requires data.Obj? && HasKey(data.entries, a)
    requires var inner := Get(data.entries, a); inner.Obj? && HasKey(inner.entries, b)
    ensures Walk([a, b], data, at) == Ok(Found(Transform(Get(Get(data.entries, a).entries, b))))
  {
    assert [a, b][1..] == [b];
    assert [b][1..] == [];
    var inner := Get(data.entries, a);
    assert PartialStep(a, data, at) == Ok(Found(inner));
    var leaf := Transform(Get(inner.entries, b));
    assert PartialStep(b, inner, at) == Ok(Found(leaf));
    assert Walk([b], inner, at) == Ok(Found(leaf));
    assert Walk([a, b], data, at) == Walk([b], inner, at);
  }

  /** A null met on the way ends the walk with null, not the default: a.b.c over {a: {b: null}}. */
  lemma WalkStopsAtNull(at: Path)
    ensures Walk(["a", "b", "c"], Obj([("a", Obj([("b", Null)]))]), at) == Ok(Found(Null))
  {
    var inner := Obj([("b", Null)]);
    var data := Obj([("a", inner)]);
    assert Keys(data.entries) == ["a"];
    assert Keys(inner.entries) == ["b"];
    assert ["a", "b", "c"][1..] == ["b", "c"];
  }

  /** A segment that names nothing gives MISSING, hence the default: a.b.c over {a: {b: {}}}. */
  lemma WalkMissingKey(at: Path)
    ensures Walk(["a", "b", "c"], Obj([("a", Obj([("b", Obj([]))]))]), at) == Ok(Missing)
  {
    var leaf := Obj([]);
    var inner := Obj([("b", leaf)]);
    var data := Obj([("a", inner)]);
    assert Keys(data.entries) == ["a"];
    assert Keys(inner.entries) == ["b"];
    assert ["a", "b", "c"][1..] == ["b", "c"];
    assert ["b", "c"][1..] == ["c"];
  }

  /** Stepping into a value that is neither list, map nor null gives null: a.b over {a: 5}. */
  lemma WalkIntoScalar(at: Path)
    ensures Walk(["a", "b"], Obj([("a", Num(5.0, Integral))]), at) == Ok(Found(Null))
  {
    var data := Obj([("a", Num(5.0, Integral))]);
    assert Keys(data.entries) == ["a"];
    assert ["a", "b"][1..] == ["b"];
  }

  /** A segment that is not an int on a list is a NumberFormatException at the key's path. */
  lemma WalkListNeedsIndex(items: seq<Json>, at: Path)
    ensures Walk(["x"], Arr(items), at) == Err(NumberFormat("x", at))
  {
    ParseIntRejectsLetters("x");
  }
}
