/**
  * JsonPath.evaluate: the alternative `var` resolver over PathSegment
  * error paths. Unlike the evaluator it returns what it finds without
  * turning numbers into doubles, keeps a null key's data even when the
  * data is null, and refuses to step into a scalar.
  */
module JsonPathResolver {
  import opened Wrappers
  import opened JavaText
  import opened JsonValues
  import opened PathSegment
  import opened ValueOps
  import VarPath
  import LogicAst

  datatype Lookup = Found(value: Json) | Missing

  datatype ResolveError =
      /** JsonLogicEvaluationException around Integer.parseInt(segment). */
    | NumberFormatAt(input: string, at: Segment)
      /** "Variable type <class> unsupported": a step into a non-container. */
    | Unsupported(value: Json, at: Segment)
      /** "var first argument must be null, number, or string". */
    | BadKey(at: Segment)

  /**
    * The loop over the segments: a null or MISSING current value is
    * returned as it is; a list needs an int segment in range, a map the key.
    */
  function Walk(keys: seq<string>, result: Json, at: Segment): Result<Lookup, ResolveError>
    decreases |keys|
  {
    if keys == [] then Ok(Found(result))
    else if result == Null then Ok(Found(Null))
    else
      match result
      case Arr(items) =>
        (match ParseInt(keys[0])
         case None => Err(NumberFormatAt(keys[0], at))
         case Some(index) =>
           if index < 0 || index >= |items| then Ok(Missing) else Walk(keys[1..], items[index], at))
      case Obj(entries) =>
        if !HasKey(entries, keys[0]) then Ok(Missing) else Walk(keys[1..], Get(entries, keys[0]), at)
      case _ => Err(Unsupported(result, at))
  }

  /** JsonPath.evaluate(keyParam, path, data). */
  function Resolve(key: Json, path: Segment, data: Json): Result<Lookup, ResolveError>
  {
    var p := Sub(path, "var");
    if key == Null then Ok(Found(data))
    else if data == Null then Ok(Missing)
    else if key.Num? then
      var index := IntValue(key);
      if index < 0 || !data.Arr? then Ok(Missing)
      else if index < |data.items| then Ok(Found(data.items[index]))
      else Ok(Missing)
    else if key.Str? then
      if key.s == "" then Ok(Found(data)) else Walk(JavaSplitDots(key.s), data, SubIndex(p, 0))
    else Err(BadKey(SubIndex(p, 0)))
  }

  /** The method as written: `result` and the path are reassigned as the loop goes. */
  method ResolveLoop(key: Json, path: Segment, data: Json) returns (r: Result<Lookup, ResolveError>)
    ensures r == Resolve(key, path, data)
  {
    var p := Sub(path, "var");
    if key == Null {
      return Ok(Found(data));
    }
    if data == Null {
      return Ok(Missing);
    }
    if key.Num? {
      var index := IntValue(key);
      if index < 0 || !data.Arr? {
        return Ok(Missing);
      }
      return if index < |data.items| then Ok(Found(data.items[index])) else Ok(Missing);
    }
    if key.Str? {
      if key.s == "" {
        return Ok(Found(data));
      }
      var keys := JavaSplitDots(key.s);
      var result := data;
      p := SubIndex(p, 0);
      var i := 0;
      while i < |keys|
        invariant 0 <= i <= |keys|
        invariant Walk(keys[i..], result, p) == Resolve(key, path, data)
      {
        assert keys[i..][0] == keys[i] && keys[i..][1..] == keys[i + 1..];
        if result == Null {
          return Ok(Found(Null));
        }
        if result.Arr? {
          var index := ParseInt(keys[i]);
          if index.None? {
            return Err(NumberFormatAt(keys[i], p));
          }
          if index.value < 0 || index.value >= |result.items| {
            return Ok(Missing);
          }
          result := result.items[index.value];
        } else if result.Obj? {
          if !HasKey(result.entries, keys[i]) {
            return Ok(Missing);
          }
          result := Get(result.entries, keys[i]);
        } else {
          return Err(Unsupported(result, p));
        }
        i := i + 1;
      }
      assert keys[i..] == [];
      return Ok(Found(result));
    }
    return Err(BadKey(SubIndex(p, 0)));
  }

  /** A null key gives back the data as it is, even null data. */
  lemma NullKeyIsIdentity(path: Segment, data: Json)
    ensures Resolve(Null, path, data) == Ok(Found(data))
  {
  }

  /** Any other key over null data is MISSING. */
  lemma NullDataIsMissing(key: Json, path: Segment)
    requires key != Null
    ensures Resolve(key, path, Null) == Ok(Missing)
  {
  }

  /** A numeric key reads a list element, untouched; anything else is MISSING. */
  lemma NumericKey(key: Json, path: Segment, data: Json)
    requires key.Num? && data != Null
    ensures var i := IntValue(key);
            Resolve(key, path, data) ==
              if data.Arr? && 0 <= i < |data.items| then Ok(Found(data.items[i])) else Ok(Missing)
  {
  }

  /** Found values keep their integral box: {a: 1} at "a" is 1, not 1.0 as the evaluator's var gives. */
  lemma NoNormalisation(path: Segment)
    ensures Resolve(Str("a"), path, Obj([("a", Num(1.0, Integral))])) == Ok(Found(Num(1.0, Integral)))
    ensures VarPath.Walk(["a"], Obj([("a", Num(1.0, Integral))]), []) == Ok(VarPath.Found(Num(1.0, Double)))
  {
    var data := Obj([("a", Num(1.0, Integral))]);
    assert Keys(data.entries) == ["a"];
    assert JavaSplitDots("a") == ["a"];
    assert ["a"][1..] == [];
  }

  /**
    * The two walks agree step for step. The evaluator's walk, started on
    * the normalised data (never null at its start), fails exactly where
    * this one meets a bad list index, reports MISSING exactly when this one
    * does, finds the normalised form of what this one finds, and gives
    * null where this one refuses a scalar.
    */
  lemma {:induction false} WalksAgree(keys: seq<string>, data: Json, at: Segment, ep: LogicAst.Path)
    requires data != Null || keys == []
    ensures var mine := Walk(keys, data, at);
            var theirs := VarPath.Walk(keys, Transform(data), ep);
            (theirs.Err? <==> mine.Err? && mine.error.NumberFormatAt?) &&
            (theirs == Ok(VarPath.Missing) <==> mine == Ok(Missing)) &&
            (mine.Ok? && mine.value.Found? ==> theirs == Ok(VarPath.Found(Transform(mine.value.value)))) &&
            (mine.Err? && mine.error.Unsupported? ==> theirs == Ok(VarPath.Found(Null)))
    decreases |keys|
  {
    if keys != [] && data != Null && (data.Arr? || data.Obj?) {
      var next :=
        if data.Arr? then
          if ParseInt(keys[0]).Some? && 0 <= ParseInt(keys[0]).value < |data.items| then
            Some(data.items[ParseInt(keys[0]).value])
          else None
        else if HasKey(data.entries, keys[0]) then Some(Get(data.entries, keys[0]))
        else None;
      if next.Some? {
        if next.value == Null {
          assert Walk(keys[1..], next.value, at) == Ok(Found(Null));
        } else {
          WalksAgree(keys[1..], next.value, at, ep);
        }
      }
    }
  }

  /** With a string key, both resolvers walk the same segments, so the agreement carries over. */
  lemma ResolveAgreesWithEvaluatorWalk(name: string, path: Segment, data: Json, ep: LogicAst.Path)
    requires name != "" && data != Null && JavaSplitDots(name) != []
    ensures Resolve(Str(name), path, data) == Walk(JavaSplitDots(name), data, SubIndex(Sub(path, "var"), 0))
    ensures VarPath.Walk(JavaSplitDots(name), data, ep) == VarPath.Walk(JavaSplitDots(name), Transform(data), ep)
  {
  }
}
