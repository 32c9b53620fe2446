/**
  * The key bookkeeping of MissingExpression: the flattened key set of the
  * data (getFlatKeys), the requested keys without duplicates
  * (LinkedHashSet), the removal of the provided ones (removeAll), and the
  * answer `missing` / `missing_some` give once their arguments are known.
  */
module MissingKeys {
  import opened JavaText
  import opened JsonValues
  import opened StrictEquality
  import opened ValueOps

  /**
    * getFlatKeys(map, prefix) from entry i on: a nested map contributes its
    * own keys under "prefix.key.", any other value the key itself.
    */
  function FlatKeys(m: Json, prefix: string, i: nat): seq<string>
    requires m.Obj? && i <= |m.entries|
    decreases m, |m.entries| - i
  {
    if i == |m.entries| then []
    else
      var (k, v) := m.entries[i];
      assert m.entries[i] in m.entries;
      (if v.Obj? then FlatKeys(v, prefix + k + ".", 0) else [prefix + k]) + FlatKeys(m, prefix, i + 1)
  }

  /** The flattened keys of a map value: getFlatKeys(map). */
  function ProvidedKeys(data: Json): seq<string>
    requires data.Obj?
  {
    FlatKeys(data, "", 0)
  }

  /** Every flattened key names a leaf: it is a top-level key or extends one with a dot. */
  lemma {:induction false} FlatKeysStartWithPrefix(m: Json, prefix: string, i: nat, key: string)
    requires m.Obj? && i <= |m.entries| && key in FlatKeys(m, prefix, i)
    ensures |prefix| <= |key| && key[..|prefix|] == prefix
    decreases m, |m.entries| - i
  {
    var (k, v) := m.entries[i];
    assert m.entries[i] in m.entries;
    var here := if v.Obj? then FlatKeys(v, prefix + k + ".", 0) else [prefix + k];
    assert FlatKeys(m, prefix, i) == here + FlatKeys(m, prefix, i + 1);
    if key in here {
      if v.Obj? {
        FlatKeysStartWithPrefix(v, prefix + k + ".", 0, key);
        assert key[..|prefix|] == (key[..|prefix + k + "."|])[..|prefix|];
      }
    } else {
      FlatKeysStartWithPrefix(m, prefix, i + 1, key);
    }
  }

  /** The example of the getFlatKeys documentation: {a: {b: 1}, c: 2} gives a.b and c. */
  lemma FlatKeysExample()
    ensures ProvidedKeys(Obj([("a", Obj([("b", Num(1.0, Double))])), ("c", Num(2.0, Double))])) == ["a.b", "c"]
  {
    var inner := Obj([("b", Num(1.0, Double))]);
    var m := Obj([("a", inner), ("c", Num(2.0, Double))]);
    assert "" + "a" + "." == "a." && "a." + "b" == "a.b" && "" + "c" == "c";
    assert FlatKeys(inner, "a.", 1) == [];
    assert FlatKeys(inner, "a.", 0) == ["a.b"] + [];
    assert FlatKeys(m, "", 2) == [];
    assert FlatKeys(m, "", 1) == ["c"] + [];
    assert FlatKeys(m, "", 0) == FlatKeys(inner, "a.", 0) + FlatKeys(m, "", 1);
  }

  /** new LinkedHashSet<>(xs) continued from `kept`: the first of each `equals` class, in order. */
  function DistinctFrom(xs: seq<Json>, kept: seq<Json>): seq<Json>
    decreases |xs|
  {
    if xs == [] then kept
    else if Member(xs[0], kept) then DistinctFrom(xs[1..], kept)
    else DistinctFrom(xs[1..], kept + [xs[0]])
  }

  /** Whether an option is one of the provided keys (only strings can be). */
  predicate Provided(provided: seq<string>, v: Json)
  {
    v.Str? && v.s in provided
  }

  /** requiredKeys after removeAll(providedKeys). */
  function Required(options: seq<Json>, provided: seq<string>): seq<Json>
  {
    Unprovided(DistinctFrom(options, []), provided)
  }

  function Unprovided(xs: seq<Json>, provided: seq<string>): (r: seq<Json>)
    ensures |r| <= |xs|
  {
    if xs == [] then []
    else if Provided(provided, xs[0]) then Unprovided(xs[1..], provided)
    else [xs[0]] + Unprovided(xs[1..], provided)
  }

  /** No two entries are `equals` to each other. */
  predicate NoDuplicates(xs: seq<Json>)
  {
    forall i, j | 0 <= i < j < |xs| :: !JavaEquals(xs[j], xs[i])
  }

  lemma {:induction false} DistinctFromSpec(xs: seq<Json>, kept: seq<Json>)
    requires NoDuplicates(kept)
    ensures NoDuplicates(DistinctFrom(xs, kept))
    ensures forall v | v in DistinctFrom(xs, kept) :: v in kept || v in xs
    ensures forall v | v in xs :: v in DistinctFrom(xs, kept) || Member(v, DistinctFrom(xs, kept))
    ensures forall v | v in kept :: v in DistinctFrom(xs, kept)
    decreases |xs|
  {
    if xs != [] {
      var x := xs[0];
      var next := if Member(x, kept) then kept else kept + [x];
      assert NoDuplicates(next) by {
        if !Member(x, kept) {
          forall i, j | 0 <= i < j < |next| ensures !JavaEquals(next[j], next[i]) {
            if j == |kept| {
              assert next[j] == x && next[i] == kept[i];
            } else {
              assert next[j] == kept[j] && next[i] == kept[i];
            }
          }
        }
      }
      DistinctFromSpec(xs[1..], next);
      var r := DistinctFrom(xs, kept);
      assert r == DistinctFrom(xs[1..], next);
      assert x in r || Member(x, r) by {
        if Member(x, kept) {
          var i :| 0 <= i < |kept| && JavaEquals(x, kept[i]);
          assert kept[i] in r;
          var j :| 0 <= j < |r| && r[j] == kept[i];
        } else {
          assert x in next;
        }
      }
      forall v | v in xs ensures v in r || Member(v, r) {
        if v != x {
          assert v in xs[1..];
        }
      }
      forall v | v in kept ensures v in r {
        assert v in next;
      }
      forall v | v in r ensures v in kept || v in xs {
        if v in next && v !in kept {
          assert v == x;
        }
        if v in xs[1..] {
          assert v in xs;
        }
      }
    }
  }

  /** Values that are `equals` agree on whether they are a provided key. */
  lemma ProvidedRespectsEquals(provided: seq<string>, a: Json, b: Json)
    requires JavaEquals(a, b)
    ensures Provided(provided, a) <==> Provided(provided, b)
  {
  }

  lemma {:induction false} UnprovidedSpec(xs: seq<Json>, provided: seq<string>)
    ensures forall v | v in Unprovided(xs, provided) :: v in xs && !Provided(provided, v)
    ensures forall v | v in xs && !Provided(provided, v) :: v in Unprovided(xs, provided)
    ensures NoDuplicates(xs) ==> NoDuplicates(Unprovided(xs, provided))
  {
    if xs != [] {
      UnprovidedSpec(xs[1..], provided);
      var rest := Unprovided(xs[1..], provided);
      forall v | v in xs && !Provided(provided, v) ensures v in Unprovided(xs, provided) {
        if v != xs[0] {
          assert v in xs[1..];
        }
      }
      if NoDuplicates(xs) {
        assert NoDuplicates(xs[1..]) by {
          forall i, j | 0 <= i < j < |xs[1..]| ensures !JavaEquals(xs[1..][j], xs[1..][i]) {
            assert xs[1..][j] == xs[j + 1] && xs[1..][i] == xs[i + 1];
          }
        }
        if !Provided(provided, xs[0]) {
          var r := [xs[0]] + rest;
          forall i, j | 0 <= i < j < |r| ensures !JavaEquals(r[j], r[i]) {
            if i == 0 {
              assert r[j] in rest;
              var k :| 1 <= k < |xs| && xs[k] == r[j];
            }
          }
        }
      }
    }
  }

  /**
    * What `missing` reports against a map: exactly the requested keys that
    * are not provided, each once up to `equals`, and nothing else.
    */
  lemma RequiredSpec(options: seq<Json>, provided: seq<string>)
    ensures forall v | v in Required(options, provided) :: v in options && !Provided(provided, v)
    ensures forall v | v in options && !Provided(provided, v) ::
              v in Required(options, provided) || Member(v, Required(options, provided))
    ensures NoDuplicates(Required(options, provided))
  {
    var d := DistinctFrom(options, []);
    DistinctFromSpec(options, []);
    UnprovidedSpec(d, provided);
    forall v | v in options && !Provided(provided, v)
      ensures v in Required(options, provided) || Member(v, Required(options, provided))
    {
      if v !in d {
        var i :| 0 <= i < |d| && JavaEquals(v, d[i]);
        ProvidedRespectsEquals(provided, v, d[i]);
        assert d[i] in Required(options, provided);
        var j :| 0 <= j < |Required(options, provided)| && Required(options, provided)[j] == d[i];
      }
    }
  }

  /**
    * The requiredKeys set as MissingExpression builds it: each option is
    * added unless an `equals` one is already there, then removeAll drops
    * the provided keys.
    */
  method RequiredKeys(options: seq<Json>, provided: seq<string>) returns (required: seq<Json>)
    ensures required == Required(options, provided)
  {
    var kept: seq<Json> := [];
    var i := 0;
    while i < |options|
      invariant 0 <= i <= |options|
      invariant DistinctFrom(options[i..], kept) == DistinctFrom(options, [])
    {
      assert options[i..][1..] == options[i + 1..];
      if !Member(options[i], kept) {
        kept := kept + [options[i]];
      }
      i := i + 1;
    }
    assert options[i..] == [];
    required := [];
    var j := 0;
    while j < |kept|
      invariant 0 <= j <= |kept|
      invariant required + Unprovided(kept[j..], provided) == Unprovided(kept, provided)
    {
      assert kept[j..][1..] == kept[j + 1..];
      if !Provided(provided, kept[j]) {
        required := required + [kept[j]];
      }
      j := j + 1;
    }
    assert kept[j..] == [];
  }

  /**
    * MissingExpression's answer once `arguments` (the evaluated, unwrapped
    * arguments) and, for missing_some, the required count are known.
    */
  function MissingOutcome(isSome: bool, data: Json, arguments: seq<Json>, someCnt: real): Json
    requires isSome ==> |arguments| >= 2 && arguments[1].Arr?
  {
    if !data.Obj? then
      if isSome then (if DoubleToInt(someCnt) <= 0 then Arr([]) else arguments[1]) else Arr(arguments)
    else
      var options := if isSome then arguments[1].items else arguments;
      var required := Required(options, ProvidedKeys(data));
      if isSome && |options| - |required| >= DoubleToInt(someCnt) then Arr([]) else Arr(required)
  }

  /** `missing` over map data lists exactly the unprovided requested keys, once each. */
  lemma MissingListsUnprovided(data: Json, arguments: seq<Json>)
    requires data.Obj?
    ensures var r := MissingOutcome(false, data, arguments, 0.0);
            r.Arr? && NoDuplicates(r.items) &&
            (forall v | v in r.items :: v in arguments && !Provided(ProvidedKeys(data), v)) &&
            (forall v | v in arguments && !Provided(ProvidedKeys(data), v) :: v in r.items || Member(v, r.items))
  {
    RequiredSpec(arguments, ProvidedKeys(data));
  }

  /**
    * `missing_some` over map data is satisfied (answers []) exactly when
    * enough candidates are provided or none is missing; otherwise it lists
    * the missing ones.
    */
  lemma MissingSomeThreshold(data: Json, arguments: seq<Json>, someCnt: real)
    requires data.Obj? && |arguments| >= 2 && arguments[1].Arr?
    ensures var options := arguments[1].items;
            var required := Required(options, ProvidedKeys(data));
            var r := MissingOutcome(true, data, arguments, someCnt);
            (r == Arr([]) <==> |options| - |required| >= DoubleToInt(someCnt) || required == []) &&
            (r != Arr([]) ==> r == Arr(required))
  {
  }

  /** Over data that is not a map nothing is provided: `missing` returns every requested key. */
  lemma MissingWithoutMap(data: Json, arguments: seq<Json>, someCnt: real)
    requires !data.Obj?
    ensures MissingOutcome(false, data, arguments, someCnt) == Arr(arguments)
    ensures |arguments| >= 2 && arguments[1].Arr? ==>
              MissingOutcome(true, data, arguments, someCnt) ==
                (if DoubleToInt(someCnt) <= 0 then Arr([]) else arguments[1])
  {
  }
}
