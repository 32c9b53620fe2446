/**
  * Java `equals` on canonical values and the strict equality of
  * JsonLogic.strictEquality / StrictEqualityExpression: numbers compare by
  * value, everything else by reference or `equals`, with no coercion.
  */
module StrictEquality {
  import opened JsonValues
  import LooseEquality

  /**
    * Object.equals as the boxed classes, List and Map implement it: a
    * Double never equals an integral box, lists compare element-wise in
    * order, maps compare key by key whatever their order.
    */
  predicate JavaEquals(a: Json, b: Json)
    decreases a
  {
    match (a, b)
    case (Null, Null) => true
    case (Bool(x), Bool(y)) => x == y
    case (Num(x, kx), Num(y, ky)) => x == y && kx == ky
    case (Str(x), Str(y)) => x == y
    case (Arr(x), Arr(y)) =>
      |x| == |y| && forall i | 0 <= i < |x| :: JavaEquals(x[i], y[i])
    case (Obj(x), Obj(y)) =>
      |x| == |y| && forall i | 0 <= i < |x| :: HasKey(y, x[i].0) && JavaEquals(x[i].1, Get(y, x[i].0))
    case _ => false
  }

  /** `===`: two numbers by value; otherwise the same reference, or a non-null left side that equals the right. */
  predicate StrictEquals(left: Json, right: Json)
  {
    if left.Num? && right.Num? then left.n == right.n
    else left == right || (left != Null && JavaEquals(left, right))
  }

  /** No coercion across types: a number never strictly equals a string, a boolean or null. */
  lemma StrictNoCoercion(n: real, k: NumKind, v: Json)
    requires v.Str? || v.Bool? || v.Null?
    ensures !StrictEquals(Num(n, k), v) && !StrictEquals(v, Num(n, k))
  {
  }

  /** Numbers are strictly equal exactly when their values are, whatever their boxes. */
  lemma StrictNumbersByValue(a: real, ka: NumKind, b: real, kb: NumKind)
    ensures StrictEquals(Num(a, ka), Num(b, kb)) <==> a == b
  {
  }

  /** Null is strictly equal to null only. */
  lemma StrictNull(v: Json)
    ensures StrictEquals(Null, v) <==> v == Null
    ensures StrictEquals(v, Null) <==> v == Null
  {
  }

  /** A value without maps that is `equals` to another is also loosely equal to it. */
  lemma {:induction false} JavaEqualsImpliesLoose(parse: DoubleParser, a: Json, b: Json)
    requires !HasMap(a) && JavaEquals(a, b)
    ensures LooseEquality.LooseEquals(parse, a, b)
    decreases a
  {
    if a.Arr? && a != b {
      forall i | 0 <= i < |a.items|
        ensures LooseEquality.LooseEquals(parse, a.items[i], b.items[i])
      {
        JavaEqualsImpliesLoose(parse, a.items[i], b.items[i]);
      }
    }
  }

  /** Strict equality implies loose equality for values without maps. */
  lemma StrictImpliesLoose(parse: DoubleParser, a: Json, b: Json)
    requires !HasMap(a) && StrictEquals(a, b)
    ensures LooseEquality.LooseEquals(parse, a, b)
  {
    if !(a.Num? && b.Num?) && a != b {
      JavaEqualsImpliesLoose(parse, a, b);
    }
  }

  /**
    * Maps escape that rule: two maps holding the same entries in different
    * orders are `equals`, hence strictly equal, but two distinct maps are
    * never loosely equal.
    */
  lemma StrictButNotLooseForReorderedMaps(parse: DoubleParser)
    ensures var m1 := Obj([("a", Null), ("b", Null)]);
            var m2 := Obj([("b", Null), ("a", Null)]);
            StrictEquals(m1, m2) && !LooseEquality.LooseEquals(parse, m1, m2)
  {
    var m1 := Obj([("a", Null), ("b", Null)]);
    var m2 := Obj([("b", Null), ("a", Null)]);
    var e := m2.entries;
    assert HasKey(e, "b") && Get(e, "b") == Null by {
      assert Keys(e)[0] == "b";
    }
    assert HasKey(e, "a") && Get(e, "a") == Null by {
      assert Keys(e)[1] == "a";
      assert e[1..] == [("a", Null)];
    }
    forall i | 0 <= i < 2
      ensures HasKey(e, m1.entries[i].0) && JavaEquals(m1.entries[i].1, Get(e, m1.entries[i].0))
    {
    }
    LooseEquality.MapsOnlyEqualThemselves(parse, m1, m2);
  }
}
