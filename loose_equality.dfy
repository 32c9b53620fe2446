/**
  * The JavaScript-style loose equality of JSON.equalityValue and
  * EqualityExpression.equalityValue (the two are the same matrix) and the
  * pairwise list comparison JSON.equals.
  */
module LooseEquality {
  import opened Wrappers
  import opened JavaText
  import opened JsonValues

  /** compareNumberToString: a blank string counts as 0, an unparsable one equals nothing. */
  predicate NumberEqualsString(parse: DoubleParser, l: real, r: string)
  {
    if TrimIsEmpty(r) then l == 0.0
    else match parse(r)
      case Some(x) => x == l
      case None => false
  }

  /** compareNumberToBoolean: true matches 1 and false matches 0. */
  predicate NumberEqualsBoolean(l: real, r: bool)
  {
    if r then l == 1.0 else l == 0.0
  }

  /** compareStringToBoolean: the string's truthiness against the boolean. */
  predicate StringEqualsBoolean(l: string, r: bool)
  {
    Truthy(Str(l)) == r
  }

  /**
    * equalityValue(left, right). The reference test `left == right` is read
    * as equality of values; lists compare pairwise in order (JSON.equals);
    * every other pairing is equal exactly when both sides are falsy.
    */
  predicate LooseEquals(parse: DoubleParser, left: Json, right: Json)
    decreases left
  {
    if left == right then true
    else if left == Null || right == Null then false
    else match (left, right)
      case (Num(l, _), Num(r, _)) => l == r
      case (Num(l, _), Str(r)) => NumberEqualsString(parse, l, r)
      case (Num(l, _), Bool(r)) => NumberEqualsBoolean(l, r)
      case (Str(l), Str(r)) => l == r
      case (Str(l), Num(r, _)) => NumberEqualsString(parse, r, l)
      case (Str(l), Bool(r)) => StringEqualsBoolean(l, r)
      case (Bool(l), Bool(r)) => l == r
      case (Bool(l), Num(r, _)) => NumberEqualsBoolean(r, l)
      case (Bool(l), Str(r)) => StringEqualsBoolean(r, l)
      case (Arr(l), Arr(r)) =>
        |l| == |r| && forall i | 0 <= i < |l| :: LooseEquals(parse, l[i], r[i])
      case _ => !Truthy(left) && !Truthy(right)
  }

  /** equalityValue does not depend on the order of its arguments. */
  lemma {:induction false} LooseEqualsSymmetric(parse: DoubleParser, a: Json, b: Json)
    ensures LooseEquals(parse, a, b) == LooseEquals(parse, b, a)
    decreases a
  {
    if a != b && a != Null && b != Null && a.Arr? && b.Arr? && |a.items| == |b.items| {
      forall i | 0 <= i < |a.items|
        ensures LooseEquals(parse, a.items[i], b.items[i]) == LooseEquals(parse, b.items[i], a.items[i])
      {
        LooseEqualsSymmetric(parse, a.items[i], b.items[i]);
      }
    }
  }

  /** Null equals only null. */
  lemma NullEqualsOnlyNull(parse: DoubleParser, v: Json)
    ensures LooseEquals(parse, Null, v) <==> v == Null
    ensures LooseEquals(parse, v, Null) <==> v == Null
  {
  }

  /** The number/string pairings: a blank string is 0, otherwise the parsed value decides. */
  lemma NumberAgainstString(parse: DoubleParser, n: real, k: NumKind, s: string)
    ensures LooseEquals(parse, Num(n, k), Str(s)) == LooseEquals(parse, Str(s), Num(n, k))
    ensures TrimIsEmpty(s) ==> (LooseEquals(parse, Num(n, k), Str(s)) <==> n == 0.0)
    ensures !TrimIsEmpty(s) && parse(s) == None ==> !LooseEquals(parse, Num(n, k), Str(s))
    ensures !TrimIsEmpty(s) && parse(s).Some? ==> (LooseEquals(parse, Num(n, k), Str(s)) <==> parse(s).value == n)
  {
  }

  /** The number/boolean pairings: true is 1 and false is 0, in both orders. */
  lemma NumberAgainstBoolean(parse: DoubleParser, n: real, k: NumKind, b: bool)
    ensures LooseEquals(parse, Num(n, k), Bool(b)) <==> n == (if b then 1.0 else 0.0)
    ensures LooseEquals(parse, Bool(b), Num(n, k)) <==> n == (if b then 1.0 else 0.0)
  {
  }

  /** Numbers compare by value whatever their box; "1" and 1 are loosely equal. */
  lemma NumbersByValue(parse: DoubleParser, a: real, ka: NumKind, b: real, kb: NumKind)
    ensures LooseEquals(parse, Num(a, ka), Num(b, kb)) <==> a == b
  {
  }

  /** Two lists are equal iff they have the same length and are pairwise equal. */
  lemma ListsPairwise(parse: DoubleParser, l: seq<Json>, r: seq<Json>)
    ensures LooseEquals(parse, Arr(l), Arr(r))
        <==> |l| == |r| && forall i | 0 <= i < |l| :: LooseEquals(parse, l[i], r[i])
  {
    if l == r {
      forall i | 0 <= i < |l| ensures LooseEquals(parse, l[i], r[i]) { }
    }
  }

  /** Two maps are equal only when they are the same value (a map is never falsy). */
  lemma MapsOnlyEqualThemselves(parse: DoubleParser, a: Json, b: Json)
    requires a.Obj? && a != b
    ensures !LooseEquals(parse, a, b) && !LooseEquals(parse, b, a)
  {
  }

  /** Normalising a number's box changes no loose comparison. */
  lemma TransformKeepsLooseEquality(parse: DoubleParser, a: Json, b: Json)
    ensures LooseEquals(parse, Transform(a), b) == LooseEquals(parse, a, b)
  {
  }

  /**
    * JSON.equals(a, b): the same list, or the same size and, walking b with
    * a counter, every b[i] loosely equal to a[i].
    */
  method ListEquals(parse: DoubleParser, a: seq<Json>, b: seq<Json>) returns (r: bool)
    ensures r == LooseEquals(parse, Arr(b), Arr(a))
  {
    if a == b {
      ListsPairwise(parse, b, a);
      return true;
    }
    if |a| != |b| {
      return false;
    }
    var i := 0;
    while i < |b|
      invariant 0 <= i <= |b|
      invariant forall k | 0 <= k < i :: LooseEquals(parse, b[k], a[k])
    {
      var itemB := b[i];
      var itemA := a[i];
      if !LooseEquals(parse, itemB, itemA) {
        return false;
      }
      i := i + 1;
    }
    return true;
  }
}
