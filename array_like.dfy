/**
  * ArrayLike: the list test and the normalisation of list-like host
  * objects into a read-only list.
  */
module ArrayLike {
  import opened Wrappers
  import opened JsonValues

  /** What a host may hand to asList. */
  datatype HostObject =
    | ListObject(items: seq<Json>)         // a java.util.List
    | ArrayObject(elements: seq<Json>)     // a Java array
    | IterableObject(iterated: seq<Json>)  // any other Iterable, in iteration order
    | OtherObject(value: Json)             // a scalar, a map, or null

  const NOT_ARRAY_LIKE := "ArrayLike only works with lists, iterables, arrays, or JsonArray"

  /** isArray: non-null and an Iterable or a Java array. */
  predicate IsArray(h: HostObject)
  {
    h.ListObject? || h.ArrayObject? || h.IterableObject? || (h.OtherObject? && h.value.Arr?)
  }

  /** Every element normalised by transform, in the same order. */
  function Normalised(xs: seq<Json>): (r: seq<Json>)
    ensures |r| == |xs|
    ensures forall i | 0 <= i < |xs| :: r[i] == Transform(xs[i])
  {
    seq(|xs|, i requires 0 <= i < |xs| => Transform(xs[i]))
  }

  /** Normalising twice is normalising once, and no number is left in an integral box. */
  lemma NormalisedIdempotent(xs: seq<Json>)
    ensures Normalised(Normalised(xs)) == Normalised(xs)
    ensures forall i | 0 <= i < |xs| :: Normalised(xs)[i].Num? ==> Normalised(xs)[i].kind == Double
  {
    assert forall i | 0 <= i < |xs| :: Transform(Transform(xs[i])) == Transform(xs[i]);
  }

  /** The result asList promises: the list itself, or a normalised copy, or the IllegalArgumentException. */
  function AsListSpec(h: HostObject): Result<seq<Json>, string>
  {
    match h
    case ListObject(items) => Ok(items)
    case ArrayObject(elements) => Ok(Normalised(elements))
    case IterableObject(iterated) => Ok(Normalised(iterated))
    case OtherObject(v) => if v.Arr? then Ok(v.items) else Err(NOT_ARRAY_LIKE)
  }

  /** asList: a List is returned as it is; arrays and other iterables are copied through transform. */
  method AsList(h: HostObject) returns (r: Result<seq<Json>, string>)
    ensures r == AsListSpec(h)
    ensures r.Ok? <==> IsArray(h)
  {
    match h {
      case ListObject(items) =>
        return Ok(items);
      case ArrayObject(elements) =>
        var ret := Copy(elements);
        return Ok(ret);
      case IterableObject(iterated) =>
        var ret := Copy(iterated);
        return Ok(ret);
      case OtherObject(v) =>
        if v.Arr? {
          return Ok(v.items);
        }
        return Err(NOT_ARRAY_LIKE);
    }
  }

  /** The copying loop shared by the array and Iterable cases. */
  method Copy(xs: seq<Json>) returns (ret: seq<Json>)
    ensures ret == Normalised(xs)
  {
    ret := [];
    var i := 0;
    while i < |xs|
      invariant 0 <= i <= |xs|
      invariant ret == Normalised(xs[..i])
    {
      assert xs[..i + 1] == xs[..i] + [xs[i]];
      ret := ret + [Transform(xs[i])];
      i := i + 1;
    }
    assert xs[..i] == xs;
  }
}
