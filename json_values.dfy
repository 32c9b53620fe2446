/**
  * The canonical JSON value tree the engine works on, and the value-level
  * helpers of JSON.java and JsonLogicEvaluator.java: truthiness, list test,
  * number normalisation and numeric coercion.
  */
module JsonValues {
  import opened Wrappers

  /**
    * The boxed class of a number. Readers produce Double; host data may
    * carry integral boxes (Integer, Long), which `equals` tells apart.
    */
  datatype NumKind = Double | Integral

  /** Maps keep their insertion order (LinkedHashMap). */
  datatype Json =
    | Null
    | Bool(b: bool)
    | Num(n: real, kind: NumKind)
    | Str(s: string)
    | Arr(items: seq<Json>)
    | Obj(entries: seq<(string, Json)>)

  /** Double.parseDouble, supplied by the host: None stands for NumberFormatException. */
  type DoubleParser = string -> Option<real>

  function Keys<V>(entries: seq<(string, V)>): (ks: seq<string>)
    ensures |ks| == |entries|
    ensures forall i | 0 <= i < |entries| :: ks[i] == entries[i].0
  {
    if entries == [] then [] else [entries[0].0] + Keys(entries[1..])
  }

  predicate HasKey<V>(entries: seq<(string, V)>, k: string)
  {
    k in Keys(entries)
  }

  predicate UniqueKeys<V>(entries: seq<(string, V)>)
  {
    forall i, j | 0 <= i < j < |entries| :: entries[i].0 != entries[j].0
  }

  /** Map.get: the value stored under k (the first entry with that key). */
  function Get<V>(entries: seq<(string, V)>, k: string): (v: V)
    requires HasKey(entries, k)
  {
    if entries[0].0 == k then entries[0].1 else Get(entries[1..], k)
  }

  /**
    * LinkedHashMap.put: an existing key keeps its position and takes the new
    * value; a new key is appended.
    */
  function Put<V>(entries: seq<(string, V)>, k: string, v: V): (r: seq<(string, V)>)
    ensures |r| == |entries| || |r| == |entries| + 1
  {
    if entries == [] then [(k, v)]
    else if entries[0].0 == k then [(k, v)] + entries[1..]
    else [entries[0]] + Put(entries[1..], k, v)
  }

  /** After put(k, v), get(k) is v. */
  lemma {:induction false} PutGet<V>(entries: seq<(string, V)>, k: string, v: V)
    ensures HasKey(Put(entries, k, v), k) && Get(Put(entries, k, v), k) == v
  {
    var r := Put(entries, k, v);
    if entries != [] && entries[0].0 != k {
      PutGet(entries[1..], k, v);
      assert Keys(r) == [entries[0].0] + Keys(r[1..]);
    }
  }

  /** put keeps the position of an existing key and appends a new one. */
  lemma {:induction false} PutKeys<V>(entries: seq<(string, V)>, k: string, v: V)
    ensures HasKey(entries, k) ==> Keys(Put(entries, k, v)) == Keys(entries)
    ensures !HasKey(entries, k) ==> Keys(Put(entries, k, v)) == Keys(entries) + [k]
  {
    if entries != [] && entries[0].0 != k {
      PutKeys(entries[1..], k, v);
      assert Keys(entries) == [entries[0].0] + Keys(entries[1..]);
      assert HasKey(entries, k) <==> HasKey(entries[1..], k);
    }
  }

  /** put leaves the value under every other key unchanged. */
  lemma {:induction false} PutOthers<V>(entries: seq<(string, V)>, k: string, v: V, other: string)
    requires other != k && HasKey(entries, other)
    ensures HasKey(Put(entries, k, v), other) && Get(Put(entries, k, v), other) == Get(entries, other)
  {
    var r := Put(entries, k, v);
    if entries[0].0 == other {
      assert r[0] == entries[0];
    } else {
      assert HasKey(entries[1..], other) by {
        assert Keys(entries) == [entries[0].0] + Keys(entries[1..]);
      }
      if entries[0].0 != k {
        PutOthers(entries[1..], k, v, other);
        assert r == [entries[0]] + Put(entries[1..], k, v);
        assert Keys(r) == [entries[0].0] + Keys(r[1..]);
      } else {
        assert r[1..] == entries[1..];
        assert Keys(r) == [k] + Keys(entries[1..]);
      }
    }
  }

  /** JSON.truthy: a map is not a Collection, so every map is truthy. */
  predicate Truthy(v: Json)
  {
    match v
    case Null => false
    case Str(s) => |s| > 0
    case Bool(b) => b
    case Arr(items) => |items| > 0
    case Num(n, _) => n != 0.0
    case Obj(_) => true
  }

  /** JsonLogicEvaluator.asBoolean(Object): the same test written as an if-chain. */
  predicate AsBoolean(v: Json)
  {
    if v.Null? then false
    else if v.Bool? then v.b
    else if v.Num? then v.n != 0.0
    else if v.Str? then v.s != ""
    else if v.Arr? then v.items != []
    else true
  }

  /** The evaluator's truth test and JSON.truthy agree on every value. */
  lemma AsBooleanIsTruthy(v: Json)
    ensures AsBoolean(v) == Truthy(v)
    ensures !Truthy(v) <==> v in {Null, Bool(false), Str("")} || v == Arr([]) || (v.Num? && v.n == 0.0)
  {
  }

  /** JSON.isList / ArrayLike.isArray on canonical values. */
  predicate IsList(v: Json) { v.Arr? }

  /**
    * JsonLogicEvaluator.transform: every number becomes a Double, nothing
    * else changes. What that means for callers is stated by
    * TransformIdempotent, NumericOfTransform and, for loose equality,
    * LooseEquality.TransformKeepsLooseEquality.
    */
  function Transform(v: Json): (r: Json)
    ensures r.Num? <==> v.Num?
    ensures r.Num? ==> r.n == v.n && r.kind == Double
    ensures !v.Num? ==> r == v
    ensures Truthy(r) == Truthy(v)
  {
    if v.Num? then Num(v.n, Double) else v
  }

  lemma TransformIdempotent(v: Json)
    ensures Transform(Transform(v)) == Transform(v)
  {
  }

  /**
    * The numeric reading of a value (Reduce.NUMERIC, and
    * JsonLogicEvaluator.asDouble after evaluation): a string is parsed,
    * a number is its value, anything else has none.
    * NumericOfTransform states that normalising never changes the reading.
    */
  function Numeric(parse: DoubleParser, v: Json): (r: Option<real>)
    ensures v.Num? ==> r == Some(v.n)
    ensures v.Str? ==> r == parse(v.s)
    ensures !v.Num? && !v.Str? ==> r == None
  {
    match v
    case Num(n, _) => Some(n)
    case Str(s) => parse(s)
    case _ => None
  }

  /**
    * Normalising a value (a Number becomes a Double) never changes its
    * numeric reading, so the getters read a list element the same whether
    * or not it was normalised.
    */
  lemma NumericOfTransform(parse: DoubleParser, v: Json)
    ensures Numeric(parse, Transform(v)) == Numeric(parse, v)
    ensures Numeric(parse, v).Some? ==> v.Num? || v.Str?
  {
  }

  /** Whether a map occurs anywhere inside v (a literal the evaluator cannot walk). */
  predicate HasMap(v: Json)
  {
    match v
    case Obj(_) => true
    case Arr(items) => exists i | 0 <= i < |items| :: HasMap(items[i])
    case _ => false
  }
}
