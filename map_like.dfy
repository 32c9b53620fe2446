/** MapLike: a read-only view of a map; every mutator is refused. */
module MapLike {
  import opened Wrappers
  import opened JsonValues
  import opened StrictEquality

  datatype MapLike = MapLike(delegate: seq<(string, Json)>)

  const NOT_A_MAP := "MapLike only works with maps and JsonObject"
  const IMMUTABLE := "MapLike is immutable"

  /** The constructor accepts a map only. */
  function Create(data: Json): (r: Result<MapLike, string>)
    ensures r.Ok? <==> data.Obj?
    ensures r.Ok? ==> r.value.delegate == data.entries
    ensures r.Err? ==> r.error == NOT_A_MAP
  {
    if data.Obj? then Ok(MapLike(data.entries)) else Err(NOT_A_MAP)
  }

  /** isEligible: the value is a Map. */
  predicate IsEligible(data: Json) { data.Obj? }

  function Size(m: MapLike): nat { |m.delegate| }

  predicate IsEmpty(m: MapLike) { m.delegate == [] }

  /** containsKey: keys are strings, so any other key is absent. */
  predicate ContainsKey(m: MapLike, key: Json)
  {
    key.Str? && HasKey(m.delegate, key.s)
  }

  /** get: the stored value, or null when the key is absent. */
  function GetValue(m: MapLike, key: Json): (r: Json)
    ensures ContainsKey(m, key) ==> r == Get(m.delegate, key.s)
    ensures !ContainsKey(m, key) ==> r == Null
  {
    if ContainsKey(m, key) then Get(m.delegate, key.s) else Null
  }

  function KeySet(m: MapLike): seq<string> { Keys(m.delegate) }

  function Values(m: MapLike): (vs: seq<Json>)
    ensures |vs| == |m.delegate|
    ensures forall i | 0 <= i < |vs| :: vs[i] == m.delegate[i].1
  {
    seq(|m.delegate|, i requires 0 <= i < |m.delegate| => m.delegate[i].1)
  }

  /** put, remove, putAll and clear all fail and leave the view as it was. */
  function Mutate(m: MapLike): (r: (MapLike, Result<Json, string>))
    ensures r.0 == m && r.1 == Err(IMMUTABLE)
  {
    (m, Err(IMMUTABLE))
  }

  /** The value get finds under a present key is one the map stores under that key. */
  lemma {:induction false} GetIsStored(entries: seq<(string, Json)>, k: string)
    requires HasKey(entries, k)
    ensures exists i | 0 <= i < |entries| :: entries[i] == (k, Get(entries, k))
  {
    if entries[0].0 != k {
      assert Keys(entries) == [entries[0].0] + Keys(entries[1..]);
      GetIsStored(entries[1..], k);
      var i :| 0 <= i < |entries[1..]| && entries[1..][i] == (k, Get(entries[1..], k));
      assert entries[i + 1] == (k, Get(entries, k));
    }
  }

  /**
    * Over a map the view answers as the map does: the constructor accepts
    * exactly what isEligible accepts; size and keySet are the map's; get
    * finds a value that values lists for a present key and null for an
    * absent one; and a refused mutation leaves every answer as it was.
    */
  lemma ViewOfMap(data: Json, key: Json)
    ensures Create(data).Ok? <==> IsEligible(data)
    ensures data.Obj? ==>
              var m := Create(data).value;
              && Size(m) == |data.entries| && KeySet(m) == Keys(data.entries)
              && (ContainsKey(m, key) <==> key.Str? && HasKey(data.entries, key.s))
              && (ContainsKey(m, key) ==> (key.s, GetValue(m, key)) in data.entries && GetValue(m, key) in Values(m))
              && (!ContainsKey(m, key) ==> GetValue(m, key) == Null)
              && Mutate(m).1.Err?
              && GetValue(Mutate(m).0, key) == GetValue(m, key) && Values(Mutate(m).0) == Values(m)
  {
    if data.Obj? && ContainsKey(Create(data).value, key) {
      var m := Create(data).value;
      GetIsStored(m.delegate, key.s);
      var i :| 0 <= i < |m.delegate| && m.delegate[i] == (key.s, Get(m.delegate, key.s));
      assert Values(m)[i] == GetValue(m, key);
    }
  }

  /** containsValue as written: it asks the delegate whether the value is a KEY. */
  predicate ContainsValueAsWritten(m: MapLike, value: Json)
  {
    ContainsKey(m, value)
  }

  /** A stored value that containsValue(value) reports: equals, or both null. */
  predicate Matches(stored: Json, value: Json)
  {
    JavaEquals(stored, value) || (value == Null && stored == Null)
  }

  /** containsValue as a Map promises it: some stored value matches the argument. */
  predicate ContainsValue(m: MapLike, value: Json)
  {
    exists i | 0 <= i < |m.delegate| :: Matches(m.delegate[i].1, value)
  }

  /** The corrected containsValue answers exactly for the values the view lists. */
  lemma ContainsValueMeansStored(m: MapLike, value: Json)
    ensures ContainsValue(m, value) <==> exists v | v in Values(m) :: Matches(v, value)
  {
    var vs := Values(m);
    if ContainsValue(m, value) {
      var i :| 0 <= i < |m.delegate| && Matches(m.delegate[i].1, value);
      assert vs[i] in vs;
    }
    if exists v | v in vs :: Matches(v, value) {
      var v :| v in vs && Matches(v, value);
      var i :| 0 <= i < |vs| && vs[i] == v;
      assert m.delegate[i].1 == v;
    }
  }

  /** The written containsValue misses a stored value and reports a key as a value. */
  lemma ContainsValueAsWrittenIsWrong()
    ensures var m := MapLike([("a", Num(1.0, Double))]);
            !ContainsValueAsWritten(m, Num(1.0, Double)) && ContainsValue(m, Num(1.0, Double))
            && ContainsValueAsWritten(m, Str("a")) && !ContainsValue(m, Str("a"))
  {
    var m := MapLike([("a", Num(1.0, Double))]);
    assert JavaEquals(m.delegate[0].1, Num(1.0, Double));
    assert Keys(m.delegate) == ["a"];
  }
}
