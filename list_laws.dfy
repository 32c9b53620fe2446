/**
  * The operators over lists and the remaining registered ones: map,
  * filter and reduce with the item as data, merge, missing /
  * missing_some, substr, log, and the handlers addListOperation and
  * addOperation(Function) build around a function.
  */
module ListLaws {
  import opened Wrappers
  import opened JsonValues
  import opened LogicAst
  import opened Rendering
  import opened EvalErrors
  import opened ValueOps
  import opened Substring
  import opened Evaluator
  import EvaluatorLaws
  import MissingKeys
  import VarPath
  import JavaText

  // ---------------------------------------------------------------------
  // map
  // ---------------------------------------------------------------------

  /** The predicate or mapper (argument 1) evaluated with item k as data, at path[1]. */
  function ItemValue(ctx: Context, args: seq<Node>, items: seq<Json>, path: Path, k: nat): Result<Json, EvalError>
    requires |args| >= 2 && k < |items|
  {
    Eval(ctx, args[1], items[k], IndexPath(path, 1))
  }

  lemma {:induction false} MapItemsPointwise(ctx: Context, args: seq<Node>, items: seq<Json>, path: Path, i: nat)
    requires |args| == 2 && i <= |items|
    ensures var r := MapItems(ctx, args, items, path, i);
            (r.Ok? <==> forall k | i <= k < |items| :: ItemValue(ctx, args, items, path, k).Ok?) &&
            (r.Ok? ==> forall k | i <= k < |items| :: r.value[k - i] == ItemValue(ctx, args, items, path, k).value)
    decreases |items| - i
  {
    if i < |items| {
      MapItemsPointwise(ctx, args, items, path, i + 1);
      var v := ItemValue(ctx, args, items, path, i);
      var rest := MapItems(ctx, args, items, path, i + 1);
      if v.Ok? && rest.Ok? {
        var r := [v.value] + rest.value;
        assert MapItems(ctx, args, items, path, i) == Ok(r);
      }
    }
  }

  /**
    * map: other than two arguments fails; a non-list gives []; otherwise
    * one result per item, in order, each the mapper's value on that item.
    */
  lemma MapSemantics(ctx: Context, args: seq<Node>, data: Json, path: Path)
    ensures |args| != 2 ==> MapOp(ctx, args, data, path) == Err(Evaluation("map expects exactly 2 arguments", path))
    ensures |args| == 2 ==>
              var arr := Eval(ctx, args[0], data, IndexPath(path, 0));
              (arr.Err? ==> MapOp(ctx, args, data, path) == Err(arr.error)) &&
              (arr.Ok? && !arr.value.Arr? ==> MapOp(ctx, args, data, path) == Ok(Arr([]))) &&
              (arr.Ok? && arr.value.Arr? ==>
                 var items := arr.value.items;
                 var r := MapOp(ctx, args, data, path);
                 (r.Ok? <==> forall k | 0 <= k < |items| :: ItemValue(ctx, args, items, path, k).Ok?) &&
                 (r.Ok? ==> r.value.Arr? && |r.value.items| == |items| &&
                            forall k | 0 <= k < |items| :: r.value.items[k] == ItemValue(ctx, args, items, path, k).value))
  {
    if |args| == 2 {
      var arr := Eval(ctx, args[0], data, IndexPath(path, 0));
      if arr.Ok? && arr.value.Arr? {
        var items := arr.value.items;
        MapItemsPointwise(ctx, args, items, path, 0);
        var rs := MapItems(ctx, args, items, path, 0);
        if rs.Ok? {
          assert MapOp(ctx, args, data, path) == Ok(Arr(rs.value));
        } else {
          assert MapOp(ctx, args, data, path) == Err(rs.error);
        }
      }
    }
  }

  // ---------------------------------------------------------------------
  // filter
  // ---------------------------------------------------------------------

  /** The items whose flag is set, in order. */
  function Select(items: seq<Json>, keep: seq<bool>): seq<Json>
    requires |keep| == |items|
    decreases |items|
  {
    if items == [] then [] else (if keep[0] then [items[0]] else []) + Select(items[1..], keep[1..])
  }

  /** A selection is no longer than the list, draws on its items, and is all or nothing for constant flags. */
  lemma {:induction false} SelectIsSubsequence(items: seq<Json>, keep: seq<bool>)
    requires |keep| == |items|
    ensures |Select(items, keep)| <= |items|
    ensures multiset(Select(items, keep)) <= multiset(items)
    ensures (forall k | 0 <= k < |keep| :: keep[k]) ==> Select(items, keep) == items
    ensures (forall k | 0 <= k < |keep| :: !keep[k]) ==> Select(items, keep) == []
    decreases |items|
  {
    if items != [] {
      SelectIsSubsequence(items[1..], keep[1..]);
      assert items == [items[0]] + items[1..];
      assert multiset(items) == multiset([items[0]]) + multiset(items[1..]);
    }
  }

  /** Whether the filter predicate holds for every item from i on, and what the flags record. */
  predicate Verdicts(ctx: Context, args: seq<Node>, items: seq<Json>, path: Path, i: nat, keep: seq<bool>)
    requires |args| == 2 && |keep| == |items|
  {
    forall k | i <= k < |items| ::
      ItemValue(ctx, args, items, path, k).Ok? && keep[k] == Truthy(ItemValue(ctx, args, items, path, k).value)
  }

  lemma {:induction false} FilterItemsSelects(ctx: Context, args: seq<Node>, items: seq<Json>, path: Path, i: nat, keep: seq<bool>)
    requires |args| == 2 && i <= |items| && |keep| == |items|
    requires Verdicts(ctx, args, items, path, i, keep)
    ensures FilterItems(ctx, args, items, path, i) == Ok(Select(items[i..], keep[i..]))
    decreases |items| - i
  {
    if i < |items| {
      FilterItemsSelects(ctx, args, items, path, i + 1, keep);
      assert items[i..][0] == items[i] && items[i..][1..] == items[i + 1..];
      assert keep[i..][0] == keep[i] && keep[i..][1..] == keep[i + 1..];
      var t := ItemValue(ctx, args, items, path, i);
      assert t.Ok? && keep[i] == Truthy(t.value);
      var rest := Select(items[i + 1..], keep[i + 1..]);
      assert Select(items[i..], keep[i..]) == (if keep[i] then [items[i]] else []) + rest;
      assert FilterItems(ctx, args, items, path, i + 1) == Ok(rest);
      assert FilterItems(ctx, args, items, path, i) == Ok(if Truthy(t.value) then [items[i]] + rest else rest);
      assert [] + rest == rest;
    } else {
      assert items[i..] == [] && keep[i..] == [];
    }
  }

  /**
    * filter: other than two arguments fails, a non-list fails at path[0];
    * otherwise the items whose predicate value is truthy, in order.
    */
  lemma FilterSemantics(ctx: Context, args: seq<Node>, data: Json, path: Path, keep: seq<bool>)
    ensures |args| != 2 ==> FilterOp(ctx, args, data, path) == Err(Evaluation("filter expects exactly 2 arguments", path))
    ensures |args| == 2 ==>
              var arr := Eval(ctx, args[0], data, IndexPath(path, 0));
              (arr.Ok? && !arr.value.Arr? ==>
                 FilterOp(ctx, args, data, path) == Err(Evaluation("first argument to filter must be a valid array", IndexPath(path, 0)))) &&
              (arr.Ok? && arr.value.Arr? && |keep| == |arr.value.items| && Verdicts(ctx, args, arr.value.items, path, 0, keep) ==>
                 FilterOp(ctx, args, data, path) == Ok(Arr(Select(arr.value.items, keep))))
  {
    if |args| == 2 {
      var arr := Eval(ctx, args[0], data, IndexPath(path, 0));
      if arr.Ok? && arr.value.Arr? && |keep| == |arr.value.items| && Verdicts(ctx, args, arr.value.items, path, 0, keep) {
        FilterItemsSelects(ctx, args, arr.value.items, path, 0, keep);
        assert arr.value.items[0..] == arr.value.items && keep[0..] == keep;
      }
    }
  }

  // ---------------------------------------------------------------------
  // reduce
  // ---------------------------------------------------------------------

  /** One more item folds the reducer once more over the accumulator so far: the fold is left to right. */
  lemma {:induction false} ReduceItemsSnoc(ctx: Context, args: seq<Node>, items: seq<Json>, x: Json, path: Path, i: nat, acc: Json)
    requires |args| == 3 && i <= |items|
    ensures var r := ReduceItems(ctx, args, items, path, i, acc);
            ReduceItems(ctx, args, items + [x], path, i, acc) ==
              if r.Err? then r else Eval(ctx, args[1], ReduceScope(x, r.value), IndexPath(path, 1))
    decreases |items| - i
  {
    var ext := items + [x];
    if i < |items| {
      assert ext[i] == items[i];
      var next := Eval(ctx, args[1], ReduceScope(items[i], acc), IndexPath(path, 1));
      if next.Ok? {
        ReduceItemsSnoc(ctx, args, items, x, path, i + 1, next.value);
      }
    } else {
      assert ext[i] == x;
    }
  }

  /**
    * reduce: other than three arguments fails; a non-list or an empty list
    * gives the seed; one item gives the reducer's value on that item and
    * the seed.
    */
  lemma ReduceSemantics(ctx: Context, args: seq<Node>, data: Json, path: Path, seed: Json, arr: Json)
    ensures |args| != 3 ==> ReduceOp(ctx, args, data, path) == Err(Evaluation("reduce expects exactly 3 arguments", path))
    ensures |args| == 3 && Eval(ctx, args[0], data, IndexPath(path, 0)) == Ok(arr) &&
            Eval(ctx, args[2], data, IndexPath(path, 2)) == Ok(seed) ==>
              (!arr.Arr? ==> ReduceOp(ctx, args, data, path) == Ok(seed)) &&
              (arr == Arr([]) ==> ReduceOp(ctx, args, data, path) == Ok(seed)) &&
              (forall x :: arr == Arr([x]) ==>
                 ReduceOp(ctx, args, data, path) == Eval(ctx, args[1], ReduceScope(x, seed), IndexPath(path, 1)))
  {
    if |args| == 3 && Eval(ctx, args[0], data, IndexPath(path, 0)) == Ok(arr) &&
       Eval(ctx, args[2], data, IndexPath(path, 2)) == Ok(seed) {
      forall x | arr == Arr([x])
        ensures ReduceOp(ctx, args, data, path) == Eval(ctx, args[1], ReduceScope(x, seed), IndexPath(path, 1))
      {
        ReduceItemsSnoc(ctx, args, [], x, path, 0, seed);
        assert [] + [x] == [x];
      }
    }
  }

  // ---------------------------------------------------------------------
  // merge
  // ---------------------------------------------------------------------

  /** The non-list leaves of a value, depth first, left to right. */
  function Leaves(v: Json): seq<Json>
    decreases v, 1
  {
    if v.Arr? then LeavesSeq(v.items) else [v]
  }

  function LeavesSeq(vs: seq<Json>): seq<Json>
    decreases vs, 0
  {
    if vs == [] then [] else Leaves(vs[0]) + LeavesSeq(vs[1..])
  }

  lemma {:induction false} LeavesSeqAppend(a: seq<Json>, b: seq<Json>)
    ensures LeavesSeq(a + b) == LeavesSeq(a) + LeavesSeq(b)
    decreases |a|
  {
    if a != [] {
      assert (a + b)[0] == a[0] && (a + b)[1..] == a[1..] + b;
      LeavesSeqAppend(a[1..], b);
    } else {
      assert a + b == b;
    }
  }

  lemma {:induction false} ValuesWeightAppend(a: seq<Json>, b: seq<Json>)
    ensures ValuesWeight(a + b) == ValuesWeight(a) + ValuesWeight(b)
    decreases |a|
  {
    if a != [] {
      assert (a + b)[0] == a[0] && (a + b)[1..] == a[1..] + b;
      ValuesWeightAppend(a[1..], b);
    } else {
      assert a + b == b;
    }
  }

  lemma {:induction false} LitAllAppend(a: seq<Json>, b: seq<Json>)
    ensures LitAll(a) + LitAll(b) == LitAll(a + b)
  {
  }

  /** Leaves are never lists. */
  lemma {:induction false} LeavesAreFlat(vs: seq<Json>)
    ensures forall k | 0 <= k < |LeavesSeq(vs)| :: !LeavesSeq(vs)[k].Arr?
    decreases vs, 0
  {
    if vs != [] {
      LeavesOfOneAreFlat(vs[0]);
      LeavesAreFlat(vs[1..]);
      var a := Leaves(vs[0]);
      var b := LeavesSeq(vs[1..]);
      assert forall k | 0 <= k < |a + b| :: (a + b)[k] == if k < |a| then a[k] else b[k - |a|];
    }
  }

  lemma {:induction false} LeavesOfOneAreFlat(v: Json)
    ensures forall k | 0 <= k < |Leaves(v)| :: !Leaves(v)[k].Arr?
    decreases v, 1
  {
    if v.Arr? {
      LeavesAreFlat(v.items);
    }
  }

  /** Every node of the list evaluates to the same map-free value wherever it is evaluated. */
  ghost predicate EvaluateTo(ctx: Context, nodes: seq<Node>, data: Json, vs: seq<Json>)
  {
    |vs| == |nodes| &&
    forall k | 0 <= k < |nodes| ::
      !HasMap(vs[k]) && forall p: Path :: Eval(ctx, nodes[k], data, p) == Ok(vs[k])
  }

  /** One worklist step on a literal head: its elements go back to the front, or it is appended. */
  lemma MergeLiteralStep(ctx: Context, w: Json, rest: seq<Node>, data: Json, path: Path, idx: nat, ret: seq<Json>)
    requires !HasMap(w)
    ensures MergeLoop(ctx, [Lit(w)] + rest, data, path, idx, ret) ==
              if w.Arr? then MergeLoop(ctx, LitAll(w.items) + rest, data, path, idx + 1, ret)
              else MergeLoop(ctx, rest, data, path, idx + 1, ret + [w])
  {
    var todo := [Lit(w)] + rest;
    assert todo[0] == Lit(w) && todo[1..] == rest;
  }

  /** One worklist step on an argument node: it is evaluated at path[idx], then treated like a literal. */
  lemma MergeNodeStep(ctx: Context, n: Node, rest: seq<Node>, data: Json, path: Path, idx: nat, ret: seq<Json>, v: Json)
    requires !n.Lit? && Eval(ctx, n, data, IndexPath(path, idx)) == Ok(v)
    ensures MergeLoop(ctx, [n] + rest, data, path, idx, ret) ==
              if v.Arr? then MergeLoop(ctx, LitAll(v.items) + rest, data, path, idx + 1, ret)
              else MergeLoop(ctx, rest, data, path, idx + 1, ret + [v])
  {
    var todo := [n] + rest;
    assert todo[0] == n && todo[1..] == rest;
  }

  lemma EvaluateToTail(ctx: Context, nodes: seq<Node>, data: Json, vs: seq<Json>)
    requires nodes != [] && EvaluateTo(ctx, nodes, data, vs)
    ensures EvaluateTo(ctx, nodes[1..], data, vs[1..])
  {
    forall k | 0 <= k < |nodes[1..]|
      ensures !HasMap(vs[1..][k]) && forall p: Path :: Eval(ctx, nodes[1..][k], data, p) == Ok(vs[1..][k])
    {
      assert nodes[1..][k] == nodes[k + 1] && vs[1..][k] == vs[k + 1];
    }
  }

  /** How the first of several literal values splits off: its weight, its leaves, its elements put back in front. */
  lemma LiteralsSplit(ws: seq<Json>, rest: seq<Node>)
    requires ws != [] && forall k | 0 <= k < |ws| :: !HasMap(ws[k])
    ensures LitAll(ws) + rest == [Lit(ws[0])] + (LitAll(ws[1..]) + rest)
    ensures !HasMap(ws[0])
    ensures ws[0].Arr? ==>
              var front := ws[0].items + ws[1..];
              LitAll(ws[0].items) + (LitAll(ws[1..]) + rest) == LitAll(front) + rest &&
              ValuesWeight(ws) == 1 + ValuesWeight(front) && LeavesSeq(ws) == LeavesSeq(front) &&
              forall k | 0 <= k < |front| :: !HasMap(front[k])
    ensures !ws[0].Arr? ==> ValuesWeight(ws) == 1 + ValuesWeight(ws[1..]) && LeavesSeq(ws) == [ws[0]] + LeavesSeq(ws[1..])
  {
    var w := ws[0];
    LiteralsCons(ws, rest);
    assert ValuesWeight(ws) == ValueWeight(w) + ValuesWeight(ws[1..]);
    assert LeavesSeq(ws) == Leaves(w) + LeavesSeq(ws[1..]);
    if w.Arr? {
      LiteralsFront(w.items, ws[1..], rest);
      ValuesWeightAppend(w.items, ws[1..]);
      LeavesSeqAppend(w.items, ws[1..]);
      MapFreeFront(w.items, ws[1..]);
    }
  }

  /** Concatenation of node lists is associative (stated apart, away from LitAll's pointwise facts). */
  lemma NodesAssoc(a: seq<Node>, b: seq<Node>, c: seq<Node>)
    ensures (a + b) + c == a + (b + c)
  {
  }

  lemma LiteralsCons(ws: seq<Json>, rest: seq<Node>)
    requires ws != []
    ensures LitAll(ws) + rest == [Lit(ws[0])] + (LitAll(ws[1..]) + rest)
  {
    NodesAssoc([Lit(ws[0])], LitAll(ws[1..]), rest);
  }

  lemma LiteralsFront(a: seq<Json>, b: seq<Json>, rest: seq<Node>)
    ensures LitAll(a) + (LitAll(b) + rest) == LitAll(a + b) + rest
  {
    NodesAssoc(LitAll(a), LitAll(b), rest);
    LitAllAppend(a, b);
  }

  lemma MapFreeFront(a: seq<Json>, b: seq<Json>)
    requires !HasMap(Arr(a)) && forall k | 0 <= k < |b| :: !HasMap(b[k])
    ensures forall k | 0 <= k < |a + b| :: !HasMap((a + b)[k])
  {
    forall k | 0 <= k < |a + b|
      ensures !HasMap((a + b)[k])
    {
      if k < |a| {
        assert (a + b)[k] == a[k];
      } else {
        assert (a + b)[k] == b[k - |a|];
      }
    }
  }

  /**
    * Walking literal values: each list cell and each leaf takes one step,
    * and the leaves are appended in order.
    */
  lemma {:induction false} MergeLiterals(ctx: Context, ws: seq<Json>, rest: seq<Node>, data: Json, path: Path,
                                         idx: nat, ret: seq<Json>)
    requires forall k | 0 <= k < |ws| :: !HasMap(ws[k])
    ensures MergeLoop(ctx, LitAll(ws) + rest, data, path, idx, ret) ==
              MergeLoop(ctx, rest, data, path, idx + ValuesWeight(ws), ret + LeavesSeq(ws))
    decreases ValuesWeight(ws), 1
  {
    if ws == [] {
      assert LitAll(ws) == [] && LeavesSeq(ws) == [];
      assert [] + rest == rest && ret + [] == ret;
    } else if ws[0].Arr? {
      MergeLiteralList(ctx, ws, rest, data, path, idx, ret);
    } else {
      MergeLiteralLeaf(ctx, ws, rest, data, path, idx, ret);
    }
  }

  lemma {:induction false} MergeLiteralList(ctx: Context, ws: seq<Json>, rest: seq<Node>, data: Json, path: Path,
                                            idx: nat, ret: seq<Json>)
    requires ws != [] && ws[0].Arr? && forall k | 0 <= k < |ws| :: !HasMap(ws[k])
    ensures MergeLoop(ctx, LitAll(ws) + rest, data, path, idx, ret) ==
              MergeLoop(ctx, rest, data, path, idx + ValuesWeight(ws), ret + LeavesSeq(ws))
    decreases ValuesWeight(ws), 0
  {
    var w := ws[0];
    LiteralsSplit(ws, rest);
    MergeLiteralStep(ctx, w, LitAll(ws[1..]) + rest, data, path, idx, ret);
    MergeLiterals(ctx, w.items + ws[1..], rest, data, path, idx + 1, ret);
  }

  lemma {:induction false} MergeLiteralLeaf(ctx: Context, ws: seq<Json>, rest: seq<Node>, data: Json, path: Path,
                                            idx: nat, ret: seq<Json>)
    requires ws != [] && !ws[0].Arr? && forall k | 0 <= k < |ws| :: !HasMap(ws[k])
    ensures MergeLoop(ctx, LitAll(ws) + rest, data, path, idx, ret) ==
              MergeLoop(ctx, rest, data, path, idx + ValuesWeight(ws), ret + LeavesSeq(ws))
    decreases ValuesWeight(ws), 0
  {
    var w := ws[0];
    LiteralsSplit(ws, rest);
    MergeLiteralStep(ctx, w, LitAll(ws[1..]) + rest, data, path, idx, ret);
    MergeLiterals(ctx, ws[1..], rest, data, path, idx + 1, ret + [w]);
    assert ret + [w] + LeavesSeq(ws[1..]) == ret + LeavesSeq(ws);
  }

  /** One argument node with its value: as many steps as the value has cells and leaves, and its leaves appended. */
  lemma MergeHeadValue(ctx: Context, n: Node, rest: seq<Node>, v: Json, data: Json, path: Path, idx: nat, ret: seq<Json>)
    requires !HasMap(v)
    requires n.Lit? ==> n.value == v
    requires !n.Lit? ==> Eval(ctx, n, data, IndexPath(path, idx)) == Ok(v)
    ensures MergeLoop(ctx, [n] + rest, data, path, idx, ret) == MergeLoop(ctx, rest, data, path, idx + ValueWeight(v), ret + Leaves(v))
  {
    if n.Lit? {
      MergeLiteralValue(ctx, v, rest, data, path, idx, ret);
    } else {
      MergeNodeStep(ctx, n, rest, data, path, idx, ret, v);
      if v.Arr? {
        assert forall k | 0 <= k < |v.items| :: !HasMap(v.items[k]);
        MergeLiterals(ctx, v.items, rest, data, path, idx + 1, ret);
      }
    }
  }

  lemma MergeLiteralValue(ctx: Context, v: Json, rest: seq<Node>, data: Json, path: Path, idx: nat, ret: seq<Json>)
    requires !HasMap(v)
    ensures MergeLoop(ctx, [Lit(v)] + rest, data, path, idx, ret) == MergeLoop(ctx, rest, data, path, idx + ValueWeight(v), ret + Leaves(v))
  {
    assert [Lit(v)] == LitAll([v]);
    MergeLiterals(ctx, [v], rest, data, path, idx, ret);
    SingleWeightAndLeaves(v);
  }

  lemma SingleWeightAndLeaves(v: Json)
    ensures ValuesWeight([v]) == ValueWeight(v) && LeavesSeq([v]) == Leaves(v)
  {
    assert [v][1..] == [];
  }

  /** Argument nodes not yet evaluated: their values' leaves are appended in order. */
  lemma {:induction false} MergeNodes(ctx: Context, nodes: seq<Node>, vs: seq<Json>, data: Json,
                                      path: Path, idx: nat, ret: seq<Json>)
    requires EvaluateTo(ctx, nodes, data, vs)
    ensures MergeLoop(ctx, nodes, data, path, idx, ret) == Ok(ret + LeavesSeq(vs))
    decreases |nodes|
  {
    if nodes == [] {
      assert vs == [] && LeavesSeq(vs) == [] && ret + [] == ret;
    } else {
      var n := nodes[0];
      var v := vs[0];
      assert nodes == [n] + nodes[1..];
      assert !HasMap(v) && Eval(ctx, n, data, IndexPath(path, idx)) == Ok(v);
      assert n.Lit? ==> n.value == v by {
        assert Eval(ctx, n, data, path) == Ok(v);
      }
      MergeHeadValue(ctx, n, nodes[1..], v, data, path, idx, ret);
      EvaluateToTail(ctx, nodes, data, vs);
      MergeNodes(ctx, nodes[1..], vs[1..], data, path, idx + ValueWeight(v), ret + Leaves(v));
      assert LeavesSeq(vs) == Leaves(v) + LeavesSeq(vs[1..]);
      assert ret + Leaves(v) + LeavesSeq(vs[1..]) == ret + LeavesSeq(vs);
    }
  }

  /**
    * merge: the non-list leaves of all evaluated arguments, depth first and
    * left to right; no element of the answer is a list.
    */
  lemma MergeFlattens(ctx: Context, args: seq<Node>, data: Json, path: Path, vs: seq<Json>)
    requires EvaluateTo(ctx, args, data, vs)
    ensures Apply(ctx, Merge, args, data, path) == Ok(Arr(LeavesSeq(vs)))
    ensures forall k | 0 <= k < |LeavesSeq(vs)| :: !LeavesSeq(vs)[k].Arr?
  {
    MergeNodes(ctx, args, vs, data, path, 0, []);
    assert [] + LeavesSeq(vs) == LeavesSeq(vs);
    LeavesAreFlat(vs);
  }

  /** {"merge": [1, [2, [3]], 4]}: [1, 2, 3, 4]. */
  lemma MergeExample(ctx: Context, data: Json, path: Path)
    ensures var nested := Arr([Num(2.0, Integral), Arr([Num(3.0, Integral)])]);
            Apply(ctx, Merge, [Lit(Num(1.0, Integral)), Lit(nested), Lit(Num(4.0, Integral))], data, path) ==
              Ok(Arr([Num(1.0, Integral), Num(2.0, Integral), Num(3.0, Integral), Num(4.0, Integral)]))
  {
    var one := Num(1.0, Integral);
    var nested := Arr([Num(2.0, Integral), Arr([Num(3.0, Integral)])]);
    var four := Num(4.0, Integral);
    var vs := [one, nested, four];
    var args := [Lit(one), Lit(nested), Lit(four)];
    NestedIsMapFree();
    assert EvaluateTo(ctx, args, data, vs) by {
      forall k | 0 <= k < |args|
        ensures !HasMap(vs[k]) && forall p: Path :: Eval(ctx, args[k], data, p) == Ok(vs[k])
      {
        assert args[k] == Lit(vs[k]);
      }
    }
    MergeFlattens(ctx, args, data, path, vs);
    NestedLeaves();
  }

  lemma NestedIsMapFree()
    ensures !HasMap(Arr([Num(2.0, Integral), Arr([Num(3.0, Integral)])]))
  {
    var inner := Arr([Num(3.0, Integral)]);
    assert !HasMap(inner) by { assert [Num(3.0, Integral)][0] == Num(3.0, Integral); }
    var outer := [Num(2.0, Integral), inner];
    assert forall i | 0 <= i < |outer| :: !HasMap(outer[i]);
  }

  lemma NestedLeaves()
    ensures LeavesSeq([Num(1.0, Integral), Arr([Num(2.0, Integral), Arr([Num(3.0, Integral)])]), Num(4.0, Integral)]) ==
              [Num(1.0, Integral), Num(2.0, Integral), Num(3.0, Integral), Num(4.0, Integral)]
  {
    var one := Num(1.0, Integral);
    var two := Num(2.0, Integral);
    var three := Num(3.0, Integral);
    var four := Num(4.0, Integral);
    assert [three][1..] == [] && [Arr([three])][1..] == [] && [four][1..] == [];
    assert LeavesSeq([three]) == [three];
    assert Leaves(Arr([three])) == [three];
    assert LeavesSeq([Arr([three])]) == [three];
    assert [two, Arr([three])][1..] == [Arr([three])];
    assert LeavesSeq([two, Arr([three])]) == [two, three];
    var nested := Arr([two, Arr([three])]);
    assert LeavesSeq([four]) == [four];
    assert [nested, four][1..] == [four];
    assert LeavesSeq([nested, four]) == [two, three, four];
    assert [one, nested, four][1..] == [nested, four];
  }

  // ---------------------------------------------------------------------
  // missing, missing_some
  // ---------------------------------------------------------------------

  /** Map-free values written as literals evaluate to themselves. */
  lemma {:induction false} LiteralsEvaluate(ctx: Context, ws: seq<Json>, data: Json, path: Path)
    requires forall k | 0 <= k < |ws| :: !HasMap(ws[k])
    ensures EvalItems(ctx, LitAll(ws), data, path, 0) == Ok(ws)
  {
    EvaluatorLaws.EvalItemsPointwise(ctx, LitAll(ws), data, path, 0);
    var items := LitAll(ws);
    forall k | 0 <= k < |items|
      ensures Eval(ctx, items[k], data, IndexPath(path, k)) == Ok(ws[k])
    {
      assert items[k] == Lit(ws[k]);
    }
    var r := EvalItems(ctx, items, data, path, 0);
    assert r.Ok?;
    forall k | 0 <= k < |ws|
      ensures r.value[k] == ws[k]
    {
      assert r.value[k - 0] == Eval(ctx, items[k], data, IndexPath(path, k)).value;
    }
    assert r.value == ws;
  }

  /**
    * missing / missing_some over evaluated, map-free arguments: a single
    * list value is the argument list, and the answer is MissingExpression's
    * on it; missing_some needs two arguments, a list second one and a
    * numeric first one.
    */
  lemma MissingSemantics(ctx: Context, isSome: bool, args: seq<Node>, data: Json, path: Path, values: seq<Json>)
    requires EvalItems(ctx, args, data, path, 0) == Ok(values)
    requires forall k | 0 <= k < |Unwrapped(values)| :: !HasMap(Unwrapped(values)[k])
    ensures isSome && |args| < 2 ==> MissingKeysOp(ctx, isSome, args, data, path) == Err(Evaluation(MISSING_SOME_MESSAGE, path))
    ensures !isSome ==> MissingKeysOp(ctx, isSome, args, data, path) == Ok(MissingKeys.MissingOutcome(false, data, Unwrapped(values), 0.0))
    ensures isSome && |args| >= 2 ==>
              var arguments := Unwrapped(values);
              var count := AsDouble(ctx, args[0], data, path);
              (!arguments[1].Arr? ==> MissingKeysOp(ctx, isSome, args, data, path) == Err(Evaluation(MISSING_SOME_MESSAGE, path))) &&
              (arguments[1].Arr? && count == Ok(None) ==>
                 MissingKeysOp(ctx, isSome, args, data, path) == Err(Evaluation(MISSING_SOME_MESSAGE, path))) &&
              (arguments[1].Arr? && count.Ok? && count.value.Some? ==>
                 MissingKeysOp(ctx, isSome, args, data, path) == Ok(MissingKeys.MissingOutcome(true, data, arguments, count.value.value)))
  {
    LiteralsEvaluate(ctx, Unwrapped(values), data, path);
  }

  // ---------------------------------------------------------------------
  // substr, log
  // ---------------------------------------------------------------------

  /**
    * substr: 2 or 3 arguments; the start must read as a number and is read
    * before the text; a null text is a NullPointerException.
    */
  lemma SubstrErrors(ctx: Context, args: seq<Node>, data: Json, path: Path, start: real)
    ensures (|args| < 2 || |args| > 3) ==> SubstrOp(ctx, args, data, path) == Err(Evaluation("substr expects 2 or 3 arguments", path))
    ensures 2 <= |args| <= 3 && AsDouble(ctx, args[1], data, path) == Ok(None) ==>
              SubstrOp(ctx, args, data, path) == Err(Evaluation("second argument to substr must be a number", IndexPath(path, 1)))
    ensures 2 <= |args| <= 3 && AsDouble(ctx, args[1], data, path) == Ok(Some(start)) && Eval(ctx, args[0], data, path) == Ok(Null) ==>
              SubstrOp(ctx, args, data, path) == Err(NullPointer)
  {
  }

  /** substr on a non-null text with two arguments: the index arithmetic of SubstrFrom, after Double.intValue. */
  lemma SubstrFromStart(ctx: Context, args: seq<Node>, data: Json, path: Path, start: real, v: Json)
    requires |args| == 2 && AsDouble(ctx, args[1], data, path) == Ok(Some(start))
    requires Eval(ctx, args[0], data, path) == Ok(v) && v != Null
    ensures var s := SubstrFrom(ValueText(ctx.host, v), JavaText.DoubleToInt(start));
            SubstrOp(ctx, args, data, path) == if s.Ok? then Ok(Str(s.value)) else Err(s.error)
  {
  }

  /**
    * substr on a non-null text with three arguments: the index arithmetic
    * of SubstrRange; a count that does not read as a number is an error at
    * path[2].
    */
  lemma SubstrStartCount(ctx: Context, args: seq<Node>, data: Json, path: Path, start: real, v: Json)
    requires |args| == 3 && AsDouble(ctx, args[1], data, path) == Ok(Some(start))
    requires Eval(ctx, args[0], data, path) == Ok(v) && v != Null
    ensures var count := AsDouble(ctx, args[2], data, path);
            (count == Ok(None) ==>
               SubstrOp(ctx, args, data, path) == Err(Evaluation("third argument to substr must be an integer", IndexPath(path, 2)))) &&
            (count.Ok? && count.value.Some? ==>
               var s := SubstrRange(ValueText(ctx.host, v), JavaText.DoubleToInt(start), JavaText.DoubleToInt(count.value.value));
               SubstrOp(ctx, args, data, path) == if s.Ok? then Ok(Str(s.value)) else Err(s.error))
  {
  }

  /** log answers its first argument's value, evaluated at the operator's path; no argument is an error. */
  lemma LogIsIdentity(ctx: Context, args: seq<Node>, data: Json, path: Path)
    ensures args == [] ==> Apply(ctx, Log, args, data, path) == Err(Evaluation("log operator requires exactly 1 argument", path))
    ensures args != [] ==> Apply(ctx, Log, args, data, path) == Eval(ctx, args[0], data, path)
  {
  }

  // ---------------------------------------------------------------------
  // addListOperation / addOperation(Function)
  // ---------------------------------------------------------------------

  /**
    * Both wrappers evaluate the arguments first, so an argument that fails
    * makes the operation fail; then the function gets the unevaluated
    * arguments (as written) or the evaluated, unwrapped ones (corrected).
    */
  lemma ListFunctionSemantics(ctx: Context, rawFn: seq<Node> -> Result<Json, EvalError>, fn: seq<Json> -> Result<Json, EvalError>,
                               args: seq<Node>, data: Json, path: Path)
    ensures var r := EvalItems(ctx, args, data, path, 0);
            (r.Err? ==> Apply(ctx, ListFunctionAsWritten(rawFn), args, data, path) == Err(r.error) &&
                        Apply(ctx, ListFunction(fn), args, data, path) == Err(r.error)) &&
            (r.Ok? ==> Apply(ctx, ListFunctionAsWritten(rawFn), args, data, path) == rawFn(args) &&
                       Apply(ctx, ListFunction(fn), args, data, path) == fn(Unwrapped(r.value)))
  {
  }

  /**
    * The test's function, String.format("Hello %s!", args[0]), over the
    * evaluated values: the first value's text between "Hello " and "!";
    * with no argument, args[0] throws ArrayIndexOutOfBoundsException.
    */
  function Greet(host: Host): seq<Json> -> Result<Json, EvalError>
  {
    (values: seq<Json>) =>
      if values == [] then Err(IndexOutOfBounds) else Ok(Str("Hello " + ValueText(host, values[0]) + "!"))
  }

  /** The same function over the unevaluated arguments, as the written wrappers hand them over. */
  function GreetRaw(host: Host): seq<Node> -> Result<Json, EvalError>
  {
    (args: seq<Node>) =>
      if args == [] then Err(IndexOutOfBounds) else Ok(Str("Hello " + NodeText(host, args[0]) + "!"))
  }

  /** CustomOperationTests: {"greet": ["json-logic"]} gives "Hello json-logic!" with either wrapper. */
  lemma GreetLiteral(ctx: Context, path: Path)
    ensures Apply(ctx, ListFunctionAsWritten(GreetRaw(ctx.host)), [Lit(Str("json-logic"))], Null, path) == Ok(Str("Hello " + "json-logic" + "!"))
    ensures Apply(ctx, ListFunction(Greet(ctx.host)), [Lit(Str("json-logic"))], Null, path) == Ok(Str("Hello " + "json-logic" + "!"))
  {
    var lit := [Lit(Str("json-logic"))];
    assert Eval(ctx, lit[0], Null, IndexPath(path, 0)) == Ok(Str("json-logic"));
    assert EvalItems(ctx, lit, Null, path, 1) == Ok([]);
    assert [Str("json-logic")] + [] == [Str("json-logic")];
    assert EvalItems(ctx, lit, Null, path, 0) == Ok([Str("json-logic")]);
  }

  /**
    * {"greet": [{"var": "who"}]} over {"who": "json-logic"}: the corrected
    * wrapper greets "json-logic"; the written one formats the variable node
    * itself, whose record text is "JsonLogicVariable[key=who, defaultValue=null]".
    */
  lemma GreetVariable(ctx: Context, path: Path)
    ensures var args := [Variable(Lit(Str("who")), Lit(Null))];
            var data := Obj([("who", Str("json-logic"))]);
            Apply(ctx, ListFunctionAsWritten(GreetRaw(ctx.host)), args, data, path)
              == Ok(Str("Hello " + "JsonLogicVariable[key=who, defaultValue=null]" + "!")) &&
            Apply(ctx, ListFunction(Greet(ctx.host)), args, data, path) == Ok(Str("Hello " + "json-logic" + "!"))
  {
    var args := [Variable(Lit(Str("who")), Lit(Null))];
    var data := Obj([("who", Str("json-logic"))]);
    WhoItems(ctx, data, path);
    ListFunctionSemantics(ctx, GreetRaw(ctx.host), Greet(ctx.host), args, data, path);
    assert Unwrapped([Str("json-logic")]) == [Str("json-logic")];
    WhoVariableText(ctx.host);
    assert GreetRaw(ctx.host)(args) == Ok(Str("Hello " + "JsonLogicVariable[key=who, defaultValue=null]" + "!"));
  }

  /** The record text of the variable {"var": "who"}. */
  lemma WhoVariableText(host: Host)
    ensures NodeText(host, Variable(Lit(Str("who")), Lit(Null))) == "JsonLogicVariable[key=who, defaultValue=null]"
  {
    assert NodeText(host, Lit(Str("who"))) == "who";
    assert NodeText(host, Lit(Null)) == "null";
    assert "JsonLogicVariable[key=" + "who" + ", defaultValue=" + "null" + "]" == "JsonLogicVariable[key=who, defaultValue=null]";
  }

  lemma WhoItems(ctx: Context, data: Json, path: Path)
    requires data == Obj([("who", Str("json-logic"))])
    ensures EvalItems(ctx, [Variable(Lit(Str("who")), Lit(Null))], data, path, 0) == Ok([Str("json-logic")])
  {
    var v := Variable(Lit(Str("who")), Lit(Null));
    ReadWho(ctx, data, IndexPath(path, 0));
    assert EvalItems(ctx, [v], data, path, 1) == Ok([]);
    assert [Str("json-logic")] + [] == [Str("json-logic")];
  }

  lemma ReadWho(ctx: Context, data: Json, path: Path)
    requires data == Obj([("who", Str("json-logic"))])
    ensures Eval(ctx, Variable(Lit(Str("who")), Lit(Null)), data, path) == Ok(Str("json-logic"))
  {
    assert JavaText.JavaSplitDots("who") == ["who"];
    assert Keys(data.entries) == ["who"];
    assert ["who"][1..] == [];
    assert Get(data.entries, "who") == Str("json-logic");
    assert VarPath.Walk(["who"], data, EvaluatorLaws.KeyAt(path)) == Ok(VarPath.Found(Str("json-logic")));
  }
}
