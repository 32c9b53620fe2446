/**
  * What JsonLogicEvaluator promises about dispatch: literals and lists,
  * undefined operations, the single-nested-operation unwrap, `var`, and
  * the pre-evaluation of arguments.
  */
module EvaluatorLaws {
  import opened Wrappers
  import opened JavaText
  import opened JsonValues
  import opened LogicAst
  import opened EvalErrors
  import opened ValueOps
  import opened Evaluator
  import VarPath

  /** evaluate(List): it succeeds exactly when every element does, and element k is element k's value at path[k]. */
  lemma {:induction false} EvalItemsPointwise(ctx: Context, items: seq<Node>, data: Json, path: Path, i: nat)
    requires i <= |items|
    ensures var r := EvalItems(ctx, items, data, path, i);
            (r.Ok? <==> forall k | i <= k < |items| :: Eval(ctx, items[k], data, IndexPath(path, k)).Ok?) &&
            (r.Ok? ==> forall k | i <= k < |items| :: r.value[k - i] == Eval(ctx, items[k], data, IndexPath(path, k)).value)
    decreases |items| - i
  {
    if i < |items| {
      EvalItemsPointwise(ctx, items, data, path, i + 1);
    }
  }

  /** evaluate(List) stops at the first element that fails and reports that element's error. */
  lemma {:induction false} EvalItemsFirstError(ctx: Context, items: seq<Node>, data: Json, path: Path, i: nat, j: nat)
    requires i <= j < |items|
    requires forall k | i <= k < j :: Eval(ctx, items[k], data, IndexPath(path, k)).Ok?
    requires Eval(ctx, items[j], data, IndexPath(path, j)).Err?
    ensures EvalItems(ctx, items, data, path, i) == Err(Eval(ctx, items[j], data, IndexPath(path, j)).error)
    decreases j - i
  {
    if i < j {
      EvalItemsFirstError(ctx, items, data, path, i + 1, j);
    }
  }

  /** Null, numbers, strings and booleans evaluate to themselves, whatever the data. */
  lemma ScalarsEvaluateToThemselves(ctx: Context, v: Json, data: Json, path: Path)
    requires IsScalar(v)
    ensures Eval(ctx, Lit(v), data, path) == Ok(v)
  {
  }

  /** A list node evaluates element-wise: same length, same order, element k at path[k]. */
  lemma ListEvaluatesElementwise(ctx: Context, items: seq<Node>, data: Json, path: Path)
    ensures var r := Eval(ctx, ListNode(items), data, path);
            (r.Ok? <==> forall k | 0 <= k < |items| :: Eval(ctx, items[k], data, IndexPath(path, k)).Ok?) &&
            (r.Ok? ==> r.value.Arr? && |r.value.items| == |items| &&
                       forall k | 0 <= k < |items| :: r.value.items[k] == Eval(ctx, items[k], data, IndexPath(path, k)).value)
  {
    EvalItemsPointwise(ctx, items, data, path, 0);
  }

  /** An operation whose name is not in the table fails, before any argument is evaluated. */
  lemma UndefinedOperation(ctx: Context, name: string, args: seq<Node>, data: Json, path: Path)
    requires name !in ctx.ops
    ensures Eval(ctx, Operation(name, args), data, path) == Err(Evaluation("Undefined operation '" + name + "'", path))
  {
  }

  /**
    * An operation whose only argument is an operation: that argument is
    * evaluated first, at path + " 'name'"; a list result becomes the
    * argument list, any other result a one-element list.
    */
  lemma SingleNestedOperationUnwraps(ctx: Context, name: string, inner: Node, data: Json, path: Path)
    requires name in ctx.ops && inner.Operation?
    ensures var r := Eval(ctx, inner, data, path + [Quoted(inner.name)]);
            var whole := Eval(ctx, Operation(name, [inner]), data, path);
            (r.Err? ==> whole == Err(r.error)) &&
            (r.Ok? && r.value.Arr? ==> whole == Apply(ctx, ctx.ops[name], LitAll(r.value.items), data, KeyPath(path, name))) &&
            (r.Ok? && !r.value.Arr? ==> whole == Apply(ctx, ctx.ops[name], [Lit(r.value)], data, KeyPath(path, name)))
  {
    var r := Eval(ctx, inner, data, path + [Quoted(inner.name)]);
    if r.Ok? && !r.value.Arr? {
      assert LitAll([r.value]) == [Lit(r.value)];
    }
  }

  /** Any other argument list goes to the handler unevaluated, at path + ".name". */
  lemma OtherArgumentsPassedAsTheyAre(ctx: Context, name: string, args: seq<Node>, data: Json, path: Path)
    requires name in ctx.ops && !(|args| == 1 && args[0].Operation?)
    ensures Eval(ctx, Operation(name, args), data, path) == Apply(ctx, ctx.ops[name], args, data, KeyPath(path, name))
  {
  }

  // ---------------------------------------------------------------------
  // var
  // ---------------------------------------------------------------------

  /** The path `var`'s default is evaluated at: path.var[1]. */
  function DefaultPath(path: Path): Path
  {
    IndexPath(KeyPath(path, "var"), 1)
  }

  /** The path `var`'s key is evaluated at: path.var[0]. */
  function KeyAt(path: Path): Path
  {
    IndexPath(KeyPath(path, "var"), 0)
  }

  /** Over null data the default is evaluated (with null data) and the key is not. */
  lemma VarOverNullData(ctx: Context, k: Node, d: Node, path: Path)
    ensures Eval(ctx, Variable(k, d), Null, path) == Eval(ctx, d, Null, DefaultPath(path))
  {
  }

  /**
    * A null key gives the data with its number normalised to a double;
    * the default is still evaluated first, and its failure is the result.
    */
  lemma VarNullKey(ctx: Context, k: Node, d: Node, data: Json, path: Path)
    requires data != Null && Eval(ctx, k, data, KeyAt(path)) == Ok(Null)
    ensures var dv := Eval(ctx, d, Null, DefaultPath(path));
            Eval(ctx, Variable(k, d), data, path) == if dv.Ok? then Ok(Transform(data)) else Err(dv.error)
  {
  }

  /** A numeric key reads an in-range list element as a double; otherwise the default is the result. */
  lemma VarNumericKey(ctx: Context, k: Node, d: Node, data: Json, path: Path, key: Json)
    requires data != Null && Eval(ctx, k, data, KeyAt(path)) == Ok(key) && key.Num?
    ensures var i := IntValue(key);
            Eval(ctx, Variable(k, d), data, path) ==
              if data.Arr? && 0 <= i < |data.items| then Ok(Transform(data.items[i]))
              else Eval(ctx, d, Null, DefaultPath(path))
  {
  }

  /**
    * A string key: "" gives the data itself; otherwise the dot-separated
    * segments are walked, MISSING gives the default and a found value
    * (null included) is the result.
    */
  lemma VarStringKey(ctx: Context, k: Node, d: Node, data: Json, path: Path, name: string)
    requires data != Null && Eval(ctx, k, data, KeyAt(path)) == Ok(Str(name))
    ensures name == "" ==> Eval(ctx, Variable(k, d), data, path) == Ok(data)
    ensures name != "" ==>
              var w := VarPath.Walk(JavaSplitDots(name), data, KeyAt(path));
              Eval(ctx, Variable(k, d), data, path) ==
                if w.Err? then Err(w.error)
                else if w.value.Missing? then Eval(ctx, d, Null, DefaultPath(path))
                else Ok(w.value.value)
  {
  }

  /** A key that is a boolean, list or map is an error at path.var[0]. */
  lemma VarBadKey(ctx: Context, k: Node, d: Node, data: Json, path: Path, key: Json)
    requires data != Null && Eval(ctx, k, data, KeyAt(path)) == Ok(key)
    requires key.Bool? || key.Arr? || key.Obj?
    ensures Eval(ctx, Variable(k, d), data, path) ==
              Err(Evaluation("var first argument must be null, number, or string", KeyAt(path)))
  {
  }

  /** VariableTests: {"var": "a.b"} over {"a": {"b": 5}} is 5 as a double; a missing key gives the default. */
  lemma VarExamples(ctx: Context, path: Path)
    ensures var data := Obj([("a", Obj([("b", Num(5.0, Integral))]))]);
            Eval(ctx, Variable(Lit(Str("a.b")), Lit(Null)), data, path) == Ok(Num(5.0, Double)) &&
            Eval(ctx, Variable(Lit(Str("x")), Lit(Str("none"))), data, path) == Ok(Str("none"))
  {
    var data := Obj([("a", Obj([("b", Num(5.0, Integral))]))]);
    VarNested(ctx, data, path);
    VarMissingKey(ctx, data, path);
  }

  lemma VarNested(ctx: Context, data: Json, path: Path)
    requires data == Obj([("a", Obj([("b", Num(5.0, Integral))]))])
    ensures Eval(ctx, Variable(Lit(Str("a.b")), Lit(Null)), data, path) == Ok(Num(5.0, Double))
  {
    SplitOnDot();
    VarPath.WalkTwoKeys("a", "b", data, KeyAt(path));
  }

  lemma VarMissingKey(ctx: Context, data: Json, path: Path)
    requires data == Obj([("a", Obj([("b", Num(5.0, Integral))]))])
    ensures Eval(ctx, Variable(Lit(Str("x")), Lit(Str("none"))), data, path) == Ok(Str("none"))
  {
    assert JavaSplitDots("x") == ["x"];
    assert Keys(data.entries) == ["a"];
    assert VarPath.Walk(["x"], data, KeyAt(path)) == Ok(VarPath.Missing);
  }

  lemma SplitOnDot()
    ensures JavaSplitDots("a.b") == ["a", "b"]
  {
    assert '.' in "a.b" by { assert "a.b"[1] == '.'; }
    assert "b"[1..] == "";
    assert SplitAll("b") == [['b'] + ""] + [""][1..];
    assert ['b'] + "" == "b" && [""][1..] == [];
    assert ".b"[1..] == "b";
    assert SplitAll(".b") == ["", "b"];
    assert "a.b"[1..] == ".b";
    assert SplitAll("a.b") == [['a'] + ""] + ["", "b"][1..];
    assert ['a'] + "" == "a" && ["", "b"][1..] == ["b"];
  }

  // ---------------------------------------------------------------------
  // Pre-evaluated arguments
  // ---------------------------------------------------------------------

  /**
    * PreEvaluatedArgumentsExpression: every argument is evaluated, in
    * order, at path[k]; a single list value becomes the argument list,
    * anything else is passed on as it is.
    */
  lemma PreEvaluateUnwraps(ctx: Context, args: seq<Node>, data: Json, path: Path)
    ensures var r := EvalItems(ctx, args, data, path, 0);
            var p := PreEvaluate(ctx, args, data, path);
            (r.Err? ==> p == Err(r.error)) &&
            (r.Ok? && |args| == 1 && r.value[0].Arr? ==> p == Ok(r.value[0].items)) &&
            (r.Ok? && !(|args| == 1 && r.value[0].Arr?) ==> p == Ok(r.value))
  {
  }
}
