/**
  * The registered control and comparison operators of JsonLogic.java and
  * their unregistered *Expression counterparts: if / ?:, comparisons,
  * ! and !!, and / or, all / some / none, in, == / != and === / !==.
  */
module ControlLaws {
  import opened Wrappers
  import opened JavaText
  import opened JsonValues
  import opened LooseEquality
  import opened StrictEquality
  import opened LogicAst
  import opened Rendering
  import opened EvalErrors
  import opened ValueOps
  import opened Evaluator
  import EvaluatorLaws
  import VarPath

  // ---------------------------------------------------------------------
  // if / ?:
  // ---------------------------------------------------------------------

  /** Every pair condition before position m evaluates to a falsy value with no map inside. */
  predicate FalsyConditions(ctx: Context, args: seq<Node>, data: Json, path: Path, m: nat)
  {
    forall j | 0 <= j < m && j % 2 == 0 && j + 1 < |args| ::
      var c := Eval(ctx, args[j], data, IndexPath(path, j));
      c.Ok? && !Truthy(c.value) && !HasMap(c.value)
  }

  lemma {:induction false} IfPairsSkip(ctx: Context, recheck: bool, args: seq<Node>, data: Json, path: Path, i: nat, m: nat)
    requires i <= m <= |args| && i % 2 == 0 && m % 2 == 0
    requires FalsyConditions(ctx, args, data, path, m)
    ensures IfPairs(ctx, recheck, args, data, path, i) == IfPairs(ctx, recheck, args, data, path, m)
    decreases m - i
  {
    if i < m {
      assert i + 1 < |args|;
      IfPairsSkip(ctx, recheck, args, data, path, i + 2, m);
    }
  }

  /** No argument gives null; a single argument is evaluated at path[0] and is the result. */
  lemma IfFewArguments(ctx: Context, recheck: bool, args: seq<Node>, data: Json, path: Path)
    requires |args| <= 1
    ensures args == [] ==> IfChain(ctx, recheck, args, data, path) == Ok(Null)
    ensures |args| == 1 ==> IfChain(ctx, recheck, args, data, path) == Eval(ctx, args[0], data, IndexPath(path, 0))
  {
  }

  /**
    * The result is the branch paired with the first truthy condition;
    * later conditions and branches are not evaluated. Only the written
    * ifExpt, which evaluates the condition's value again, needs that value
    * to hold no map.
    */
  lemma IfSelectsFirstTruthy(ctx: Context, recheck: bool, args: seq<Node>, data: Json, path: Path, i: nat)
    requires i % 2 == 0 && i + 1 < |args|
    requires FalsyConditions(ctx, args, data, path, i)
    requires var c := Eval(ctx, args[i], data, IndexPath(path, i)); c.Ok? && Truthy(c.value) && (recheck ==> !HasMap(c.value))
    ensures IfChain(ctx, recheck, args, data, path) == Eval(ctx, args[i + 1], data, IndexPath(path, i + 1))
  {
    IfPairsSkip(ctx, recheck, args, data, path, 0, i);
  }

  /** With no truthy condition, an even count gives null and an odd count the last argument. */
  lemma IfNoMatch(ctx: Context, recheck: bool, args: seq<Node>, data: Json, path: Path)
    requires |args| >= 2
    requires FalsyConditions(ctx, args, data, path, |args| - |args| % 2)
    ensures IfChain(ctx, recheck, args, data, path) ==
              if |args| % 2 == 0 then Ok(Null) else Eval(ctx, args[|args| - 1], data, IndexPath(path, |args| - 1))
  {
    IfPairsSkip(ctx, recheck, args, data, path, 0, |args| - |args| % 2);
  }

  /** ifExpt as written: the value of {"var": ""} over map data is evaluated again and that throws. */
  lemma IfRechecksConditionValue(ctx: Context, path: Path)
    ensures var args := [Variable(Lit(Str("")), Lit(Null)), Lit(Str("yes")), Lit(Str("no"))];
            var data := Obj([("a", Bool(true))]);
            IfChain(ctx, true, args, data, path) == Err(IllegalState) &&
            IfChain(ctx, false, args, data, path) == Ok(Str("yes"))
  {
  }

  // ---------------------------------------------------------------------
  // > >= < <=
  // ---------------------------------------------------------------------

  /** The numeric reading of argument k, evaluated at path[k]. */
  function ReadingAt(ctx: Context, args: seq<Node>, data: Json, path: Path, k: nat): Result<Option<real>, EvalError>
    requires k < |args|
  {
    AsDouble(ctx, args[k], data, IndexPath(path, k))
  }

  /**
    * Two numeric operands give a op b; a third gives a op b && b op c; a
    * non-numeric one among those read gives false; fewer than two fail.
    */
  lemma CompareSemantics(ctx: Context, c: CmpOp, args: seq<Node>, data: Json, path: Path)
    ensures |args| < 2 ==>
              CompareOp(ctx, c, args, data, path) == Err(Evaluation("'" + CmpName(c) + "' requires at least 2 arguments", path))
    ensures |args| == 2 && ReadingAt(ctx, args, data, path, 0).Ok? && ReadingAt(ctx, args, data, path, 1).Ok? ==>
              var a := ReadingAt(ctx, args, data, path, 0).value;
              var b := ReadingAt(ctx, args, data, path, 1).value;
              CompareOp(ctx, c, args, data, path) == Ok(Bool(a.Some? && b.Some? && Holds(c, a.value, b.value)))
    ensures |args| >= 3 && ReadingAt(ctx, args, data, path, 0).Ok? && ReadingAt(ctx, args, data, path, 1).Ok? &&
            ReadingAt(ctx, args, data, path, 2).Ok? ==>
              var a := ReadingAt(ctx, args, data, path, 0).value;
              var b := ReadingAt(ctx, args, data, path, 1).value;
              var x := ReadingAt(ctx, args, data, path, 2).value;
              CompareOp(ctx, c, args, data, path) ==
                Ok(Bool(a.Some? && b.Some? && x.Some? && Holds(c, a.value, b.value) && Holds(c, b.value, x.value)))
  {
  }

  /** The third argument is evaluated only when the first test holds: a failing test is false whatever it is. */
  lemma CompareSkipsThird(ctx: Context, c: CmpOp, args: seq<Node>, data: Json, path: Path)
    requires |args| >= 3
    requires ReadingAt(ctx, args, data, path, 0).Ok? && ReadingAt(ctx, args, data, path, 1).Ok?
    requires var a := ReadingAt(ctx, args, data, path, 0).value;
             var b := ReadingAt(ctx, args, data, path, 1).value;
             !(a.Some? && b.Some? && Holds(c, a.value, b.value))
    ensures CompareOp(ctx, c, args, data, path) == Ok(Bool(false))
  {
  }

  /**
    * Whenever every argument evaluates, the registered comparison and
    * NumericComparisonExpression (which evaluates them all first) agree.
    */
  lemma CompareAgreesWithNumericComparison(ctx: Context, c: CmpOp, args: seq<Node>, data: Json, path: Path)
    requires |args| >= 2
    requires forall k | 0 <= k < |args| :: Eval(ctx, args[k], data, IndexPath(path, k)).Ok?
    ensures Apply(ctx, NumericComparisonExpr(c), args, data, path) == CompareOp(ctx, c, args, data, path)
  {
    EvaluatorLaws.EvalItemsPointwise(ctx, args, data, path, 0);
    var values := EvalItems(ctx, args, data, path, 0).value;
    var parse := ctx.host.parse;
    var a := Numeric(parse, values[0]);
    var b := Numeric(parse, values[1]);
    assert ReadingAt(ctx, args, data, path, 0) == Ok(a);
    assert ReadingAt(ctx, args, data, path, 1) == Ok(b);
    if |args| >= 3 {
      assert ReadingAt(ctx, args, data, path, 2) == Ok(Numeric(parse, values[2]));
    }
    CompareSemantics(ctx, c, args, data, path);
    CompareValuesCases(parse, c, values, path);
    NumericComparisonOnValues(ctx, c, args, data, path, values);
  }

  /** NumericComparisonExpression once its arguments have been evaluated to two or more values. */
  lemma NumericComparisonOnValues(ctx: Context, c: CmpOp, args: seq<Node>, data: Json, path: Path, values: seq<Json>)
    requires |args| >= 2 && EvalItems(ctx, args, data, path, 0) == Ok(values)
    ensures ComparisonValues(ctx.host.parse, c, values, path).Ok?
    ensures Apply(ctx, NumericComparisonExpr(c), args, data, path) ==
              Ok(Bool(ComparisonValues(ctx.host.parse, c, values, path).value))
  {
    assert PreEvaluate(ctx, args, data, path) == Ok(values);
    CompareValuesCases(ctx.host.parse, c, values, path);
  }

  /** NumericComparisonExpression on at least two values, case by case. */
  lemma CompareValuesCases(parse: DoubleParser, c: CmpOp, values: seq<Json>, path: Path)
    requires |values| >= 2
    ensures var a := Numeric(parse, values[0]);
            var b := Numeric(parse, values[1]);
            ComparisonValues(parse, c, values, path) ==
              if a.None? || b.None? then Ok(false)
              else if |values| == 2 then Ok(Holds(c, a.value, b.value))
              else var x := Numeric(parse, values[2]);
                   Ok(x.Some? && Holds(c, a.value, b.value) && Holds(c, b.value, x.value))
  {
    var n := if |values| < 3 then |values| else 3;
    if exists i | 0 <= i < n :: Numeric(parse, values[i]).None? {
      var i :| 0 <= i < n && Numeric(parse, values[i]).None?;
      assert i == 0 || i == 1 || i == 2;
    } else {
      assert Numeric(parse, values[0]).Some? && Numeric(parse, values[1]).Some?;
      if |values| >= 3 {
        assert Numeric(parse, values[2]).Some?;
      }
    }
  }

  // ---------------------------------------------------------------------
  // ! and !!
  // ---------------------------------------------------------------------

  /** No argument gives false / true; more than one fails; one gives its negation / truthiness. */
  lemma NotAndDoubleNot(ctx: Context, negate: bool, args: seq<Node>, data: Json, path: Path)
    ensures var p := path + [Text(if negate then "!" else "!!")];
            var r := SingleBoolean(ctx, negate, args, data, path);
            (args == [] ==> r == Ok(Bool(!negate))) &&
            (|args| > 1 ==> r == Err(Evaluation("! expect single argument", p))) &&
            (|args| == 1 && Eval(ctx, args[0], data, p).Ok? ==>
               r == Ok(Bool(Truthy(Eval(ctx, args[0], data, p).value) != negate)))
  {
  }

  // ---------------------------------------------------------------------
  // and / or
  // ---------------------------------------------------------------------

  /** A value decides `and` when it is falsy, `or` when it is truthy. */
  predicate Decides(isAnd: bool, v: Json)
  {
    if isAnd then !Truthy(v) else Truthy(v)
  }

  /** The arguments before i all evaluate, and none of them decides. */
  predicate Undecided(ctx: Context, isAnd: bool, args: seq<Node>, data: Json, path: Path, i: nat)
  {
    forall j | 0 <= j < i && j < |args| ::
      var v := Eval(ctx, args[j], data, IndexPath(path, j));
      v.Ok? && !Decides(isAnd, v.value)
  }

  lemma {:induction false} AndOrItemsSkip(ctx: Context, isAnd: bool, keep: bool, args: seq<Node>, data: Json, path: Path, j: nat, i: nat)
    requires j <= i < |args|
    requires Undecided(ctx, isAnd, args, data, path, i)
    ensures AndOrItems(ctx, isAnd, keep, args, data, path, j) == AndOrItems(ctx, isAnd, keep, args, data, path, i)
    decreases i - j
  {
    if j < i {
      AndOrItemsSkip(ctx, isAnd, keep, args, data, path, j + 1, i);
    }
  }

  /**
    * Evaluation stops at the first deciding argument: `or` returns it,
    * `and` returns Boolean false (andOr) or the value itself (LogicExpression).
    */
  lemma AndOrFirstDeciding(ctx: Context, isAnd: bool, keep: bool, args: seq<Node>, data: Json, path: Path, i: nat)
    requires i < |args| && Undecided(ctx, isAnd, args, data, path, i)
    requires var v := Eval(ctx, args[i], data, IndexPath(path, i)); v.Ok? && Decides(isAnd, v.value)
    ensures AndOrOp(ctx, isAnd, keep, args, data, path) ==
              Ok(if isAnd && !keep then Bool(false) else Eval(ctx, args[i], data, IndexPath(path, i)).value)
  {
    AndOrItemsSkip(ctx, isAnd, keep, args, data, path, 0, i);
  }

  /** When no argument decides, the result is the last value; no argument at all is an error. */
  lemma AndOrNoneDeciding(ctx: Context, isAnd: bool, keep: bool, args: seq<Node>, data: Json, path: Path)
    requires Undecided(ctx, isAnd, args, data, path, |args|)
    ensures args == [] ==>
              AndOrOp(ctx, isAnd, keep, args, data, path) ==
                Err(Evaluation((if isAnd then "and" else "or") + " operator expects at least 1 argument", path))
    ensures args != [] ==>
              AndOrOp(ctx, isAnd, keep, args, data, path) == Eval(ctx, args[|args| - 1], data, IndexPath(path, |args| - 1))
  {
    if args != [] {
      AndOrItemsSkip(ctx, isAnd, keep, args, data, path, 0, |args| - 1);
    }
  }

  lemma {:induction false} KeepValueItems(ctx: Context, isAnd: bool, args: seq<Node>, data: Json, path: Path, i: nat)
    requires i < |args|
    ensures var w := AndOrItems(ctx, isAnd, true, args, data, path, i);
            var r := AndOrItems(ctx, isAnd, false, args, data, path, i);
            (w.Err? ==> r == w) &&
            (w.Ok? ==> r == Ok(if isAnd && !Truthy(w.value) then Bool(false) else w.value))
    decreases |args| - i
  {
    if i + 1 < |args| {
      KeepValueItems(ctx, isAnd, args, data, path, i + 1);
    }
  }

  /**
    * The registered `and` and LogicExpression's differ only in what a
    * falsy answer is: Boolean false against the falsy value itself. `or`
    * is the same in both.
    */
  lemma AndOrAgainstLogicExpression(ctx: Context, isAnd: bool, args: seq<Node>, data: Json, path: Path)
    ensures var w := Apply(ctx, LogicExpr(isAnd), args, data, path);
            var r := Apply(ctx, AndOr(isAnd), args, data, path);
            (w.Err? ==> r == w) &&
            (w.Ok? ==> r == Ok(if isAnd && !Truthy(w.value) then Bool(false) else w.value))
  {
    if args != [] {
      KeepValueItems(ctx, isAnd, args, data, path, 0);
    }
  }

  lemma {:induction false} AndOrItemsTruth(ctx: Context, isAnd: bool, keep: bool, args: seq<Node>, data: Json, path: Path, i: nat)
    requires i < |args|
    requires forall j | i <= j < |args| :: Eval(ctx, args[j], data, IndexPath(path, j)).Ok?
    ensures AndOrItems(ctx, isAnd, keep, args, data, path, i).Ok?
    ensures isAnd ==> (Truthy(AndOrItems(ctx, isAnd, keep, args, data, path, i).value) <==>
                         forall j | i <= j < |args| :: Truthy(Eval(ctx, args[j], data, IndexPath(path, j)).value))
    ensures !isAnd ==> (Truthy(AndOrItems(ctx, isAnd, keep, args, data, path, i).value) <==>
                          exists j | i <= j < |args| :: Truthy(Eval(ctx, args[j], data, IndexPath(path, j)).value))
    decreases |args| - i
  {
    if i + 1 < |args| {
      AndOrItemsTruth(ctx, isAnd, keep, args, data, path, i + 1);
    }
  }

  /** When every argument evaluates: `and` is truthy iff all of them are, `or` iff one of them is. */
  lemma AndOrTruth(ctx: Context, isAnd: bool, keep: bool, args: seq<Node>, data: Json, path: Path)
    requires args != []
    requires forall j | 0 <= j < |args| :: Eval(ctx, args[j], data, IndexPath(path, j)).Ok?
    ensures AndOrOp(ctx, isAnd, keep, args, data, path).Ok?
    ensures var r := AndOrOp(ctx, isAnd, keep, args, data, path).value;
            (isAnd ==> (Truthy(r) <==> forall j | 0 <= j < |args| :: Truthy(Eval(ctx, args[j], data, IndexPath(path, j)).value))) &&
            (!isAnd ==> (Truthy(r) <==> exists j | 0 <= j < |args| :: Truthy(Eval(ctx, args[j], data, IndexPath(path, j)).value)))
  {
    AndOrItemsTruth(ctx, isAnd, keep, args, data, path, 0);
  }

  // ---------------------------------------------------------------------
  // all / some / none
  // ---------------------------------------------------------------------

  /** The predicate's value with item k as data, at path[1]. */
  function TestAt(ctx: Context, args: seq<Node>, items: seq<Json>, path: Path, k: nat): Result<Json, EvalError>
    requires |args| == 2 && k < |items|
  {
    Eval(ctx, args[1], items[k], IndexPath(path, 1))
  }

  lemma {:induction false} AllItemsSpec(ctx: Context, args: seq<Node>, items: seq<Json>, path: Path, i: nat)
    requires |args| == 2 && i <= |items|
    requires forall k | i <= k < |items| :: TestAt(ctx, args, items, path, k).Ok?
    ensures AllItems(ctx, args, items, path, i) ==
              Ok(Bool(forall k | i <= k < |items| :: Truthy(TestAt(ctx, args, items, path, k).value)))
    decreases |items| - i
  {
    if i < |items| {
      AllItemsSpec(ctx, args, items, path, i + 1);
      var t := TestAt(ctx, args, items, path, i);
      if Truthy(t.value) {
        assert (forall k | i <= k < |items| :: Truthy(TestAt(ctx, args, items, path, k).value)) <==>
               (forall k | i + 1 <= k < |items| :: Truthy(TestAt(ctx, args, items, path, k).value));
      } else {
        assert !forall k | i <= k < |items| :: Truthy(TestAt(ctx, args, items, path, k).value);
      }
    }
  }

  /**
    * `all`: a null list is false, a non-list fails, an empty list is
    * false, otherwise true iff the predicate holds for every item.
    */
  lemma AllSemantics(ctx: Context, args: seq<Node>, data: Json, path: Path, arr: Json)
    requires |args| == 2 && Eval(ctx, args[0], data, IndexPath(path, 0)) == Ok(arr)
    ensures arr == Null ==> AllOp(ctx, args, data, path) == Ok(Bool(false))
    ensures arr != Null && !arr.Arr? ==>
              AllOp(ctx, args, data, path) == Err(Evaluation("first argument to all must be a valid array", path))
    ensures arr == Arr([]) ==> AllOp(ctx, args, data, path) == Ok(Bool(false))
    ensures arr.Arr? && arr.items != [] && (forall k | 0 <= k < |arr.items| :: TestAt(ctx, args, arr.items, path, k).Ok?) ==>
              AllOp(ctx, args, data, path) ==
                Ok(Bool(forall k | 0 <= k < |arr.items| :: Truthy(TestAt(ctx, args, arr.items, path, k).value)))
  {
    if arr.Arr? && arr.items != [] && (forall k | 0 <= k < |arr.items| :: TestAt(ctx, args, arr.items, path, k).Ok?) {
      AllItemsSpec(ctx, args, arr.items, path, 0);
    }
  }

  lemma {:induction false} HasItemsSpec(ctx: Context, isSome: bool, args: seq<Node>, items: seq<Json>, path: Path, i: nat)
    requires |args| == 2 && i <= |items|
    requires forall k | i <= k < |items| :: TestAt(ctx, args, items, path, k).Ok?
    ensures HasItems(ctx, isSome, args, items, path, i) ==
              Ok(Bool(isSome == exists k | i <= k < |items| :: Truthy(TestAt(ctx, args, items, path, k).value)))
    decreases |items| - i
  {
    if i < |items| {
      HasItemsSpec(ctx, isSome, args, items, path, i + 1);
      var t := TestAt(ctx, args, items, path, i);
      if Truthy(t.value) {
        assert exists k | i <= k < |items| :: Truthy(TestAt(ctx, args, items, path, k).value);
      } else {
        assert (exists k | i <= k < |items| :: Truthy(TestAt(ctx, args, items, path, k).value)) <==>
               (exists k | i + 1 <= k < |items| :: Truthy(TestAt(ctx, args, items, path, k).value));
      }
    }
  }

  /** `some` / `none`: null gives false / true, a non-list fails at path[0], otherwise whether an item satisfies the predicate. */
  lemma HasSemantics(ctx: Context, isSome: bool, args: seq<Node>, data: Json, path: Path, arr: Json)
    requires |args| == 2 && Eval(ctx, args[0], data, IndexPath(path, 0)) == Ok(arr)
    ensures arr == Null ==> HasOp(ctx, isSome, args, data, path) == Ok(Bool(!isSome))
    ensures arr != Null && !arr.Arr? ==>
              HasOp(ctx, isSome, args, data, path) ==
                Err(Evaluation("first argument to " + (if isSome then "some" else "none") + " must be a valid array", IndexPath(path, 0)))
    ensures arr.Arr? && (forall k | 0 <= k < |arr.items| :: TestAt(ctx, args, arr.items, path, k).Ok?) ==>
              HasOp(ctx, isSome, args, data, path) ==
                Ok(Bool(isSome == exists k | 0 <= k < |arr.items| :: Truthy(TestAt(ctx, args, arr.items, path, k).value)))
  {
    if arr.Arr? && (forall k | 0 <= k < |arr.items| :: TestAt(ctx, args, arr.items, path, k).Ok?) {
      HasItemsSpec(ctx, isSome, args, arr.items, path, 0);
    }
  }

  lemma {:induction false} NoneItemsNegateSome(ctx: Context, args: seq<Node>, items: seq<Json>, path: Path, i: nat)
    requires |args| == 2 && i <= |items|
    ensures var s := HasItems(ctx, true, args, items, path, i);
            var n := HasItems(ctx, false, args, items, path, i);
            (s.Err? ==> n == s) && (s.Ok? ==> s.value.Bool? && n == Ok(Bool(!s.value.b)))
    decreases |items| - i
  {
    if i < |items| {
      NoneItemsNegateSome(ctx, args, items, path, i + 1);
    }
  }

  /** `none` is the negation of `some` on every list, and fails where `some` fails (bar the operator name in the message). */
  lemma NoneNegatesSome(ctx: Context, args: seq<Node>, data: Json, path: Path)
    ensures var s := HasOp(ctx, true, args, data, path);
            var n := HasOp(ctx, false, args, data, path);
            (s.Ok? <==> n.Ok?) && (s.Ok? ==> s.value.Bool? && n == Ok(Bool(!s.value.b)))
  {
    if |args| == 2 {
      var arr := Eval(ctx, args[0], data, IndexPath(path, 0));
      if arr.Ok? && arr.value.Arr? {
        NoneItemsNegateSome(ctx, args, arr.value.items, path, 0);
      }
    }
  }

  /** A true `all` implies a true `some` on the same arguments: `all` is false on the empty list. */
  lemma AllImpliesSome(ctx: Context, args: seq<Node>, data: Json, path: Path)
    requires AllOp(ctx, args, data, path) == Ok(Bool(true))
    ensures HasOp(ctx, true, args, data, path) == Ok(Bool(true))
  {
    var arr := Eval(ctx, args[0], data, IndexPath(path, 0)).value;
    assert AllItems(ctx, args, arr.items, path, 0) == Ok(Bool(true));
    assert TestAt(ctx, args, arr.items, path, 0).Ok?;
  }

  // ---------------------------------------------------------------------
  // in
  // ---------------------------------------------------------------------

  /** With both arguments evaluated, `in` on the evaluated haystack and InExpression agree. */
  lemma InAgreesWithInExpression(ctx: Context, args: seq<Node>, data: Json, path: Path)
    requires |args| >= 2
    requires forall k | 0 <= k < |args| :: Eval(ctx, args[k], data, IndexPath(path, k)).Ok?
    ensures Apply(ctx, InExpr, args, data, path) == InOp(ctx, true, args, data, path)
  {
    EvaluatorLaws.EvalItemsPointwise(ctx, args, data, path, 0);
  }

  /** JsonLogic.in as written is right whenever the haystack is written as a string literal. */
  lemma InAsWrittenOnLiteral(ctx: Context, needle: Node, t: string, data: Json, path: Path)
    ensures InOp(ctx, false, [needle, Lit(Str(t))], data, path) == InOp(ctx, true, [needle, Lit(Str(t))], data, path)
  {
  }

  /** `in` semantics: substring test on a string haystack (null needle false), `equals` membership in a list, false otherwise. */
  lemma InSemantics(ctx: Context, args: seq<Node>, data: Json, path: Path, needle: Json, hay: Json)
    requires |args| >= 2
    requires Eval(ctx, args[0], data, IndexPath(path, 0)) == Ok(needle)
    requires Eval(ctx, args[1], data, IndexPath(path, 1)) == Ok(hay)
    ensures InOp(ctx, true, args, data, path) ==
              Ok(Bool(if hay.Str? then needle != Null && Contains(hay.s, ValueText(ctx.host, needle))
                      else hay.Arr? && exists i | 0 <= i < |hay.items| :: JavaEquals(needle, hay.items[i])))
  {
  }

  /**
    * JsonLogic.in as written misses a haystack string that comes from a
    * variable: {"in": ["Spring", {"var": "city"}]} over {"city": "Springfield"}.
    */
  lemma InAsWrittenMissesComputedString(ctx: Context, path: Path)
    ensures var args := [Lit(Str("Spring")), Variable(Lit(Str("city")), Lit(Null))];
            var data := Obj([("city", Str("Springfield"))]);
            InOp(ctx, false, args, data, path) == Ok(Bool(false)) &&
            InOp(ctx, true, args, data, path) == Ok(Bool(true))
  {
    var data := Obj([("city", Str("Springfield"))]);
    var hay := Variable(Lit(Str("city")), Lit(Null));
    assert JavaSplitDots("city") == ["city"];
    assert Keys(data.entries) == ["city"];
    assert ["city"][1..] == [];
    assert Get(data.entries, "city") == Str("Springfield");
    assert VarPath.Walk(["city"], data, EvaluatorLaws.KeyAt(IndexPath(path, 1))) == Ok(VarPath.Found(Str("Springfield")));
    assert Eval(ctx, hay, data, IndexPath(path, 1)) == Ok(Str("Springfield"));
    assert StartsWithAt("Springfield", 0, "Spring") by {
      assert "Springfield"[0..6] == "Spring";
    }
  }

  // ---------------------------------------------------------------------
  // == != === !==
  // ---------------------------------------------------------------------

  /** `!=` is the negation of `==` on the same arguments, and fails exactly where `==` fails. */
  lemma InequalityNegatesEquality(ctx: Context, args: seq<Node>, data: Json, path: Path)
    ensures var e := EqualityOp(ctx, false, args, data, path);
            var n := EqualityOp(ctx, true, args, data, path);
            (e.Err? ==> n == e) && (e.Ok? ==> e.value.Bool? && n == Ok(Bool(!e.value.b)))
  {
  }

  /** `!==` is the negation of `===`, and its arity error is that of `===`. */
  lemma StrictInequalityNegates(ctx: Context, args: seq<Node>, data: Json, path: Path)
    ensures var e := StrictEqOp(ctx, false, args, data, path);
            var n := StrictEqOp(ctx, true, args, data, path);
            (e.Err? ==> n == e) && (e.Ok? ==> e.value.Bool? && n == Ok(Bool(!e.value.b)))
  {
  }

  /** Both need exactly two arguments. */
  lemma EqualityArity(ctx: Context, negated: bool, args: seq<Node>, data: Json, path: Path)
    requires |args| != 2
    ensures EqualityOp(ctx, negated, args, data, path) == Err(Evaluation("equality expressions expect exactly 2 arguments", path))
    ensures StrictEqOp(ctx, negated, args, data, path) == Err(Evaluation("equality expressions expect exactly 2 arguments", path))
  {
  }

  /** 1 and "1": loosely equal (so `!=` is false), not strictly equal. */
  lemma OneAgainstStringOne(ctx: Context, data: Json, path: Path)
    requires ctx.host.parse("1") == Some(1.0)
    ensures var args := [Lit(Num(1.0, Integral)), Lit(Str("1"))];
            EqualityOp(ctx, false, args, data, path) == Ok(Bool(true)) &&
            EqualityOp(ctx, true, args, data, path) == Ok(Bool(false)) &&
            StrictEqOp(ctx, false, args, data, path) == Ok(Bool(false)) &&
            StrictEqOp(ctx, true, args, data, path) == Ok(Bool(true))
  {
    assert !TrimIsEmpty("1") by { assert "1"[0] == '1'; }
  }

  // ---------------------------------------------------------------------
  // cat
  // ---------------------------------------------------------------------

  lemma {:induction false} CatNodesOnLiterals(host: Host, vs: seq<Json>)
    ensures CatNodes(host, LitAll(vs)) == CatValues(host, vs)
    decreases |vs|
  {
    if vs != [] {
      assert LitAll(vs)[1..] == LitAll(vs[1..]);
      CatNodesOnLiterals(host, vs[1..]);
    }
  }

  /** A concatenation as the value of a cat operator. */
  function AsText(r: Result<string, EvalError>): Result<Json, EvalError>
  {
    if r.Ok? then Ok(Str(r.value)) else Err(r.error)
  }

  /** Both cat handlers once the arguments have evaluated to `values`. */
  lemma CatOnValues(ctx: Context, args: seq<Node>, data: Json, path: Path, values: seq<Json>)
    requires EvalItems(ctx, args, data, path, 0) == Ok(values)
    ensures Apply(ctx, CatAsWritten, args, data, path) == AsText(CatNodes(ctx.host, args))
    ensures Apply(ctx, Cat, args, data, path) == AsText(CatValues(ctx.host, Unwrapped(values)))
  {
    assert PreEvaluate(ctx, args, data, path) == Ok(Unwrapped(values));
  }

  /**
    * On literal scalar arguments the registered cat, which reads its
    * unevaluated arguments, and concatenation of the evaluated arguments agree.
    */
  lemma CatAgreesOnLiterals(ctx: Context, vs: seq<Json>, data: Json, path: Path)
    requires forall i | 0 <= i < |vs| :: IsScalar(vs[i])
    ensures Apply(ctx, CatAsWritten, LitAll(vs), data, path) == Apply(ctx, Cat, LitAll(vs), data, path)
  {
    var args := LitAll(vs);
    EvaluatorLaws.EvalItemsPointwise(ctx, args, data, path, 0);
    forall k | 0 <= k < |args|
      ensures Eval(ctx, args[k], data, IndexPath(path, k)) == Ok(vs[k])
    {
      EvaluatorLaws.ScalarsEvaluateToThemselves(ctx, vs[k], data, IndexPath(path, k));
    }
    var values := EvalItems(ctx, args, data, path, 0).value;
    assert values == vs;
    assert Unwrapped(vs) == vs;
    CatOnValues(ctx, args, data, path, vs);
    CatNodesOnLiterals(ctx.host, vs);
  }

  /**
    * The registered cat reads a `var` argument as its node, not its value:
    * {"cat": ["Hello, ", {"var": "name"}]} over {"name": "Bob"} renders the
    * variable record where "Hello, Bob" is meant.
    */
  lemma CatAsWrittenRendersVariable(ctx: Context, path: Path)
    ensures var args := [Lit(Str("Hello, ")), Variable(Lit(Str("name")), Lit(Null))];
            var data := Obj([("name", Str("Bob"))]);
            Apply(ctx, CatAsWritten, args, data, path) ==
              Ok(Str("Hello, " + "JsonLogicVariable[key=name, defaultValue=null]")) &&
            Apply(ctx, Cat, args, data, path) == Ok(Str("Hello, Bob"))
  {
    var data := Obj([("name", Str("Bob"))]);
    var v := Variable(Lit(Str("name")), Lit(Null));
    var args := [Lit(Str("Hello, ")), v];
    ReadName(ctx, IndexPath(path, 1));
    assert Eval(ctx, args[0], data, IndexPath(path, 0)) == Ok(Str("Hello, "));
    EvaluatorLaws.EvalItemsPointwise(ctx, args, data, path, 0);
    var values := EvalItems(ctx, args, data, path, 0).value;
    assert values == [Str("Hello, "), Str("Bob")];
    CatOnValues(ctx, args, data, path, values);
    GreetingTexts(ctx.host);
  }

  lemma ReadName(ctx: Context, path: Path)
    ensures Eval(ctx, Variable(Lit(Str("name")), Lit(Null)), Obj([("name", Str("Bob"))]), path) == Ok(Str("Bob"))
  {
    var data := Obj([("name", Str("Bob"))]);
    assert JavaSplitDots("name") == ["name"];
    assert Keys(data.entries) == ["name"];
    assert ["name"][1..] == [];
    assert Get(data.entries, "name") == Str("Bob");
    assert VarPath.Walk(["name"], data, EvaluatorLaws.KeyAt(path)) == Ok(VarPath.Found(Str("Bob")));
  }

  lemma GreetingTexts(host: Host)
    ensures CatNodes(host, [Lit(Str("Hello, ")), Variable(Lit(Str("name")), Lit(Null))]) ==
              Ok("Hello, " + "JsonLogicVariable[key=name, defaultValue=null]")
    ensures CatValues(host, [Str("Hello, "), Str("Bob")]) == Ok("Hello, Bob")
  {
    GreetingNodeText(host);
    GreetingValueText(host);
  }

  lemma GreetingNodeText(host: Host)
    ensures CatNodes(host, [Lit(Str("Hello, ")), Variable(Lit(Str("name")), Lit(Null))]) ==
              Ok("Hello, " + "JsonLogicVariable[key=name, defaultValue=null]")
  {
    var v := Variable(Lit(Str("name")), Lit(Null));
    var args := [Lit(Str("Hello, ")), v];
    var vText := "JsonLogicVariable[key=name, defaultValue=null]";
    NameVariableText(host);
    assert CatNodes(host, []) == Ok("");
    assert [v][1..] == [];
    assert CatNodes(host, [v]) == Ok(vText + "");
    assert vText + "" == vText;
    assert args[1..] == [v];
    assert CatPiece(host, Str("Hello, ")) == Ok("Hello, ");
  }

  /** The record rendering of {"var": "name"}. */
  lemma NameVariableText(host: Host)
    ensures NodeText(host, Variable(Lit(Str("name")), Lit(Null))) == "JsonLogicVariable[key=name, defaultValue=null]"
  {
  }

  lemma GreetingValueText(host: Host)
    ensures CatValues(host, [Str("Hello, "), Str("Bob")]) == Ok("Hello, Bob")
  {
    var bob := [Str("Bob")];
    assert CatValues(host, []) == Ok("");
    assert bob[1..] == [];
    assert CatPiece(host, Str("Bob")) == Ok("Bob");
    assert CatValues(host, bob) == Ok("Bob" + "");
    var hb := [Str("Hello, "), Str("Bob")];
    assert hb[0] == Str("Hello, ") && hb[1..] == bob && hb != [];
    assert CatPiece(host, hb[0]) == Ok("Hello, ");
    assert "Bob" + "" == "Bob";
    assert CatValues(host, hb[1..]) == Ok("Bob");
    assert CatValues(host, hb) == Ok("Hello, " + "Bob");
    assert "Hello, " + "Bob" == "Hello, Bob";
  }
}
