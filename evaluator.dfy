/**
  * JsonLogicEvaluator.evaluate and every operator the engine can dispatch
  * to, as one group of mutually recursive functions: an operator receives
  * its unevaluated argument nodes and evaluates them itself, through Eval.
  *
  * Termination: a call on a node is measured by (Size(node), 0, 0); an
  * operator body by (SizeSeq(args), 2, 0) and dispatch by (SizeSeq(args), 3, 0);
  * a loop over items by (SizeSeq(args), 1, items left). A literal has size
  * 0, so the argument list that the single-nested-operation rule builds
  * from a result is smaller than the operation it came from.
  */
module Evaluator {
  import opened Wrappers
  import opened JavaText
  import opened JsonValues
  import opened LooseEquality
  import opened StrictEquality
  import opened LogicAst
  import opened Rendering
  import opened EvalErrors
  import opened ValueOps
  import opened Substring
  import VarPath
  import MissingKeys

  /** The operator implementations a name can be bound to. */
  datatype Handler =
      /** An entry of the Reduce table: - + * / % min max. */
    | Arith(op: ArithOp)
      /** JsonLogic.ifExpt, registered as `if` and `?:`. */
    | IfThen
      /** JsonLogic.evaluate with a comparison: > >= < <=. */
    | Compare(cmp: CmpOp)
      /** `!` (negate) and `!!` through singleBoolean. */
    | SingleBool(negate: bool)
      /** JsonLogic.andOr. */
    | AndOr(isAnd: bool)
      /** `cat` registered through addListOperation, as written. */
    | CatAsWritten
      /** `cat` applied to the evaluated arguments. */
    | Cat
      /** `==` and `!=` through EqualityExpression.equality. */
    | Equality(negated: bool)
    | MapOver
    | FilterOver
    | ReduceOver
    | All
      /** JsonLogic.has: `some` and `none`. */
    | Has(isSome: bool)
      /** JsonLogic.in as written. */
    | InAsWritten
      /** JsonLogic.in with the string test on the evaluated haystack. */
    | In
    | Substr
      /** MissingExpression: `missing` and `missing_some`. */
    | MissingOp(isSome: bool)
    | Log
    | Merge
      /** JsonLogic.strictEquality: `===` and `!==`. */
    | StrictEq(negated: bool)
      /**
        * addListOperation / addOperation(Function) as written: the function
        * sees the unevaluated arguments. A Java function may throw, so it
        * answers a value or an error.
        */
    | ListFunctionAsWritten(rawFn: seq<Node> -> Result<Json, EvalError>)
      /** The same registration applied to the evaluated, unwrapped arguments. */
    | ListFunction(fn: seq<Json> -> Result<Json, EvalError>)
      /** The expression classes the registry does not use. */
    | IfExpr
    | LogicExpr(isAnd: bool)
    | InExpr
    | NumericComparisonExpr(cmp: CmpOp)
    | MathExpr(op: ArithOp)
    | StrictEqExpr(negated: bool)

  /** The evaluator record: the host's number parsing and rendering, and the operator table. */
  datatype Context = Context(host: Host, ops: map<string, Handler>)

  const MISSING_SOME_MESSAGE: string :=
    "missing_some expects first argument to be an integer and the second argument to be an array"
  const EQUALITY_ARITY_MESSAGE: string := "equality expressions expect exactly 2 arguments"

  /** evaluate on a value that is already evaluated: only a map inside it cannot be walked. */
  function EvalValue(v: Json): (r: Result<Json, EvalError>)
    ensures r.Ok? <==> !HasMap(v)
    ensures r.Ok? ==> r.value == v
    ensures r.Err? ==> r.error == IllegalState
  {
    if HasMap(v) then Err(IllegalState) else Ok(v)
  }

  /** JsonLogicEvaluator.evaluate(Object, data, path). */
  function Eval(ctx: Context, n: Node, data: Json, path: Path): Result<Json, EvalError>
    decreases Size(n), 0, 0
  {
    match n
    case Lit(v) => EvalValue(v)
    case ListNode(items) =>
      var vs :- EvalItems(ctx, items, data, path, 0);
      Ok(Arr(vs))
    case Operation(name, args) =>
      if name !in ctx.ops then Err(Evaluation("Undefined operation '" + name + "'", path))
      else if |args| == 1 && args[0].Operation? then
        var ret :- Eval(ctx, args[0], data, path + [Quoted(args[0].name)]);
        var unwrapped := LitAll(if ret.Arr? then ret.items else [ret]);
        Apply(ctx, ctx.ops[name], unwrapped, data, KeyPath(path, name))
      else Apply(ctx, ctx.ops[name], args, data, KeyPath(path, name))
    case Variable(k, d) => EvalVar(ctx, k, d, data, path)
  }

  /** evaluate(List, data, path): element i at path[i], in order; the first failure ends it. */
  function EvalItems(ctx: Context, items: seq<Node>, data: Json, path: Path, i: nat): (r: Result<seq<Json>, EvalError>)
    requires i <= |items|
    ensures r.Ok? ==> |r.value| == |items| - i
    decreases SizeSeq(items), 1, |items| - i
  {
    if i == |items| then Ok([])
    else
      var v :- Eval(ctx, items[i], data, IndexPath(path, i));
      var rest :- EvalItems(ctx, items, data, path, i + 1);
      Ok([v] + rest)
  }

  /** asDouble(node, data, path): the numeric reading of the evaluated node. */
  function AsDouble(ctx: Context, n: Node, data: Json, path: Path): Result<Option<real>, EvalError>
    decreases Size(n), 1, 0
  {
    var v :- Eval(ctx, n, data, path);
    Ok(Numeric(ctx.host.parse, v))
  }

  /** PreEvaluatedArgumentsExpression: evaluate every argument, then unwrap a single list. */
  function PreEvaluate(ctx: Context, args: seq<Node>, data: Json, path: Path): Result<seq<Json>, EvalError>
    decreases SizeSeq(args), 1, |args| + 1
  {
    var values :- EvalItems(ctx, args, data, path, 0);
    Ok(Unwrapped(values))
  }

  /** evaluateVar. */
  function EvalVar(ctx: Context, k: Node, d: Node, data: Json, path: Path): Result<Json, EvalError>
    decreases Size(k) + Size(d), 1, 0
  {
    var p := KeyPath(path, "var");
    if data == Null then Eval(ctx, d, Null, IndexPath(p, 1))
    else
      var key :- Eval(ctx, k, data, IndexPath(p, 0));
      if key == Null then
        // Optional.orElse evaluates the default even though the data is used.
        var unused :- Eval(ctx, d, Null, IndexPath(p, 1));
        Ok(Transform(data))
      else if key.Num? then
        var index := IntValue(key);
        if data.Arr? && 0 <= index < |data.items| then Ok(Transform(data.items[index]))
        else Eval(ctx, d, Null, IndexPath(p, 1))
      else if key.Str? then
        if key.s == "" then Ok(data)
        else
          var found :- VarPath.Walk(JavaSplitDots(key.s), data, IndexPath(p, 0));
          match found
          case Missing => Eval(ctx, d, Null, IndexPath(p, 1))
          case Found(v) => Ok(v)
      else Err(Evaluation("var first argument must be null, number, or string", IndexPath(p, 0)))
  }

  /** handler.evaluate(evaluator, args, data, path). */
  function Apply(ctx: Context, h: Handler, args: seq<Node>, data: Json, path: Path): Result<Json, EvalError>
    decreases SizeSeq(args), 3, 0
  {
    match h
    case Arith(op) => ReduceTable(ctx, op, args, data, path)
    case IfThen => IfChain(ctx, true, args, data, path)
    case Compare(c) => CompareOp(ctx, c, args, data, path)
    case SingleBool(negate) => SingleBoolean(ctx, negate, args, data, path)
    case AndOr(isAnd) => AndOrOp(ctx, isAnd, false, args, data, path)
    case CatAsWritten =>
      var values :- EvalItems(ctx, args, data, path, 0);
      var s :- CatNodes(ctx.host, args);
      Ok(Str(s))
    case Cat =>
      var values :- PreEvaluate(ctx, args, data, path);
      var s :- CatValues(ctx.host, values);
      Ok(Str(s))
    case Equality(negated) => EqualityOp(ctx, negated, args, data, path)
    case MapOver => MapOp(ctx, args, data, path)
    case FilterOver => FilterOp(ctx, args, data, path)
    case ReduceOver => ReduceOp(ctx, args, data, path)
    case All => AllOp(ctx, args, data, path)
    case Has(isSome) => HasOp(ctx, isSome, args, data, path)
    case InAsWritten => InOp(ctx, false, args, data, path)
    case In => InOp(ctx, true, args, data, path)
    case Substr => SubstrOp(ctx, args, data, path)
    case MissingOp(isSome) => MissingKeysOp(ctx, isSome, args, data, path)
    case Log =>
      if args == [] then Err(Evaluation("log operator requires exactly 1 argument", path))
      else Eval(ctx, args[0], data, path)
    case Merge =>
      var r :- MergeLoop(ctx, args, data, path, 0, []);
      Ok(Arr(r))
    case StrictEq(negated) => StrictEqOp(ctx, negated, args, data, path)
    case ListFunctionAsWritten(rawFn) =>
      var values :- EvalItems(ctx, args, data, path, 0);
      rawFn(args)
    case ListFunction(fn) =>
      var values :- PreEvaluate(ctx, args, data, path);
      fn(values)
    case IfExpr => IfChain(ctx, false, args, data, path)
    case LogicExpr(isAnd) => AndOrOp(ctx, isAnd, true, args, data, path)
    case InExpr =>
      var values :- PreEvaluate(ctx, args, data, path);
      Ok(Bool(InValues(ctx.host, values)))
    case NumericComparisonExpr(c) =>
      var values :- PreEvaluate(ctx, args, data, path);
      var b :- ComparisonValues(ctx.host.parse, c, values, path);
      Ok(Bool(b))
    case MathExpr(op) =>
      var values :- PreEvaluate(ctx, args, data, path);
      MathValues(ctx.host.parse, op, values)
    case StrictEqExpr(negated) =>
      var values :- PreEvaluate(ctx, args, data, path);
      var b :- StrictValues(values, path);
      Ok(Bool(b != negated))
  }

  // ---------------------------------------------------------------------
  // The Reduce table.
  // ---------------------------------------------------------------------

  /** Reduce.evaluate: a left fold over the used operands, null as soon as one is not numeric. */
  function ReduceTable(ctx: Context, op: ArithOp, args: seq<Node>, data: Json, path: Path): Result<Json, EvalError>
    decreases SizeSeq(args), 2, 0
  {
    if args == [] then Ok(Null)
    else
      var size := UsedCount(op, |args|);
      if size < MinArguments(op) then Ok(Null)
      else if op == Times then ReduceFold(ctx, op, args, size, data, path, 0, 1.0)
      else
        var cur :- Eval(ctx, args[0], data, IndexPath(path, 0));
        match Operand(ctx.host.parse, op, cur)
        case None => Ok(Null)
        case Some(acc) =>
          if op == Minus && size == 1 then (if cur.Num? then Ok(Num(-cur.n, Double)) else Err(ClassCast))
          else ReduceFold(ctx, op, args, size, data, path, 1, acc)
  }

  function ReduceFold(ctx: Context, op: ArithOp, args: seq<Node>, size: nat, data: Json, path: Path, i: nat, acc: real)
    : Result<Json, EvalError>
    requires i <= size <= |args|
    decreases SizeSeq(args), 1, size - i
  {
    if i == size then Ok(Num(acc, Double))
    else
      var v :- Eval(ctx, args[i], data, IndexPath(path, i));
      match Operand(ctx.host.parse, op, v)
      case None => Ok(Null)
      case Some(x) =>
        match Combine(op, acc, x)
        case None => Err(NonFinite)
        case Some(next) => ReduceFold(ctx, op, args, size, data, path, i + 1, next)
  }

  // ---------------------------------------------------------------------
  // if, comparisons, !, and/or.
  // ---------------------------------------------------------------------

  /**
    * ifExpt (recheck: the condition's value is evaluated once more before
    * its truth is read) and IfExpression (no recheck).
    */
  function IfChain(ctx: Context, recheck: bool, args: seq<Node>, data: Json, path: Path): Result<Json, EvalError>
    decreases SizeSeq(args), 2, 0
  {
    if args == [] then Ok(Null)
    else if |args| == 1 then Eval(ctx, args[0], data, IndexPath(path, 0))
    else IfPairs(ctx, recheck, args, data, path, 0)
  }

  /** The pairs loop from condition i on, then the else branch. */
  function IfPairs(ctx: Context, recheck: bool, args: seq<Node>, data: Json, path: Path, i: nat): Result<Json, EvalError>
    requires i <= |args|
    decreases SizeSeq(args), 1, |args| - i
  {
    if i + 1 < |args| then
      var cond :- Eval(ctx, args[i], data, IndexPath(path, i));
      var checked :- if recheck then EvalValue(cond) else Ok(cond);
      if Truthy(checked) then Eval(ctx, args[i + 1], data, IndexPath(path, i + 1))
      else IfPairs(ctx, recheck, args, data, path, i + 2)
    else if |args| % 2 == 0 then Ok(Null)
    else Eval(ctx, args[|args| - 1], data, IndexPath(path, |args| - 1))
  }

  /** JsonLogic.evaluate for a comparison: a op b, and b op c when a third argument is given. */
  function CompareOp(ctx: Context, c: CmpOp, args: seq<Node>, data: Json, path: Path): Result<Json, EvalError>
    decreases SizeSeq(args), 2, 0
  {
    if |args| < 2 then Err(Evaluation("'" + CmpName(c) + "' requires at least 2 arguments", path))
    else
      var a :- AsDouble(ctx, args[0], data, IndexPath(path, 0));
      if a.None? then Ok(Bool(false))
      else
        var b :- AsDouble(ctx, args[1], data, IndexPath(path, 1));
        if b.None? then Ok(Bool(false))
        else if !Holds(c, a.value, b.value) then Ok(Bool(false))
        else if |args| == 2 then Ok(Bool(true))
        else
          var third :- AsDouble(ctx, args[2], data, IndexPath(path, 2));
          if third.None? then Ok(Bool(false)) else Ok(Bool(Holds(c, b.value, third.value)))
  }

  /** `!` and `!!`: no argument gives false / true; the argument is evaluated at path + "!" or "!!". */
  function SingleBoolean(ctx: Context, negate: bool, args: seq<Node>, data: Json, path: Path): Result<Json, EvalError>
    decreases SizeSeq(args), 2, 0
  {
    if args == [] then Ok(Bool(!negate))
    else
      var p := path + [Text(if negate then "!" else "!!")];
      if |args| > 1 then Err(Evaluation("! expect single argument", p))
      else
        var v :- Eval(ctx, args[0], data, p);
        Ok(Bool(if negate then !Truthy(v) else Truthy(v)))
  }

  /**
    * andOr (keepValue false: `and` answers Boolean false) and
    * LogicExpression (keepValue true: `and` answers the falsy value).
    */
  function AndOrOp(ctx: Context, isAnd: bool, keepValue: bool, args: seq<Node>, data: Json, path: Path)
    : Result<Json, EvalError>
    decreases SizeSeq(args), 2, 0
  {
    if |args| < 1 then Err(Evaluation((if isAnd then "and" else "or") + " operator expects at least 1 argument", path))
    else AndOrItems(ctx, isAnd, keepValue, args, data, path, 0)
  }

  function AndOrItems(ctx: Context, isAnd: bool, keepValue: bool, args: seq<Node>, data: Json, path: Path, i: nat)
    : Result<Json, EvalError>
    requires i < |args|
    decreases SizeSeq(args), 1, |args| - i
  {
    var v :- Eval(ctx, args[i], data, IndexPath(path, i));
    if isAnd && !Truthy(v) then Ok(if keepValue then v else Bool(false))
    else if !isAnd && Truthy(v) then Ok(v)
    else if i + 1 == |args| then Ok(v)
    else AndOrItems(ctx, isAnd, keepValue, args, data, path, i + 1)
  }

  // ---------------------------------------------------------------------
  // Equalities and `in`.
  // ---------------------------------------------------------------------

  /** EqualityExpression.equality (negated for `!=`): both sides at the operator's own path. */
  function EqualityOp(ctx: Context, negated: bool, args: seq<Node>, data: Json, path: Path): Result<Json, EvalError>
    decreases SizeSeq(args), 2, 0
  {
    if |args| != 2 then Err(Evaluation(EQUALITY_ARITY_MESSAGE, path))
    else
      var left :- Eval(ctx, args[0], data, path);
      var right :- Eval(ctx, args[1], data, path);
      Ok(Bool(LooseEquals(ctx.host.parse, left, right) != negated))
  }

  /** JsonLogic.strictEquality (negated for `!==`). */
  function StrictEqOp(ctx: Context, negated: bool, args: seq<Node>, data: Json, path: Path): Result<Json, EvalError>
    decreases SizeSeq(args), 2, 0
  {
    if |args| != 2 then Err(Evaluation(EQUALITY_ARITY_MESSAGE, path))
    else
      var left :- Eval(ctx, args[0], data, path);
      var right :- Eval(ctx, args[1], data, path);
      Ok(Bool(StrictEquals(left, right) != negated))
  }

  /**
    * JsonLogic.in. As written (corrected false) the substring test is
    * chosen when the unevaluated second argument is a string literal;
    * corrected, when its value is a string.
    */
  function InOp(ctx: Context, corrected: bool, args: seq<Node>, data: Json, path: Path): Result<Json, EvalError>
    decreases SizeSeq(args), 2, 0
  {
    if |args| < 2 then Ok(Bool(false))
    else
      var needle :- Eval(ctx, args[0], data, IndexPath(path, 0));
      var haystack :- Eval(ctx, args[1], data, IndexPath(path, 1));
      if corrected then Ok(Bool(InValues(ctx.host, [needle, haystack])))
      else if args[1].Lit? && args[1].value.Str? then
        Ok(Bool(needle != Null && Contains(args[1].value.s, ValueText(ctx.host, needle))))
      else Ok(Bool(haystack.Arr? && ValueOps.Member(needle, haystack.items)))
  }

  // ---------------------------------------------------------------------
  // Operators over a list with the item as data.
  // ---------------------------------------------------------------------

  /** MapExpression: the second argument evaluated with each item as data. */
  function MapOp(ctx: Context, args: seq<Node>, data: Json, path: Path): Result<Json, EvalError>
    decreases SizeSeq(args), 2, 0
  {
    if |args| != 2 then Err(Evaluation("map expects exactly 2 arguments", path))
    else
      var arr :- Eval(ctx, args[0], data, IndexPath(path, 0));
      if !arr.Arr? then Ok(Arr([]))
      else
        var rs :- MapItems(ctx, args, arr.items, path, 0);
        Ok(Arr(rs))
  }

  function MapItems(ctx: Context, args: seq<Node>, items: seq<Json>, path: Path, i: nat): (r: Result<seq<Json>, EvalError>)
    requires |args| == 2 && i <= |items|
    ensures r.Ok? ==> |r.value| == |items| - i
    decreases SizeSeq(args), 1, |items| - i
  {
    if i == |items| then Ok([])
    else
      var v :- Eval(ctx, args[1], items[i], IndexPath(path, 1));
      var rest :- MapItems(ctx, args, items, path, i + 1);
      Ok([v] + rest)
  }

  /** FilterExpression: the items whose predicate value is truthy, in order. */
  function FilterOp(ctx: Context, args: seq<Node>, data: Json, path: Path): Result<Json, EvalError>
    decreases SizeSeq(args), 2, 0
  {
    if |args| != 2 then Err(Evaluation("filter expects exactly 2 arguments", path))
    else
      var arr :- Eval(ctx, args[0], data, IndexPath(path, 0));
      if !arr.Arr? then Err(Evaluation("first argument to filter must be a valid array", IndexPath(path, 0)))
      else
        var kept :- FilterItems(ctx, args, arr.items, path, 0);
        Ok(Arr(kept))
  }

  function FilterItems(ctx: Context, args: seq<Node>, items: seq<Json>, path: Path, i: nat): Result<seq<Json>, EvalError>
    requires |args| == 2 && i <= |items|
    decreases SizeSeq(args), 1, |items| - i
  {
    if i == |items| then Ok([])
    else
      var t :- Eval(ctx, args[1], items[i], IndexPath(path, 1));
      var rest :- FilterItems(ctx, args, items, path, i + 1);
      Ok(if Truthy(t) then [items[i]] + rest else rest)
  }

  /** The data each reduce step sees: a HashMap holding "current" and "accumulator". */
  function ReduceScope(current: Json, accumulator: Json): Json
  {
    Obj([("current", current), ("accumulator", accumulator)])
  }

  /** ReduceExpression: the list and the seed in the outer data, then one step per item. */
  function ReduceOp(ctx: Context, args: seq<Node>, data: Json, path: Path): Result<Json, EvalError>
    decreases SizeSeq(args), 2, 0
  {
    if |args| != 3 then Err(Evaluation("reduce expects exactly 3 arguments", path))
    else
      var arr :- Eval(ctx, args[0], data, IndexPath(path, 0));
      var seed :- Eval(ctx, args[2], data, IndexPath(path, 2));
      if !arr.Arr? then Ok(seed) else ReduceItems(ctx, args, arr.items, path, 0, seed)
  }

  function ReduceItems(ctx: Context, args: seq<Node>, items: seq<Json>, path: Path, i: nat, acc: Json)
    : Result<Json, EvalError>
    requires |args| == 3 && i <= |items|
    decreases SizeSeq(args), 1, |items| - i
  {
    if i == |items| then Ok(acc)
    else
      var next :- Eval(ctx, args[1], ReduceScope(items[i], acc), IndexPath(path, 1));
      ReduceItems(ctx, args, items, path, i + 1, next)
  }

  /** JsonLogic.all (and AllExpression): a null list is false, an empty one too. */
  function AllOp(ctx: Context, args: seq<Node>, data: Json, path: Path): Result<Json, EvalError>
    decreases SizeSeq(args), 2, 0
  {
    if |args| != 2 then Err(Evaluation("all expects exactly 2 arguments", path))
    else
      var arr :- Eval(ctx, args[0], data, IndexPath(path, 0));
      if arr == Null then Ok(Bool(false))
      else if !arr.Arr? then Err(Evaluation("first argument to all must be a valid array", path))
      else if arr.items == [] then Ok(Bool(false))
      else AllItems(ctx, args, arr.items, path, 0)
  }

  /** The items from i on; every item is evaluated at path[1] (the index variable is never advanced). */
  function AllItems(ctx: Context, args: seq<Node>, items: seq<Json>, path: Path, i: nat): Result<Json, EvalError>
    requires |args| == 2 && i <= |items|
    decreases SizeSeq(args), 1, |items| - i
  {
    if i == |items| then Ok(Bool(true))
    else
      var t :- Eval(ctx, args[1], items[i], IndexPath(path, 1));
      if !Truthy(t) then Ok(Bool(false)) else AllItems(ctx, args, items, path, i + 1)
  }

  /** JsonLogic.has (and ArrayHasExpression): `some` / `none`. */
  function HasOp(ctx: Context, isSome: bool, args: seq<Node>, data: Json, path: Path): Result<Json, EvalError>
    decreases SizeSeq(args), 2, 0
  {
    var key := if isSome then "some" else "none";
    if |args| != 2 then Err(Evaluation(key + " expects exactly 2 arguments", path))
    else
      var arr :- Eval(ctx, args[0], data, IndexPath(path, 0));
      if arr == Null then Ok(Bool(!isSome))
      else if !arr.Arr? then Err(Evaluation("first argument to " + key + " must be a valid array", IndexPath(path, 0)))
      else HasItems(ctx, isSome, args, arr.items, path, 0)
  }

  function HasItems(ctx: Context, isSome: bool, args: seq<Node>, items: seq<Json>, path: Path, i: nat)
    : Result<Json, EvalError>
    requires |args| == 2 && i <= |items|
    decreases SizeSeq(args), 1, |items| - i
  {
    if i == |items| then Ok(Bool(!isSome))
    else
      var t :- Eval(ctx, args[1], items[i], IndexPath(path, 1));
      if Truthy(t) then Ok(Bool(isSome)) else HasItems(ctx, isSome, args, items, path, i + 1)
  }

  // ---------------------------------------------------------------------
  // substr, missing, merge.
  // ---------------------------------------------------------------------

  /** SubstringExpression: the numbers are read first, then the text of the first argument. */
  function SubstrOp(ctx: Context, args: seq<Node>, data: Json, path: Path): Result<Json, EvalError>
    decreases SizeSeq(args), 2, 0
  {
    if |args| < 2 || |args| > 3 then Err(Evaluation("substr expects 2 or 3 arguments", path))
    else
      var first :- AsDouble(ctx, args[1], data, path);
      if first.None? then Err(Evaluation("second argument to substr must be a number", IndexPath(path, 1)))
      else
        var v :- Eval(ctx, args[0], data, path);
        if v == Null then Err(NullPointer)
        else
          var text := ValueText(ctx.host, v);
          if |args| == 2 then
            var s :- SubstrFrom(text, DoubleToInt(first.value));
            Ok(Str(s))
          else
            var second :- AsDouble(ctx, args[2], data, path);
            if second.None? then Err(Evaluation("third argument to substr must be an integer", IndexPath(path, 2)))
            else
              var s :- SubstrRange(text, DoubleToInt(first.value), DoubleToInt(second.value));
              Ok(Str(s))
  }

  /**
    * MissingExpression.evaluate: the arguments are evaluated, unwrapped and
    * evaluated once more as values; missing_some then reads its count by
    * evaluating its first argument again.
    */
  function MissingKeysOp(ctx: Context, isSome: bool, args: seq<Node>, data: Json, path: Path): Result<Json, EvalError>
    decreases SizeSeq(args), 2, 0
  {
    if isSome && |args| < 2 then Err(Evaluation(MISSING_SOME_MESSAGE, path))
    else
      var values :- PreEvaluate(ctx, args, data, path);
      var arguments :- EvalItems(ctx, LitAll(values), data, path, 0);
      if !isSome then Ok(MissingKeys.MissingOutcome(false, data, arguments, 0.0))
      else if !arguments[1].Arr? then Err(Evaluation(MISSING_SOME_MESSAGE, path))
      else
        var count :- AsDouble(ctx, args[0], data, path);
        if count.None? then Err(Evaluation(MISSING_SOME_MESSAGE, path))
        else Ok(MissingKeys.MissingOutcome(true, data, arguments, count.value))
  }

  /**
    * The worklist of JsonLogic.merge: the head is evaluated at path[idx]
    * (a value already produced is just checked, as evaluating it again
    * does); a list result puts its elements back at the front, anything
    * else is appended to the answer.
    */
  function MergeLoop(ctx: Context, todo: seq<Node>, data: Json, path: Path, idx: nat, ret: seq<Json>)
    : Result<seq<Json>, EvalError>
    decreases SizeSeq(todo), 1, WeightSeq(todo)
  {
    if todo == [] then Ok(ret)
    else
      var e :- MergeHead(ctx, todo[0], data, path, idx);
      if e.Arr? then
        SizeSeqAppend(LitAll(e.items), todo[1..]);
        WeightSeqAppend(LitAll(e.items), todo[1..]);
        WeightSeqLitAll(e.items);
        MergeLoop(ctx, LitAll(e.items) + todo[1..], data, path, idx + 1, ret)
      else MergeLoop(ctx, todo[1..], data, path, idx + 1, ret + [e])
  }

  /** The value of the worklist's head: a value already produced is only checked, an argument is evaluated at path[idx]. */
  function MergeHead(ctx: Context, n: Node, data: Json, path: Path, idx: nat): Result<Json, EvalError>
    decreases Size(n), 0, 1
  {
    if n.Lit? then EvalValue(n.value) else Eval(ctx, n, data, IndexPath(path, idx))
  }

  // ---------------------------------------------------------------------
  // The termination measure of the merge worklist.
  // ---------------------------------------------------------------------

  /** How many list cells and leaves a value has. */
  function ValueWeight(v: Json): nat
    decreases v, 1
  {
    if v.Arr? then 1 + ValuesWeight(v.items) else 1
  }

  function ValuesWeight(vs: seq<Json>): nat
    decreases vs, 0
  {
    if vs == [] then 0 else ValueWeight(vs[0]) + ValuesWeight(vs[1..])
  }

  /** A literal weighs as its value; any other node counts one. */
  function NodeWeight(n: Node): nat
  {
    if n.Lit? then ValueWeight(n.value) else 1
  }

  function WeightSeq(ns: seq<Node>): nat
  {
    if ns == [] then 0 else NodeWeight(ns[0]) + WeightSeq(ns[1..])
  }

  lemma {:induction false} SizeSeqAppend(a: seq<Node>, b: seq<Node>)
    ensures SizeSeq(a + b) == SizeSeq(a) + SizeSeq(b)
  {
    if a != [] {
      assert (a + b)[1..] == a[1..] + b;
      SizeSeqAppend(a[1..], b);
    } else {
      assert a + b == b;
    }
  }

  lemma {:induction false} WeightSeqAppend(a: seq<Node>, b: seq<Node>)
    ensures WeightSeq(a + b) == WeightSeq(a) + WeightSeq(b)
  {
    if a != [] {
      assert (a + b)[1..] == a[1..] + b;
      WeightSeqAppend(a[1..], b);
    } else {
      assert a + b == b;
    }
  }

  lemma {:induction false} WeightSeqLitAll(vs: seq<Json>)
    ensures WeightSeq(LitAll(vs)) == ValuesWeight(vs)
  {
    if vs != [] {
      assert LitAll(vs)[1..] == LitAll(vs[1..]);
      WeightSeqLitAll(vs[1..]);
    }
  }
}
