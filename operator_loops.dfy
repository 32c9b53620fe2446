/**
  * The operator loops as the Java code runs them: counters, early returns
  * and a worklist. Each method computes the same answer as the evaluator
  * function that specifies the operator, whose properties are proved in
  * ControlLaws, ArithLaws and ListLaws.
  */
module OperatorLoops {
  import opened Wrappers
  import opened JsonValues
  import opened LogicAst
  import opened Rendering
  import opened EvalErrors
  import opened ValueOps
  import opened Evaluator

  /** A list result with the values already collected put in front. */
  function Prefixed(acc: seq<Json>, r: Result<seq<Json>, EvalError>): Result<seq<Json>, EvalError>
  {
    if r.Ok? then Ok(acc + r.value) else r
  }

  /** Nothing collected yet: the prefixed result is the result itself. */
  lemma PrefixedEmpty(r: Result<seq<Json>, EvalError>)
    ensures Prefixed([], r) == r
  {
    if r.Ok? {
      assert [] + r.value == r.value;
    }
  }

  // ---------------------------------------------------------------------
  // JsonLogicEvaluator.evaluate(List)
  // ---------------------------------------------------------------------

  /** Every element in order, element i at path[i]; the first failure ends the loop. */
  method EvaluateList(ctx: Context, items: seq<Node>, data: Json, path: Path) returns (r: Result<seq<Json>, EvalError>)
    ensures r == EvalItems(ctx, items, data, path, 0)
  {
    var values: seq<Json> := [];
    var i := 0;
    PrefixedEmpty(EvalItems(ctx, items, data, path, 0));
    while i < |items|
      invariant i <= |items|
      invariant EvalItems(ctx, items, data, path, 0) == Prefixed(values, EvalItems(ctx, items, data, path, i))
    {
      var v := Eval(ctx, items[i], data, IndexPath(path, i));
      if v.Err? {
        return Err(v.error);
      }
      var rest := EvalItems(ctx, items, data, path, i + 1);
      assert rest.Ok? ==> values + ([v.value] + rest.value) == values + [v.value] + rest.value;
      values := values + [v.value];
      i := i + 1;
    }
    assert values + [] == values;
    return Ok(values);
  }

  // ---------------------------------------------------------------------
  // if / ?:
  // ---------------------------------------------------------------------

  /**
    * ifExpt (recheck) and IfExpression: the pairs loop, then the else
    * branch when the number of arguments is odd.
    */
  method IfChainLoop(ctx: Context, recheck: bool, args: seq<Node>, data: Json, path: Path) returns (r: Result<Json, EvalError>)
    ensures r == IfChain(ctx, recheck, args, data, path)
  {
    if |args| == 0 {
      return Ok(Null);
    }
    if |args| == 1 {
      return Eval(ctx, args[0], data, IndexPath(path, 0));
    }
    var i := 0;
    while i + 1 < |args|
      invariant i <= |args|
      invariant IfChain(ctx, recheck, args, data, path) == IfPairs(ctx, recheck, args, data, path, i)
      decreases |args| - i
    {
      var cond := Eval(ctx, args[i], data, IndexPath(path, i));
      if cond.Err? {
        return Err(cond.error);
      }
      var checked := if recheck then EvalValue(cond.value) else Ok(cond.value);
      if checked.Err? {
        return Err(checked.error);
      }
      if Truthy(checked.value) {
        return Eval(ctx, args[i + 1], data, IndexPath(path, i + 1));
      }
      i := i + 2;
    }
    if |args| % 2 == 0 {
      return Ok(Null);
    }
    return Eval(ctx, args[|args| - 1], data, IndexPath(path, |args| - 1));
  }

  // ---------------------------------------------------------------------
  // and / or
  // ---------------------------------------------------------------------

  /** andOr and LogicExpression: stop at the first deciding value, else answer the last one. */
  method AndOrLoop(ctx: Context, isAnd: bool, keepValue: bool, args: seq<Node>, data: Json, path: Path)
    returns (r: Result<Json, EvalError>)
    ensures r == AndOrOp(ctx, isAnd, keepValue, args, data, path)
  {
    if |args| < 1 {
      return Err(Evaluation((if isAnd then "and" else "or") + " operator expects at least 1 argument", path));
    }
    var value := Bool(isAnd);
    var i := 0;
    while i < |args|
      invariant i <= |args|
      invariant i < |args| ==> AndOrOp(ctx, isAnd, keepValue, args, data, path) == AndOrItems(ctx, isAnd, keepValue, args, data, path, i)
      invariant i == |args| ==> AndOrOp(ctx, isAnd, keepValue, args, data, path) == Ok(value)
    {
      var v := Eval(ctx, args[i], data, IndexPath(path, i));
      if v.Err? {
        return Err(v.error);
      }
      value := v.value;
      if isAnd && !Truthy(value) {
        return Ok(if keepValue then value else Bool(false));
      }
      if !isAnd && Truthy(value) {
        return Ok(value);
      }
      i := i + 1;
    }
    return Ok(value);
  }

  // ---------------------------------------------------------------------
  // all, some, none
  // ---------------------------------------------------------------------

  /** JsonLogic.all: false on null or an empty list, else whether every item passes (each tested at path[1]). */
  method AllLoop(ctx: Context, args: seq<Node>, data: Json, path: Path) returns (r: Result<Json, EvalError>)
    ensures r == AllOp(ctx, args, data, path)
  {
    if |args| != 2 {
      return Err(Evaluation("all expects exactly 2 arguments", path));
    }
    var arr := Eval(ctx, args[0], data, IndexPath(path, 0));
    if arr.Err? {
      return Err(arr.error);
    }
    if arr.value == Null {
      return Ok(Bool(false));
    }
    if !arr.value.Arr? {
      return Err(Evaluation("first argument to all must be a valid array", path));
    }
    var items := arr.value.items;
    if |items| < 1 {
      return Ok(Bool(false));
    }
    var i := 0;
    while i < |items|
      invariant i <= |items|
      invariant AllOp(ctx, args, data, path) == AllItems(ctx, args, items, path, i)
    {
      var t := Eval(ctx, args[1], items[i], IndexPath(path, 1));
      if t.Err? {
        return Err(t.error);
      }
      if !Truthy(t.value) {
        return Ok(Bool(false));
      }
      i := i + 1;
    }
    return Ok(Bool(true));
  }

  /** JsonLogic.has: `some` answers true at the first passing item, `none` false; null counts as empty. */
  method HasLoop(ctx: Context, isSome: bool, args: seq<Node>, data: Json, path: Path) returns (r: Result<Json, EvalError>)
    ensures r == HasOp(ctx, isSome, args, data, path)
  {
    var key := if isSome then "some" else "none";
    if |args| != 2 {
      return Err(Evaluation(key + " expects exactly 2 arguments", path));
    }
    var arr := Eval(ctx, args[0], data, IndexPath(path, 0));
    if arr.Err? {
      return Err(arr.error);
    }
    if arr.value == Null {
      return Ok(Bool(!isSome));
    }
    if !arr.value.Arr? {
      return Err(Evaluation("first argument to " + key + " must be a valid array", IndexPath(path, 0)));
    }
    var items := arr.value.items;
    var i := 0;
    while i < |items|
      invariant i <= |items|
      invariant HasOp(ctx, isSome, args, data, path) == HasItems(ctx, isSome, args, items, path, i)
    {
      var t := Eval(ctx, args[1], items[i], IndexPath(path, 1));
      if t.Err? {
        return Err(t.error);
      }
      if Truthy(t.value) {
        return Ok(Bool(isSome));
      }
      i := i + 1;
    }
    return Ok(Bool(!isSome));
  }

  // ---------------------------------------------------------------------
  // map, filter, reduce
  // ---------------------------------------------------------------------

  /** MapExpression: one result per item, the mapper evaluated with the item as data. */
  method MapLoop(ctx: Context, args: seq<Node>, data: Json, path: Path) returns (r: Result<Json, EvalError>)
    ensures r == MapOp(ctx, args, data, path)
  {
    if |args| != 2 {
      return Err(Evaluation("map expects exactly 2 arguments", path));
    }
    var arr := Eval(ctx, args[0], data, IndexPath(path, 0));
    if arr.Err? {
      return Err(arr.error);
    }
    if !arr.value.Arr? {
      return Ok(Arr([]));
    }
    var items := arr.value.items;
    var result: seq<Json> := [];
    var i := 0;
    PrefixedEmpty(MapItems(ctx, args, items, path, 0));
    while i < |items|
      invariant i <= |items|
      invariant MapItems(ctx, args, items, path, 0) == Prefixed(result, MapItems(ctx, args, items, path, i))
    {
      var v := Eval(ctx, args[1], items[i], IndexPath(path, 1));
      if v.Err? {
        return Err(v.error);
      }
      var rest := MapItems(ctx, args, items, path, i + 1);
      assert rest.Ok? ==> result + ([v.value] + rest.value) == result + [v.value] + rest.value;
      result := result + [v.value];
      i := i + 1;
    }
    assert result + [] == result;
    return Ok(Arr(result));
  }

  /** FilterExpression: the items whose predicate value is truthy, in order. */
  method FilterLoop(ctx: Context, args: seq<Node>, data: Json, path: Path) returns (r: Result<Json, EvalError>)
    ensures r == FilterOp(ctx, args, data, path)
  {
    if |args| != 2 {
      return Err(Evaluation("filter expects exactly 2 arguments", path));
    }
    var arr := Eval(ctx, args[0], data, IndexPath(path, 0));
    if arr.Err? {
      return Err(arr.error);
    }
    if !arr.value.Arr? {
      return Err(Evaluation("first argument to filter must be a valid array", IndexPath(path, 0)));
    }
    var items := arr.value.items;
    var result: seq<Json> := [];
    var i := 0;
    PrefixedEmpty(FilterItems(ctx, args, items, path, 0));
    while i < |items|
      invariant i <= |items|
      invariant FilterItems(ctx, args, items, path, 0) == Prefixed(result, FilterItems(ctx, args, items, path, i))
    {
      var t := Eval(ctx, args[1], items[i], IndexPath(path, 1));
      if t.Err? {
        return Err(t.error);
      }
      var rest := FilterItems(ctx, args, items, path, i + 1);
      assert rest.Ok? ==> result + ([items[i]] + rest.value) == result + [items[i]] + rest.value;
      if Truthy(t.value) {
        result := result + [items[i]];
      }
      i := i + 1;
    }
    assert result + [] == result;
    return Ok(Arr(result));
  }

  /** ReduceExpression: the accumulator threaded through the items, the seed when the list is not one. */
  method ReduceLoop(ctx: Context, args: seq<Node>, data: Json, path: Path) returns (r: Result<Json, EvalError>)
    ensures r == ReduceOp(ctx, args, data, path)
  {
    if |args| != 3 {
      return Err(Evaluation("reduce expects exactly 3 arguments", path));
    }
    var arr := Eval(ctx, args[0], data, IndexPath(path, 0));
    if arr.Err? {
      return Err(arr.error);
    }
    var seed := Eval(ctx, args[2], data, IndexPath(path, 2));
    if seed.Err? {
      return Err(seed.error);
    }
    if !arr.value.Arr? {
      return Ok(seed.value);
    }
    var items := arr.value.items;
    var accumulator := seed.value;
    var i := 0;
    while i < |items|
      invariant i <= |items|
      invariant ReduceOp(ctx, args, data, path) == ReduceItems(ctx, args, items, path, i, accumulator)
    {
      var next := Eval(ctx, args[1], ReduceScope(items[i], accumulator), IndexPath(path, 1));
      if next.Err? {
        return Err(next.error);
      }
      accumulator := next.value;
      i := i + 1;
    }
    return Ok(accumulator);
  }

  // ---------------------------------------------------------------------
  // merge
  // ---------------------------------------------------------------------

  /**
    * JsonLogic.merge: take the head of the worklist and evaluate it at
    * path[idx]; a list puts its elements back in front, anything else is
    * appended to the answer.
    */
  method MergeWorklist(ctx: Context, args: seq<Node>, data: Json, path: Path) returns (r: Result<Json, EvalError>)
    ensures r == Apply(ctx, Merge, args, data, path)
  {
    var ret: seq<Json> := [];
    var todo := args;
    var idx: nat := 0;
    while todo != []
      invariant MergeLoop(ctx, args, data, path, 0, []) == MergeLoop(ctx, todo, data, path, idx, ret)
      decreases SizeSeq(todo), WeightSeq(todo)
    {
      var e := MergeHead(ctx, todo[0], data, path, idx);
      if e.Err? {
        return Err(e.error);
      }
      if e.value.Arr? {
        SizeSeqAppend(LitAll(e.value.items), todo[1..]);
        WeightSeqAppend(LitAll(e.value.items), todo[1..]);
        WeightSeqLitAll(e.value.items);
        todo := LitAll(e.value.items) + todo[1..];
      } else {
        ret := ret + [e.value];
        todo := todo[1..];
      }
      idx := idx + 1;
    }
    return Ok(Arr(ret));
  }

  // ---------------------------------------------------------------------
  // Reduce.evaluate and getSingle
  // ---------------------------------------------------------------------

  /** Reduce.getSingle: follow first elements while the value is a non-empty list. */
  method GetSingleLoop(v: Json) returns (r: Json)
    ensures r == GetSingle(v)
  {
    r := v;
    while r.Arr? && r.items != []
      invariant GetSingle(r) == GetSingle(v)
      decreases r
    {
      r := r.items[0];
    }
  }

  /** The Reduce getter: AP_NUMERIC (through getSingle) for -, + and *, NUMERIC for the others. */
  method ReduceOperand(parse: DoubleParser, op: ArithOp, v: Json) returns (x: Option<real>)
    ensures x == Operand(parse, op, v)
  {
    var value := v;
    if op == Minus || op == Plus || op == Times {
      value := GetSingleLoop(v);
    }
    return Numeric(parse, value);
  }

  /**
    * Reduce.evaluate: the first operand seeds the accumulator (1.0 for *),
    * then operands 1 .. size-1 are folded in; null as soon as one is not
    * numeric.
    */
  method ReduceTableLoop(ctx: Context, op: ArithOp, args: seq<Node>, data: Json, path: Path) returns (r: Result<Json, EvalError>)
    ensures r == ReduceTable(ctx, op, args, data, path)
  {
    if args == [] {
      return Ok(Null);
    }
    var size := UsedCount(op, |args|);
    if size < MinArguments(op) {
      return Ok(Null);
    }
    var accumulator: real;
    var i: nat;
    if op == Times {
      accumulator, i := 1.0, 0;
    } else {
      var cur := Eval(ctx, args[0], data, IndexPath(path, 0));
      if cur.Err? {
        return Err(cur.error);
      }
      var first := ReduceOperand(ctx.host.parse, op, cur.value);
      if first.None? {
        return Ok(Null);
      }
      if op == Minus && size == 1 {
        if cur.value.Num? {
          return Ok(Num(-cur.value.n, Double));
        }
        return Err(ClassCast);
      }
      accumulator, i := first.value, 1;
    }
    while i < size
      invariant i <= size
      invariant ReduceTable(ctx, op, args, data, path) == ReduceFold(ctx, op, args, size, data, path, i, accumulator)
    {
      var value := Eval(ctx, args[i], data, IndexPath(path, i));
      if value.Err? {
        return Err(value.error);
      }
      var x := ReduceOperand(ctx.host.parse, op, value.value);
      if x.None? {
        return Ok(Null);
      }
      var next := Combine(op, accumulator, x.value);
      if next.None? {
        return Err(NonFinite);
      }
      accumulator := next.value;
      i := i + 1;
    }
    return Ok(Num(accumulator, Double));
  }

  // ---------------------------------------------------------------------
  // NumericComparisonExpression and MathExpression
  // ---------------------------------------------------------------------

  /**
    * NumericComparisonExpression.evaluate: the first min(size, 3)
    * arguments are converted into a double array, false as soon as one
    * does not convert; then a op b, and b op c when a third is given.
    */
  method CompareNumbers(parse: DoubleParser, c: CmpOp, arguments: seq<Json>, path: Path) returns (r: Result<bool, EvalError>)
    ensures r == ComparisonValues(parse, c, arguments, path)
  {
    var n := if |arguments| < 3 then |arguments| else 3;
    if n < 2 {
      return Err(Evaluation("'" + CmpName(c) + "' requires at least 2 arguments", path));
    }
    var values := new real[n];
    var i := 0;
    while i < n
      invariant i <= n
      invariant forall k | 0 <= k < i :: Numeric(parse, arguments[k]) == Some(values[k])
    {
      var x := Numeric(parse, arguments[i]);
      if x.None? {
        return Ok(false);
      }
      values[i] := x.value;
      i := i + 1;
    }
    if |arguments| >= 3 {
      return Ok(Holds(c, values[0], values[1]) && Holds(c, values[1], values[2]));
    }
    return Ok(Holds(c, values[0], values[1]));
  }

  /** MathExpression.number: for + and * a list is unwrapped to its first element first. */
  method MathNumber(parse: DoubleParser, pm: bool, v: Json) returns (x: Option<real>)
    ensures x == MathOperand(parse, pm, v)
  {
    var value := v;
    if pm {
      value := GetSingleLoop(v);
    }
    return Numeric(parse, value);
  }

  /**
    * MathExpression.evaluate: the unary cases, then a left fold from the
    * first operand while i < size and (i < maxArguments or maxArguments is 0).
    */
  method MathLoop(parse: DoubleParser, op: ArithOp, arguments: seq<Json>) returns (r: Result<Json, EvalError>)
    ensures r == MathValues(parse, op, arguments)
  {
    if arguments == [] {
      return Ok(Null);
    }
    if |arguments| == 1 {
      if op == Minus {
        var x := MathNumber(parse, false, arguments[0]);
        if x.None? {
          return Err(NullPointer);
        }
        return Ok(Num(-x.value, Double));
      }
      if op == Divide {
        return Ok(Null);
      }
    }
    var pm := op == Times || op == Plus;
    var first := MathNumber(parse, pm, arguments[0]);
    if first.None? {
      return Err(NullPointer);
    }
    var accumulator := first.value;
    var maxArguments := MathMaxArguments(op);
    var i := 1;
    while i < |arguments| && (i < maxArguments || maxArguments == 0)
      invariant 1 <= i <= |arguments|
      invariant MathValues(parse, op, arguments) == MathFold(parse, op, pm, arguments, i, accumulator)
    {
      var value := MathNumber(parse, pm, arguments[i]);
      if value.None? {
        return Ok(Null);
      }
      var next := Combine(op, accumulator, value.value);
      if next.None? {
        return Err(NonFinite);
      }
      accumulator := next.value;
      i := i + 1;
    }
    return Ok(Num(accumulator, Double));
  }
}
