/**
  * The arithmetic operators: the Reduce table the engine registers
  * (Reduce.evaluate) and the unregistered MathExpression, both specified
  * by one left fold of the reducer over the numeric operands.
  */
module ArithLaws {
  import opened Wrappers
  import opened JsonValues
  import opened LogicAst
  import opened EvalErrors
  import opened ValueOps
  import opened Evaluator
  import EvaluatorLaws

  /** ((acc op xs[0]) op xs[1]) ...; None once a quotient or remainder by zero has no finite value. */
  function FoldOps(op: ArithOp, acc: real, xs: seq<real>): Option<real>
    decreases |xs|
  {
    if xs == [] then Some(acc)
    else
      match Combine(op, acc, xs[0])
      case None => None
      case Some(next) => FoldOps(op, next, xs[1..])
  }

  /** The value an operator answers for a fold. */
  function FoldResult(o: Option<real>): Result<Json, EvalError>
  {
    if o.Some? then Ok(Num(o.value, Double)) else Err(NonFinite)
  }

  /** The fold is strictly left to right: folding one more operand combines it with the fold so far. */
  lemma {:induction false} FoldOpsSnoc(op: ArithOp, acc: real, xs: seq<real>, x: real)
    ensures FoldOps(op, acc, xs + [x]) == if FoldOps(op, acc, xs).Some? then Combine(op, FoldOps(op, acc, xs).value, x) else None
    decreases |xs|
  {
    if xs != [] {
      assert (xs + [x])[0] == xs[0];
      assert (xs + [x])[1..] == xs[1..] + [x];
      match Combine(op, acc, xs[0])
      case None =>
      case Some(next) => FoldOpsSnoc(op, next, xs[1..], x);
    } else {
      assert xs + [x] == [x];
      assert [x][1..] == [];
    }
  }

  /** Only a quotient or remainder can fail to have a value. */
  lemma {:induction false} FoldOpsTotal(op: ArithOp, acc: real, xs: seq<real>)
    requires op != Divide && op != Modulo
    ensures FoldOps(op, acc, xs).Some?
    decreases |xs|
  {
    if xs != [] {
      FoldOpsTotal(op, Combine(op, acc, xs[0]).value, xs[1..]);
    }
  }

  /** `max` is an upper bound of the seed and every operand, and is one of them. */
  lemma {:induction false} FoldMaxIsMaximum(acc: real, xs: seq<real>)
    ensures FoldOps(Max, acc, xs).Some?
    ensures var m := FoldOps(Max, acc, xs).value;
            acc <= m && (forall k | 0 <= k < |xs| :: xs[k] <= m) && (m == acc || exists k | 0 <= k < |xs| :: m == xs[k])
    decreases |xs|
  {
    if xs != [] {
      var next := if acc >= xs[0] then acc else xs[0];
      FoldMaxIsMaximum(next, xs[1..]);
      var m := FoldOps(Max, acc, xs).value;
      assert forall k | 1 <= k < |xs| :: xs[k] == xs[1..][k - 1];
      if m != next {
        var k :| 0 <= k < |xs[1..]| && m == xs[1..][k];
        assert m == xs[k + 1];
      }
    }
  }

  /** `min` is a lower bound of the seed and every operand, and is one of them. */
  lemma {:induction false} FoldMinIsMinimum(acc: real, xs: seq<real>)
    ensures FoldOps(Min, acc, xs).Some?
    ensures var m := FoldOps(Min, acc, xs).value;
            m <= acc && (forall k | 0 <= k < |xs| :: m <= xs[k]) && (m == acc || exists k | 0 <= k < |xs| :: m == xs[k])
    decreases |xs|
  {
    if xs != [] {
      var next := if acc <= xs[0] then acc else xs[0];
      FoldMinIsMinimum(next, xs[1..]);
      var m := FoldOps(Min, acc, xs).value;
      assert forall k | 1 <= k < |xs| :: xs[k] == xs[1..][k - 1];
      if m != next {
        var k :| 0 <= k < |xs[1..]| && m == xs[1..][k];
        assert m == xs[k + 1];
      }
    }
  }

  // ---------------------------------------------------------------------
  // Reduce.evaluate
  // ---------------------------------------------------------------------

  /** Operands i .. size-1 evaluate (at path[k]) and the entry's getter reads them as xs[k]. */
  predicate OperandsRead(ctx: Context, op: ArithOp, args: seq<Node>, data: Json, path: Path, i: nat, size: nat, xs: seq<real>)
    requires i <= size <= |args| && |xs| == size
  {
    forall k | i <= k < size ::
      var v := Eval(ctx, args[k], data, IndexPath(path, k));
      v.Ok? && Operand(ctx.host.parse, op, v.value) == Some(xs[k])
  }

  lemma {:induction false} ReduceFoldIsLeftFold(ctx: Context, op: ArithOp, args: seq<Node>, size: nat, data: Json, path: Path,
                                                i: nat, acc: real, xs: seq<real>)
    requires i <= size <= |args| && |xs| == size
    requires OperandsRead(ctx, op, args, data, path, i, size, xs)
    ensures ReduceFold(ctx, op, args, size, data, path, i, acc) == FoldResult(FoldOps(op, acc, xs[i..]))
    decreases size - i
  {
    if i < size {
      assert xs[i..][0] == xs[i] && xs[i..][1..] == xs[i + 1..];
      match Combine(op, acc, xs[i])
      case None =>
      case Some(next) => ReduceFoldIsLeftFold(ctx, op, args, size, data, path, i + 1, next, xs);
    }
  }

  /**
    * With every used operand numeric, the table folds them left to right:
    * `*` from 1.0 over all of them, the others from the first operand
    * over the rest.
    */
  lemma ReduceTableIsLeftFold(ctx: Context, op: ArithOp, args: seq<Node>, data: Json, path: Path, xs: seq<real>)
    requires args != [] && UsedCount(op, |args|) >= MinArguments(op)
    requires |xs| == UsedCount(op, |args|)
    requires OperandsRead(ctx, op, args, data, path, 0, UsedCount(op, |args|), xs)
    requires !(op == Minus && |xs| == 1)
    ensures ReduceTable(ctx, op, args, data, path) ==
              if op == Times then FoldResult(FoldOps(Times, 1.0, xs)) else FoldResult(FoldOps(op, xs[0], xs[1..]))
  {
    var size := UsedCount(op, |args|);
    if op == Times {
      ReduceFoldIsLeftFold(ctx, op, args, size, data, path, 0, 1.0, xs);
      assert xs[0..] == xs;
    } else {
      ReduceFoldIsLeftFold(ctx, op, args, size, data, path, 1, xs[0], xs);
    }
  }

  /** No argument gives null; `/` and `%` with a single argument give null. */
  lemma ReduceTableTooFew(ctx: Context, op: ArithOp, args: seq<Node>, data: Json, path: Path)
    ensures args == [] ==> ReduceTable(ctx, op, args, data, path) == Ok(Null)
    ensures (op == Divide || op == Modulo) && |args| == 1 ==> ReduceTable(ctx, op, args, data, path) == Ok(Null)
  {
  }

  /** Unary minus negates a number; a value the getter reads as a number but that is no Number fails the cast. */
  lemma ReduceUnaryMinus(ctx: Context, args: seq<Node>, data: Json, path: Path, v: Json)
    requires |args| == 1 && Eval(ctx, args[0], data, IndexPath(path, 0)) == Ok(v)
    requires Operand(ctx.host.parse, Minus, v).Some?
    ensures v.Num? ==> ReduceTable(ctx, Minus, args, data, path) == Ok(Num(-v.n, Double))
    ensures !v.Num? ==> ReduceTable(ctx, Minus, args, data, path) == Err(ClassCast)
  {
  }

  lemma {:induction false} ReduceFoldPrefix(ctx: Context, op: ArithOp, args: seq<Node>, m: nat, size: nat, data: Json, path: Path,
                                            i: nat, acc: real)
    requires i <= size <= m <= |args|
    ensures ReduceFold(ctx, op, args, size, data, path, i, acc) == ReduceFold(ctx, op, args[..m], size, data, path, i, acc)
    decreases size - i
  {
    if i < size {
      assert args[..m][i] == args[i];
      var v := Eval(ctx, args[i], data, IndexPath(path, i));
      if v.Ok? && Operand(ctx.host.parse, op, v.value).Some? {
        var x := Operand(ctx.host.parse, op, v.value).value;
        if Combine(op, acc, x).Some? {
          ReduceFoldPrefix(ctx, op, args, m, size, data, path, i + 1, Combine(op, acc, x).value);
        }
      }
    }
  }

  /** `/` and `%` read their first two arguments only: the rest are never evaluated. */
  lemma QuotientUsesFirstTwo(ctx: Context, op: ArithOp, args: seq<Node>, data: Json, path: Path)
    requires op == Divide || op == Modulo
    requires |args| >= 2
    ensures ReduceTable(ctx, op, args, data, path) == ReduceTable(ctx, op, args[..2], data, path)
  {
    assert args[..2][0] == args[0];
    var cur := Eval(ctx, args[0], data, IndexPath(path, 0));
    if cur.Ok? && Operand(ctx.host.parse, op, cur.value).Some? {
      ReduceFoldPrefix(ctx, op, args, 2, 2, data, path, 1, Operand(ctx.host.parse, op, cur.value).value);
    }
  }

  lemma {:induction false} ReduceFoldNonNumeric(ctx: Context, op: ArithOp, args: seq<Node>, size: nat, data: Json, path: Path,
                                                i: nat, acc: real, j: nat)
    requires op != Divide && op != Modulo
    requires i <= j < size <= |args|
    requires forall k | i <= k <= j :: Eval(ctx, args[k], data, IndexPath(path, k)).Ok?
    requires Operand(ctx.host.parse, op, Eval(ctx, args[j], data, IndexPath(path, j)).value).None?
    ensures ReduceFold(ctx, op, args, size, data, path, i, acc) == Ok(Null)
    decreases j - i
  {
    var v := Eval(ctx, args[i], data, IndexPath(path, i)).value;
    if i < j && Operand(ctx.host.parse, op, v).Some? {
      var x := Operand(ctx.host.parse, op, v).value;
      ReduceFoldNonNumeric(ctx, op, args, size, data, path, i + 1, Combine(op, acc, x).value, j);
    }
  }

  /**
    * A used operand the getter cannot read as a number makes the whole
    * result null (for the reducers that cannot fail; `/` and `%` are
    * covered by their two-operand fold).
    */
  lemma ReduceNonNumericIsNull(ctx: Context, op: ArithOp, args: seq<Node>, data: Json, path: Path, j: nat)
    requires op != Divide && op != Modulo
    requires j < |args|
    requires forall k | 0 <= k <= j :: Eval(ctx, args[k], data, IndexPath(path, k)).Ok?
    requires Operand(ctx.host.parse, op, Eval(ctx, args[j], data, IndexPath(path, j)).value).None?
    ensures ReduceTable(ctx, op, args, data, path) == Ok(Null)
  {
    var size := UsedCount(op, |args|);
    if op == Times {
      ReduceFoldNonNumeric(ctx, op, args, size, data, path, 0, 1.0, j);
    } else if j > 0 {
      var cur := Eval(ctx, args[0], data, IndexPath(path, 0)).value;
      if Operand(ctx.host.parse, op, cur).Some? {
        ReduceFoldNonNumeric(ctx, op, args, size, data, path, 1, Operand(ctx.host.parse, op, cur).value, j);
      }
    }
  }

  /** Reduce.getSingle: a non-empty list is replaced by its first element, repeatedly. */
  lemma GetSingleUnwraps(v: Json)
    ensures v.Arr? && v.items != [] ==> GetSingle(v) == GetSingle(v.items[0])
    ensures GetSingle(Arr([Arr([Num(3.0, Integral), Null])])) == Num(3.0, Integral)
    ensures GetSingle(Arr([])) == Arr([])
  {
  }

  // ---------------------------------------------------------------------
  // MathExpression
  // ---------------------------------------------------------------------

  /** The number of operands MathExpression folds. */
  function MathCount(op: ArithOp, size: nat): nat
  {
    if MathMaxArguments(op) != 0 && size > MathMaxArguments(op) then MathMaxArguments(op) else size
  }

  /** Values i .. n-1 are read by `number` as xs[k]. */
  predicate MathOperandsRead(parse: DoubleParser, op: ArithOp, values: seq<Json>, i: nat, n: nat, xs: seq<real>)
    requires i <= n <= |values| && |xs| == n
  {
    forall k | i <= k < n :: MathOperand(parse, op == Times || op == Plus, values[k]) == Some(xs[k])
  }

  lemma {:induction false} MathFoldIsLeftFold(parse: DoubleParser, op: ArithOp, values: seq<Json>, i: nat, acc: real, xs: seq<real>)
    requires 1 <= i <= MathCount(op, |values|) && |xs| == MathCount(op, |values|)
    requires MathOperandsRead(parse, op, values, i, |xs|, xs)
    ensures MathFold(parse, op, op == Times || op == Plus, values, i, acc) == FoldResult(FoldOps(op, acc, xs[i..]))
    decreases |values| - i
  {
    if i < |xs| {
      assert xs[i..][0] == xs[i] && xs[i..][1..] == xs[i + 1..];
      match Combine(op, acc, xs[i])
      case None =>
      case Some(next) => MathFoldIsLeftFold(parse, op, values, i + 1, next, xs);
    }
  }

  /**
    * MathExpression on numeric operands: the first operand reduced by the
    * rest, at most two of them for -, / and %, left to right.
    */
  lemma MathIsLeftFold(parse: DoubleParser, op: ArithOp, values: seq<Json>, xs: seq<real>)
    requires |values| >= 2 && |xs| == MathCount(op, |values|)
    requires MathOperandsRead(parse, op, values, 0, |xs|, xs)
    ensures MathValues(parse, op, values) == FoldResult(FoldOps(op, xs[0], xs[1..]))
  {
    MathFoldIsLeftFold(parse, op, values, 1, xs[0], xs);
  }

  /** No operand gives null; a single one: `-` negates it, `/` gives null, the others answer it. */
  lemma MathFewOperands(parse: DoubleParser, op: ArithOp, values: seq<Json>)
    ensures values == [] ==> MathValues(parse, op, values) == Ok(Null)
    ensures |values| == 1 && op == Divide ==> MathValues(parse, op, values) == Ok(Null)
    ensures |values| == 1 && op == Minus ==>
              MathValues(parse, op, values) ==
                if Numeric(parse, values[0]).Some? then Ok(Num(-Numeric(parse, values[0]).value, Double)) else Err(NullPointer)
    ensures |values| == 1 && op != Minus && op != Divide ==>
              MathValues(parse, op, values) ==
                if MathOperand(parse, op == Times || op == Plus, values[0]).Some?
                then Ok(Num(MathOperand(parse, op == Times || op == Plus, values[0]).value, Double))
                else Err(NullPointer)
  {
  }

  /** A first operand that is not a number is dereferenced anyway: a NullPointerException. */
  lemma MathFirstNotNumeric(parse: DoubleParser, op: ArithOp, values: seq<Json>)
    requires |values| >= 2 && MathOperand(parse, op == Times || op == Plus, values[0]).None?
    ensures MathValues(parse, op, values) == Err(NullPointer)
  {
  }

  lemma {:induction false} MathFoldNonNumeric(parse: DoubleParser, op: ArithOp, values: seq<Json>, i: nat, acc: real, j: nat)
    requires op != Divide && op != Modulo
    requires 1 <= i <= j < MathCount(op, |values|)
    requires MathOperand(parse, op == Times || op == Plus, values[j]).None?
    ensures MathFold(parse, op, op == Times || op == Plus, values, i, acc) == Ok(Null)
    decreases j - i
  {
    var pm := op == Times || op == Plus;
    if i < j && MathOperand(parse, pm, values[i]).Some? {
      MathFoldNonNumeric(parse, op, values, i + 1, Combine(op, acc, MathOperand(parse, pm, values[i]).value).value, j);
    }
  }

  /** A later operand that is not a number makes the result null. */
  lemma MathLaterNotNumeric(parse: DoubleParser, op: ArithOp, values: seq<Json>, j: nat)
    requires op != Divide && op != Modulo
    requires 1 <= j < MathCount(op, |values|)
    requires MathOperand(parse, op == Times || op == Plus, values[0]).Some?
    requires MathOperand(parse, op == Times || op == Plus, values[j]).None?
    ensures MathValues(parse, op, values) == Ok(Null)
  {
    var pm := op == Times || op == Plus;
    MathFoldNonNumeric(parse, op, values, 1, MathOperand(parse, pm, values[0]).value, j);
  }

  /** The registered `+` and MathExpression's agree on literal numbers: both are the sum, left to right. */
  lemma PlusAgrees(ctx: Context, a: real, b: real, c: real, data: Json, path: Path)
    ensures var args := [Lit(Num(a, Integral)), Lit(Num(b, Double)), Lit(Num(c, Integral))];
            ReduceTable(ctx, Plus, args, data, path) == Ok(Num(a + b + c, Double)) &&
            Apply(ctx, MathExpr(Plus), args, data, path) == Ok(Num(a + b + c, Double))
  {
    var values := [Num(a, Integral), Num(b, Double), Num(c, Integral)];
    var args := LitAll(values);
    var xs := [a, b, c];
    PlusOperands(ctx, a, b, c, data, path);
    FoldThree(a, b, c);
    ReduceTableIsLeftFold(ctx, Plus, args, data, path, xs);
    MathIsLeftFold(ctx.host.parse, Plus, values, xs);
  }

  lemma FoldThree(a: real, b: real, c: real)
    ensures FoldOps(Plus, a, [b, c]) == Some(a + b + c)
  {
    assert [b, c][1..] == [c] && [c][1..] == [];
    assert FoldOps(Plus, a + b + c, []) == Some(a + b + c);
    assert FoldOps(Plus, a + b, [c]) == Some(a + b + c);
  }

  /** The three literals read as the operands a, b, c and evaluate to themselves, in order. */
  lemma PlusOperands(ctx: Context, a: real, b: real, c: real, data: Json, path: Path)
    ensures var values := [Num(a, Integral), Num(b, Double), Num(c, Integral)];
            var args := LitAll(values);
            args == [Lit(Num(a, Integral)), Lit(Num(b, Double)), Lit(Num(c, Integral))] &&
            OperandsRead(ctx, Plus, args, data, path, 0, 3, [a, b, c]) &&
            PreEvaluate(ctx, args, data, path) == Ok(values) &&
            MathOperandsRead(ctx.host.parse, Plus, values, 0, 3, [a, b, c])
  {
    var values := [Num(a, Integral), Num(b, Double), Num(c, Integral)];
    var args := LitAll(values);
    assert args == [Lit(Num(a, Integral)), Lit(Num(b, Double)), Lit(Num(c, Integral))];
    var xs := [a, b, c];
    forall k | 0 <= k < 3
      ensures Eval(ctx, args[k], data, IndexPath(path, k)) == Ok(values[k])
      ensures Operand(ctx.host.parse, Plus, values[k]) == Some(xs[k])
      ensures MathOperand(ctx.host.parse, true, values[k]) == Some(xs[k])
    {
      EvaluatorLaws.ScalarsEvaluateToThemselves(ctx, values[k], data, IndexPath(path, k));
    }
    EvaluatorLaws.EvalItemsPointwise(ctx, args, data, path, 0);
    var r := EvalItems(ctx, args, data, path, 0).value;
    assert r[0] == values[0] && r[1] == values[1] && r[2] == values[2];
    assert r == values;
  }
}
