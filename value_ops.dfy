/**
  * The operator bodies that work on values only: the Reduce table's
  * arithmetic and getters (Reduce.java), and the pre-evaluated operators
  * (PreEvaluatedArgumentsExpression and its implementations, and the
  * functions behind addListOperation / addOperation such as `cat`).
  */
module ValueOps {
  import opened Wrappers
  import opened JavaText
  import opened JsonValues
  import opened StrictEquality
  import opened LogicAst
  import opened Rendering
  import opened EvalErrors

  datatype ArithOp = Minus | Plus | Times | Divide | Modulo | Min | Max

  datatype CmpOp = Gt | Ge | Lt | Le

  function CmpName(c: CmpOp): string
  {
    match c
    case Gt => ">"
    case Ge => ">="
    case Lt => "<"
    case Le => "<="
  }

  predicate Holds(c: CmpOp, a: real, b: real)
  {
    match c
    case Gt => a > b
    case Ge => a >= b
    case Lt => a < b
    case Le => a <= b
  }

  /** Number.intValue: a Double truncates and saturates, an integral box keeps its low 32 bits. */
  function IntValue(v: Json): int
    requires v.Num?
  {
    if v.kind == Double then DoubleToInt(v.n) else Wrap32(Truncate(v.n))
  }

  /**
    * One step of the table's reducers on doubles. A quotient or remainder
    * by zero has no finite value (None); the remainder takes the sign of
    * the dividend, as Java's % on doubles does.
    */
  function Combine(op: ArithOp, a: real, b: real): (r: Option<real>)
    ensures r.None? <==> (op == Divide || op == Modulo) && b == 0.0
  {
    match op
    case Minus => Some(a - b)
    case Plus => Some(a + b)
    case Times => Some(a * b)
    case Divide => if b == 0.0 then None else Some(a / b)
    case Modulo => if b == 0.0 then None else Some(a - b * (Truncate(a / b) as real))
    case Min => Some(if a <= b then a else b)
    case Max => Some(if a >= b then a else b)
  }

  /** Reduce.getSingle: a non-empty list is replaced by its first element until it is not one. */
  function GetSingle(v: Json): (r: Json)
    ensures !r.Arr? || r.items == []
    ensures !v.Arr? ==> r == v
    decreases v
  {
    if v.Arr? && v.items != [] then GetSingle(v.items[0]) else v
  }

  /** The getter of a Reduce entry: AP_NUMERIC for -, + and *, NUMERIC for the others. */
  function Operand(parse: DoubleParser, op: ArithOp, v: Json): Option<real>
  {
    if op == Minus || op == Plus || op == Times then Numeric(parse, GetSingle(v)) else Numeric(parse, v)
  }

  /** maxArguments of the Reduce table: / and % use at most two operands, the others all. */
  function MaxArguments(op: ArithOp): nat
  {
    if op == Divide || op == Modulo then 2 else 0
  }

  /** minArguments of the Reduce table. */
  function MinArguments(op: ArithOp): nat
  {
    if op == Divide || op == Modulo then 2 else 1
  }

  /** The number of operands Reduce.evaluate folds. */
  function UsedCount(op: ArithOp, size: nat): (n: nat)
    ensures n <= size
    ensures MaxArguments(op) > 0 ==> n <= MaxArguments(op)
  {
    if MaxArguments(op) > 0 && size > MaxArguments(op) then MaxArguments(op) else size
  }

  // ---------------------------------------------------------------------
  // Pre-evaluated argument lists.
  // ---------------------------------------------------------------------

  /** PreEvaluatedArgumentsExpression: a single list value becomes the argument list. */
  function Unwrapped(values: seq<Json>): (r: seq<Json>)
    ensures |values| == 1 && values[0].Arr? ==> r == values[0].items
    ensures !(|values| == 1 && values[0].Arr?) ==> r == values
  {
    if |values| == 1 && values[0].Arr? then values[0].items else values
  }

  /** InExpression: substring test against a string, `equals` membership in a list, false otherwise. */
  function InValues(host: Host, values: seq<Json>): bool
  {
    if |values| < 2 then false
    else if values[1].Str? then values[0] != Null && Contains(values[1].s, ValueText(host, values[0]))
    else if values[1].Arr? then Member(values[0], values[1].items)
    else false
  }

  /** List.contains: some element `equals` the needle (null matches null). */
  predicate Member(needle: Json, items: seq<Json>)
  {
    exists i | 0 <= i < |items| :: JavaEquals(needle, items[i])
  }

  /** StrictEqualityExpression on its evaluated arguments. */
  function StrictValues(values: seq<Json>, path: Path): (r: Result<bool, EvalError>)
    ensures r.Err? <==> |values| != 2
  {
    if |values| != 2 then Err(Evaluation("equality expressions expect exactly 2 arguments", path))
    else Ok(StrictEquals(values[0], values[1]))
  }

  /** NumericComparisonExpression on its evaluated arguments (at most the first three are read). */
  function ComparisonValues(parse: DoubleParser, c: CmpOp, values: seq<Json>, path: Path): Result<bool, EvalError>
  {
    var n := if |values| < 3 then |values| else 3;
    if n < 2 then Err(Evaluation("'" + CmpName(c) + "' requires at least 2 arguments", path))
    else if exists i | 0 <= i < n :: Numeric(parse, values[i]).None? then Ok(false)
    else
      var a := Numeric(parse, values[0]).value;
      var b := Numeric(parse, values[1]).value;
      if |values| >= 3 then Ok(Holds(c, a, b) && Holds(c, b, Numeric(parse, values[2]).value))
      else Ok(Holds(c, a, b))
  }

  /** MathExpression.number: for + and * lists are unwrapped first; a string is parsed. */
  function MathOperand(parse: DoubleParser, pm: bool, v: Json): Option<real>
  {
    Numeric(parse, if pm then GetSingle(v) else v)
  }

  /** MathExpression on its evaluated arguments. */
  function MathValues(parse: DoubleParser, op: ArithOp, values: seq<Json>): Result<Json, EvalError>
  {
    if values == [] then Ok(Null)
    else if |values| == 1 && op == Minus then
      match MathOperand(parse, false, values[0])
      case None => Err(NullPointer)
      case Some(x) => Ok(Num(-x, Double))
    else if |values| == 1 && op == Divide then Ok(Null)
    else
      var pm := op == Times || op == Plus;
      match MathOperand(parse, pm, values[0])
      case None => Err(NullPointer)
      case Some(first) => MathFold(parse, op, pm, values, 1, first)
  }

  /** maxArguments of the MathExpression instances: -, / and % use at most two operands. */
  function MathMaxArguments(op: ArithOp): nat
  {
    if op == Minus || op == Divide || op == Modulo then 2 else 0
  }

  /** The fold of MathExpression: operand i while i < size and (i < maxArguments or maxArguments == 0). */
  function MathFold(parse: DoubleParser, op: ArithOp, pm: bool, values: seq<Json>, i: nat, acc: real): Result<Json, EvalError>
    requires 1 <= i <= |values|
    decreases |values| - i
  {
    if i == |values| || (MathMaxArguments(op) != 0 && i >= MathMaxArguments(op)) then Ok(Num(acc, Double))
    else
      match MathOperand(parse, pm, values[i])
      case None => Ok(Null)
      case Some(x) =>
        match Combine(op, acc, x)
        case None => Err(NonFinite)
        case Some(acc') => MathFold(parse, op, pm, values, i + 1, acc')
  }

  // ---------------------------------------------------------------------
  // cat
  // ---------------------------------------------------------------------

  predicate EndsWith(s: string, suffix: string)
  {
    |suffix| <= |s| && s[|s| - |suffix|..] == suffix
  }

  /** The text cat gives one value: a Double whose text ends in ".0" is written as its int value. */
  function CatPiece(host: Host, v: Json): Result<string, EvalError>
  {
    if v == Null then Err(NullPointer)
    else if v.Num? && v.kind == Double && EndsWith(host.render(v.n), ".0") then Ok(IntToString(DoubleToInt(v.n)))
    else Ok(ValueText(host, v))
  }

  /** cat: the texts of the values joined without separator; a null value is a NullPointerException. */
  function CatValues(host: Host, values: seq<Json>): (r: Result<string, EvalError>)
    ensures r.Err? <==> exists i | 0 <= i < |values| :: values[i] == Null
  {
    if values == [] then Ok("")
    else
      match CatPiece(host, values[0])
      case Err(e) => Err(e)
      case Ok(p) =>
        match CatValues(host, values[1..])
        case Err(e) =>
          assert values[1..][0] in values[1..];
          Err(e)
        case Ok(rest) =>
          assert forall i | 1 <= i < |values| :: values[i] == values[1..][i - 1];
          Ok(p + rest)
  }

  /** cat's function applied, as written, to the unevaluated arguments. */
  function CatNodes(host: Host, args: seq<Node>): Result<string, EvalError>
  {
    if args == [] then Ok("")
    else
      var piece :=
        match args[0]
        case Lit(v) => CatPiece(host, v)
        case _ => Ok(NodeText(host, args[0]));
      match piece
      case Err(e) => Err(e)
      case Ok(p) =>
        match CatNodes(host, args[1..])
        case Err(e) => Err(e)
        case Ok(rest) => Ok(p + rest)
  }
}
