/**
  * The operator table the JsonLogic constructor fills: the Reduce table
  * first, then one addOperation per built-in. Names are case-sensitive
  * map keys.
  */
module Operations {
  import opened ValueOps
  import opened Evaluator

  /** Reduce.FUNCTIONS. */
  const ReduceTable: map<string, Handler> :=
    map["-" := Arith(Minus), "+" := Arith(Plus), "*" := Arith(Times), "/" := Arith(Divide),
        "%" := Arith(Modulo), "min" := Arith(Min), "max" := Arith(Max)]

  /**
    * The table of the JsonLogic constructor, with `if`/`?:` reading a
    * condition once, `cat` working on evaluated arguments and `in` testing
    * the evaluated haystack for a string.
    */
  const DefaultOperations: map<string, Handler> := ReduceTable + BuiltIns(IfExpr, Cat, In)

  /** The constructor's table exactly as written: ifExpt, cat over the unevaluated arguments, and JsonLogic.in. */
  const AsWrittenOperations: map<string, Handler> := ReduceTable + BuiltIns(IfThen, CatAsWritten, InAsWritten)

  /** The addOperation calls after the Reduce table, with the three handlers the two tables differ in. */
  function BuiltIns(ifHandler: Handler, cat: Handler, inHandler: Handler): map<string, Handler>
  {
    map["if" := ifHandler, "?:" := ifHandler,
        ">" := Compare(Gt), ">=" := Compare(Ge), "<" := Compare(Lt), "<=" := Compare(Le),
        "!" := SingleBool(true), "!!" := SingleBool(false),
        "and" := AndOr(true), "or" := AndOr(false),
        "cat" := cat,
        "==" := Equality(false), "!=" := Equality(true),
        "map" := MapOver, "filter" := FilterOver, "reduce" := ReduceOver,
        "all" := All, "some" := Has(true), "none" := Has(false),
        "in" := inHandler,
        "substr" := Substr,
        "missing" := MissingOp(false), "missing_some" := MissingOp(true),
        "log" := Log,
        "merge" := Merge,
        "===" := StrictEq(false), "!==" := StrictEq(true)]
  }
}
