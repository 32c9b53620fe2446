/**
  * What an evaluation can throw: JsonLogicEvaluationException with a
  * message and a path, the same exception wrapping a NumberFormatException,
  * and the unchecked Java exceptions the operators let escape.
  */
module EvalErrors {
  import opened LogicAst

  datatype EvalError =
    | Evaluation(message: string, path: Path)
      /** JsonLogicEvaluationException(cause, path) around Integer.parseInt(input). */
    | NumberFormat(input: string, path: Path)
      /** evaluate() reached a map, which is not a rule. */
    | IllegalState
      /** A cast of a non-number to Number (unary minus in Reduce). */
    | ClassCast
      /** toString or doubleValue on null. */
    | NullPointer
      /** String.substring outside the string. */
    | IndexOutOfBounds
      /** A double operation whose result is not finite (division or remainder by zero). */
    | NonFinite

  /** The exception message: for a wrapped cause it is the cause's own toString. */
  function ErrorMessage(e: EvalError): string
  {
    match e
    case Evaluation(m, _) => m
    case NumberFormat(s, _) => "java.lang.NumberFormatException: For input string: \"" + s + "\""
    case _ => ""
  }
}
