/** The ways JsonParserString.parse can fail, with the message or exception each one raises. */
module ReaderErrors {
  datatype ReadError =
    | InvalidTrue | InvalidFalse | InvalidNull
    | InvalidHex
    | TruncatedEscape        // StringIndexOutOfBoundsException: the text ends inside an escape
    | LoneSurrogate          // a \u escape left half of a surrogate pair (not a Unicode scalar value)
    | IsolatedMinus | LeadingZero | ExpectedDigit | ExpectedFractionDigit | ExpectedExponentDigit
    | InvalidNumberSyntax
    | ExpectedColon | ExpectedComma | ExpectedCloseBracket
    | UnexpectedColon | UnexpectedComma | UnexpectedChar
    | Unbalanced
    | EmptyStack             // NoSuchElementException from popping an empty deque
    | BadStackIndex          // ArrayIndexOutOfBoundsException on the size stack
    | NegativeArraySize      // NegativeArraySizeException: ']' closes an object's frame
    | KeyNotString           // ClassCastException on an object key

  /** The message text (the "[line:col] ... at index i" decoration is not modelled). */
  function Message(e: ReadError): string
  {
    match e
    case InvalidTrue => "Invalid 'true'"
    case InvalidFalse => "Invalid 'false'"
    case InvalidNull => "Invalid 'null'"
    case InvalidHex => "Invalid hex"
    case TruncatedEscape => "java.lang.StringIndexOutOfBoundsException"
    case LoneSurrogate => "unpaired surrogate"
    case IsolatedMinus => "Isolated minus"
    case LeadingZero => "Leading zero not allowed"
    case ExpectedDigit => "Expected digit"
    case ExpectedFractionDigit => "Expected digit after ."
    case ExpectedExponentDigit => "Expected digit in exponent"
    case InvalidNumberSyntax => "Invalid number syntax"
    case ExpectedColon => "Expected ':'"
    case ExpectedComma => "Expected ','"
    case ExpectedCloseBracket => "Expected ']'"
    case UnexpectedColon => "Unexpected ':'"
    case UnexpectedComma => "Unexpected ','"
    case UnexpectedChar => "Unexpected char"
    case Unbalanced => "Unbalanced"
    case EmptyStack => "java.util.NoSuchElementException"
    case BadStackIndex => "java.lang.ArrayIndexOutOfBoundsException"
    case NegativeArraySize => "java.lang.NegativeArraySizeException"
    case KeyNotString => "java.lang.ClassCastException"
  }
}
