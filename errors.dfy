/**
 * The exceptions the core raises, as values. Each constructor names the Python
 * exception it stands for; `Describe` renders the message the source formats.
 */
module Errors {
  import opened PyText

  /** The three `ValueError`s raised while validating a schedule pattern. */
  datatype ValidationError =
    | EllipsisNotPreceded   // an Ellipsis without two ints right before it
    | NotIntOrEllipsis      // an element that is neither an int nor an Ellipsis
    | NotAscending          // an int not above every earlier int (or negative)
  {
    function Text(): string {
      match this
      case EllipsisNotPreceded => "An Ellipsis must be preceded by two integers."
      case NotIntOrEllipsis => "The schedule pattern must consist of ints and Ellipses."
      case NotAscending => "Schedule pattern ints must be ascending and non-negative."
    }
  }

  datatype Error =
    | IndexError                                   // list index out of range
    | SliceOrder(start: int, stop: int)            // ValueError from get_tokens_for_slice
    | BudgetExceeded(tokens: int, maxTokens: int)  // RuntimeError from get_transmissions
    | InvalidSchedule(reason: ValidationError)     // ValueError from the Schedule constructor
    | UnexpectedToken(kindName: string, text: string, pos: int, input: string)  // ValueError from parse_schedule
    | UnexpectedEnd(input: string)                 // ValueError from parse_schedule
    | InvalidLiteral(literal: string)              // ValueError from int()

  /** `repr(s)` for a string without quotes, backslashes or unprintable characters. */
  function Repr(s: string): string {
    "'" + s + "'"
  }

  /** The message text of the exception. */
  function Describe(e: Error): string {
    match e
    case IndexError => "list index out of range"
    case SliceOrder(start, stop) =>
      "stop (" + IntToString(stop) + ") must be greater than start (" + IntToString(start) + ")"
    case BudgetExceeded(tokens, maxTokens) =>
      "The last message has " + IntToString(tokens) + " tokens, more than the maximum of "
      + IntToString(maxTokens) + "."
    case InvalidSchedule(reason) => reason.Text()
    case UnexpectedToken(kindName, text, pos, input) =>
      "Unexpected " + kindName + " " + Repr(text) + " at pos " + IntToString(pos) + " in " + Repr(input) + "."
    case UnexpectedEnd(input) => "Unexpected end of string " + Repr(input) + "."
    case InvalidLiteral(literal) => "invalid literal for int() with base 10: " + Repr(literal)
  }
}
