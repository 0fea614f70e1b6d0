/**
 * The calculator's closed error taxonomy (`CalculatorError`) and the message
 * its `Display` implementation prints for each variant. Variant names keep the
 * spelling of the Rust enum, because the messages do too.
 */
module Errors {

  import opened Wrappers

  datatype CalculatorError =
    | Uknown
    | EmptyInput
    | UknownOperator(operator: char)
    | UknownSymbol(symbol: char)
    | OperationWihtoutANumber(operation: char)
    | ClosingBracketWithoutAPair
    | OpeningBracketWithoutAPair
    | DotWithoutANumber
    | DivisonByZero

  /** The character a variant carries, if it carries one. */
  function Carried(e: CalculatorError): Option<char>
  {
    match e
    case UknownOperator(c) => Some(c)
    case UknownSymbol(c) => Some(c)
    case OperationWihtoutANumber(c) => Some(c)
    case _ => None
  }

  /** `c` appears in `m` between two single quotes, starting at index `j`. */
  predicate QuotedAt(m: string, j: nat, c: char)
  {
    j + 2 < |m| && m[j] == '\'' && m[j + 1] == c && m[j + 2] == '\''
  }

  /** The text `Display::fmt` writes for an error. */
  function Message(e: CalculatorError): (m: string)
    ensures |m| > 0
    ensures Carried(e).Some? ==> QuotedAt(m, QuotePosition(e), Carried(e).value)
  {
    match e
    case Uknown => "uknown error"
    case EmptyInput => "empty input"
    case UknownOperator(c) => "uknown operator '" + [c] + "'"
    case UknownSymbol(c) => "uknown symbol '" + [c] + "'"
    case OperationWihtoutANumber(c) => "use of '" + [c] + "' operation wihtout a number"
    case ClosingBracketWithoutAPair => "use of a closing bracket without a pair"
    case OpeningBracketWithoutAPair => "use of an opening bracket without a pair"
    case DotWithoutANumber => "use of a dot without a number before it"
    case DivisonByZero => "divison by zero"
  }

  /** Where the opening quote sits in the message of a char-carrying variant. */
  function QuotePosition(e: CalculatorError): nat
  {
    match e
    case UknownOperator(_) => 16
    case UknownSymbol(_) => 14
    case _ => 7
  }

  /** Distinct errors print distinct messages, so the message identifies the error. */
  lemma MessageInjective(e1: CalculatorError, e2: CalculatorError)
    ensures Message(e1) == Message(e2) ==> e1 == e2
  {
  }
}
