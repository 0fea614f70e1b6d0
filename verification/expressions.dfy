/**
 * `CalculatorExpression`: the five binary operators and the `From<char>`
 * conversion into them. The conversion panics on any other character, which
 * the model turns into a precondition.
 */
module Expressions {

  import Operators
  import opened Wrappers

  datatype CalculatorExpression = Add | Subtract | Multiply | Divide | Power

  /** The characters `From<char>` accepts; the unary `~` is not among them. */
  const BinarySymbols: string := "+-*/^"

  function FromChar(c: char): (r: CalculatorExpression)
    requires c in BinarySymbols
    ensures Operators.TryFrom(c) == Ok(AsOperator(r))
  {
    match c
    case '+' => Add
    case '-' => Subtract
    case '*' => Multiply
    case '/' => Divide
    case '^' => Power
  }

  /** The `CalculatorOperator` of the same name. */
  function AsOperator(x: CalculatorExpression): Operators.CalculatorOperator
  {
    match x
    case Add => Operators.Add
    case Subtract => Operators.Subtract
    case Multiply => Operators.Multiply
    case Divide => Operators.Divide
    case Power => Operators.Power
  }

  /** Distinct accepted characters give distinct expressions. */
  lemma FromCharInjective(c: char, d: char)
    requires c in BinarySymbols && d in BinarySymbols
    ensures FromChar(c) == FromChar(d) ==> c == d
  {
  }

  /**
   * The accepted characters are exactly those `CalculatorOperator::try_from`
   * accepts with a binary result: `~` converts to `Inverse` there but is refused here.
   */
  lemma AcceptsBinaryOperatorsOnly(c: char)
    ensures c in BinarySymbols <==> Operators.TryFrom(c).Ok? && Operators.TryFrom(c).value != Operators.Inverse
    ensures Operators.TryFrom('~') == Ok(Operators.Inverse) && '~' !in BinarySymbols
  {
  }
}
