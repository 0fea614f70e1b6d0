/**
 * `CalculatorCell`: a postfix cell that holds either a number or an operator
 * character, built only through its two constructors.
 */
module Cells {

  import opened Wrappers

  datatype CalculatorCell = CalculatorCell(number: Option<real>, operator: Option<char>)

  function GetNumber(cell: CalculatorCell): Option<real>
  {
    cell.number
  }

  predicate IsNumber(cell: CalculatorCell)
  {
    cell.number.Some?
  }

  function GetOperator(cell: CalculatorCell): Option<char>
  {
    cell.operator
  }

  predicate IsOperator(cell: CalculatorCell)
  {
    cell.operator.Some?
  }

  /** Exactly one of the two fields is present. */
  predicate OneOf(cell: CalculatorCell)
  {
    cell.number.Some? != cell.operator.Some?
  }

  function NewNumber(n: real): (cell: CalculatorCell)
    ensures IsNumber(cell) && GetNumber(cell) == Some(n)
    ensures GetOperator(cell) == None
  {
    CalculatorCell(Some(n), None)
  }

  /** Stores any character as given: the operator is not validated. */
  function NewOperator(c: char): (cell: CalculatorCell)
    ensures !IsNumber(cell) && GetNumber(cell) == None
    ensures GetOperator(cell) == Some(c)
  {
    CalculatorCell(None, Some(c))
  }

  /** Cells built by the constructors hold exactly one field, so being an operator is not being a number. */
  lemma ConstructedCellsHoldOne(n: real, c: char)
    ensures OneOf(NewNumber(n)) && OneOf(NewOperator(c))
    ensures IsOperator(NewNumber(n)) == !IsNumber(NewNumber(n))
    ensures IsOperator(NewOperator(c)) == !IsNumber(NewOperator(c))
  {
  }

  /** For any cell with exactly one field, `_is_operator` is the negation of `is_number`. */
  lemma OneOfSplits(cell: CalculatorCell)
    requires OneOf(cell)
    ensures IsOperator(cell) <==> !IsNumber(cell)
    ensures IsNumber(cell) ==> cell == NewNumber(GetNumber(cell).value)
    ensures IsOperator(cell) ==> cell == NewOperator(GetOperator(cell).value)
  {
  }
}
