/**
 * The `Calculator` facade: it owns the previous answer, converts an infix
 * string to postfix and evaluates it, and keeps the result as the new previous
 * answer only when the whole calculation succeeds.
 */
module Calculator {

  import opened Wrappers
  import opened Errors
  import opened Tokens
  import Postfix
  import Evaluator
  import PostfixLaws

  /** The calculator's state; the priority table is the constant `OperationPriority`. */
  datatype Calculator = Calculator(previousAnswer: real)

  /** `Calculator::new`: the previous answer starts at 0. */
  function New(): (c: Calculator)
    ensures c.previousAnswer == 0.0
  {
    Calculator(0.0)
  }

  /** `reset`: forgets the previous answer, whatever it was. */
  function Reset(c: Calculator): (c': Calculator)
    ensures c' == New()
  {
    Calculator(0.0)
  }

  /**
   * `calculate`: the new calculator state with the outcome. The previous
   * answer becomes the result on success and is untouched by every error; the
   * empty string, and only it, is `EmptyInput`; `Uknown` and `UknownOperator`
   * are never returned. The outcome of a non-empty input is that of
   * converting it and evaluating the cells, and a conversion error is
   * returned as it is.
   */
  function Calculate(c: Calculator, s: string, pow: (real, real) -> real): (r: (Calculator, Result<real, CalculatorError>))
    ensures r.1.Ok? ==> r.0 == Calculator(r.1.value)
    ensures r.1.Err? ==> r.0 == c
    ensures r.1 == Err(EmptyInput) <==> |s| == 0
    ensures r.1 != Err(Uknown)
    ensures r.1.Err? ==> !r.1.error.UknownOperator?
    ensures var cells := Postfix.ToPostfix(s, c.previousAnswer);
      && (cells.Err? ==> r.1 == Err(cells.error))
      && (cells.Ok? && |s| > 0 ==> r.1 == Evaluator.Evaluate(cells.value, pow))
  {
    match Postfix.ToPostfix(s, c.previousAnswer)
    case Err(e) => (c, Err(e))
    case Ok(postfix) =>
      if |postfix| == 0 then (c, Err(EmptyInput))
      else
        match Evaluator.Evaluate(postfix, pow)
        case Err(e) => (c, Err(e))
        case Ok(v) => (Calculator(v), Ok(v))
  }

  /**
   * A negative previous answer is emitted as a cell whose text starts with
   * `-`, which the evaluation loop takes for the operator `-`: any input that
   * starts with a non-digit and converts then fails, and the state is kept.
   */
  lemma NegativeAnswerBlocksLeadingSymbol(c: Calculator, s: string, pow: (real, real) -> real)
    requires c.previousAnswer < 0.0
    requires |s| > 0 && !IsDigit(s[0])
    requires Postfix.ToPostfix(s, c.previousAnswer).Ok?
    ensures Calculate(c, s, pow) == (c, Err(OperationWihtoutANumber('-')))
  {
  }

  /**
   * The previous answer enters a calculation only through the implicit first
   * operand and through `a`: for an input that starts with a digit and has no
   * `a`, every calculator state gives the same outcome.
   */
  lemma AnswerUnusedWithoutPrefixOrA(c1: Calculator, c2: Calculator, s: string, pow: (real, real) -> real)
    requires 'a' !in s
    requires |s| == 0 || IsDigit(s[0])
    ensures Calculate(c1, s, pow).1 == Calculate(c2, s, pow).1
  {
    PostfixLaws.ConvertIgnoresAnswer(s, c1.previousAnswer, c2.previousAnswer, 0, [], []);
    assert Postfix.AnswerPrefix(s, c1.previousAnswer) == Postfix.AnswerPrefix(s, c2.previousAnswer);
  }
}
