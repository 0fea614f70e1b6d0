/**
 * The calculator's test scenarios, stated over the model: each converts and
 * evaluates a concrete expression, one conversion pass and one evaluation
 * step at a time. Powers are left to the `pow` parameter.
 */
module Scenarios {

  import opened Wrappers
  import opened Errors
  import opened Tokens
  import opened Postfix
  import opened Evaluator
  import opened Calculator
  import Operators
  import opened Replay

  // Each conversion below is replayed as a run of states, one pass of the
  // loop apart. The passes are proved a group at a time; the conversion
  // lemma then walks back from the state where the loop stops to the
  // implicit first operand.

  /** The first literal. */
  lemma NormalEquationPasses0(s: string)
    requires Spells(s, "2+2")
    ensures StepsTo(s, 0.0, State(0, [], []), State(1, [Num(2.0)], []))
  {
    DigitStep(s, 0.0, 0, [], [], [Num(2.0)]);
  }

  /** `+` goes onto the empty stack. */
  lemma NormalEquationPasses1(s: string)
    requires Spells(s, "2+2")
    ensures StepsTo(s, 0.0, State(1, [Num(2.0)], []), State(2, [Num(2.0)], ['+']))
  {
    PushQuietly(s, 0.0, 1, [Num(2.0)], [], ['+']);
  }

  /** The last literal. */
  lemma NormalEquationPasses2(s: string)
    requires Spells(s, "2+2")
    ensures StepsTo(s, 0.0, State(2, [Num(2.0)], ['+']), State(3, [Num(2.0), Num(2.0)], ['+']))
  {
    DigitStep(s, 0.0, 2, [Num(2.0)], ['+'], [Num(2.0), Num(2.0)]);
  }

  lemma NormalEquationConverts(s: string)
    requires Spells(s, "2+2")
    ensures ToPostfix(s, 0.0) == Ok([Num(2.0), Num(2.0), Op('+')])
  {
    var r: Result<seq<Tok>, CalculatorError> := Ok([Num(2.0), Num(2.0), Op('+')]);
    FlushEnds(s, 0.0, [Num(2.0), Num(2.0)], ['+'], [Op('+')], [Num(2.0), Num(2.0), Op('+')]);
    Stop(s, 0.0, State(3, [Num(2.0), Num(2.0)], ['+']), r);
    NormalEquationPasses2(s);
    Pass(s, 0.0, State(2, [Num(2.0)], ['+']), State(3, [Num(2.0), Num(2.0)], ['+']), r);
    NormalEquationPasses1(s);
    Pass(s, 0.0, State(1, [Num(2.0)], []), State(2, [Num(2.0)], ['+']), r);
    NormalEquationPasses0(s);
    Pass(s, 0.0, State(0, [], []), State(1, [Num(2.0)], []), r);
    Start(s, 0.0, r);
  }

  /** The run from cell 2 on. */
  lemma NormalEquationRunsFrom2(pow: (real, real) -> real)
    ensures Run([Op('+')], [2.0, 2.0], pow) == Ok([4.0])
  {
    var toks := [Op('+')];
    assert [2.0, 2.0][..0] + [4.0] == [4.0];
    assert toks[0..][1..] == toks[1..];
    assert Run(toks[0..], [2.0, 2.0], pow) == Ok([4.0]);
  }

  /** The run from cell 0 on. */
  lemma NormalEquationRunsFrom0(pow: (real, real) -> real)
    ensures Run([Num(2.0), Num(2.0), Op('+')], [], pow) == Ok([4.0])
  {
    var toks := [Num(2.0), Num(2.0), Op('+')];
    assert [] + [2.0] == [2.0];
    assert [2.0] + [2.0] == [2.0, 2.0];
    assert toks[0..][1..] == toks[1..] && toks[1..][1..] == toks[2..];
    assert toks[2..] == [Op('+')];
    NormalEquationRunsFrom2(pow);
    assert Run(toks[1..], [2.0], pow) == Ok([4.0]);
    assert Run(toks[0..], [], pow) == Ok([4.0]);
  }

  lemma NormalEquationEvaluates(pow: (real, real) -> real)
    ensures Evaluate([Num(2.0), Num(2.0), Op('+')], pow) == Ok(4.0)
  {
    NormalEquationRunsFrom0(pow);
  }

  /** `normal_equation`: `2+2` is 4, and 4 becomes the previous answer. */
  lemma NormalEquation(s: string, pow: (real, real) -> real)
    requires s == "2+2"
    ensures Calculate(New(), s, pow) == (Calculator(4.0), Ok(4.0))
  {
    NormalEquationConverts(s);
    NormalEquationEvaluates(pow);
    Succeeds(New(), s, pow, [Num(2.0), Num(2.0), Op('+')], 4.0);
  }

  /** The literal `2.2` is read whole. */
  lemma FloatingPointEquationPasses0(s: string)
    requires Spells(s, "2.2+2.2")
    ensures StepsTo(s, 0.0, State(0, [], []), State(3, [Num(2.2)], []))
  {
    PointLiteral(s, 0);
    LiteralStep(s, 0.0, 0, [], [], s[0..3], 2, [Num(2.2)]);
  }

  /** `+` goes onto the empty stack. */
  lemma FloatingPointEquationPasses1(s: string)
    requires Spells(s, "2.2+2.2")
    ensures StepsTo(s, 0.0, State(3, [Num(2.2)], []), State(4, [Num(2.2)], ['+']))
  {
    PushQuietly(s, 0.0, 3, [Num(2.2)], [], ['+']);
  }

  /** The second literal `2.2`. */
  lemma FloatingPointEquationPasses2(s: string)
    requires Spells(s, "2.2+2.2")
    ensures StepsTo(s, 0.0, State(4, [Num(2.2)], ['+']), State(7, [Num(2.2), Num(2.2)], ['+']))
  {
    PointLiteral(s, 4);
    LiteralStep(s, 0.0, 4, [Num(2.2)], ['+'], s[4..7], 6, [Num(2.2), Num(2.2)]);
  }

  lemma FloatingPointEquationConverts(s: string)
    requires Spells(s, "2.2+2.2")
    ensures ToPostfix(s, 0.0) == Ok([Num(2.2), Num(2.2), Op('+')])
  {
    var r: Result<seq<Tok>, CalculatorError> := Ok([Num(2.2), Num(2.2), Op('+')]);
    FlushEnds(s, 0.0, [Num(2.2), Num(2.2)], ['+'], [Op('+')], [Num(2.2), Num(2.2), Op('+')]);
    Stop(s, 0.0, State(7, [Num(2.2), Num(2.2)], ['+']), r);
    FloatingPointEquationPasses2(s);
    Pass(s, 0.0, State(4, [Num(2.2)], ['+']), State(7, [Num(2.2), Num(2.2)], ['+']), r);
    FloatingPointEquationPasses1(s);
    Pass(s, 0.0, State(3, [Num(2.2)], []), State(4, [Num(2.2)], ['+']), r);
    FloatingPointEquationPasses0(s);
    Pass(s, 0.0, State(0, [], []), State(3, [Num(2.2)], []), r);
    Start(s, 0.0, r);
  }

  /** The run from cell 2 on. */
  lemma FloatingPointEquationRunsFrom2(pow: (real, real) -> real)
    ensures Run([Op('+')], [2.2, 2.2], pow) == Ok([4.4])
  {
    var toks := [Op('+')];
    assert [2.2, 2.2][..0] + [4.4] == [4.4];
    assert toks[0..][1..] == toks[1..];
    assert Run(toks[0..], [2.2, 2.2], pow) == Ok([4.4]);
  }

  /** The run from cell 0 on. */
  lemma FloatingPointEquationRunsFrom0(pow: (real, real) -> real)
    ensures Run([Num(2.2), Num(2.2), Op('+')], [], pow) == Ok([4.4])
  {
    var toks := [Num(2.2), Num(2.2), Op('+')];
    assert [] + [2.2] == [2.2];
    assert [2.2] + [2.2] == [2.2, 2.2];
    assert toks[0..][1..] == toks[1..] && toks[1..][1..] == toks[2..];
    assert toks[2..] == [Op('+')];
    FloatingPointEquationRunsFrom2(pow);
    assert Run(toks[1..], [2.2], pow) == Ok([4.4]);
    assert Run(toks[0..], [], pow) == Ok([4.4]);
  }

  lemma FloatingPointEquationEvaluates(pow: (real, real) -> real)
    ensures Evaluate([Num(2.2), Num(2.2), Op('+')], pow) == Ok(4.4)
  {
    FloatingPointEquationRunsFrom0(pow);
  }

  /** `floating_point_equation`: a literal with a dot is its exact decimal value, so `2.2+2.2` is 4.4. */
  lemma FloatingPointEquation(s: string, pow: (real, real) -> real)
    requires s == "2.2+2.2"
    ensures Calculate(New(), s, pow) == (Calculator(4.4), Ok(4.4))
  {
    FloatingPointEquationConverts(s);
    FloatingPointEquationEvaluates(pow);
    Succeeds(New(), s, pow, [Num(2.2), Num(2.2), Op('+')], 4.4);
  }

  /** The first literal. */
  lemma OrderOfOperationsPasses0(s: string)
    requires Spells(s, "2+2*2")
    ensures StepsTo(s, 0.0, State(0, [], []), State(1, [Num(2.0)], []))
  {
    DigitStep(s, 0.0, 0, [], [], [Num(2.0)]);
  }

  /** `+` goes onto the empty stack. */
  lemma OrderOfOperationsPasses1(s: string)
    requires Spells(s, "2+2*2")
    ensures StepsTo(s, 0.0, State(1, [Num(2.0)], []), State(2, [Num(2.0)], ['+']))
  {
    PushQuietly(s, 0.0, 1, [Num(2.0)], [], ['+']);
  }

  /** The second literal. */
  lemma OrderOfOperationsPasses2(s: string)
    requires Spells(s, "2+2*2")
    ensures StepsTo(s, 0.0, State(2, [Num(2.0)], ['+']), State(3, [Num(2.0), Num(2.0)], ['+']))
  {
    DigitStep(s, 0.0, 2, [Num(2.0)], ['+'], [Num(2.0), Num(2.0)]);
  }

  /** `*` outranks the `+` beneath it, so it is stacked on top. */
  lemma OrderOfOperationsPasses3(s: string)
    requires Spells(s, "2+2*2")
    ensures StepsTo(s, 0.0, State(3, [Num(2.0), Num(2.0)], ['+']), State(4, [Num(2.0), Num(2.0)], ['+', '*']))
  {
    PushQuietly(s, 0.0, 3, [Num(2.0), Num(2.0)], ['+'], ['+', '*']);
  }

  /** The last literal; the stack is then emitted top first, `*` before `+`. */
  lemma OrderOfOperationsPasses4(s: string)
    requires Spells(s, "2+2*2")
    ensures StepsTo(s, 0.0, State(4, [Num(2.0), Num(2.0)], ['+', '*']), State(5, [Num(2.0), Num(2.0), Num(2.0)], ['+', '*']))
  {
    DigitStep(s, 0.0, 4, [Num(2.0), Num(2.0)], ['+', '*'], [Num(2.0), Num(2.0), Num(2.0)]);
  }

  lemma OrderOfOperationsConverts(s: string)
    requires Spells(s, "2+2*2")
    ensures ToPostfix(s, 0.0) == Ok([Num(2.0), Num(2.0), Num(2.0), Op('*'), Op('+')])
  {
    var r: Result<seq<Tok>, CalculatorError> := Ok([Num(2.0), Num(2.0), Num(2.0), Op('*'), Op('+')]);
    FlushEnds(s, 0.0, [Num(2.0), Num(2.0), Num(2.0)], ['+', '*'], [Op('*'), Op('+')], [Num(2.0), Num(2.0), Num(2.0), Op('*'), Op('+')]);
    Stop(s, 0.0, State(5, [Num(2.0), Num(2.0), Num(2.0)], ['+', '*']), r);
    OrderOfOperationsPasses4(s);
    Pass(s, 0.0, State(4, [Num(2.0), Num(2.0)], ['+', '*']), State(5, [Num(2.0), Num(2.0), Num(2.0)], ['+', '*']), r);
    OrderOfOperationsPasses3(s);
    Pass(s, 0.0, State(3, [Num(2.0), Num(2.0)], ['+']), State(4, [Num(2.0), Num(2.0)], ['+', '*']), r);
    OrderOfOperationsPasses2(s);
    Pass(s, 0.0, State(2, [Num(2.0)], ['+']), State(3, [Num(2.0), Num(2.0)], ['+']), r);
    OrderOfOperationsPasses1(s);
    Pass(s, 0.0, State(1, [Num(2.0)], []), State(2, [Num(2.0)], ['+']), r);
    OrderOfOperationsPasses0(s);
    Pass(s, 0.0, State(0, [], []), State(1, [Num(2.0)], []), r);
    Start(s, 0.0, r);
  }

  /** The run from cell 4 on. */
  lemma OrderOfOperationsRunsFrom4(pow: (real, real) -> real)
    ensures Run([Op('+')], [2.0, 4.0], pow) == Ok([6.0])
  {
    var toks := [Op('+')];
    assert [2.0, 4.0][..0] + [6.0] == [6.0];
    assert toks[0..][1..] == toks[1..];
    assert Run(toks[0..], [2.0, 4.0], pow) == Ok([6.0]);
  }

  /** The run from cell 2 on. */
  lemma OrderOfOperationsRunsFrom2(pow: (real, real) -> real)
    ensures Run([Num(2.0), Op('*'), Op('+')], [2.0, 2.0], pow) == Ok([6.0])
  {
    var toks := [Num(2.0), Op('*'), Op('+')];
    assert [2.0, 2.0] + [2.0] == [2.0, 2.0, 2.0];
    assert [2.0, 2.0, 2.0][..1] + [4.0] == [2.0, 4.0];
    assert toks[0..][1..] == toks[1..] && toks[1..][1..] == toks[2..];
    assert toks[2..] == [Op('+')];
    OrderOfOperationsRunsFrom4(pow);
    assert Run(toks[1..], [2.0, 2.0, 2.0], pow) == Ok([6.0]);
    assert Run(toks[0..], [2.0, 2.0], pow) == Ok([6.0]);
  }

  /** The run from cell 0 on. */
  lemma OrderOfOperationsRunsFrom0(pow: (real, real) -> real)
    ensures Run([Num(2.0), Num(2.0), Num(2.0), Op('*'), Op('+')], [], pow) == Ok([6.0])
  {
    var toks := [Num(2.0), Num(2.0), Num(2.0), Op('*'), Op('+')];
    assert [] + [2.0] == [2.0];
    assert [2.0] + [2.0] == [2.0, 2.0];
    assert toks[0..][1..] == toks[1..] && toks[1..][1..] == toks[2..];
    assert toks[2..] == [Num(2.0), Op('*'), Op('+')];
    OrderOfOperationsRunsFrom2(pow);
    assert Run(toks[1..], [2.0], pow) == Ok([6.0]);
    assert Run(toks[0..], [], pow) == Ok([6.0]);
  }

  lemma OrderOfOperationsEvaluates(pow: (real, real) -> real)
    ensures Evaluate([Num(2.0), Num(2.0), Num(2.0), Op('*'), Op('+')], pow) == Ok(6.0)
  {
    OrderOfOperationsRunsFrom0(pow);
  }

  /** `order_of_operations`: multiplication binds tighter than addition, so `2+2*2` is 6. */
  lemma OrderOfOperations(s: string, pow: (real, real) -> real)
    requires s == "2+2*2"
    ensures Calculate(New(), s, pow) == (Calculator(6.0), Ok(6.0))
  {
    OrderOfOperationsConverts(s);
    OrderOfOperationsEvaluates(pow);
    Succeeds(New(), s, pow, [Num(2.0), Num(2.0), Num(2.0), Op('*'), Op('+')], 6.0);
  }

  /** `p` follows the implicit previous answer 0. */
  lemma PAndEPasses0(s: string)
    requires Spells(s, "p+e")
    ensures StepsTo(s, 0.0, State(0, [Num(0.0)], []), State(1, [Num(0.0), Num(Pi)], []))
  {
    ConstantStep(s, 0.0, 0, [Num(0.0)], [], [Num(0.0), Num(Pi)]);
  }

  /** `+` goes onto the empty stack. */
  lemma PAndEPasses1(s: string)
    requires Spells(s, "p+e")
    ensures StepsTo(s, 0.0, State(1, [Num(0.0), Num(Pi)], []), State(2, [Num(0.0), Num(Pi)], ['+']))
  {
    PushQuietly(s, 0.0, 1, [Num(0.0), Num(Pi)], [], ['+']);
  }

  /** `e`. */
  lemma PAndEPasses2(s: string)
    requires Spells(s, "p+e")
    ensures StepsTo(s, 0.0, State(2, [Num(0.0), Num(Pi)], ['+']), State(3, [Num(0.0), Num(Pi), Num(Euler)], ['+']))
  {
    ConstantStep(s, 0.0, 2, [Num(0.0), Num(Pi)], ['+'], [Num(0.0), Num(Pi), Num(Euler)]);
  }

  lemma PAndEConverts(s: string)
    requires Spells(s, "p+e")
    ensures ToPostfix(s, 0.0) == Ok([Num(0.0), Num(Pi), Num(Euler), Op('+')])
  {
    var r: Result<seq<Tok>, CalculatorError> := Ok([Num(0.0), Num(Pi), Num(Euler), Op('+')]);
    FlushEnds(s, 0.0, [Num(0.0), Num(Pi), Num(Euler)], ['+'], [Op('+')], [Num(0.0), Num(Pi), Num(Euler), Op('+')]);
    Stop(s, 0.0, State(3, [Num(0.0), Num(Pi), Num(Euler)], ['+']), r);
    PAndEPasses2(s);
    Pass(s, 0.0, State(2, [Num(0.0), Num(Pi)], ['+']), State(3, [Num(0.0), Num(Pi), Num(Euler)], ['+']), r);
    PAndEPasses1(s);
    Pass(s, 0.0, State(1, [Num(0.0), Num(Pi)], []), State(2, [Num(0.0), Num(Pi)], ['+']), r);
    PAndEPasses0(s);
    Pass(s, 0.0, State(0, [Num(0.0)], []), State(1, [Num(0.0), Num(Pi)], []), r);
    assert AnswerPrefix(s, 0.0) == [Num(0.0)];
    Start(s, 0.0, r);
  }

  lemma PAndEEvaluates(pow: (real, real) -> real)
    ensures Evaluate([Num(0.0), Num(Pi), Num(Euler), Op('+')], pow) == Ok(Pi + Euler)
  {
    var toks := [Num(0.0), Num(Pi), Num(Euler), Op('+')];
    assert [] + [0.0] == [0.0] && [0.0] + [Pi] == [0.0, Pi] && [0.0, Pi] + [Euler] == [0.0, Pi, Euler];
    assert [0.0, Pi, Euler][..1] + [Pi + Euler] == [0.0, Pi + Euler];
    assert toks[3..][1..] == [];
    assert toks[2..][1..] == toks[3..] && toks[1..][1..] == toks[2..];
    assert Run(toks[3..], [0.0, Pi, Euler], pow) == Ok([0.0, Pi + Euler]);
    assert Run(toks[2..], [0.0, Pi], pow) == Ok([0.0, Pi + Euler]);
    assert Run(toks[1..], [0.0], pow) == Ok([0.0, Pi + Euler]);
  }

  /**
   * `p_and_e`: the constants stand for the decimal texts of `PI` and `E`,
   * whose sum is the expected 5.859874482048838; the implicit previous
   * answer 0 stays beneath the result and is dropped.
   */
  lemma PAndE(s: string, pow: (real, real) -> real)
    requires s == "p+e"
    ensures Calculate(New(), s, pow) == (Calculator(5.859874482048838), Ok(5.859874482048838))
  {
    PAndEConverts(s);
    PAndEEvaluates(pow);
    assert Pi + Euler == 5.859874482048838;
    Succeeds(New(), s, pow, [Num(0.0), Num(Pi), Num(Euler), Op('+')], Pi + Euler);
  }

  /** `a` stands for the previous answer 4. */
  lemma AnswerPasses0(s: string)
    requires Spells(s, "a*2")
    ensures StepsTo(s, 4.0, State(0, [Num(4.0)], []), State(1, [Num(4.0), Num(4.0)], []))
  {
    ConstantStep(s, 4.0, 0, [Num(4.0)], [], [Num(4.0), Num(4.0)]);
  }

  /** `*` goes onto the empty stack. */
  lemma AnswerPasses1(s: string)
    requires Spells(s, "a*2")
    ensures StepsTo(s, 4.0, State(1, [Num(4.0), Num(4.0)], []), State(2, [Num(4.0), Num(4.0)], ['*']))
  {
    PushQuietly(s, 4.0, 1, [Num(4.0), Num(4.0)], [], ['*']);
  }

  /** The literal `2`. */
  lemma AnswerPasses2(s: string)
    requires Spells(s, "a*2")
    ensures StepsTo(s, 4.0, State(2, [Num(4.0), Num(4.0)], ['*']), State(3, [Num(4.0), Num(4.0), Num(2.0)], ['*']))
  {
    DigitStep(s, 4.0, 2, [Num(4.0), Num(4.0)], ['*'], [Num(4.0), Num(4.0), Num(2.0)]);
  }

  lemma AnswerConverts(s: string)
    requires Spells(s, "a*2")
    ensures ToPostfix(s, 4.0) == Ok([Num(4.0), Num(4.0), Num(2.0), Op('*')])
  {
    var r: Result<seq<Tok>, CalculatorError> := Ok([Num(4.0), Num(4.0), Num(2.0), Op('*')]);
    FlushEnds(s, 4.0, [Num(4.0), Num(4.0), Num(2.0)], ['*'], [Op('*')], [Num(4.0), Num(4.0), Num(2.0), Op('*')]);
    Stop(s, 4.0, State(3, [Num(4.0), Num(4.0), Num(2.0)], ['*']), r);
    AnswerPasses2(s);
    Pass(s, 4.0, State(2, [Num(4.0), Num(4.0)], ['*']), State(3, [Num(4.0), Num(4.0), Num(2.0)], ['*']), r);
    AnswerPasses1(s);
    Pass(s, 4.0, State(1, [Num(4.0), Num(4.0)], []), State(2, [Num(4.0), Num(4.0)], ['*']), r);
    AnswerPasses0(s);
    Pass(s, 4.0, State(0, [Num(4.0)], []), State(1, [Num(4.0), Num(4.0)], []), r);
    assert AnswerPrefix(s, 4.0) == [Num(4.0)];
    Start(s, 4.0, r);
  }

  /** The run from cell 2 on. */
  lemma AnswerRunsFrom2(pow: (real, real) -> real)
    ensures Run([Num(2.0), Op('*')], [4.0, 4.0], pow) == Ok([4.0, 8.0])
  {
    var toks := [Num(2.0), Op('*')];
    assert [4.0, 4.0] + [2.0] == [4.0, 4.0, 2.0];
    assert [4.0, 4.0, 2.0][..1] + [8.0] == [4.0, 8.0];
    assert toks[0..][1..] == toks[1..] && toks[1..][1..] == toks[2..];
    assert Run(toks[1..], [4.0, 4.0, 2.0], pow) == Ok([4.0, 8.0]);
    assert Run(toks[0..], [4.0, 4.0], pow) == Ok([4.0, 8.0]);
  }

  /** The run from cell 0 on. */
  lemma AnswerRunsFrom0(pow: (real, real) -> real)
    ensures Run([Num(4.0), Num(4.0), Num(2.0), Op('*')], [], pow) == Ok([4.0, 8.0])
  {
    var toks := [Num(4.0), Num(4.0), Num(2.0), Op('*')];
    assert [] + [4.0] == [4.0];
    assert [4.0] + [4.0] == [4.0, 4.0];
    assert toks[0..][1..] == toks[1..] && toks[1..][1..] == toks[2..];
    assert toks[2..] == [Num(2.0), Op('*')];
    AnswerRunsFrom2(pow);
    assert Run(toks[1..], [4.0], pow) == Ok([4.0, 8.0]);
    assert Run(toks[0..], [], pow) == Ok([4.0, 8.0]);
  }

  lemma AnswerEvaluates(pow: (real, real) -> real)
    ensures Evaluate([Num(4.0), Num(4.0), Num(2.0), Op('*')], pow) == Ok(8.0)
  {
    AnswerRunsFrom0(pow);
  }

  /** `answer`: after `2+2`, `a` stands for 4, so `a*2` is 8. */
  lemma Answer(s1: string, s2: string, pow: (real, real) -> real)
    requires s1 == "2+2" && s2 == "a*2"
    ensures Calculate(Calculate(New(), s1, pow).0, s2, pow) == (Calculator(8.0), Ok(8.0))
  {
    NormalEquation(s1, pow);
    AnswerConverts(s2);
    AnswerEvaluates(pow);
    Succeeds(Calculator(4.0), s2, pow, [Num(4.0), Num(4.0), Num(2.0), Op('*')], 8.0);
  }

  /** `*` follows the implicit previous answer. */
  lemma HiddenAnswerPasses0(s: string)
    requires Spells(s, "*2")
    ensures StepsTo(s, 4.0, State(0, [Num(4.0)], []), State(1, [Num(4.0)], ['*']))
  {
    PushQuietly(s, 4.0, 0, [Num(4.0)], [], ['*']);
  }

  /** The literal `2`. */
  lemma HiddenAnswerPasses1(s: string)
    requires Spells(s, "*2")
    ensures StepsTo(s, 4.0, State(1, [Num(4.0)], ['*']), State(2, [Num(4.0), Num(2.0)], ['*']))
  {
    DigitStep(s, 4.0, 1, [Num(4.0)], ['*'], [Num(4.0), Num(2.0)]);
  }

  lemma HiddenAnswerConverts(s: string)
    requires Spells(s, "*2")
    ensures ToPostfix(s, 4.0) == Ok([Num(4.0), Num(2.0), Op('*')])
  {
    var r: Result<seq<Tok>, CalculatorError> := Ok([Num(4.0), Num(2.0), Op('*')]);
    FlushEnds(s, 4.0, [Num(4.0), Num(2.0)], ['*'], [Op('*')], [Num(4.0), Num(2.0), Op('*')]);
    Stop(s, 4.0, State(2, [Num(4.0), Num(2.0)], ['*']), r);
    HiddenAnswerPasses1(s);
    Pass(s, 4.0, State(1, [Num(4.0)], ['*']), State(2, [Num(4.0), Num(2.0)], ['*']), r);
    HiddenAnswerPasses0(s);
    Pass(s, 4.0, State(0, [Num(4.0)], []), State(1, [Num(4.0)], ['*']), r);
    assert AnswerPrefix(s, 4.0) == [Num(4.0)];
    Start(s, 4.0, r);
  }

  /** The run from cell 2 on. */
  lemma HiddenAnswerRunsFrom2(pow: (real, real) -> real)
    ensures Run([Op('*')], [4.0, 2.0], pow) == Ok([8.0])
  {
    var toks := [Op('*')];
    assert [4.0, 2.0][..0] + [8.0] == [8.0];
    assert toks[0..][1..] == toks[1..];
    assert Run(toks[0..], [4.0, 2.0], pow) == Ok([8.0]);
  }

  /** The run from cell 0 on. */
  lemma HiddenAnswerRunsFrom0(pow: (real, real) -> real)
    ensures Run([Num(4.0), Num(2.0), Op('*')], [], pow) == Ok([8.0])
  {
    var toks := [Num(4.0), Num(2.0), Op('*')];
    assert [] + [4.0] == [4.0];
    assert [4.0] + [2.0] == [4.0, 2.0];
    assert toks[0..][1..] == toks[1..] && toks[1..][1..] == toks[2..];
    assert toks[2..] == [Op('*')];
    HiddenAnswerRunsFrom2(pow);
    assert Run(toks[1..], [4.0], pow) == Ok([8.0]);
    assert Run(toks[0..], [], pow) == Ok([8.0]);
  }

  lemma HiddenAnswerEvaluates(pow: (real, real) -> real)
    ensures Evaluate([Num(4.0), Num(2.0), Op('*')], pow) == Ok(8.0)
  {
    HiddenAnswerRunsFrom0(pow);
  }

  /** `hidden_answer`: after `2+2`, an input that starts with `*` multiplies the previous answer, so `*2` is 8. */
  lemma HiddenAnswer(s1: string, s2: string, pow: (real, real) -> real)
    requires s1 == "2+2" && s2 == "*2"
    ensures Calculate(Calculate(New(), s1, pow).0, s2, pow) == (Calculator(8.0), Ok(8.0))
  {
    NormalEquation(s1, pow);
    HiddenAnswerConverts(s2);
    HiddenAnswerEvaluates(pow);
    Succeeds(Calculator(4.0), s2, pow, [Num(4.0), Num(2.0), Op('*')], 8.0);
  }

  /** `a` stands for the previous answer 0. */
  lemma AnswerResetPasses0(s: string)
    requires Spells(s, "a+2")
    ensures StepsTo(s, 0.0, State(0, [Num(0.0)], []), State(1, [Num(0.0), Num(0.0)], []))
  {
    ConstantStep(s, 0.0, 0, [Num(0.0)], [], [Num(0.0), Num(0.0)]);
  }

  /** `+` goes onto the empty stack. */
  lemma AnswerResetPasses1(s: string)
    requires Spells(s, "a+2")
    ensures StepsTo(s, 0.0, State(1, [Num(0.0), Num(0.0)], []), State(2, [Num(0.0), Num(0.0)], ['+']))
  {
    PushQuietly(s, 0.0, 1, [Num(0.0), Num(0.0)], [], ['+']);
  }

  /** The literal `2`. */
  lemma AnswerResetPasses2(s: string)
    requires Spells(s, "a+2")
    ensures StepsTo(s, 0.0, State(2, [Num(0.0), Num(0.0)], ['+']), State(3, [Num(0.0), Num(0.0), Num(2.0)], ['+']))
  {
    DigitStep(s, 0.0, 2, [Num(0.0), Num(0.0)], ['+'], [Num(0.0), Num(0.0), Num(2.0)]);
  }

  lemma AnswerResetConverts(s: string)
    requires Spells(s, "a+2")
    ensures ToPostfix(s, 0.0) == Ok([Num(0.0), Num(0.0), Num(2.0), Op('+')])
  {
    var r: Result<seq<Tok>, CalculatorError> := Ok([Num(0.0), Num(0.0), Num(2.0), Op('+')]);
    FlushEnds(s, 0.0, [Num(0.0), Num(0.0), Num(2.0)], ['+'], [Op('+')], [Num(0.0), Num(0.0), Num(2.0), Op('+')]);
    Stop(s, 0.0, State(3, [Num(0.0), Num(0.0), Num(2.0)], ['+']), r);
    AnswerResetPasses2(s);
    Pass(s, 0.0, State(2, [Num(0.0), Num(0.0)], ['+']), State(3, [Num(0.0), Num(0.0), Num(2.0)], ['+']), r);
    AnswerResetPasses1(s);
    Pass(s, 0.0, State(1, [Num(0.0), Num(0.0)], []), State(2, [Num(0.0), Num(0.0)], ['+']), r);
    AnswerResetPasses0(s);
    Pass(s, 0.0, State(0, [Num(0.0)], []), State(1, [Num(0.0), Num(0.0)], []), r);
    assert AnswerPrefix(s, 0.0) == [Num(0.0)];
    Start(s, 0.0, r);
  }

  /** The run from cell 2 on. */
  lemma AnswerResetRunsFrom2(pow: (real, real) -> real)
    ensures Run([Num(2.0), Op('+')], [0.0, 0.0], pow) == Ok([0.0, 2.0])
  {
    var toks := [Num(2.0), Op('+')];
    assert [0.0, 0.0] + [2.0] == [0.0, 0.0, 2.0];
    assert [0.0, 0.0, 2.0][..1] + [2.0] == [0.0, 2.0];
    assert toks[0..][1..] == toks[1..] && toks[1..][1..] == toks[2..];
    assert Run(toks[1..], [0.0, 0.0, 2.0], pow) == Ok([0.0, 2.0]);
    assert Run(toks[0..], [0.0, 0.0], pow) == Ok([0.0, 2.0]);
  }

  /** The run from cell 0 on. */
  lemma AnswerResetRunsFrom0(pow: (real, real) -> real)
    ensures Run([Num(0.0), Num(0.0), Num(2.0), Op('+')], [], pow) == Ok([0.0, 2.0])
  {
    var toks := [Num(0.0), Num(0.0), Num(2.0), Op('+')];
    assert [] + [0.0] == [0.0];
    assert [0.0] + [0.0] == [0.0, 0.0];
    assert toks[0..][1..] == toks[1..] && toks[1..][1..] == toks[2..];
    assert toks[2..] == [Num(2.0), Op('+')];
    AnswerResetRunsFrom2(pow);
    assert Run(toks[1..], [0.0], pow) == Ok([0.0, 2.0]);
    assert Run(toks[0..], [], pow) == Ok([0.0, 2.0]);
  }

  lemma AnswerResetEvaluates(pow: (real, real) -> real)
    ensures Evaluate([Num(0.0), Num(0.0), Num(2.0), Op('+')], pow) == Ok(2.0)
  {
    AnswerResetRunsFrom0(pow);
  }

  /** `answer_reset`: after `2+2` and `reset`, `a` stands for 0 again, so `a+2` is 2. */
  lemma AnswerReset(s1: string, s2: string, pow: (real, real) -> real)
    requires s1 == "2+2" && s2 == "a+2"
    ensures Calculate(Reset(Calculate(New(), s1, pow).0), s2, pow) == (Calculator(2.0), Ok(2.0))
  {
    AnswerResetConverts(s2);
    AnswerResetEvaluates(pow);
    Succeeds(New(), s2, pow, [Num(0.0), Num(0.0), Num(2.0), Op('+')], 2.0);
  }

  /** The first `-` starts the input, so it is the unary `~`. */
  lemma NegativeNumberPasses0(s: string)
    requires Spells(s, "-2-2")
    ensures StepsTo(s, 0.0, State(0, [Num(0.0)], []), State(1, [Num(0.0)], ['~']))
  {
    PushQuietly(s, 0.0, 0, [Num(0.0)], [], ['~']);
  }

  /** The literal `2`. */
  lemma NegativeNumberPasses1(s: string)
    requires Spells(s, "-2-2")
    ensures StepsTo(s, 0.0, State(1, [Num(0.0)], ['~']), State(2, [Num(0.0), Num(2.0)], ['~']))
  {
    DigitStep(s, 0.0, 1, [Num(0.0)], ['~'], [Num(0.0), Num(2.0)]);
  }

  /** The second `-` follows a digit, so it is binary and pops the `~`. */
  lemma NegativeNumberPasses2(s: string)
    requires Spells(s, "-2-2")
    ensures StepsTo(s, 0.0, State(2, [Num(0.0), Num(2.0)], ['~']), State(3, [Num(0.0), Num(2.0), Op('~')], ['-']))
  {
    PopStep(s, 0.0, 2, '-', [Num(0.0), Num(2.0)], ['~'], [Op('~')], ['-'], [Num(0.0), Num(2.0), Op('~')]);
  }

  /** The last literal. */
  lemma NegativeNumberPasses3(s: string)
    requires Spells(s, "-2-2")
    ensures StepsTo(s, 0.0, State(3, [Num(0.0), Num(2.0), Op('~')], ['-']), State(4, [Num(0.0), Num(2.0), Op('~'), Num(2.0)], ['-']))
  {
    DigitStep(s, 0.0, 3, [Num(0.0), Num(2.0), Op('~')], ['-'], [Num(0.0), Num(2.0), Op('~'), Num(2.0)]);
  }

  lemma NegativeNumberConverts(s: string)
    requires Spells(s, "-2-2")
    ensures ToPostfix(s, 0.0) == Ok([Num(0.0), Num(2.0), Op('~'), Num(2.0), Op('-')])
  {
    var r: Result<seq<Tok>, CalculatorError> := Ok([Num(0.0), Num(2.0), Op('~'), Num(2.0), Op('-')]);
    FlushEnds(s, 0.0, [Num(0.0), Num(2.0), Op('~'), Num(2.0)], ['-'], [Op('-')], [Num(0.0), Num(2.0), Op('~'), Num(2.0), Op('-')]);
    Stop(s, 0.0, State(4, [Num(0.0), Num(2.0), Op('~'), Num(2.0)], ['-']), r);
    NegativeNumberPasses3(s);
    Pass(s, 0.0, State(3, [Num(0.0), Num(2.0), Op('~')], ['-']), State(4, [Num(0.0), Num(2.0), Op('~'), Num(2.0)], ['-']), r);
    NegativeNumberPasses2(s);
    Pass(s, 0.0, State(2, [Num(0.0), Num(2.0)], ['~']), State(3, [Num(0.0), Num(2.0), Op('~')], ['-']), r);
    NegativeNumberPasses1(s);
    Pass(s, 0.0, State(1, [Num(0.0)], ['~']), State(2, [Num(0.0), Num(2.0)], ['~']), r);
    NegativeNumberPasses0(s);
    Pass(s, 0.0, State(0, [Num(0.0)], []), State(1, [Num(0.0)], ['~']), r);
    assert AnswerPrefix(s, 0.0) == [Num(0.0)];
    Start(s, 0.0, r);
  }

  /** The run from cell 4 on. */
  lemma NegativeNumberRunsFrom4(pow: (real, real) -> real)
    ensures Run([Op('-')], [0.0, -2.0, 2.0], pow) == Ok([0.0, -4.0])
  {
    var toks := [Op('-')];
    assert [0.0, -2.0, 2.0][..1] + [-4.0] == [0.0, -4.0];
    assert toks[0..][1..] == toks[1..];
    assert Run(toks[0..], [0.0, -2.0, 2.0], pow) == Ok([0.0, -4.0]);
  }

  /** The run from cell 2 on. */
  lemma NegativeNumberRunsFrom2(pow: (real, real) -> real)
    ensures Run([Op('~'), Num(2.0), Op('-')], [0.0, 2.0], pow) == Ok([0.0, -4.0])
  {
    var toks := [Op('~'), Num(2.0), Op('-')];
    assert [0.0, 2.0][..1] + [-2.0] == [0.0, -2.0];
    assert [0.0, -2.0] + [2.0] == [0.0, -2.0, 2.0];
    assert toks[0..][1..] == toks[1..] && toks[1..][1..] == toks[2..];
    assert toks[2..] == [Op('-')];
    NegativeNumberRunsFrom4(pow);
    assert Run(toks[1..], [0.0, -2.0], pow) == Ok([0.0, -4.0]);
    assert Run(toks[0..], [0.0, 2.0], pow) == Ok([0.0, -4.0]);
  }

  /** The run from cell 0 on. */
  lemma NegativeNumberRunsFrom0(pow: (real, real) -> real)
    ensures Run([Num(0.0), Num(2.0), Op('~'), Num(2.0), Op('-')], [], pow) == Ok([0.0, -4.0])
  {
    var toks := [Num(0.0), Num(2.0), Op('~'), Num(2.0), Op('-')];
    assert [] + [0.0] == [0.0];
    assert [0.0] + [2.0] == [0.0, 2.0];
    assert toks[0..][1..] == toks[1..] && toks[1..][1..] == toks[2..];
    assert toks[2..] == [Op('~'), Num(2.0), Op('-')];
    NegativeNumberRunsFrom2(pow);
    assert Run(toks[1..], [0.0], pow) == Ok([0.0, -4.0]);
    assert Run(toks[0..], [], pow) == Ok([0.0, -4.0]);
  }

  lemma NegativeNumberEvaluates(pow: (real, real) -> real)
    ensures Evaluate([Num(0.0), Num(2.0), Op('~'), Num(2.0), Op('-')], pow) == Ok(-4.0)
  {
    NegativeNumberRunsFrom0(pow);
  }

  /** `negative_number`: a leading `-` negates the first literal, so `-2-2` is -4. */
  lemma NegativeNumber(s: string, pow: (real, real) -> real)
    requires s == "-2-2"
    ensures Calculate(New(), s, pow) == (Calculator(-4.0), Ok(-4.0))
  {
    NegativeNumberConverts(s);
    NegativeNumberEvaluates(pow);
    Succeeds(New(), s, pow, [Num(0.0), Num(2.0), Op('~'), Num(2.0), Op('-')], -4.0);
  }

  /** The first `-` starts the input, so it is the unary `~`. */
  lemma DoubleMinusPasses0(s: string)
    requires Spells(s, "--2")
    ensures StepsTo(s, 0.0, State(0, [Num(0.0)], []), State(1, [Num(0.0)], ['~']))
  {
    PushQuietly(s, 0.0, 0, [Num(0.0)], [], ['~']);
  }

  /** The second `-` follows a table key, so it is a `~` too, and pops the first. */
  lemma DoubleMinusPasses1(s: string)
    requires Spells(s, "--2")
    ensures StepsTo(s, 0.0, State(1, [Num(0.0)], ['~']), State(2, [Num(0.0), Op('~')], ['~']))
  {
    assert OperatorAt(s, 1) == '~';
    PopStep(s, 0.0, 1, '~', [Num(0.0)], ['~'], [Op('~')], ['~'], [Num(0.0), Op('~')]);
  }

  /** The literal `2`. */
  lemma DoubleMinusPasses2(s: string)
    requires Spells(s, "--2")
    ensures StepsTo(s, 0.0, State(2, [Num(0.0), Op('~')], ['~']), State(3, [Num(0.0), Op('~'), Num(2.0)], ['~']))
  {
    DigitStep(s, 0.0, 2, [Num(0.0), Op('~')], ['~'], [Num(0.0), Op('~'), Num(2.0)]);
  }

  lemma DoubleMinusConverts(s: string)
    requires Spells(s, "--2")
    ensures ToPostfix(s, 0.0) == Ok([Num(0.0), Op('~'), Num(2.0), Op('~')])
  {
    var r: Result<seq<Tok>, CalculatorError> := Ok([Num(0.0), Op('~'), Num(2.0), Op('~')]);
    FlushEnds(s, 0.0, [Num(0.0), Op('~'), Num(2.0)], ['~'], [Op('~')], [Num(0.0), Op('~'), Num(2.0), Op('~')]);
    Stop(s, 0.0, State(3, [Num(0.0), Op('~'), Num(2.0)], ['~']), r);
    DoubleMinusPasses2(s);
    Pass(s, 0.0, State(2, [Num(0.0), Op('~')], ['~']), State(3, [Num(0.0), Op('~'), Num(2.0)], ['~']), r);
    DoubleMinusPasses1(s);
    Pass(s, 0.0, State(1, [Num(0.0)], ['~']), State(2, [Num(0.0), Op('~')], ['~']), r);
    DoubleMinusPasses0(s);
    Pass(s, 0.0, State(0, [Num(0.0)], []), State(1, [Num(0.0)], ['~']), r);
    assert AnswerPrefix(s, 0.0) == [Num(0.0)];
    Start(s, 0.0, r);
  }

  /** The run from cell 2 on. */
  lemma DoubleMinusRunsFrom2(pow: (real, real) -> real)
    ensures Run([Num(2.0), Op('~')], [0.0], pow) == Ok([0.0, -2.0])
  {
    var toks := [Num(2.0), Op('~')];
    assert [0.0] + [2.0] == [0.0, 2.0];
    assert [0.0, 2.0][..1] + [-2.0] == [0.0, -2.0];
    assert toks[1..] == [Op('~')] && toks[1..][1..] == [];
    assert Run(toks[1..], [0.0, 2.0], pow) == Ok([0.0, -2.0]);
  }

  /** The run from cell 0 on: the first `~` negates the prefixed 0. */
  lemma DoubleMinusRunsFrom0(pow: (real, real) -> real)
    ensures Run([Num(0.0), Op('~'), Num(2.0), Op('~')], [], pow) == Ok([0.0, -2.0])
  {
    var toks := [Num(0.0), Op('~'), Num(2.0), Op('~')];
    assert [] + [0.0] == [0.0];
    assert [0.0][..0] + [0.0] == [0.0];
    assert toks[1..] == [Op('~'), Num(2.0), Op('~')] && toks[1..][1..] == [Num(2.0), Op('~')];
    DoubleMinusRunsFrom2(pow);
    assert Run(toks[1..], [0.0], pow) == Ok([0.0, -2.0]);
  }

  /**
   * Two leading minus signs: the second `~` pops the first, which negates the
   * prefixed previous answer 0, so `--2` is -2.
   */
  lemma DoubleMinus(s: string, pow: (real, real) -> real)
    requires s == "--2"
    ensures Calculate(New(), s, pow) == (Calculator(-2.0), Ok(-2.0))
  {
    DoubleMinusConverts(s);
    DoubleMinusRunsFrom0(pow);
    Succeeds(New(), s, pow, [Num(0.0), Op('~'), Num(2.0), Op('~')], -2.0);
  }

  /** A leading `-` is the unary `~`. */
  lemma HarderNegativeNumberPasses0(s: string)
    requires Spells(s, "-(-2-2)*-2")
    ensures StepsTo(s, 0.0, State(0, [Num(0.0)], []), State(1, [Num(0.0)], ['~']))
  {
    PushQuietly(s, 0.0, 0, [Num(0.0)], [], ['~']);
  }

  /** An opening bracket. */
  lemma HarderNegativeNumberPasses1(s: string)
    requires Spells(s, "-(-2-2)*-2")
    ensures StepsTo(s, 0.0, State(1, [Num(0.0)], ['~']), State(2, [Num(0.0)], ['~', '(']))
  {
    OpenStep(s, 0.0, 1, [Num(0.0)], ['~'], ['~', '(']);
  }

  /** A `-` after `(` is unary and sits above the bracket. */
  lemma HarderNegativeNumberPasses2(s: string)
    requires Spells(s, "-(-2-2)*-2")
    ensures StepsTo(s, 0.0, State(2, [Num(0.0)], ['~', '(']), State(3, [Num(0.0)], ['~', '(', '~']))
  {
    assert OperatorAt(s, 2) == '~';
    PushQuietly(s, 0.0, 2, [Num(0.0)], ['~', '('], ['~', '(', '~']);
  }

  /** The literal `2`. */
  lemma HarderNegativeNumberPasses3(s: string)
    requires Spells(s, "-(-2-2)*-2")
    ensures StepsTo(s, 0.0, State(3, [Num(0.0)], ['~', '(', '~']), State(4, [Num(0.0), Num(2.0)], ['~', '(', '~']))
  {
    DigitStep(s, 0.0, 3, [Num(0.0)], ['~', '(', '~'], [Num(0.0), Num(2.0)]);
  }

  /** The binary `-` inside the brackets pops the `~` above the bracket and stops at the bracket. */
  lemma HarderNegativeNumberPasses4(s: string)
    requires Spells(s, "-(-2-2)*-2")
    ensures StepsTo(s, 0.0, State(4, [Num(0.0), Num(2.0)], ['~', '(', '~']), State(5, [Num(0.0), Num(2.0), Op('~')], ['~', '(', '-']))
  {
    PopStep(s, 0.0, 4, '-', [Num(0.0), Num(2.0)], ['~', '(', '~'], [Op('~')], ['~', '(', '-'], [Num(0.0), Num(2.0), Op('~')]);
  }

  /** The literal `2`. */
  lemma HarderNegativeNumberPasses5(s: string)
    requires Spells(s, "-(-2-2)*-2")
    ensures StepsTo(s, 0.0, State(5, [Num(0.0), Num(2.0), Op('~')], ['~', '(', '-']), State(6, [Num(0.0), Num(2.0), Op('~'), Num(2.0)], ['~', '(', '-']))
  {
    DigitStep(s, 0.0, 5, [Num(0.0), Num(2.0), Op('~')], ['~', '(', '-'], [Num(0.0), Num(2.0), Op('~'), Num(2.0)]);
  }

  /** The closing bracket emits the `-` and drops its partner. */
  lemma HarderNegativeNumberPasses6(s: string)
    requires Spells(s, "-(-2-2)*-2")
    ensures StepsTo(s, 0.0, State(6, [Num(0.0), Num(2.0), Op('~'), Num(2.0)], ['~', '(', '-']), State(7, [Num(0.0), Num(2.0), Op('~'), Num(2.0), Op('-')], ['~']))
  {
    CloseStep(s, 0.0, 6, 1, [Num(0.0), Num(2.0), Op('~'), Num(2.0)], ['~', '(', '-'], [Op('-')], ['~'], [Num(0.0), Num(2.0), Op('~'), Num(2.0), Op('-')]);
  }

  /** The `*` after it pops the outer `~`. */
  lemma HarderNegativeNumberPasses7(s: string)
    requires Spells(s, "-(-2-2)*-2")
    ensures StepsTo(s, 0.0, State(7, [Num(0.0), Num(2.0), Op('~'), Num(2.0), Op('-')], ['~']), State(8, [Num(0.0), Num(2.0), Op('~'), Num(2.0), Op('-'), Op('~')], ['*']))
  {
    PopStep(s, 0.0, 7, '*', [Num(0.0), Num(2.0), Op('~'), Num(2.0), Op('-')], ['~'], [Op('~')], ['*'], [Num(0.0), Num(2.0), Op('~'), Num(2.0), Op('-'), Op('~')]);
  }

  /** A `-` after `*` is unary. */
  lemma HarderNegativeNumberPasses8(s: string)
    requires Spells(s, "-(-2-2)*-2")
    ensures StepsTo(s, 0.0, State(8, [Num(0.0), Num(2.0), Op('~'), Num(2.0), Op('-'), Op('~')], ['*']), State(9, [Num(0.0), Num(2.0), Op('~'), Num(2.0), Op('-'), Op('~')], ['*', '~']))
  {
    assert OperatorAt(s, 8) == '~';
    PushQuietly(s, 0.0, 8, [Num(0.0), Num(2.0), Op('~'), Num(2.0), Op('-'), Op('~')], ['*'], ['*', '~']);
  }

  /** The last literal. */
  lemma HarderNegativeNumberPasses9(s: string)
    requires Spells(s, "-(-2-2)*-2")
    ensures StepsTo(s, 0.0, State(9, [Num(0.0), Num(2.0), Op('~'), Num(2.0), Op('-'), Op('~')], ['*', '~']), State(10, [Num(0.0), Num(2.0), Op('~'), Num(2.0), Op('-'), Op('~'), Num(2.0)], ['*', '~']))
  {
    DigitStep(s, 0.0, 9, [Num(0.0), Num(2.0), Op('~'), Num(2.0), Op('-'), Op('~')], ['*', '~'], [Num(0.0), Num(2.0), Op('~'), Num(2.0), Op('-'), Op('~'), Num(2.0)]);
  }

  lemma HarderNegativeNumberConverts(s: string)
    requires Spells(s, "-(-2-2)*-2")
    ensures ToPostfix(s, 0.0) == Ok([Num(0.0), Num(2.0), Op('~'), Num(2.0), Op('-'), Op('~'), Num(2.0), Op('~'), Op('*')])
  {
    var r: Result<seq<Tok>, CalculatorError> := Ok([Num(0.0), Num(2.0), Op('~'), Num(2.0), Op('-'), Op('~'), Num(2.0), Op('~'), Op('*')]);
    FlushEnds(s, 0.0, [Num(0.0), Num(2.0), Op('~'), Num(2.0), Op('-'), Op('~'), Num(2.0)], ['*', '~'], [Op('~'), Op('*')], [Num(0.0), Num(2.0), Op('~'), Num(2.0), Op('-'), Op('~'), Num(2.0), Op('~'), Op('*')]);
    Stop(s, 0.0, State(10, [Num(0.0), Num(2.0), Op('~'), Num(2.0), Op('-'), Op('~'), Num(2.0)], ['*', '~']), r);
    HarderNegativeNumberPasses9(s);
    Pass(s, 0.0, State(9, [Num(0.0), Num(2.0), Op('~'), Num(2.0), Op('-'), Op('~')], ['*', '~']), State(10, [Num(0.0), Num(2.0), Op('~'), Num(2.0), Op('-'), Op('~'), Num(2.0)], ['*', '~']), r);
    HarderNegativeNumberPasses8(s);
    Pass(s, 0.0, State(8, [Num(0.0), Num(2.0), Op('~'), Num(2.0), Op('-'), Op('~')], ['*']), State(9, [Num(0.0), Num(2.0), Op('~'), Num(2.0), Op('-'), Op('~')], ['*', '~']), r);
    HarderNegativeNumberPasses7(s);
    Pass(s, 0.0, State(7, [Num(0.0), Num(2.0), Op('~'), Num(2.0), Op('-')], ['~']), State(8, [Num(0.0), Num(2.0), Op('~'), Num(2.0), Op('-'), Op('~')], ['*']), r);
    HarderNegativeNumberPasses6(s);
    Pass(s, 0.0, State(6, [Num(0.0), Num(2.0), Op('~'), Num(2.0)], ['~', '(', '-']), State(7, [Num(0.0), Num(2.0), Op('~'), Num(2.0), Op('-')], ['~']), r);
    HarderNegativeNumberPasses5(s);
    Pass(s, 0.0, State(5, [Num(0.0), Num(2.0), Op('~')], ['~', '(', '-']), State(6, [Num(0.0), Num(2.0), Op('~'), Num(2.0)], ['~', '(', '-']), r);
    HarderNegativeNumberPasses4(s);
    Pass(s, 0.0, State(4, [Num(0.0), Num(2.0)], ['~', '(', '~']), State(5, [Num(0.0), Num(2.0), Op('~')], ['~', '(', '-']), r);
    HarderNegativeNumberPasses3(s);
    Pass(s, 0.0, State(3, [Num(0.0)], ['~', '(', '~']), State(4, [Num(0.0), Num(2.0)], ['~', '(', '~']), r);
    HarderNegativeNumberPasses2(s);
    Pass(s, 0.0, State(2, [Num(0.0)], ['~', '(']), State(3, [Num(0.0)], ['~', '(', '~']), r);
    HarderNegativeNumberPasses1(s);
    Pass(s, 0.0, State(1, [Num(0.0)], ['~']), State(2, [Num(0.0)], ['~', '(']), r);
    HarderNegativeNumberPasses0(s);
    Pass(s, 0.0, State(0, [Num(0.0)], []), State(1, [Num(0.0)], ['~']), r);
    assert AnswerPrefix(s, 0.0) == [Num(0.0)];
    Start(s, 0.0, r);
  }

  /** The run from cell 8 on. */
  lemma HarderNegativeNumberRunsFrom8(pow: (real, real) -> real)
    ensures Run([Op('*')], [0.0, 4.0, -2.0], pow) == Ok([0.0, -8.0])
  {
    var toks := [Op('*')];
    assert [0.0, 4.0, -2.0][..1] + [-8.0] == [0.0, -8.0];
    assert toks[0..][1..] == toks[1..];
    assert Run(toks[0..], [0.0, 4.0, -2.0], pow) == Ok([0.0, -8.0]);
  }

  /** The run from cell 6 on. */
  lemma HarderNegativeNumberRunsFrom6(pow: (real, real) -> real)
    ensures Run([Num(2.0), Op('~'), Op('*')], [0.0, 4.0], pow) == Ok([0.0, -8.0])
  {
    var toks := [Num(2.0), Op('~'), Op('*')];
    assert [0.0, 4.0] + [2.0] == [0.0, 4.0, 2.0];
    assert [0.0, 4.0, 2.0][..2] + [-2.0] == [0.0, 4.0, -2.0];
    assert toks[0..][1..] == toks[1..] && toks[1..][1..] == toks[2..];
    assert toks[2..] == [Op('*')];
    HarderNegativeNumberRunsFrom8(pow);
    assert Run(toks[1..], [0.0, 4.0, 2.0], pow) == Ok([0.0, -8.0]);
    assert Run(toks[0..], [0.0, 4.0], pow) == Ok([0.0, -8.0]);
  }

  /** The run from cell 4 on. */
  lemma HarderNegativeNumberRunsFrom4(pow: (real, real) -> real)
    ensures Run([Op('-'), Op('~'), Num(2.0), Op('~'), Op('*')], [0.0, -2.0, 2.0], pow) == Ok([0.0, -8.0])
  {
    var toks := [Op('-'), Op('~'), Num(2.0), Op('~'), Op('*')];
    assert [0.0, -2.0, 2.0][..1] + [-4.0] == [0.0, -4.0];
    assert [0.0, -4.0][..1] + [4.0] == [0.0, 4.0];
    assert toks[0..][1..] == toks[1..] && toks[1..][1..] == toks[2..];
    assert toks[2..] == [Num(2.0), Op('~'), Op('*')];
    HarderNegativeNumberRunsFrom6(pow);
    assert Run(toks[1..], [0.0, -4.0], pow) == Ok([0.0, -8.0]);
    assert Run(toks[0..], [0.0, -2.0, 2.0], pow) == Ok([0.0, -8.0]);
  }

  /** The run from cell 2 on. */
  lemma HarderNegativeNumberRunsFrom2(pow: (real, real) -> real)
    ensures Run([Op('~'), Num(2.0), Op('-'), Op('~'), Num(2.0), Op('~'), Op('*')], [0.0, 2.0], pow) == Ok([0.0, -8.0])
  {
    var toks := [Op('~'), Num(2.0), Op('-'), Op('~'), Num(2.0), Op('~'), Op('*')];
    assert [0.0, 2.0][..1] + [-2.0] == [0.0, -2.0];
    assert [0.0, -2.0] + [2.0] == [0.0, -2.0, 2.0];
    assert toks[0..][1..] == toks[1..] && toks[1..][1..] == toks[2..];
    assert toks[2..] == [Op('-'), Op('~'), Num(2.0), Op('~'), Op('*')];
    HarderNegativeNumberRunsFrom4(pow);
    assert Run(toks[1..], [0.0, -2.0], pow) == Ok([0.0, -8.0]);
    assert Run(toks[0..], [0.0, 2.0], pow) == Ok([0.0, -8.0]);
  }

  /** The run from cell 0 on. */
  lemma HarderNegativeNumberRunsFrom0(pow: (real, real) -> real)
    ensures Run([Num(0.0), Num(2.0), Op('~'), Num(2.0), Op('-'), Op('~'), Num(2.0), Op('~'), Op('*')], [], pow) == Ok([0.0, -8.0])
  {
    var toks := [Num(0.0), Num(2.0), Op('~'), Num(2.0), Op('-'), Op('~'), Num(2.0), Op('~'), Op('*')];
    assert [] + [0.0] == [0.0];
    assert [0.0] + [2.0] == [0.0, 2.0];
    assert toks[0..][1..] == toks[1..] && toks[1..][1..] == toks[2..];
    assert toks[2..] == [Op('~'), Num(2.0), Op('-'), Op('~'), Num(2.0), Op('~'), Op('*')];
    HarderNegativeNumberRunsFrom2(pow);
    assert Run(toks[1..], [0.0], pow) == Ok([0.0, -8.0]);
    assert Run(toks[0..], [], pow) == Ok([0.0, -8.0]);
  }

  lemma HarderNegativeNumberEvaluates(pow: (real, real) -> real)
    ensures Evaluate([Num(0.0), Num(2.0), Op('~'), Num(2.0), Op('-'), Op('~'), Num(2.0), Op('~'), Op('*')], pow) == Ok(-8.0)
  {
    HarderNegativeNumberRunsFrom0(pow);
  }

  /** `harder_negative_number`: unary minus before a bracket and after `*`, so `-(-2-2)*-2` is -8. */
  lemma HarderNegativeNumber(s: string, pow: (real, real) -> real)
    requires s == "-(-2-2)*-2"
    ensures Calculate(New(), s, pow) == (Calculator(-8.0), Ok(-8.0))
  {
    HarderNegativeNumberConverts(s);
    HarderNegativeNumberEvaluates(pow);
    Succeeds(New(), s, pow, [Num(0.0), Num(2.0), Op('~'), Num(2.0), Op('-'), Op('~'), Num(2.0), Op('~'), Op('*')], -8.0);
  }

  /** `*` follows the implicit previous answer -4. */
  lemma HiddenNegativeAnswerPasses0(s: string)
    requires Spells(s, "*2")
    ensures StepsTo(s, -4.0, State(0, [Num(-4.0)], []), State(1, [Num(-4.0)], ['*']))
  {
    PushQuietly(s, -4.0, 0, [Num(-4.0)], [], ['*']);
  }

  /** The literal `2`. */
  lemma HiddenNegativeAnswerPasses1(s: string)
    requires Spells(s, "*2")
    ensures StepsTo(s, -4.0, State(1, [Num(-4.0)], ['*']), State(2, [Num(-4.0), Num(2.0)], ['*']))
  {
    DigitStep(s, -4.0, 1, [Num(-4.0)], ['*'], [Num(-4.0), Num(2.0)]);
  }

  lemma HiddenNegativeAnswerConverts(s: string)
    requires Spells(s, "*2")
    ensures ToPostfix(s, -4.0) == Ok([Num(-4.0), Num(2.0), Op('*')])
  {
    var r: Result<seq<Tok>, CalculatorError> := Ok([Num(-4.0), Num(2.0), Op('*')]);
    FlushEnds(s, -4.0, [Num(-4.0), Num(2.0)], ['*'], [Op('*')], [Num(-4.0), Num(2.0), Op('*')]);
    Stop(s, -4.0, State(2, [Num(-4.0), Num(2.0)], ['*']), r);
    HiddenNegativeAnswerPasses1(s);
    Pass(s, -4.0, State(1, [Num(-4.0)], ['*']), State(2, [Num(-4.0), Num(2.0)], ['*']), r);
    HiddenNegativeAnswerPasses0(s);
    Pass(s, -4.0, State(0, [Num(-4.0)], []), State(1, [Num(-4.0)], ['*']), r);
    assert AnswerPrefix(s, -4.0) == [Num(-4.0)];
    Start(s, -4.0, r);
  }

  /**
   * After `-2-2` the previous answer is -4, whose text starts with `-`: the
   * evaluation loop takes the implicit first operand for the operator `-` and
   * `*2` fails, where the intended loop gives -8.
   */
  lemma HiddenNegativeAnswer(s1: string, s2: string, pow: (real, real) -> real)
    requires s1 == "-2-2" && s2 == "*2"
    ensures Calculate(Calculate(New(), s1, pow).0, s2, pow) == (Calculator(-4.0), Err(OperationWihtoutANumber('-')))
    ensures EvaluateIntended(ToPostfix(s2, -4.0).value, pow) == Ok(-8.0)
  {
    NegativeNumber(s1, pow);
    HiddenNegativeAnswerConverts(s2);
    HiddenProductBySign(-4.0, 2.0, pow);
    EvaluationFails(Calculator(-4.0), s2, pow, [Num(-4.0), Num(2.0), Op('*')], OperationWihtoutANumber('-'));
  }

  /** `unknown_symbol`: `@` is refused and the state is kept. */
  lemma UnknownSymbol(s: string, pow: (real, real) -> real)
    requires s == "@"
    ensures Calculate(New(), s, pow) == (New(), Err(UknownSymbol('@')))
  {
    ForeignStep(s, 0.0, 0, [Num(0.0)], []);
    Stop(s, 0.0, State(0, [Num(0.0)], []), Err(UknownSymbol('@')));
    Start(s, 0.0, Err(UknownSymbol('@')));
    ConversionFails(New(), s, pow, UknownSymbol('@'));
  }

  /** The literal `2`. */
  lemma UnknownSymbolInExpressionPasses0(s: string)
    requires Spells(s, "2+@2")
    ensures StepsTo(s, 0.0, State(0, [], []), State(1, [Num(2.0)], []))
  {
    DigitStep(s, 0.0, 0, [], [], [Num(2.0)]);
  }

  /** `+` goes onto the empty stack; the loop then stops at `@`. */
  lemma UnknownSymbolInExpressionPasses1(s: string)
    requires Spells(s, "2+@2")
    ensures StepsTo(s, 0.0, State(1, [Num(2.0)], []), State(2, [Num(2.0)], ['+']))
  {
    PushQuietly(s, 0.0, 1, [Num(2.0)], [], ['+']);
  }

  lemma UnknownSymbolInExpressionConverts(s: string)
    requires Spells(s, "2+@2")
    ensures ToPostfix(s, 0.0) == Err(UknownSymbol('@'))
  {
    var r: Result<seq<Tok>, CalculatorError> := Err(UknownSymbol('@'));
    ForeignStep(s, 0.0, 2, [Num(2.0)], ['+']);
    Stop(s, 0.0, State(2, [Num(2.0)], ['+']), r);
    UnknownSymbolInExpressionPasses1(s);
    Pass(s, 0.0, State(1, [Num(2.0)], []), State(2, [Num(2.0)], ['+']), r);
    UnknownSymbolInExpressionPasses0(s);
    Pass(s, 0.0, State(0, [], []), State(1, [Num(2.0)], []), r);
    Start(s, 0.0, r);
  }

  /** `unknown_symbol_in_expression`: `@` after a valid prefix is refused all the same. */
  lemma UnknownSymbolInExpression(s: string, pow: (real, real) -> real)
    requires s == "2+@2"
    ensures Calculate(New(), s, pow) == (New(), Err(UknownSymbol('@')))
  {
    UnknownSymbolInExpressionConverts(s);
    ConversionFails(New(), s, pow, UknownSymbol('@'));
  }

  /** The literal `2`. */
  lemma OperationWithoutANumberPasses0(s: string)
    requires Spells(s, "2+")
    ensures StepsTo(s, 0.0, State(0, [], []), State(1, [Num(2.0)], []))
  {
    DigitStep(s, 0.0, 0, [], [], [Num(2.0)]);
  }

  /** `+`, the last character, goes onto the empty stack. */
  lemma OperationWithoutANumberPasses1(s: string)
    requires Spells(s, "2+")
    ensures StepsTo(s, 0.0, State(1, [Num(2.0)], []), State(2, [Num(2.0)], ['+']))
  {
    PushQuietly(s, 0.0, 1, [Num(2.0)], [], ['+']);
  }

  lemma OperationWithoutANumberConverts(s: string)
    requires Spells(s, "2+")
    ensures ToPostfix(s, 0.0) == Ok([Num(2.0), Op('+')])
  {
    var r: Result<seq<Tok>, CalculatorError> := Ok([Num(2.0), Op('+')]);
    FlushEnds(s, 0.0, [Num(2.0)], ['+'], [Op('+')], [Num(2.0), Op('+')]);
    Stop(s, 0.0, State(2, [Num(2.0)], ['+']), r);
    OperationWithoutANumberPasses1(s);
    Pass(s, 0.0, State(1, [Num(2.0)], []), State(2, [Num(2.0)], ['+']), r);
    OperationWithoutANumberPasses0(s);
    Pass(s, 0.0, State(0, [], []), State(1, [Num(2.0)], []), r);
    Start(s, 0.0, r);
  }

  lemma OperationWithoutANumberEvaluates(pow: (real, real) -> real)
    ensures Evaluate([Num(2.0), Op('+')], pow) == Err(OperationWihtoutANumber('+'))
  {
    var toks := [Num(2.0), Op('+')];
    assert [] + [2.0] == [2.0];
    assert toks[0..][1..] == toks[1..] && toks[1..][1..] == toks[2..];
    assert Run(toks[1..], [2.0], pow) == Err(OperationWihtoutANumber('+'));
    assert Run(toks[0..], [], pow) == Err(OperationWihtoutANumber('+'));
  }

  /** `operation_without_a_number`: `2+` converts, but `+` finds one operand only. */
  lemma OperationWithoutANumber(s: string, pow: (real, real) -> real)
    requires s == "2+"
    ensures Calculate(New(), s, pow) == (New(), Err(OperationWihtoutANumber('+')))
  {
    OperationWithoutANumberConverts(s);
    OperationWithoutANumberEvaluates(pow);
    EvaluationFails(New(), s, pow, [Num(2.0), Op('+')], OperationWihtoutANumber('+'));
  }

  /** `closing_bracket_without_a_pair`: `)` with nothing stacked. */
  lemma UnpairedClosingBracket(s: string, pow: (real, real) -> real)
    requires s == ")"
    ensures Calculate(New(), s, pow) == (New(), Err(ClosingBracketWithoutAPair))
  {
    UnpairedClose(s, 0.0, 0, [Num(0.0)], []);
    Stop(s, 0.0, State(0, [Num(0.0)], []), Err(ClosingBracketWithoutAPair));
    Start(s, 0.0, Err(ClosingBracketWithoutAPair));
    ConversionFails(New(), s, pow, ClosingBracketWithoutAPair);
  }

  /** An opening bracket. */
  lemma NestedUnpairedClosingBracketPasses0(s: string)
    requires Spells(s, "(()))")
    ensures StepsTo(s, 0.0, State(0, [Num(0.0)], []), State(1, [Num(0.0)], ['(']))
  {
    OpenStep(s, 0.0, 0, [Num(0.0)], [], ['(']);
  }

  /** A second opening bracket. */
  lemma NestedUnpairedClosingBracketPasses1(s: string)
    requires Spells(s, "(()))")
    ensures StepsTo(s, 0.0, State(1, [Num(0.0)], ['(']), State(2, [Num(0.0)], ['(', '(']))
  {
    OpenStep(s, 0.0, 1, [Num(0.0)], ['('], ['(', '(']);
  }

  /** A closing bracket pairs with the second `(`. */
  lemma NestedUnpairedClosingBracketPasses2(s: string)
    requires Spells(s, "(()))")
    ensures StepsTo(s, 0.0, State(2, [Num(0.0)], ['(', '(']), State(3, [Num(0.0)], ['(']))
  {
    CloseStep(s, 0.0, 2, 1, [Num(0.0)], ['(', '('], [], ['('], [Num(0.0)]);
  }

  /** A closing bracket pairs with the first `(`; the loop then stops at the third. */
  lemma NestedUnpairedClosingBracketPasses3(s: string)
    requires Spells(s, "(()))")
    ensures StepsTo(s, 0.0, State(3, [Num(0.0)], ['(']), State(4, [Num(0.0)], []))
  {
    CloseStep(s, 0.0, 3, 0, [Num(0.0)], ['('], [], [], [Num(0.0)]);
  }

  lemma NestedUnpairedClosingBracketConverts(s: string)
    requires Spells(s, "(()))")
    ensures ToPostfix(s, 0.0) == Err(ClosingBracketWithoutAPair)
  {
    var r: Result<seq<Tok>, CalculatorError> := Err(ClosingBracketWithoutAPair);
    UnpairedClose(s, 0.0, 4, [Num(0.0)], []);
    Stop(s, 0.0, State(4, [Num(0.0)], []), r);
    NestedUnpairedClosingBracketPasses3(s);
    Pass(s, 0.0, State(3, [Num(0.0)], ['(']), State(4, [Num(0.0)], []), r);
    NestedUnpairedClosingBracketPasses2(s);
    Pass(s, 0.0, State(2, [Num(0.0)], ['(', '(']), State(3, [Num(0.0)], ['(']), r);
    NestedUnpairedClosingBracketPasses1(s);
    Pass(s, 0.0, State(1, [Num(0.0)], ['(']), State(2, [Num(0.0)], ['(', '(']), r);
    NestedUnpairedClosingBracketPasses0(s);
    Pass(s, 0.0, State(0, [Num(0.0)], []), State(1, [Num(0.0)], ['(']), r);
    assert AnswerPrefix(s, 0.0) == [Num(0.0)];
    Start(s, 0.0, r);
  }

  /** `nested_closing_bracket_without_a_pair`: the third `)` of `(()))` has no partner left. */
  lemma NestedUnpairedClosingBracket(s: string, pow: (real, real) -> real)
    requires s == "(()))"
    ensures Calculate(New(), s, pow) == (New(), Err(ClosingBracketWithoutAPair))
  {
    NestedUnpairedClosingBracketConverts(s);
    ConversionFails(New(), s, pow, ClosingBracketWithoutAPair);
  }

  /** The only character, an opening bracket. */
  lemma UnpairedOpeningBracketPasses0(s: string)
    requires Spells(s, "(")
    ensures StepsTo(s, 0.0, State(0, [Num(0.0)], []), State(1, [Num(0.0)], ['(']))
  {
    OpenStep(s, 0.0, 0, [Num(0.0)], [], ['(']);
  }

  lemma UnpairedOpeningBracketConverts(s: string)
    requires Spells(s, "(")
    ensures ToPostfix(s, 0.0) == Err(OpeningBracketWithoutAPair)
  {
    var r: Result<seq<Tok>, CalculatorError> := Err(OpeningBracketWithoutAPair);
    FlushFails(s, 0.0, [Num(0.0)], ['(']);
    Stop(s, 0.0, State(1, [Num(0.0)], ['(']), r);
    UnpairedOpeningBracketPasses0(s);
    Pass(s, 0.0, State(0, [Num(0.0)], []), State(1, [Num(0.0)], ['(']), r);
    assert AnswerPrefix(s, 0.0) == [Num(0.0)];
    Start(s, 0.0, r);
  }

  /** `opening_bracket_without_a_pair`: `(` is still stacked when the input ends. */
  lemma UnpairedOpeningBracket(s: string, pow: (real, real) -> real)
    requires s == "("
    ensures Calculate(New(), s, pow) == (New(), Err(OpeningBracketWithoutAPair))
  {
    UnpairedOpeningBracketConverts(s);
    ConversionFails(New(), s, pow, OpeningBracketWithoutAPair);
  }

  /** An opening bracket. */
  lemma NestedUnpairedOpeningBracketPasses0(s: string)
    requires Spells(s, "((())")
    ensures StepsTo(s, 0.0, State(0, [Num(0.0)], []), State(1, [Num(0.0)], ['(']))
  {
    OpenStep(s, 0.0, 0, [Num(0.0)], [], ['(']);
  }

  /** A second opening bracket. */
  lemma NestedUnpairedOpeningBracketPasses1(s: string)
    requires Spells(s, "((())")
    ensures StepsTo(s, 0.0, State(1, [Num(0.0)], ['(']), State(2, [Num(0.0)], ['(', '(']))
  {
    OpenStep(s, 0.0, 1, [Num(0.0)], ['('], ['(', '(']);
  }

  /** A third opening bracket. */
  lemma NestedUnpairedOpeningBracketPasses2(s: string)
    requires Spells(s, "((())")
    ensures StepsTo(s, 0.0, State(2, [Num(0.0)], ['(', '(']), State(3, [Num(0.0)], ['(', '(', '(']))
  {
    OpenStep(s, 0.0, 2, [Num(0.0)], ['(', '('], ['(', '(', '(']);
  }

  /** A closing bracket pairs with the third `(`. */
  lemma NestedUnpairedOpeningBracketPasses3(s: string)
    requires Spells(s, "((())")
    ensures StepsTo(s, 0.0, State(3, [Num(0.0)], ['(', '(', '(']), State(4, [Num(0.0)], ['(', '(']))
  {
    CloseStep(s, 0.0, 3, 2, [Num(0.0)], ['(', '(', '('], [], ['(', '('], [Num(0.0)]);
  }

  /** A closing bracket pairs with the second `(`; the first is left when the input ends. */
  lemma NestedUnpairedOpeningBracketPasses4(s: string)
    requires Spells(s, "((())")
    ensures StepsTo(s, 0.0, State(4, [Num(0.0)], ['(', '(']), State(5, [Num(0.0)], ['(']))
  {
    CloseStep(s, 0.0, 4, 1, [Num(0.0)], ['(', '('], [], ['('], [Num(0.0)]);
  }

  lemma NestedUnpairedOpeningBracketConverts(s: string)
    requires Spells(s, "((())")
    ensures ToPostfix(s, 0.0) == Err(OpeningBracketWithoutAPair)
  {
    var r: Result<seq<Tok>, CalculatorError> := Err(OpeningBracketWithoutAPair);
    FlushFails(s, 0.0, [Num(0.0)], ['(']);
    Stop(s, 0.0, State(5, [Num(0.0)], ['(']), r);
    NestedUnpairedOpeningBracketPasses4(s);
    Pass(s, 0.0, State(4, [Num(0.0)], ['(', '(']), State(5, [Num(0.0)], ['(']), r);
    NestedUnpairedOpeningBracketPasses3(s);
    Pass(s, 0.0, State(3, [Num(0.0)], ['(', '(', '(']), State(4, [Num(0.0)], ['(', '(']), r);
    NestedUnpairedOpeningBracketPasses2(s);
    Pass(s, 0.0, State(2, [Num(0.0)], ['(', '(']), State(3, [Num(0.0)], ['(', '(', '(']), r);
    NestedUnpairedOpeningBracketPasses1(s);
    Pass(s, 0.0, State(1, [Num(0.0)], ['(']), State(2, [Num(0.0)], ['(', '(']), r);
    NestedUnpairedOpeningBracketPasses0(s);
    Pass(s, 0.0, State(0, [Num(0.0)], []), State(1, [Num(0.0)], ['(']), r);
    assert AnswerPrefix(s, 0.0) == [Num(0.0)];
    Start(s, 0.0, r);
  }

  /** `nested_opening_bracket_without_a_pair`: one `(` of `((())` is never closed. */
  lemma NestedUnpairedOpeningBracket(s: string, pow: (real, real) -> real)
    requires s == "((())"
    ensures Calculate(New(), s, pow) == (New(), Err(OpeningBracketWithoutAPair))
  {
    NestedUnpairedOpeningBracketConverts(s);
    ConversionFails(New(), s, pow, OpeningBracketWithoutAPair);
  }

  /** `dot_without_a_number_before`: a literal may not start with a dot. */
  lemma DotWithoutANumberBefore(s: string, pow: (real, real) -> real)
    requires s == ".2"
    ensures Calculate(New(), s, pow) == (New(), Err(DotWithoutANumber))
  {
    DotStep(s, 0.0, 0, [Num(0.0)], []);
    Stop(s, 0.0, State(0, [Num(0.0)], []), Err(DotWithoutANumber));
    Start(s, 0.0, Err(DotWithoutANumber));
    ConversionFails(New(), s, pow, DotWithoutANumber);
  }

  /** `2.2.` is one run of digits and dots holding two dots, which the scan refuses. */
  lemma TwoDots(s: string)
    requires Spells(s, "2.2.")
    ensures ScanNumber(s, 0).Err?
  {
    assert RunEnd(s, 4) == 4;
    assert RunEnd(s, 0) == 4;
    assert s[0..4] == s;
    assert s[4..] == [] && s[3..][1..] == s[4..] && s[2..][1..] == s[3..] && s[1..][1..] == s[2..];
    assert DotCount(s[4..]) == 0;
    assert DotCount(s[3..]) == 1;
    assert DotCount(s[2..]) == 1;
    assert DotCount(s[1..]) == 2;
    assert DotCount(s) == 2;
  }

  /** `dot_without_a_number_after`: a second dot in one literal. */
  lemma DotWithoutANumberAfter(s: string, pow: (real, real) -> real)
    requires s == "2.2."
    ensures Calculate(New(), s, pow) == (New(), Err(DotWithoutANumber))
  {
    TwoDots(s);
    LiteralFails(s, 0.0, 0, [], []);
    Stop(s, 0.0, State(0, [], []), Err(DotWithoutANumber));
    Start(s, 0.0, Err(DotWithoutANumber));
    ConversionFails(New(), s, pow, DotWithoutANumber);
  }

  /** The literal `2`. */
  lemma DivisionByZeroPasses0(s: string)
    requires Spells(s, "2/0")
    ensures StepsTo(s, 0.0, State(0, [], []), State(1, [Num(2.0)], []))
  {
    DigitStep(s, 0.0, 0, [], [], [Num(2.0)]);
  }

  /** `/` goes onto the empty stack. */
  lemma DivisionByZeroPasses1(s: string)
    requires Spells(s, "2/0")
    ensures StepsTo(s, 0.0, State(1, [Num(2.0)], []), State(2, [Num(2.0)], ['/']))
  {
    PushQuietly(s, 0.0, 1, [Num(2.0)], [], ['/']);
  }

  /** The literal `0`. */
  lemma DivisionByZeroPasses2(s: string)
    requires Spells(s, "2/0")
    ensures StepsTo(s, 0.0, State(2, [Num(2.0)], ['/']), State(3, [Num(2.0), Num(0.0)], ['/']))
  {
    DigitStep(s, 0.0, 2, [Num(2.0)], ['/'], [Num(2.0), Num(0.0)]);
  }

  lemma DivisionByZeroConverts(s: string)
    requires Spells(s, "2/0")
    ensures ToPostfix(s, 0.0) == Ok([Num(2.0), Num(0.0), Op('/')])
  {
    var r: Result<seq<Tok>, CalculatorError> := Ok([Num(2.0), Num(0.0), Op('/')]);
    FlushEnds(s, 0.0, [Num(2.0), Num(0.0)], ['/'], [Op('/')], [Num(2.0), Num(0.0), Op('/')]);
    Stop(s, 0.0, State(3, [Num(2.0), Num(0.0)], ['/']), r);
    DivisionByZeroPasses2(s);
    Pass(s, 0.0, State(2, [Num(2.0)], ['/']), State(3, [Num(2.0), Num(0.0)], ['/']), r);
    DivisionByZeroPasses1(s);
    Pass(s, 0.0, State(1, [Num(2.0)], []), State(2, [Num(2.0)], ['/']), r);
    DivisionByZeroPasses0(s);
    Pass(s, 0.0, State(0, [], []), State(1, [Num(2.0)], []), r);
    Start(s, 0.0, r);
  }

  /** The run from cell 2 on. */
  lemma DivisionByZeroRunsFrom2(pow: (real, real) -> real)
    ensures Run([Op('/')], [2.0, 0.0], pow) == Err(DivisonByZero)
  {
    var toks := [Op('/')];
    assert toks[0..][1..] == toks[1..];
    assert Run(toks[0..], [2.0, 0.0], pow) == Err(DivisonByZero);
  }

  /** The run from cell 0 on. */
  lemma DivisionByZeroRunsFrom0(pow: (real, real) -> real)
    ensures Run([Num(2.0), Num(0.0), Op('/')], [], pow) == Err(DivisonByZero)
  {
    var toks := [Num(2.0), Num(0.0), Op('/')];
    assert [] + [2.0] == [2.0];
    assert [2.0] + [0.0] == [2.0, 0.0];
    assert toks[0..][1..] == toks[1..] && toks[1..][1..] == toks[2..];
    assert toks[2..] == [Op('/')];
    DivisionByZeroRunsFrom2(pow);
    assert Run(toks[1..], [2.0], pow) == Err(DivisonByZero);
    assert Run(toks[0..], [], pow) == Err(DivisonByZero);
  }

  lemma DivisionByZeroEvaluates(pow: (real, real) -> real)
    ensures Evaluate([Num(2.0), Num(0.0), Op('/')], pow) == Err(DivisonByZero)
  {
    DivisionByZeroRunsFrom0(pow);
  }

  /** `division_by_zero`: `2/0` converts, and the division is refused. */
  lemma DivisionByZero(s: string, pow: (real, real) -> real)
    requires s == "2/0"
    ensures Calculate(New(), s, pow) == (New(), Err(DivisonByZero))
  {
    DivisionByZeroConverts(s);
    DivisionByZeroEvaluates(pow);
    EvaluationFails(New(), s, pow, [Num(2.0), Num(0.0), Op('/')], DivisonByZero);
  }

  /** The literal `2`. */
  lemma FractionalDivisorPasses0(s: string)
    requires Spells(s, "2/0.5")
    ensures StepsTo(s, 0.0, State(0, [], []), State(1, [Num(2.0)], []))
  {
    DigitStep(s, 0.0, 0, [], [], [Num(2.0)]);
  }

  /** `/` goes onto the empty stack. */
  lemma FractionalDivisorPasses1(s: string)
    requires Spells(s, "2/0.5")
    ensures StepsTo(s, 0.0, State(1, [Num(2.0)], []), State(2, [Num(2.0)], ['/']))
  {
    PushQuietly(s, 0.0, 1, [Num(2.0)], [], ['/']);
  }

  /** The literal `0.5`, read whole. */
  lemma FractionalDivisorPasses2(s: string)
    requires Spells(s, "2/0.5")
    ensures StepsTo(s, 0.0, State(2, [Num(2.0)], ['/']), State(5, [Num(2.0), Num(0.5)], ['/']))
  {
    PointLiteral(s, 2);
    LiteralStep(s, 0.0, 2, [Num(2.0)], ['/'], s[2..5], 4, [Num(2.0), Num(0.5)]);
  }

  lemma FractionalDivisorConverts(s: string)
    requires Spells(s, "2/0.5")
    ensures ToPostfix(s, 0.0) == Ok([Num(2.0), Num(0.5), Op('/')])
  {
    var r: Result<seq<Tok>, CalculatorError> := Ok([Num(2.0), Num(0.5), Op('/')]);
    FlushEnds(s, 0.0, [Num(2.0), Num(0.5)], ['/'], [Op('/')], [Num(2.0), Num(0.5), Op('/')]);
    Stop(s, 0.0, State(5, [Num(2.0), Num(0.5)], ['/']), r);
    FractionalDivisorPasses2(s);
    Pass(s, 0.0, State(2, [Num(2.0)], ['/']), State(5, [Num(2.0), Num(0.5)], ['/']), r);
    FractionalDivisorPasses1(s);
    Pass(s, 0.0, State(1, [Num(2.0)], []), State(2, [Num(2.0)], ['/']), r);
    FractionalDivisorPasses0(s);
    Pass(s, 0.0, State(0, [], []), State(1, [Num(2.0)], []), r);
    Start(s, 0.0, r);
  }

  /** The run from cell 2 on. */
  lemma FractionalDivisorRunsFrom2(pow: (real, real) -> real)
    ensures Run([Op('/')], [2.0, 0.5], pow) == Err(DivisonByZero)
  {
    var toks := [Op('/')];
    assert toks[0..][1..] == toks[1..];
    assert Run(toks[0..], [2.0, 0.5], pow) == Err(DivisonByZero);
  }

  /** The run from cell 0 on. */
  lemma FractionalDivisorRunsFrom0(pow: (real, real) -> real)
    ensures Run([Num(2.0), Num(0.5), Op('/')], [], pow) == Err(DivisonByZero)
  {
    var toks := [Num(2.0), Num(0.5), Op('/')];
    assert [] + [2.0] == [2.0];
    assert [2.0] + [0.5] == [2.0, 0.5];
    assert toks[0..][1..] == toks[1..] && toks[1..][1..] == toks[2..];
    assert toks[2..] == [Op('/')];
    FractionalDivisorRunsFrom2(pow);
    assert Run(toks[1..], [2.0], pow) == Err(DivisonByZero);
    assert Run(toks[0..], [], pow) == Err(DivisonByZero);
  }

  lemma FractionalDivisorEvaluates(pow: (real, real) -> real)
    ensures Evaluate([Num(2.0), Num(0.5), Op('/')], pow) == Err(DivisonByZero)
  {
    FractionalDivisorRunsFrom0(pow);
  }

  /**
   * The division guard of `math` refuses `2/0.5`, whose divisor is not zero
   * but truncates to the integer 0, while the division of the operator type
   * yields 4.
   */
  lemma FractionalDivisorRefused(s: string, pow: (real, real) -> real)
    requires s == "2/0.5"
    ensures Calculate(New(), s, pow) == (New(), Err(DivisonByZero))
    ensures Operators.CheckedDiv(2.0, 0.5) == Ok(4.0)
  {
    FractionalDivisorConverts(s);
    FractionalDivisorEvaluates(pow);
    EvaluationFails(New(), s, pow, [Num(2.0), Num(0.5), Op('/')], DivisonByZero);
  }
}
