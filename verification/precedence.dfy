/**
 * What conversion followed by evaluation computes, for three one-digit
 * literals joined by two of `+ - * /`: the operator of higher priority is
 * applied first, and of two operators of equal priority the left one.
 */
module Precedence {

  import opened Wrappers
  import opened Errors
  import opened Tokens
  import opened Postfix
  import opened Evaluator
  import opened Calculator
  import opened Replay

  predicate Binary(c: char)
  {
    c in "+-*/"
  }

  /** `d o d o d`: one-digit literals joined by binary operators. */
  predicate ThreeLiterals(s: string)
  {
    |s| == 5 && IsDigit(s[0]) && IsDigit(s[2]) && IsDigit(s[4]) && Binary(s[1]) && Binary(s[3])
  }

  /**
   * The value of `x o1 y o2 z` grouped by priority and then from the left,
   * each operation done by `math`.
   */
  function Grouped(x: real, o1: char, y: real, o2: char, z: real, pow: (real, real) -> real): Result<real, CalculatorError>
    requires Binary(o1) && Binary(o2)
  {
    if Priority(o2) > Priority(o1) then
      match Math(y, z, o2, pow)
      case Err(e) => Err(e)
      case Ok(v) => Math(x, v, o1, pow)
    else
      match Math(x, y, o1, pow)
      case Err(e) => Err(e)
      case Ok(v) => Math(v, z, o2, pow)
  }

  /** The cells of `x o1 y o2 z` when `o1` binds at least as tightly: `x y o1 z o2`. */
  lemma EvaluatesLeftFirst(x: real, o1: char, y: real, o2: char, z: real, pow: (real, real) -> real)
    requires x >= 0.0 && y >= 0.0 && z >= 0.0 && Binary(o1) && Binary(o2)
    ensures Evaluate([Num(x), Num(y), Op(o1), Num(z), Op(o2)], pow) ==
      match Math(x, y, o1, pow)
      case Err(e) => Err(e)
      case Ok(v) => Math(v, z, o2, pow)
  {
    var toks := [Num(x), Num(y), Op(o1), Num(z), Op(o2)];
    assert toks[1..] == [Num(y), Op(o1), Num(z), Op(o2)];
    assert toks[2..] == [Op(o1), Num(z), Op(o2)] == toks[1..][1..];
    assert toks[3..] == [Num(z), Op(o2)] == toks[2..][1..];
    assert toks[4..] == [Op(o2)] == toks[3..][1..];
    assert toks[4..][1..] == [];
    assert [] + [x] == [x] && [x] + [y] == [x, y] && [x, y][..0] == [];
    assert Run(toks, [], pow) == Run(toks[2..], [x, y], pow);
    match Math(x, y, o1, pow)
    case Err(e) =>
    case Ok(v) =>
      assert [] + [v] == [v] && [v] + [z] == [v, z] && [v, z][..0] == [];
      assert Run(toks[2..], [x, y], pow) == Run(toks[4..], [v, z], pow);
      match Math(v, z, o2, pow)
      case Err(e) =>
      case Ok(w) =>
        assert [] + [w] == [w];
        assert Run(toks[4..], [v, z], pow) == Ok([w]);
  }

  /** A binary operator on a stack of two values replaces them by the result of `math`. */
  lemma AppliesToPair(a: real, b: real, o: char, pow: (real, real) -> real)
    requires Binary(o)
    ensures Run([Op(o)], [a, b], pow) ==
      match Math(a, b, o, pow)
      case Err(e) => Err(e)
      case Ok(w) => Ok([w])
  {
    assert [Op(o)][1..] == [];
    assert [a, b][..0] == [];
    match Math(a, b, o, pow)
    case Err(e) =>
    case Ok(w) => assert [] + [w] == [w];
  }

  /** The cells of `x o1 y o2 z` when `o2` binds tighter: `x y z o2 o1`. */
  lemma EvaluatesRightFirst(x: real, o1: char, y: real, o2: char, z: real, pow: (real, real) -> real)
    requires x >= 0.0 && y >= 0.0 && z >= 0.0 && Binary(o1) && Binary(o2)
    ensures Evaluate([Num(x), Num(y), Num(z), Op(o2), Op(o1)], pow) ==
      match Math(y, z, o2, pow)
      case Err(e) => Err(e)
      case Ok(v) => Math(x, v, o1, pow)
  {
    var toks := [Num(x), Num(y), Num(z), Op(o2), Op(o1)];
    PushesThree(x, y, z, [Op(o2), Op(o1)], pow);
    assert toks == [Num(x), Num(y), Num(z)] + [Op(o2), Op(o1)];
    match Math(y, z, o2, pow)
    case Err(e) =>
      assert Run([Op(o2), Op(o1)], [x, y, z], pow) == Err(e);
    case Ok(v) =>
      assert [x, y, z][..1] + [v] == [x, v];
      assert [Op(o2), Op(o1)][1..] == [Op(o1)];
      assert Run([Op(o2), Op(o1)], [x, y, z], pow) == Run([Op(o1)], [x, v], pow);
      AppliesToPair(x, v, o1, pow);
  }

  /** Three number cells in a row are pushed in order. */
  lemma PushesThree(x: real, y: real, z: real, rest: seq<Tok>, pow: (real, real) -> real)
    requires x >= 0.0 && y >= 0.0 && z >= 0.0
    ensures Run([Num(x), Num(y), Num(z)] + rest, [], pow) == Run(rest, [x, y, z], pow)
  {
    var toks := [Num(x), Num(y), Num(z)] + rest;
    assert toks[0] == Num(x) && toks[1..] == [Num(y), Num(z)] + rest;
    assert toks[1..][0] == Num(y) && toks[1..][1..] == [Num(z)] + rest;
    assert toks[1..][1..][0] == Num(z) && toks[1..][1..][1..] == rest;
    assert [] + [x] == [x] && [x] + [y] == [x, y] && [x, y] + [z] == [x, y, z];
    assert Run(toks[1..][1..], [x, y], pow) == Run(rest, [x, y, z], pow);
    assert Run(toks[1..], [x], pow) == Run(toks[1..][1..], [x, y], pow);
    assert Run(toks, [], pow) == Run(toks[1..], [x], pow);
  }

  /** The first literal. */
  lemma HeadPass0(s: string, prev: real)
    requires ThreeLiterals(s)
    ensures StepsTo(s, prev, State(0, [], []), State(1, [Num(DigitValue(s[0]) as real)], []))
  {
    DigitStep(s, prev, 0, [], [], [Num(DigitValue(s[0]) as real)]);
  }

  /** `o1` goes onto the empty stack: after a digit, `-` is binary. */
  lemma HeadPass1(s: string, prev: real)
    requires ThreeLiterals(s)
    ensures var x := DigitValue(s[0]) as real;
      StepsTo(s, prev, State(1, [Num(x)], []), State(2, [Num(x)], [s[1]]))
  {
    assert OperatorAt(s, 1) == s[1];
    PushQuietly(s, prev, 1, [Num(DigitValue(s[0]) as real)], [], [s[1]]);
  }

  /** The second literal. */
  lemma HeadPass2(s: string, prev: real)
    requires ThreeLiterals(s)
    ensures var x, y := DigitValue(s[0]) as real, DigitValue(s[2]) as real;
      StepsTo(s, prev, State(2, [Num(x)], [s[1]]), State(3, [Num(x), Num(y)], [s[1]]))
  {
    var x, y := DigitValue(s[0]) as real, DigitValue(s[2]) as real;
    DigitStep(s, prev, 2, [Num(x)], [s[1]], [Num(x), Num(y)]);
  }

  /** `o2` pops `o1` on arrival. */
  lemma TailLeftPass3(s: string, prev: real)
    requires ThreeLiterals(s) && Priority(s[3]) <= Priority(s[1])
    ensures var x, o1, y, o2 := DigitValue(s[0]) as real, s[1], DigitValue(s[2]) as real, s[3];
      StepsTo(s, prev, State(3, [Num(x), Num(y)], [o1]), State(4, [Num(x), Num(y), Op(o1)], [o2]))
  {
    var x, o1, y, o2 := DigitValue(s[0]) as real, s[1], DigitValue(s[2]) as real, s[3];
    assert OperatorAt(s, 3) == o2;
    assert [o1][..0] + [o2] == [o2];
    PopStep(s, prev, 3, o2, [Num(x), Num(y)], [o1], [Op(o1)], [o2], [Num(x), Num(y), Op(o1)]);
  }

  /** The last literal after `o2` popped `o1`. */
  lemma TailLeftPass4(s: string, prev: real)
    requires ThreeLiterals(s)
    ensures var x, o1, y, o2, z := DigitValue(s[0]) as real, s[1], DigitValue(s[2]) as real, s[3], DigitValue(s[4]) as real;
      StepsTo(s, prev, State(4, [Num(x), Num(y), Op(o1)], [o2]), State(5, [Num(x), Num(y), Op(o1), Num(z)], [o2]))
  {
    var x, o1, y, o2, z := DigitValue(s[0]) as real, s[1], DigitValue(s[2]) as real, s[3], DigitValue(s[4]) as real;
    DigitStep(s, prev, 4, [Num(x), Num(y), Op(o1)], [o2], [Num(x), Num(y), Op(o1), Num(z)]);
  }

  /** The first three passes over `d o d o d`: a literal, `o1` onto the empty stack, a literal. */
  lemma ThreeLiteralsHead(s: string, prev: real, r: Result<seq<Tok>, CalculatorError>)
    requires ThreeLiterals(s)
    requires Finishes(s, prev, State(3, [Num(DigitValue(s[0]) as real), Num(DigitValue(s[2]) as real)], [s[1]]), r)
    ensures ToPostfix(s, prev) == r
  {
    var x, o1, y := DigitValue(s[0]) as real, s[1], DigitValue(s[2]) as real;
    HeadPass0(s, prev);
    HeadPass1(s, prev);
    HeadPass2(s, prev);
    Pass(s, prev, State(2, [Num(x)], [o1]), State(3, [Num(x), Num(y)], [o1]), r);
    Pass(s, prev, State(1, [Num(x)], []), State(2, [Num(x)], [o1]), r);
    Pass(s, prev, State(0, [], []), State(1, [Num(x)], []), r);
    assert AnswerPrefix(s, prev) == [];
    Start(s, prev, r);
  }

  /** `o2` binds tighter: it is stacked above `o1`, and both leave at the end, `o2` first. */
  lemma ThreeLiteralsTailRight(s: string, prev: real)
    requires ThreeLiterals(s) && Priority(s[3]) > Priority(s[1])
    ensures var x, o1, y, o2, z := DigitValue(s[0]) as real, s[1], DigitValue(s[2]) as real, s[3], DigitValue(s[4]) as real;
      Finishes(s, prev, State(3, [Num(x), Num(y)], [o1]), Ok([Num(x), Num(y), Num(z), Op(o2), Op(o1)]))
  {
    var x, o1, y, o2, z := DigitValue(s[0]) as real, s[1], DigitValue(s[2]) as real, s[3], DigitValue(s[4]) as real;
    var r: Result<seq<Tok>, CalculatorError> := Ok([Num(x), Num(y), Num(z), Op(o2), Op(o1)]);
    TailRightEnds(s, prev);
    TailRightPass4(s, prev);
    TailRightPass3(s, prev);
    Pass(s, prev, State(4, [Num(x), Num(y)], [o1, o2]), State(5, [Num(x), Num(y), Num(z)], [o1, o2]), r);
    Pass(s, prev, State(3, [Num(x), Num(y)], [o1]), State(4, [Num(x), Num(y)], [o1, o2]), r);
  }

  /** `o2` binds tighter and is stacked above `o1`. */
  lemma TailRightPass3(s: string, prev: real)
    requires ThreeLiterals(s) && Priority(s[3]) > Priority(s[1])
    ensures var x, o1, y, o2 := DigitValue(s[0]) as real, s[1], DigitValue(s[2]) as real, s[3];
      StepsTo(s, prev, State(3, [Num(x), Num(y)], [o1]), State(4, [Num(x), Num(y)], [o1, o2]))
  {
    var x, o1, y, o2 := DigitValue(s[0]) as real, s[1], DigitValue(s[2]) as real, s[3];
    assert OperatorAt(s, 3) == o2;
    PushQuietly(s, prev, 3, [Num(x), Num(y)], [o1], [o1, o2]);
  }

  /** The last literal with both operators stacked. */
  lemma TailRightPass4(s: string, prev: real)
    requires ThreeLiterals(s)
    ensures var x, o1, y, o2, z := DigitValue(s[0]) as real, s[1], DigitValue(s[2]) as real, s[3], DigitValue(s[4]) as real;
      StepsTo(s, prev, State(4, [Num(x), Num(y)], [o1, o2]), State(5, [Num(x), Num(y), Num(z)], [o1, o2]))
  {
    var x, o1, y, o2, z := DigitValue(s[0]) as real, s[1], DigitValue(s[2]) as real, s[3], DigitValue(s[4]) as real;
    DigitStep(s, prev, 4, [Num(x), Num(y)], [o1, o2], [Num(x), Num(y), Num(z)]);
  }

  /** After the last literal, the flush emits `o2` and then `o1`. */
  lemma TailRightEnds(s: string, prev: real)
    requires ThreeLiterals(s)
    ensures var x, o1, y, o2, z := DigitValue(s[0]) as real, s[1], DigitValue(s[2]) as real, s[3], DigitValue(s[4]) as real;
      Finishes(s, prev, State(5, [Num(x), Num(y), Num(z)], [o1, o2]), Ok([Num(x), Num(y), Num(z), Op(o2), Op(o1)]))
  {
    var x, o1, y, o2, z := DigitValue(s[0]) as real, s[1], DigitValue(s[2]) as real, s[3], DigitValue(s[4]) as real;
    var r: Result<seq<Tok>, CalculatorError> := Ok([Num(x), Num(y), Num(z), Op(o2), Op(o1)]);
    assert [Num(x), Num(y), Num(z)] + [Op(o2), Op(o1)] == r.value;
    assert [o1, o2][..1] == [o1];
    assert PopOrder([o1, o2]) == [Op(o2), Op(o1)];
    FlushEnds(s, prev, [Num(x), Num(y), Num(z)], [o1, o2], [Op(o2), Op(o1)], r.value);
    Stop(s, prev, State(5, [Num(x), Num(y), Num(z)], [o1, o2]), r);
  }


  /** `o1` binds at least as tightly: `o2` pops it on arrival and leaves at the end. */
  lemma ThreeLiteralsTailLeft(s: string, prev: real)
    requires ThreeLiterals(s) && Priority(s[3]) <= Priority(s[1])
    ensures var x, o1, y, o2, z := DigitValue(s[0]) as real, s[1], DigitValue(s[2]) as real, s[3], DigitValue(s[4]) as real;
      Finishes(s, prev, State(3, [Num(x), Num(y)], [o1]), Ok([Num(x), Num(y), Op(o1), Num(z), Op(o2)]))
  {
    var x, o1, y, o2, z := DigitValue(s[0]) as real, s[1], DigitValue(s[2]) as real, s[3], DigitValue(s[4]) as real;
    var r: Result<seq<Tok>, CalculatorError> := Ok([Num(x), Num(y), Op(o1), Num(z), Op(o2)]);
    TailLeftEnds(s, prev);
    TailLeftPass4(s, prev);
    TailLeftPass3(s, prev);
    Pass(s, prev, State(4, [Num(x), Num(y), Op(o1)], [o2]), State(5, [Num(x), Num(y), Op(o1), Num(z)], [o2]), r);
    Pass(s, prev, State(3, [Num(x), Num(y)], [o1]), State(4, [Num(x), Num(y), Op(o1)], [o2]), r);
  }

  /** After the last literal, the flush emits `o2`. */
  lemma TailLeftEnds(s: string, prev: real)
    requires ThreeLiterals(s)
    ensures var x, o1, y, o2, z := DigitValue(s[0]) as real, s[1], DigitValue(s[2]) as real, s[3], DigitValue(s[4]) as real;
      Finishes(s, prev, State(5, [Num(x), Num(y), Op(o1), Num(z)], [o2]), Ok([Num(x), Num(y), Op(o1), Num(z), Op(o2)]))
  {
    var x, o1, y, o2, z := DigitValue(s[0]) as real, s[1], DigitValue(s[2]) as real, s[3], DigitValue(s[4]) as real;
    var r: Result<seq<Tok>, CalculatorError> := Ok([Num(x), Num(y), Op(o1), Num(z), Op(o2)]);
    assert [Num(x), Num(y), Op(o1), Num(z)] + [Op(o2)] == r.value;
    assert PopOrder([o2]) == [Op(o2)];
    FlushEnds(s, prev, [Num(x), Num(y), Op(o1), Num(z)], [o2], [Op(o2)], r.value);
    Stop(s, prev, State(5, [Num(x), Num(y), Op(o1), Num(z)], [o2]), r);
  }

  /** The conversion of `d o d o d`: `o1` leaves the stack before `o2` arrives exactly when it binds at least as tightly. */
  lemma ThreeLiteralsConvert(s: string, prev: real)
    requires ThreeLiterals(s)
    ensures var x, o1, y, o2, z := DigitValue(s[0]) as real, s[1], DigitValue(s[2]) as real, s[3], DigitValue(s[4]) as real;
      ToPostfix(s, prev) ==
        if Priority(o2) > Priority(o1) then Ok([Num(x), Num(y), Num(z), Op(o2), Op(o1)])
        else Ok([Num(x), Num(y), Op(o1), Num(z), Op(o2)])
  {
    var x, o1, y, o2, z := DigitValue(s[0]) as real, s[1], DigitValue(s[2]) as real, s[3], DigitValue(s[4]) as real;
    if Priority(o2) > Priority(o1) {
      ThreeLiteralsTailRight(s, prev);
      ThreeLiteralsHead(s, prev, Ok([Num(x), Num(y), Num(z), Op(o2), Op(o1)]));
    } else {
      ThreeLiteralsTailLeft(s, prev);
      ThreeLiteralsHead(s, prev, Ok([Num(x), Num(y), Op(o1), Num(z), Op(o2)]));
    }
  }

  /**
   * `calculate` on `d o d o d` gives the value grouped by priority and then
   * from the left, whatever the previous answer.
   */
  lemma PrecedenceThenLeftToRight(c: Calculator, s: string, pow: (real, real) -> real)
    requires ThreeLiterals(s)
    ensures Calculate(c, s, pow).1 ==
      Grouped(DigitValue(s[0]) as real, s[1], DigitValue(s[2]) as real, s[3], DigitValue(s[4]) as real, pow)
  {
    var x, o1, y, o2, z := DigitValue(s[0]) as real, s[1], DigitValue(s[2]) as real, s[3], DigitValue(s[4]) as real;
    ThreeLiteralsConvert(s, c.previousAnswer);
    if Priority(o2) > Priority(o1) {
      EvaluatesRightFirst(x, o1, y, o2, z, pow);
    } else {
      EvaluatesLeftFirst(x, o1, y, o2, z, pow);
    }
  }
}
