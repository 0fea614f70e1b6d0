/**
 * The evaluation loop of `Calculator::calculate` and `Calculator::math`: the
 * postfix cells are consumed left to right against a value stack whose top is
 * its last element.
 */
module Evaluator {

  import opened Wrappers
  import opened Errors
  import opened Tokens
  import Operators

  const MaxI64: int := 0x7fff_ffff_ffff_ffff
  const MinI64: int := -0x8000_0000_0000_0000

  /** `x as i64`: truncation toward zero, saturating at the bounds of `i64`. */
  function AsI64(x: real): int
  {
    var t := if x >= 0.0 then x.Floor else -((-x).Floor);
    if t > MaxI64 then MaxI64 else if t < MinI64 then MinI64 else t
  }

  /** The cast yields 0 exactly for the values strictly between -1 and 1. */
  lemma AsI64ZeroIff(x: real)
    ensures AsI64(x) == 0 <==> -1.0 < x < 1.0
  {
    if x >= 0.0 {
      assert x.Floor == 0 <==> x < 1.0;
    } else {
      assert (-x).Floor == 0 <==> -x < 1.0;
    }
  }

  /**
   * `math`: one binary operation. Division is refused whenever the divisor
   * truncates to the integer 0, and a character outside `+ - * / ^` is an
   * unknown operator. `pow` stands for `f64::powf`.
   */
  function Math(first: real, second: real, op: char, pow: (real, real) -> real): (r: Result<real, CalculatorError>)
    ensures r.Err? <==> op !in "+-*/^" || (op == '/' && -1.0 < second < 1.0)
    ensures r.Err? ==> r.error == if op == '/' then DivisonByZero else UknownOperator(op)
    ensures op == '/' && r.Ok? ==> r.value * second == first
    ensures op == '+' ==> r == Ok(first + second)
    ensures op == '-' ==> r == Ok(first - second)
    ensures op == '*' ==> r == Ok(first * second)
    ensures op == '^' ==> r == Ok(pow(first, second))
  {
    AsI64ZeroIff(second);
    match op
    case '+' => Ok(first + second)
    case '-' => Ok(first - second)
    case '*' => Ok(first * second)
    case '/' => if AsI64(second) == 0 then Err(DivisonByZero) else Ok(first / second)
    case '^' => Ok(pow(first, second))
    case _ => Err(UknownOperator(op))
  }

  /**
   * `math` and `CalculatorOperator::execute` agree on every binary operator
   * except on divisors strictly between -1 and 1 other than 0, which `math`
   * refuses and `execute` divides by; `~` agrees with `Inverse`.
   */
  lemma MathAgreesWithExecute(first: real, second: real, op: Operators.CalculatorOperator, pow: (real, real) -> real)
    ensures op != Operators.Inverse && op != Operators.Divide ==>
      Math(first, second, Operators.Symbol(op), pow) == Operators.Execute(op, Some(first), second, pow)
    ensures op == Operators.Divide ==>
      (Math(first, second, '/', pow) == Operators.Execute(op, Some(first), second, pow) <==>
       !(second != 0.0 && -1.0 < second < 1.0))
    ensures op == Operators.Inverse ==>
      Math(0.0, second, '-', pow) == Operators.Execute(op, None, second, pow)
  {
    match op
    case Add =>
    case Subtract =>
    case Multiply =>
      assert Some(first).value == first;
      assert Operators.Execute(op, Some(first), second, pow).value == first * second;
    case Power =>
    case Inverse =>
    case Divide =>
      if second != 0.0 && -1.0 < second < 1.0 {
        assert Math(first, second, '/', pow).Err?;
      }
  }

  /**
   * One cell of the evaluation loop applied to the value stack `vals`. A
   * binary operator takes the value below the top as its first operand and
   * the top as its second, and replaces both by the result.
   */
  function Apply(vals: seq<real>, t: Tok, pow: (real, real) -> real): (r: Result<seq<real>, CalculatorError>)
    ensures ReadsAsNumber(t) ==> r == Ok(vals + [t.value])
    ensures !ReadsAsNumber(t) && Lead(t) == '~' ==>
      r == if |vals| == 0 then Ok(vals) else Ok(vals[..|vals| - 1] + [-vals[|vals| - 1]])
    ensures !ReadsAsNumber(t) && Lead(t) in "(+-*/^" && |vals| < 2 ==> r == Err(OperationWihtoutANumber(Lead(t)))
    ensures !ReadsAsNumber(t) && Lead(t) in "+-*/^" && |vals| >= 2 ==>
      && (r.Err? <==> Lead(t) == '/' && -1.0 < vals[|vals| - 1] < 1.0)
      && (r.Ok? ==> |r.value| == |vals| - 1 && r.value[..|vals| - 2] == vals[..|vals| - 2])
    ensures !ReadsAsNumber(t) && Lead(t) in "+-*/^" && |vals| >= 2 ==>
      var m := Math(vals[|vals| - 2], vals[|vals| - 1], Lead(t), pow);
      r == if m.Ok? then Ok(vals[..|vals| - 2] + [m.value]) else Err(m.error)
    ensures !ReadsAsNumber(t) && !InTable(Lead(t)) ==> r == Ok(vals)
  {
    if ReadsAsNumber(t) then Ok(vals + [t.value])
    else
      var op := Lead(t);
      if !InTable(op) then Ok(vals)
      else if op == '~' then
        if |vals| == 0 then Ok(vals)
        else
          match Math(0.0, vals[|vals| - 1], '-', pow)
          case Err(e) => Err(e)
          case Ok(v) => Ok(vals[..|vals| - 1] + [v])
      else if |vals| >= 2 then
        match Math(vals[|vals| - 2], vals[|vals| - 1], op, pow)
        case Err(e) => Err(e)
        case Ok(v) => Ok(vals[..|vals| - 2] + [v])
      else Err(OperationWihtoutANumber(op))
  }

  /** The errors evaluation can raise. */
  predicate EvaluationError(e: CalculatorError)
  {
    e.OperationWihtoutANumber? || e.DivisonByZero? || e.UknownOperator?
  }

  /**
   * The evaluation loop over the remaining cells. A non-empty stack never
   * becomes empty, and cells free of brackets never raise `UknownOperator`.
   */
  function Run(toks: seq<Tok>, vals: seq<real>, pow: (real, real) -> real): (r: Result<seq<real>, CalculatorError>)
    ensures r.Ok? && |vals| > 0 ==> |r.value| > 0
    ensures r.Err? ==> EvaluationError(r.error)
    ensures r.Err? && Arithmetic(toks) ==> !r.error.UknownOperator?
    decreases |toks|
  {
    if |toks| == 0 then Ok(vals)
    else
      match Apply(vals, toks[0], pow)
      case Err(e) => Err(e)
      case Ok(next) =>
        assert Arithmetic(toks) ==> Arithmetic(toks[1..]) by {
          if Arithmetic(toks) {
            forall j | 0 <= j < |toks[1..]| && toks[1..][j].Op?
              ensures toks[1..][j].symbol in "+-*/^~"
            {
              assert toks[1..][j] == toks[j + 1];
            }
          }
        }
        Run(toks[1..], next, pow)
  }

  /**
   * The loop over `a + b` is the loop over `a` continued, from the stack it
   * leaves, over `b`; an error in `a` ends it.
   */
  lemma {:induction false} RunAppend(a: seq<Tok>, b: seq<Tok>, vals: seq<real>, pow: (real, real) -> real)
    ensures Run(a + b, vals, pow) ==
      match Run(a, vals, pow)
      case Err(e) => Err(e)
      case Ok(next) => Run(b, next, pow)
    decreases |a|
  {
    if |a| == 0 {
      assert a + b == b;
    } else {
      assert (a + b)[0] == a[0] && (a + b)[1..] == a[1..] + b;
      match Apply(vals, a[0], pow)
      case Err(_) =>
      case Ok(next) => RunAppend(a[1..], b, next, pow);
    }
  }

  /**
   * The value the loop leaves on top of the stack; values beneath it are
   * dropped. A first cell that reads as a number keeps the stack non-empty, so
   * `Uknown` is never returned for it; a negative first number reads as the
   * operator `-` and finds no operands.
   */
  function Evaluate(toks: seq<Tok>, pow: (real, real) -> real): (r: Result<real, CalculatorError>)
    ensures r.Ok? <==> Run(toks, [], pow).Ok? && |Run(toks, [], pow).value| > 0
    ensures r.Ok? ==> var vals := Run(toks, [], pow).value; r.value == vals[|vals| - 1]
    ensures Run(toks, [], pow).Err? ==> r == Err(Run(toks, [], pow).error)
    ensures Run(toks, [], pow).Ok? && |Run(toks, [], pow).value| == 0 ==> r == Err(Uknown)
    ensures |toks| > 0 && ReadsAsNumber(toks[0]) ==> r != Err(Uknown)
    ensures |toks| > 0 && toks[0].Num? && !ReadsAsNumber(toks[0]) ==> r == Err(OperationWihtoutANumber('-'))
    ensures r.Err? && !r.error.Uknown? ==> EvaluationError(r.error)
    ensures r.Err? && Arithmetic(toks) ==> !r.error.UknownOperator?
  {
    match Run(toks, [], pow)
    case Err(e) => Err(e)
    case Ok(vals) =>
      if |vals| == 0 then Err(Uknown) else Ok(vals[|vals| - 1])
  }

  /**
   * The loop as evidently intended: a number cell is pushed whatever its sign,
   * so a negative previous answer serves as an operand instead of being taken
   * for the operator `-`.
   */
  function RunIntended(toks: seq<Tok>, vals: seq<real>, pow: (real, real) -> real): (r: Result<seq<real>, CalculatorError>)
    ensures r.Ok? && |vals| > 0 ==> |r.value| > 0
    ensures r.Err? ==> EvaluationError(r.error)
    decreases |toks|
  {
    if |toks| == 0 then Ok(vals)
    else
      var step := if toks[0].Num? then Ok(vals + [toks[0].value]) else Apply(vals, toks[0], pow);
      match step
      case Err(e) => Err(e)
      case Ok(next) => RunIntended(toks[1..], next, pow)
  }

  /** The result of the intended loop: its top value, or `Uknown` on an empty stack. */
  function EvaluateIntended(toks: seq<Tok>, pow: (real, real) -> real): (r: Result<real, CalculatorError>)
    ensures |toks| > 0 && toks[0].Num? ==> r != Err(Uknown)
    ensures r.Ok? <==> RunIntended(toks, [], pow).Ok? && |RunIntended(toks, [], pow).value| > 0
    ensures r.Ok? ==> var vals := RunIntended(toks, [], pow).value; r.value == vals[|vals| - 1]
    ensures RunIntended(toks, [], pow).Err? ==> r == Err(RunIntended(toks, [], pow).error)
    ensures RunIntended(toks, [], pow).Ok? && |RunIntended(toks, [], pow).value| == 0 ==> r == Err(Uknown)
  {
    match RunIntended(toks, [], pow)
    case Err(e) => Err(e)
    case Ok(vals) =>
      if |vals| == 0 then Err(Uknown) else Ok(vals[|vals| - 1])
  }

  /** The intended loop changes nothing for cells whose numbers are all non-negative. */
  lemma {:induction false} IntendedAgreesOnNonNegative(toks: seq<Tok>, vals: seq<real>, pow: (real, real) -> real)
    requires forall j :: 0 <= j < |toks| && toks[j].Num? ==> toks[j].value >= 0.0
    ensures RunIntended(toks, vals, pow) == Run(toks, vals, pow)
    decreases |toks|
  {
    if |toks| > 0 {
      match Apply(vals, toks[0], pow)
      case Err(_) =>
      case Ok(next) =>
        forall j | 0 <= j < |toks[1..]| && toks[1..][j].Num?
          ensures toks[1..][j].value >= 0.0
        {
          assert toks[1..][j] == toks[j + 1];
        }
        IntendedAgreesOnNonNegative(toks[1..], next, pow);
    }
  }

  /**
   * The hidden answer `*y` as written works only for a non-negative previous
   * answer; the intended loop multiplies for every sign.
   */
  lemma HiddenProductBySign(prev: real, y: real, pow: (real, real) -> real)
    requires y >= 0.0
    ensures Evaluate([Num(prev), Num(y), Op('*')], pow) == Ok(prev * y) <==> prev >= 0.0
    ensures prev < 0.0 ==> Evaluate([Num(prev), Num(y), Op('*')], pow) == Err(OperationWihtoutANumber('-'))
    ensures EvaluateIntended([Num(prev), Num(y), Op('*')], pow) == Ok(prev * y)
  {
    var toks := [Num(prev), Num(y), Op('*')];
    IntendedProduct(prev, y, pow);
    if prev >= 0.0 {
      IntendedAgreesOnNonNegative(toks, [], pow);
    }
  }

  /** The intended loop multiplies a number of either sign by a non-negative one. */
  lemma IntendedProduct(prev: real, y: real, pow: (real, real) -> real)
    requires y >= 0.0
    ensures RunIntended([Num(prev), Num(y), Op('*')], [], pow) == Ok([prev * y])
  {
    var toks := [Num(prev), Num(y), Op('*')];
    assert toks[1..] == [Num(y), Op('*')] && toks[1..][1..] == [Op('*')] && toks[1..][1..][1..] == [];
    assert [] + [prev] == [prev] && [prev] + [y] == [prev, y] && [prev, y][..0] + [prev * y] == [prev * y];
    assert InTable('*') && Lead(Op('*')) == '*' && !ReadsAsNumber(Op('*'));
    assert Math(prev, y, '*', pow) == Ok(prev * y);
    assert Apply([prev, y], Op('*'), pow) == Ok([prev * y]);
    assert RunIntended(toks[1..][1..], [prev, y], pow) == Ok([prev * y]);
    assert RunIntended(toks[1..], [prev], pow) == Ok([prev * y]);
  }
}
