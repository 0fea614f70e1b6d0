/**
 * Replaying the conversion loop pass by pass: the state after each pass is
 * named in closed form, and the outcome of the loop is carried back from the
 * state where it stops to the implicit first operand.
 */
module Replay {

  import opened Wrappers
  import opened Errors
  import opened Tokens
  import opened Postfix
  import opened Evaluator
  import opened Calculator
  import PostfixLaws

  /** A one-digit literal scans as itself and is worth its digit. */
  lemma OneDigit(s: string, i: nat)
    requires i < |s| && IsDigit(s[i])
    requires i + 1 == |s| || !NumberChar(s[i + 1])
    ensures ScanNumber(s, i) == Ok(([s[i]], i))
    ensures DecimalValue([s[i]]) == DigitValue(s[i]) as real
  {
    assert RunEnd(s, i) == i + 1;
    assert s[i..i + 1] == [s[i]];
    assert DotCount([s[i]]) == 0;
    assert [s[i]][..0] == [];
    assert DigitsValue([s[i]]) == DigitValue(s[i]);
    assert FractionLength([s[i]]) == 0;
  }

  /** `s` holds exactly the characters of `t`. */
  predicate Spells(s: string, t: string)
  {
    |s| == |t| && forall i :: 0 <= i < |t| ==> s[i] == t[i]
  }

  /** One pass of the conversion loop takes state `a` to state `b`. */
  predicate StepsTo(s: string, prev: real, a: State, b: State)
  {
    a.next < |s| && AllInTable(a.ops) && Step(s, prev, a.next, a.out, a.ops) == Ok(b)
  }

  /** The conversion loop, run from state `st`, yields `r`. */
  predicate Finishes(s: string, prev: real, st: State, r: Result<seq<Tok>, CalculatorError>)
  {
    st.next <= |s| && AllInTable(st.ops) && ConvertFrom(s, prev, st.next, st.out, st.ops) == r
  }

  /** The loop standing in state `st` stops with `r`: by the flush at the end of the input, or by a failing pass. */
  predicate Ends(s: string, prev: real, st: State, r: Result<seq<Tok>, CalculatorError>)
  {
    && st.next <= |s| && AllInTable(st.ops)
    && if st.next == |s| then Flush(st.ops, st.out) == r
       else r.Err? && Step(s, prev, st.next, st.out, st.ops) == Err(r.error)
  }

  /** A state where the loop stops yields what it stops with. */
  lemma Stop(s: string, prev: real, st: State, r: Result<seq<Tok>, CalculatorError>)
    requires Ends(s, prev, st, r)
    ensures Finishes(s, prev, st, r)
  {
  }

  /** A pass leaves the outcome of the loop unchanged. */
  lemma Pass(s: string, prev: real, a: State, b: State, r: Result<seq<Tok>, CalculatorError>)
    requires StepsTo(s, prev, a, b)
    ensures Finishes(s, prev, a, r) <==> Finishes(s, prev, b, r)
  {
  }

  /** Two passes in a row leave the outcome of the loop unchanged. */
  lemma Link2(s: string, prev: real, a: State, b: State, c: State, r: Result<seq<Tok>, CalculatorError>)
    requires StepsTo(s, prev, a, b) && StepsTo(s, prev, b, c)
    requires Finishes(s, prev, c, r)
    ensures Finishes(s, prev, a, r)
  {
    Pass(s, prev, b, c, r);
    Pass(s, prev, a, b, r);
  }

  /** `to_postfix` is the loop run from index 0 after the implicit first operand. */
  lemma Start(s: string, prev: real, r: Result<seq<Tok>, CalculatorError>)
    requires Finishes(s, prev, State(0, AnswerPrefix(s, prev), []), r)
    ensures ToPostfix(s, prev) == r
  {
  }

  /** The input is used up and the stack holds no opening bracket: the rest of the stack is appended, top first. */
  lemma FlushEnds(s: string, prev: real, out: seq<Tok>, ops: seq<char>, popped: seq<Tok>, cells: seq<Tok>)
    requires AllInTable(ops) && '(' !in ops
    requires PopOrder(ops) == popped && out + popped == cells
    ensures Ends(s, prev, State(|s|, out, ops), Ok(cells))
  {
  }


  // The step lemmas below name the state after one pass; the caller supplies
  // it in closed form and discharges the side conditions.

  /** A one-digit literal: its value is appended and the loop moves on. */
  lemma DigitStep(s: string, prev: real, i: nat, out: seq<Tok>, ops: seq<char>, out': seq<Tok>)
    requires i < |s| && IsDigit(s[i]) && AllInTable(ops)
    requires i + 1 == |s| || !NumberChar(s[i + 1])
    requires out' == out + [Num(DigitValue(s[i]) as real)]
    ensures StepsTo(s, prev, State(i, out, ops), State(i + 1, out', ops))
  {
    OneDigit(s, i);
    assert NumberStep(s, i, out, ops) == Ok(State(i + 1, out', ops));
  }

  /** A literal of any length: its exact value is appended and the loop resumes after it. */
  lemma LiteralStep(s: string, prev: real, i: nat, out: seq<Tok>, ops: seq<char>, text: string, last: nat, out': seq<Tok>)
    requires i < |s| && IsDigit(s[i]) && AllInTable(ops)
    requires ScanNumber(s, i) == Ok((text, last))
    requires out' == out + [Num(DecimalValue(text))]
    ensures StepsTo(s, prev, State(i, out, ops), State(last + 1, out', ops))
  {
    assert NumberStep(s, i, out, ops) == Ok(State(last + 1, out', ops));
  }

  /** `a`, `p` or `e`: the value it stands for is appended. */
  lemma ConstantStep(s: string, prev: real, i: nat, out: seq<Tok>, ops: seq<char>, out': seq<Tok>)
    requires i < |s| && s[i] in "ape" && AllInTable(ops)
    requires out' == out + [Num(Operand(s[i], prev))]
    ensures StepsTo(s, prev, State(i, out, ops), State(i + 1, out', ops))
  {
  }

  /** An operator goes through the priority stack. */
  lemma PushStep(s: string, prev: real, i: nat, c: char, out: seq<Tok>, ops: seq<char>, emitted: seq<Tok>, ops': seq<char>, out': seq<Tok>)
    requires i < |s| && InTable(s[i]) && s[i] != '(' && AllInTable(ops)
    requires OperatorAt(s, i) == c && PushOperator(ops, c) == Popped(emitted, ops')
    requires out' == out + emitted
    ensures StepsTo(s, prev, State(i, out, ops), State(i + 1, out', ops'))
  {
    OperatorPushes(s, prev, i, out, ops);
  }

  /** An operator that pops exactly the top of the stack and takes its place. */
  lemma PopStep(s: string, prev: real, i: nat, c: char, out: seq<Tok>, ops: seq<char>, emitted: seq<Tok>, ops': seq<char>, out': seq<Tok>)
    requires i < |s| && InTable(s[i]) && s[i] != '(' && AllInTable(ops)
    requires OperatorAt(s, i) == c
    requires |ops| > 0 && ops[|ops| - 1] != '(' && Priority(ops[|ops| - 1]) >= Priority(c)
    requires |ops| == 1 || Priority(ops[|ops| - 2]) < Priority(c)
    requires emitted == [Op(ops[|ops| - 1])] && ops' == ops[..|ops| - 1] + [c]
    requires out' == out + emitted
    ensures StepsTo(s, prev, State(i, out, ops), State(i + 1, out', ops'))
  {
    PopsTop(ops, c, emitted, ops');
    PushStep(s, prev, i, c, out, ops, emitted, ops', out');
  }

  /** A pass over an operator hands the character to the priority stack. */
  lemma OperatorPushes(s: string, prev: real, i: nat, out: seq<Tok>, ops: seq<char>)
    requires i < |s| && InTable(s[i]) && s[i] != '(' && AllInTable(ops)
    ensures var p := PushOperator(ops, OperatorAt(s, i));
      Step(s, prev, i, out, ops) == Ok(State(i + 1, out + p.emitted, p.stack))
  {
    assert !IsDigit(s[i]) && s[i] !in ".ape)";
    PostfixLaws.OperatorStepShape(s, prev, i, out, ops);
  }

  /** An operator pushed where nothing is popped. */
  lemma PushQuietly(s: string, prev: real, i: nat, out: seq<Tok>, ops: seq<char>, ops': seq<char>)
    requires i < |s| && InTable(s[i]) && s[i] != '(' && AllInTable(ops)
    requires |ops| == 0 || Priority(ops[|ops| - 1]) < Priority(OperatorAt(s, i))
    requires ops' == ops + [OperatorAt(s, i)]
    ensures StepsTo(s, prev, State(i, out, ops), State(i + 1, out, ops'))
  {
    PostfixLaws.PushPopsTopIff(ops, OperatorAt(s, i));
    assert out + [] == out;
    PushStep(s, prev, i, OperatorAt(s, i), out, ops, [], ops', out);
  }

  /** An opening bracket is stacked. */
  lemma OpenStep(s: string, prev: real, i: nat, out: seq<Tok>, ops: seq<char>, ops': seq<char>)
    requires i < |s| && s[i] == '(' && AllInTable(ops)
    requires ops' == ops + ['(']
    ensures StepsTo(s, prev, State(i, out, ops), State(i + 1, out, ops'))
  {
    assert OperatorStep(s, i, out, ops) == Ok(State(i + 1, out, ops'));
  }

  /** A closing bracket pops down to its partner, the `(` at `k`. */
  lemma CloseStep(s: string, prev: real, i: nat, k: nat, out: seq<Tok>, ops: seq<char>, emitted: seq<Tok>, ops': seq<char>, out': seq<Tok>)
    requires i < |s| && s[i] == ')' && AllInTable(ops)
    requires k < |ops| && ops[k] == '(' && '(' !in ops[k + 1..]
    requires ops' == ops[..k] && emitted == PopOrder(ops[k + 1..])
    requires out' == out + emitted
    ensures StepsTo(s, prev, State(i, out, ops), State(i + 1, out', ops'))
  {
    ClosesAt(ops, k, emitted, ops');
    assert OperatorStep(s, i, out, ops) == Ok(State(i + 1, out', ops'));
  }

  /** A closing bracket with no partner on the stack stops the loop. */
  lemma UnpairedClose(s: string, prev: real, i: nat, out: seq<Tok>, ops: seq<char>)
    requires i < |s| && s[i] == ')' && AllInTable(ops) && '(' !in ops
    ensures Ends(s, prev, State(i, out, ops), Err(ClosingBracketWithoutAPair))
  {
    PostfixLaws.OperatorStepShape(s, prev, i, out, ops);
    assert OperatorStep(s, i, out, ops) == Err(ClosingBracketWithoutAPair);
  }

  /** A literal that `get_string_number` refuses stops the loop. */
  lemma LiteralFails(s: string, prev: real, i: nat, out: seq<Tok>, ops: seq<char>)
    requires i < |s| && IsDigit(s[i]) && AllInTable(ops)
    requires ScanNumber(s, i).Err?
    ensures Ends(s, prev, State(i, out, ops), Err(DotWithoutANumber))
  {
    PostfixLaws.DigitStepShape(s, prev, i, out, ops);
  }

  /** A dot where a literal would have to start stops the loop. */
  lemma DotStep(s: string, prev: real, i: nat, out: seq<Tok>, ops: seq<char>)
    requires i < |s| && s[i] == '.' && AllInTable(ops)
    ensures Ends(s, prev, State(i, out, ops), Err(DotWithoutANumber))
  {
  }

  /** A character the converter does not accept stops the loop. */
  lemma ForeignStep(s: string, prev: real, i: nat, out: seq<Tok>, ops: seq<char>)
    requires i < |s| && !Recognized(s[i]) && AllInTable(ops)
    ensures Ends(s, prev, State(i, out, ops), Err(UknownSymbol(s[i])))
  {
    PostfixLaws.OperatorStepShape(s, prev, i, out, ops);
    assert OperatorStep(s, i, out, ops) == Err(UknownSymbol(s[i]));
  }

  /** The input is used up with an opening bracket still stacked. */
  lemma FlushFails(s: string, prev: real, out: seq<Tok>, ops: seq<char>)
    requires AllInTable(ops) && '(' in ops
    ensures Ends(s, prev, State(|s|, out, ops), Err(OpeningBracketWithoutAPair))
  {
  }

  /** An operator that pops exactly the top of the stack. */
  lemma PopsTop(ops: seq<char>, c: char, emitted: seq<Tok>, ops': seq<char>)
    requires AllInTable(ops) && InTable(c) && c != '('
    requires |ops| > 0 && ops[|ops| - 1] != '(' && Priority(ops[|ops| - 1]) >= Priority(c)
    requires |ops| == 1 || Priority(ops[|ops| - 2]) < Priority(c)
    requires emitted == [Op(ops[|ops| - 1])] && ops' == ops[..|ops| - 1] + [c]
    ensures PushOperator(ops, c) == Popped(emitted, ops')
  {
    var k := |ops| - 1;
    assert |PushOperator(ops, c).stack| - 1 == k;
    assert ops[k..] == [ops[k]];
    assert PopOrder(ops[k..]) == [Op(ops[k])];
  }

  /** A closing bracket whose partner is the `(` at `k`. */
  lemma ClosesAt(ops: seq<char>, k: nat, emitted: seq<Tok>, ops': seq<char>)
    requires k < |ops| && ops[k] == '(' && '(' !in ops[k + 1..]
    requires ops' == ops[..k] && emitted == PopOrder(ops[k + 1..])
    ensures CloseBracket(ops) == Ok(Popped(emitted, ops'))
  {
    assert ops[k] in ops;
  }

  /** `d.d` followed by neither a digit nor a dot. */
  lemma PointLiteral(s: string, i: nat)
    requires i + 2 < |s| && IsDigit(s[i]) && s[i + 1] == '.' && IsDigit(s[i + 2])
    requires i + 3 == |s| || !NumberChar(s[i + 3])
    ensures ScanNumber(s, i) == Ok((s[i..i + 3], i + 2))
    ensures DecimalValue(s[i..i + 3]) == (10 * DigitValue(s[i]) + DigitValue(s[i + 2])) as real / 10.0
  {
    var text := s[i..i + 3];
    assert text == [s[i], '.', s[i + 2]];
    assert RunEnd(s, i + 3) == i + 3;
    assert RunEnd(s, i) == i + 3;
    assert text[1..] == ['.', s[i + 2]] && text[1..][1..] == [s[i + 2]] && [s[i + 2]][1..] == [];
    assert DotCount([s[i + 2]]) == 0;
    assert DotCount(['.', s[i + 2]]) == 1;
    assert DotCount(text) == 1;
    assert text[..2] == [s[i], '.'] && text[..2][..1] == [s[i]] && [s[i]][..0] == [];
    assert DigitsValue([s[i]]) == DigitValue(s[i]);
    assert DigitsValue([s[i], '.']) == DigitValue(s[i]);
    assert DigitsValue(text) == 10 * DigitValue(s[i]) + DigitValue(s[i + 2]);
    assert FractionLength(text[..1]) == 0 && FractionLength(text[..2]) == 0;
    assert '.' in text[..2];
    assert FractionLength(text) == 1;
  }

  /** A conversion and an evaluation that both succeed make a calculation that succeeds. */
  lemma Succeeds(c: Calculator, s: string, pow: (real, real) -> real, cells: seq<Tok>, v: real)
    requires ToPostfix(s, c.previousAnswer) == Ok(cells) && |cells| > 0
    requires Evaluate(cells, pow) == Ok(v)
    ensures Calculate(c, s, pow) == (Calculator(v), Ok(v))
  {
  }

  /** A conversion that succeeds followed by an evaluation that fails. */
  lemma EvaluationFails(c: Calculator, s: string, pow: (real, real) -> real, cells: seq<Tok>, e: CalculatorError)
    requires ToPostfix(s, c.previousAnswer) == Ok(cells) && |cells| > 0
    requires Evaluate(cells, pow) == Err(e)
    ensures Calculate(c, s, pow) == (c, Err(e))
  {
  }

  /** A conversion that fails. */
  lemma ConversionFails(c: Calculator, s: string, pow: (real, real) -> real, e: CalculatorError)
    requires ToPostfix(s, c.previousAnswer) == Err(e)
    ensures Calculate(c, s, pow) == (c, Err(e))
  {
  }
}
