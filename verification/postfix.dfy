/**
 * `Calculator::to_postfix` and `get_string_number`: the shunting-yard
 * conversion of an infix string into postfix cells, with the operator stack
 * kept as a sequence of table characters whose top is its last element.
 */
module Postfix {

  import opened Wrappers
  import opened Errors
  import opened Tokens

  predicate AllInTable(ops: seq<char>)
  {
    forall j :: 0 <= j < |ops| ==> InTable(ops[j])
  }

  /**
   * The stack discipline: every operator other than `(` binds strictly
   * tighter than the entry directly beneath it, so between two `(` markers
   * the priorities increase from bottom to top.
   */
  predicate WellStacked(ops: seq<char>)
  {
    && AllInTable(ops)
    && forall j :: 0 < j < |ops| && ops[j] != '(' ==> Priority(ops[j - 1]) < Priority(ops[j])
  }

  /** The errors conversion can raise. */
  predicate ConversionError(e: CalculatorError)
  {
    e.DotWithoutANumber? || e.UknownSymbol? || e.ClosingBracketWithoutAPair? || e.OpeningBracketWithoutAPair?
  }

  /** The characters the converter accepts. */
  predicate Recognized(c: char)
  {
    IsDigit(c) || c in ".ape)" || InTable(c)
  }

  /** The cells for a run of stacked operators, emitted in pop order (top first). */
  function PopOrder(run: seq<char>): (r: seq<Tok>)
    ensures |r| == |run|
    ensures forall j :: 0 <= j < |r| ==> r[j] == Op(run[|run| - 1 - j])
  {
    if |run| == 0 then [] else [Op(run[|run| - 1])] + PopOrder(run[..|run| - 1])
  }

  /** Where the maximal top run of operators with priority at least `p` begins. */
  function RunStart(ops: seq<char>, p: nat): (k: nat)
    requires AllInTable(ops)
    ensures k <= |ops|
    ensures forall j :: k <= j < |ops| ==> Priority(ops[j]) >= p
    ensures k > 0 ==> Priority(ops[k - 1]) < p
  {
    RunStartBelow(ops, p, |ops|)
  }

  /** Where the maximal run of operators with priority at least `p` ending just below `n` begins. */
  function RunStartBelow(ops: seq<char>, p: nat, n: nat): (k: nat)
    requires AllInTable(ops) && n <= |ops|
    ensures k <= n
    ensures forall j :: k <= j < n ==> Priority(ops[j]) >= p
    ensures k > 0 ==> Priority(ops[k - 1]) < p
  {
    if n == 0 || Priority(ops[n - 1]) < p then n else RunStartBelow(ops, p, n - 1)
  }

  /** Where the maximal top run of entries other than `(` begins. */
  function OpenStart(ops: seq<char>): (k: nat)
    ensures k <= |ops|
    ensures forall j :: k <= j < |ops| ==> ops[j] != '('
    ensures k > 0 ==> ops[k - 1] == '('
  {
    if |ops| == 0 || ops[|ops| - 1] == '(' then |ops|
    else OpenStart(ops[..|ops| - 1])
  }

  /** The cells an operator-stack step emits and the stack it leaves. */
  datatype Popped = Popped(emitted: seq<Tok>, stack: seq<char>)

  /**
   * An arriving operator `c`: the maximal top run of entries whose priority is
   * at least that of `c` is emitted in pop order, then `c` is pushed. A `(`
   * (priority 0) is never popped, and the stack discipline is kept.
   */
  function PushOperator(ops: seq<char>, c: char): (r: Popped)
    requires AllInTable(ops) && InTable(c) && c != '('
    ensures |r.stack| >= 1 && |r.stack| - 1 <= |ops|
    ensures var k := |r.stack| - 1;
      && r.stack == ops[..k] + [c]
      && r.emitted == PopOrder(ops[k..])
      && (forall j :: k <= j < |ops| ==> Priority(ops[j]) >= Priority(c) && ops[j] != '(')
      && (k > 0 ==> Priority(ops[k - 1]) < Priority(c))
    ensures AllInTable(r.stack)
    ensures WellStacked(ops) ==> WellStacked(r.stack)
  {
    var k := RunStart(ops, Priority(c));
    StackedPush(ops, k, c);
    Popped(PopOrder(ops[k..]), ops[..k] + [c])
  }

  /** Cutting the stack at `k` and pushing `c`, which binds tighter than the entry beneath it, keeps the discipline. */
  lemma StackedPush(ops: seq<char>, k: nat, c: char)
    requires AllInTable(ops) && InTable(c) && c != '(' && k <= |ops|
    requires k > 0 ==> Priority(ops[k - 1]) < Priority(c)
    ensures AllInTable(ops[..k] + [c])
    ensures WellStacked(ops) ==> WellStacked(ops[..k] + [c])
  {
    var st := ops[..k] + [c];
    assert forall j :: 0 <= j < k ==> st[j] == ops[j];
    assert st[k] == c;
  }

  /**
   * A `)`: the entries above the topmost `(` are emitted in pop order and that
   * `(` is removed; the rest of the stack is untouched. Fails exactly when the
   * stack holds no `(`.
   */
  function CloseBracket(ops: seq<char>): (r: Result<Popped, CalculatorError>)
    ensures r.Err? <==> '(' !in ops
    ensures r.Err? ==> r.error == ClosingBracketWithoutAPair
    ensures r.Ok? ==>
      var k := |r.value.stack|;
      && k < |ops| && ops[k] == '('
      && r.value.stack == ops[..k]
      && '(' !in ops[k + 1..]
      && r.value.emitted == PopOrder(ops[k + 1..])
    ensures r.Ok? && WellStacked(ops) ==> WellStacked(r.value.stack)
  {
    var k := OpenStart(ops);
    if k == 0 then
      assert forall j :: 0 <= j < |ops| ==> ops[j] != '(';
      Err(ClosingBracketWithoutAPair)
    else
      assert ops[k..] == ops[k - 1 + 1..];
      Ok(Popped(PopOrder(ops[k..]), ops[..k - 1]))
  }

  /**
   * End of input: the whole stack is emitted in pop order, unless it still
   * holds a `(`.
   */
  function Flush(ops: seq<char>, out: seq<Tok>): (r: Result<seq<Tok>, CalculatorError>)
    ensures r.Err? <==> '(' in ops
    ensures r.Err? ==> r.error == OpeningBracketWithoutAPair
    ensures r.Ok? ==> r.value == out + PopOrder(ops)
  {
    if |ops| == 0 then Ok(out)
    else if ops[|ops| - 1] == '(' then Err(OpeningBracketWithoutAPair)
    else
      assert ops == ops[..|ops| - 1] + [ops[|ops| - 1]];
      Flush(ops[..|ops| - 1], out + [Op(ops[|ops| - 1])])
  }

  /** The end of the maximal run of digits and dots starting at `j`. */
  function RunEnd(s: string, j: nat): (e: nat)
    requires j <= |s|
    ensures j <= e <= |s|
    ensures forall k :: j <= k < e ==> NumberChar(s[k])
    ensures e == |s| || !NumberChar(s[e])
    decreases |s| - j
  {
    if j == |s| || !NumberChar(s[j]) then j else RunEnd(s, j + 1)
  }

  /**
   * The `map_while` of `get_string_number`: digits pass, the first dot passes
   * and sets the flag, a second dot fails, any other character ends the run.
   */
  function ScanEnd(s: string, j: nat, hasDot: bool): (r: Result<nat, CalculatorError>)
    requires j <= |s|
    ensures var e := RunEnd(s, j);
      r == if DotCount(s[j..e]) + (if hasDot then 1 else 0) <= 1 then Ok(e) else Err(DotWithoutANumber)
    decreases |s| - j
  {
    if j == |s| || !NumberChar(s[j]) then Ok(j)
    else
      assert s[j..RunEnd(s, j)][1..] == s[j + 1..RunEnd(s, j + 1)];
      if s[j] == '.' && hasDot then Err(DotWithoutANumber)
      else ScanEnd(s, j + 1, hasDot || s[j] == '.')
  }

  /**
   * `get_string_number`: the maximal run of digits and dots starting at the
   * digit at `i`, with the index of its last character; a run with two dots
   * fails with `DotWithoutANumber`.
   */
  function ScanNumber(s: string, i: nat): (r: Result<(string, nat), CalculatorError>)
    requires i < |s| && IsDigit(s[i])
    ensures var e := RunEnd(s, i);
      && (r.Ok? <==> DotCount(s[i..e]) <= 1)
      && (r.Ok? ==> r.value == (s[i..e], e - 1))
      && (r.Err? ==> r.error == DotWithoutANumber)
    ensures r.Ok? ==> var (text, last) := r.value;
      && i <= last < |s|
      && |text| > 0 && IsDigit(text[0])
      && (forall j :: 0 <= j < |text| ==> NumberChar(text[j]))
  {
    match ScanEnd(s, i, false)
    case Err(e) => Err(e)
    case Ok(e) => Ok((s[i..e], i + |s[i..e]| - 1))
  }

  /**
   * The operator a table character stands for at index `i`: a `-` at the
   * start of the expression or right after a table character is the unary `~`.
   */
  function OperatorAt(s: string, i: nat): (c: char)
    requires i < |s| && InTable(s[i])
    ensures InTable(c)
    ensures c == '~' <==> s[i] == '~' || (s[i] == '-' && (i == 0 || s[i - 1] in "(+-*/^~"))
    ensures c != '~' ==> c == s[i]
  {
    if s[i] == '-' && (i == 0 || InTable(s[i - 1])) then '~' else s[i]
  }

  /** The converter's position, the cells emitted so far and the operator stack. */
  datatype State = State(next: nat, out: seq<Tok>, ops: seq<char>)

  lemma AppendFacts(a: seq<Tok>, b: seq<Tok>)
    ensures Extends(a, a + b)
    ensures Arithmetic(a + b) <==> Arithmetic(a) && Arithmetic(b)
  {
    assert (a + b)[..|a|] == a;
    if Arithmetic(a) && Arithmetic(b) {
      forall j | 0 <= j < |a + b| && (a + b)[j].Op?
        ensures (a + b)[j].symbol in "+-*/^~"
      {
        if j >= |a| {
          assert (a + b)[j] == b[j - |a|];
        }
      }
    }
    if Arithmetic(a + b) {
      forall j | 0 <= j < |b| && b[j].Op?
        ensures b[j].symbol in "+-*/^~"
      {
        assert (a + b)[|a| + j] == b[j];
      }
    }
  }

  /** `cells` begins with `out`: the converter only ever appends. */
  predicate Extends(out: seq<Tok>, cells: seq<Tok>)
  {
    |out| <= |cells| && cells[..|out|] == out
  }

  /**
   * The value `a`, `p` and `e` stand for: the previous answer, and two
   * positive constants whose cells read as numbers.
   */
  function Operand(c: char, prev: real): (v: real)
    requires c in "ape"
    ensures c == 'a' ==> v == prev
    ensures c != 'a' ==> ReadsAsNumber(Num(v)) && v != 0.0
    ensures c == 'p' ==> v == Pi
    ensures c == 'e' ==> v == Euler
  {
    if c == 'a' then prev else if c == 'p' then Pi else Euler
  }

  /** A digit at `i`: the scanned literal is emitted and the loop resumes after it. */
  function NumberStep(s: string, i: nat, out: seq<Tok>, ops: seq<char>): (r: Result<State, CalculatorError>)
    requires i < |s| && IsDigit(s[i])
    ensures r.Ok? ==> i < r.value.next <= |s| && r.value.ops == ops
    ensures r.Ok? ==> |r.value.out| == |out| + 1 && r.value.out[..|out|] == out && ReadsAsNumber(r.value.out[|out|])
    ensures r.Err? ==> r.error == DotWithoutANumber
    ensures var e := RunEnd(s, i);
      && (r.Ok? <==> DotCount(s[i..e]) <= 1)
      && (r.Ok? ==> r.value == State(e, out + [Num(DecimalValue(s[i..e]))], ops))
  {
    match ScanNumber(s, i)
    case Err(e) => Err(e)
    case Ok((text, last)) => Ok(State(last + 1, out + [Num(DecimalValue(text))], ops))
  }

  /** A bracket or a table character at `i`; anything else is an unknown symbol. */
  function OperatorStep(s: string, i: nat, out: seq<Tok>, ops: seq<char>): (r: Result<State, CalculatorError>)
    requires i < |s|
    requires AllInTable(ops)
    ensures r.Ok? ==> r.value.next == i + 1 && AllInTable(r.value.ops)
    ensures r.Ok? ==> Extends(out, r.value.out) && Arithmetic(r.value.out[|out|..])
    ensures r.Ok? && WellStacked(ops) ==> WellStacked(r.value.ops)
    ensures r.Err? <==> (s[i] == ')' && '(' !in ops) || !(s[i] == ')' || InTable(s[i]))
    ensures s[i] == '(' ==> r == Ok(State(i + 1, out, ops + ['(']))
    ensures s[i] == ')' && '(' in ops ==>
      var p := CloseBracket(ops).value; r == Ok(State(i + 1, out + p.emitted, p.stack))
    ensures InTable(s[i]) && s[i] != '(' ==>
      var p := PushOperator(ops, OperatorAt(s, i)); r == Ok(State(i + 1, out + p.emitted, p.stack))
  {
    var c := s[i];
    if c == '(' then
      assert out[|out|..] == [];
      Ok(State(i + 1, out, ops + ['(']))
    else if c == ')' then
      match CloseBracket(ops)
      case Err(e) => Err(e)
      case Ok(p) => Ok(Emit(i, out, p))
    else if InTable(c) then
      var p := PushOperator(ops, OperatorAt(s, i));
      Ok(Emit(i, out, p))
    else Err(UknownSymbol(c))
  }

  /** The state after the character at `i` made the stack `p.stack` and emitted `p.emitted`. */
  function Emit(i: nat, out: seq<Tok>, p: Popped): (st: State)
    requires forall j :: 0 <= j < |p.emitted| ==> p.emitted[j].Op? && p.emitted[j].symbol in "+-*/^~"
    ensures st.next == i + 1 && st.ops == p.stack && st.out == out + p.emitted
    ensures Extends(out, st.out) && Arithmetic(st.out[|out|..])
  {
    Appended(out, p.emitted);
    State(i + 1, out + p.emitted, p.stack)
  }

  /** Appending `e` to `out` extends it by exactly `e`. */
  lemma Appended(out: seq<Tok>, e: seq<Tok>)
    ensures Extends(out, out + e) && (out + e)[|out|..] == e
  {
    assert (out + e)[..|out|] == out;
  }

  /**
   * One pass of the conversion loop at index `i`. The step only appends
   * cells, moves past at least one character and keeps the stack discipline;
   * a digit appends a cell that reads as a number.
   */
  function Step(s: string, prev: real, i: nat, out: seq<Tok>, ops: seq<char>): (r: Result<State, CalculatorError>)
    requires i < |s|
    requires AllInTable(ops)
    ensures r.Ok? ==> i < r.value.next <= |s| && AllInTable(r.value.ops)
    ensures r.Ok? ==> Extends(out, r.value.out)
    ensures r.Ok? && Arithmetic(out) ==> Arithmetic(r.value.out)
    ensures r.Ok? && WellStacked(ops) ==> WellStacked(r.value.ops)
    ensures r.Err? ==> ConversionError(r.error)
    ensures r.Ok? && IsDigit(s[i]) ==> |r.value.out| > |out| && ReadsAsNumber(r.value.out[|out|])
    ensures IsDigit(s[i]) ==> r == NumberStep(s, i, out, ops)
    ensures s[i] == '.' ==> r == Err(DotWithoutANumber)
    ensures s[i] in "ape" ==> r == Ok(State(i + 1, out + [Num(Operand(s[i], prev))], ops))
    ensures !NumberChar(s[i]) && s[i] !in "ape" ==> r == OperatorStep(s, i, out, ops)
  {
    var c := s[i];
    if IsDigit(c) then
      var r := NumberStep(s, i, out, ops);
      if r.Err? then r
      else
        assert r.value.out == out + [r.value.out[|out|]];
        AppendFacts(out, [r.value.out[|out|]]);
        r
    else if c == '.' then Err(DotWithoutANumber)
    else if c == 'a' || c == 'p' || c == 'e' then
      AppendFacts(out, [Num(Operand(c, prev))]);
      Ok(State(i + 1, out + [Num(Operand(c, prev))], ops))
    else
      var r := OperatorStep(s, i, out, ops);
      if r.Err? then r
      else
        assert r.value.out == out + r.value.out[|out|..];
        AppendFacts(out, r.value.out[|out|..]);
        r
  }

  /** The conversion loop from index `i` to the end of the input. */
  function ConvertFrom(s: string, prev: real, i: nat, out: seq<Tok>, ops: seq<char>): (r: Result<seq<Tok>, CalculatorError>)
    requires i <= |s|
    requires AllInTable(ops)
    ensures r.Ok? ==> Extends(out, r.value)
    ensures r.Ok? && Arithmetic(out) ==> Arithmetic(r.value)
    ensures r.Err? ==> ConversionError(r.error)
    decreases |s| - i
  {
    if i == |s| then Flush(ops, out)
    else
      match Step(s, prev, i, out, ops)
      case Err(e) => Err(e)
      case Ok(st) => ConvertFrom(s, prev, st.next, st.out, st.ops)
  }

  /**
   * The cells emitted before the loop reads anything: the previous answer
   * when the first character is not a digit. The source pushes it inside the
   * first pass of the loop, before that pass emits anything else.
   */
  function AnswerPrefix(s: string, prev: real): (r: seq<Tok>)
    ensures |s| > 0 && !IsDigit(s[0]) <==> r == [Num(prev)]
    ensures |s| == 0 || IsDigit(s[0]) <==> r == []
  {
    if |s| > 0 && !IsDigit(s[0]) then [Num(prev)] else []
  }

  /**
   * `to_postfix`. The empty string converts to no cells; otherwise a
   * successful conversion starts with a number cell (the previous answer when
   * the first character is not a digit) and holds no bracket.
   */
  function ToPostfix(s: string, prev: real): (r: Result<seq<Tok>, CalculatorError>)
    ensures |s| == 0 ==> r == Ok([])
    ensures r.Ok? && |s| > 0 ==> |r.value| > 0 && r.value[0].Num?
    ensures r.Ok? && |s| > 0 && !IsDigit(s[0]) ==> r.value[0] == Num(prev)
    ensures r.Ok? && |s| > 0 && IsDigit(s[0]) ==> ReadsAsNumber(r.value[0])
    ensures r.Ok? ==> Arithmetic(r.value)
    ensures r.Err? ==> ConversionError(r.error)
  {
    var r := ConvertFrom(s, prev, 0, AnswerPrefix(s, prev), []);
    if |s| == 0 then r
    else if IsDigit(s[0]) then
      DigitLeads(s, prev);
      r
    else
      PrefixLeads(s, prev);
      r
  }

  /** Input that starts with a non-digit converts, if at all, to cells that start with the previous answer. */
  lemma PrefixLeads(s: string, prev: real)
    requires |s| > 0 && !IsDigit(s[0])
    ensures var r := ConvertFrom(s, prev, 0, [Num(prev)], []);
      r.Ok? ==> |r.value| > 0 && r.value[0] == Num(prev) && Arithmetic(r.value)
  {
    assert Arithmetic([Num(prev)]);
    var r := ConvertFrom(s, prev, 0, [Num(prev)], []);
    if r.Ok? {
      assert r.value[..1] == [Num(prev)];
      assert r.value[0] == r.value[..1][0];
    }
  }

  /** Input that starts with a digit converts, if at all, to cells whose first reads as a number. */
  lemma DigitLeads(s: string, prev: real)
    requires |s| > 0 && IsDigit(s[0])
    ensures var r := ConvertFrom(s, prev, 0, [], []);
      r.Ok? ==> |r.value| > 0 && ReadsAsNumber(r.value[0]) && Arithmetic(r.value)
  {
    assert Arithmetic([]);
    var r := ConvertFrom(s, prev, 0, [], []);
    if r.Ok? {
      var st := Step(s, prev, 0, [], []).value;
      assert r == ConvertFrom(s, prev, st.next, st.out, st.ops);
      assert r.value[0] == st.out[0];
    }
  }
}
