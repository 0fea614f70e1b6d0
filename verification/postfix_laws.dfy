/**
 * Whole-run properties of the shunting-yard conversion: which characters it
 * accepts, and how its bracket errors relate to the bracket depth of the input.
 */
module PostfixLaws {

  import opened Wrappers
  import opened Errors
  import opened Tokens
  import opened Postfix

  /**
   * Operators of equal priority associate to the left: an incoming operator
   * pops the top of the stack exactly when the top binds at least as tightly,
   * and when nothing is popped the operator is simply pushed.
   */
  lemma PushPopsTopIff(ops: seq<char>, c: char)
    requires AllInTable(ops) && InTable(c) && c != '('
    ensures var p := PushOperator(ops, c);
      && (|p.emitted| > 0 <==> |ops| > 0 && Priority(ops[|ops| - 1]) >= Priority(c))
      && (|p.emitted| > 0 ==> p.emitted[0] == Op(ops[|ops| - 1]))
      && (|p.emitted| == 0 ==> p.stack == ops + [c])
  {
  }

  /** Inside the loop the previous answer is read only by `a`. */
  lemma {:induction false} ConvertIgnoresAnswer(s: string, p1: real, p2: real, i: nat, out: seq<Tok>, ops: seq<char>)
    requires i <= |s| && AllInTable(ops)
    requires forall k :: i <= k < |s| ==> s[k] != 'a'
    ensures ConvertFrom(s, p1, i, out, ops) == ConvertFrom(s, p2, i, out, ops)
    decreases |s| - i
  {
    if i < |s| {
      var r := Step(s, p1, i, out, ops);
      assert r == Step(s, p2, i, out, ops);
      if r.Ok? {
        ConvertIgnoresAnswer(s, p1, p2, r.value.next, r.value.out, r.value.ops);
      }
    }
  }

  /** How many `(` markers the operator stack holds. */
  function Opens(ops: seq<char>): nat
  {
    multiset(ops)['(']
  }

  /** The bracket contribution of one character. */
  function Delta(c: char): int
  {
    if c == '(' then 1 else if c == ')' then -1 else 0
  }

  /** Opening minus closing brackets in `t`. */
  function Depth(t: string): int
  {
    if |t| == 0 then 0 else Depth(t[..|t| - 1]) + Delta(t[|t| - 1])
  }

  /** Every prefix closes no more brackets than it opened, and the whole string closes them all. */
  predicate Balanced(s: string)
  {
    Depth(s) == 0 && forall n :: 0 <= n <= |s| ==> Depth(s[..n]) >= 0
  }

  /** Depth does not change across characters that are digits or dots. */
  lemma {:induction false} DepthFlat(s: string, i: nat, j: nat)
    requires i <= j <= |s|
    requires forall k :: i <= k < j ==> NumberChar(s[k])
    ensures Depth(s[..j]) == Depth(s[..i])
    decreases j - i
  {
    if i < j {
      DepthFlat(s, i, j - 1);
      assert s[..j][..j - 1] == s[..j - 1];
    }
  }

  /** A literal step passes over digits and dots only. */
  lemma NumberStepFlat(s: string, i: nat, out: seq<Tok>, ops: seq<char>)
    requires i < |s| && IsDigit(s[i])
    ensures var r := NumberStep(s, i, out, ops);
      r.Ok? ==> forall k :: i <= k < r.value.next ==> NumberChar(s[k])
  {
    var r := NumberStep(s, i, out, ops);
    if r.Ok? {
      var (text, last) := ScanNumber(s, i).value;
      assert text == s[i..last + 1];
      forall k | i <= k < r.value.next
        ensures NumberChar(s[k])
      {
        assert s[k] == text[k - i];
      }
    }
  }

  lemma OpensAppend(a: seq<char>, b: seq<char>)
    ensures Opens(a + b) == Opens(a) + Opens(b)
  {
    assert multiset(a + b) == multiset(a) + multiset(b);
  }

  /** Closing a bracket removes exactly one `(` marker from the stack. */
  lemma CloseBracketOpens(ops: seq<char>)
    requires '(' in ops
    ensures Opens(CloseBracket(ops).value.stack) + 1 == Opens(ops)
  {
    var st := CloseBracket(ops).value.stack;
    var k := |st|;
    assert ops == st + ['('] + ops[k + 1..];
    OpensAppend(st + ['('], ops[k + 1..]);
    OpensAppend(st, ['(']);
    NoOpens(ops[k + 1..]);
  }

  lemma NoOpens(t: seq<char>)
    requires '(' !in t
    ensures Opens(t) == 0
  {
    assert '(' !in multiset(t);
  }

  /** Replacing a top run free of `(` by one operator other than `(` keeps the `(` count. */
  lemma ReplaceTopOpens(ops: seq<char>, k: nat, c: char)
    requires k <= |ops| && c != '('
    requires forall j :: k <= j < |ops| ==> ops[j] != '('
    ensures Opens(ops[..k] + [c]) == Opens(ops)
  {
    forall j | 0 <= j < |ops[k..]|
      ensures ops[k..][j] != '('
    {
      assert ops[k..][j] == ops[k + j];
    }
    assert ops == ops[..k] + ops[k..];
    NoOpens(ops[k..]);
    NoOpens([c]);
    OpensAppend(ops[..k], ops[k..]);
    OpensAppend(ops[..k], [c]);
  }

  /** Pushing an operator keeps the number of `(` markers. */
  lemma PushOperatorOpens(ops: seq<char>, c: char)
    requires AllInTable(ops) && InTable(c) && c != '('
    ensures Opens(PushOperator(ops, c).stack) == Opens(ops)
  {
    var st := PushOperator(ops, c).stack;
    ReplaceTopOpens(ops, |st| - 1, c);
  }

  /** A bracket or operator step changes the `(` count by the character's bracket contribution. */
  lemma OperatorStepOpens(s: string, i: nat, out: seq<Tok>, ops: seq<char>)
    requires i < |s| && AllInTable(ops)
    ensures var r := OperatorStep(s, i, out, ops);
      && (r.Ok? ==> Opens(r.value.ops) == Opens(ops) + Delta(s[i]))
      && (r.Err? && s[i] == ')' ==> r == Err(ClosingBracketWithoutAPair) && Opens(ops) == 0)
      && (r.Err? && s[i] != ')' ==> r == Err(UknownSymbol(s[i])) && !InTable(s[i]))
  {
    var c := s[i];
    if c == '(' {
      OpensAppend(ops, ['(']);
    } else if c == ')' {
      if '(' in ops {
        CloseBracketOpens(ops);
      }
    } else if InTable(c) {
      PushOperatorOpens(ops, OperatorAt(s, i));
    }
  }

  lemma DigitStepShape(s: string, prev: real, i: nat, out: seq<Tok>, ops: seq<char>)
    requires i < |s| && AllInTable(ops) && IsDigit(s[i])
    ensures Step(s, prev, i, out, ops) == NumberStep(s, i, out, ops)
  {
  }

  lemma OperatorStepShape(s: string, prev: real, i: nat, out: seq<Tok>, ops: seq<char>)
    requires i < |s| && AllInTable(ops) && !IsDigit(s[i]) && s[i] !in ".ape"
    ensures Step(s, prev, i, out, ops) == OperatorStep(s, i, out, ops)
  {
  }

  /** What a step from `i` over `ops` that produced `r` passes over, and what it does to the `(` markers. */
  predicate StepShaped(s: string, i: nat, ops: seq<char>, r: Result<State, CalculatorError>)
    requires i < |s| && (r.Ok? ==> r.value.next <= |s|)
  {
    && (r.Err? && r.error.UknownSymbol? ==> r.error.symbol == s[i] && !Recognized(s[i]))
    && (!Recognized(s[i]) ==> r == Err(UknownSymbol(s[i])))
    && (r.Err? && r.error.ClosingBracketWithoutAPair? ==> s[i] == ')' && Opens(ops) == 0)
    && (r.Ok? && r.value.next != i + 1 ==> forall k :: i <= k < r.value.next ==> NumberChar(s[k]))
    && (r.Ok? ==> forall k :: i <= k < r.value.next ==> Recognized(s[k]))
    && (r.Ok? ==> Opens(r.value.ops) == Opens(ops) + Delta(s[i]))
  }

  lemma DigitShaped(s: string, prev: real, i: nat, out: seq<Tok>, ops: seq<char>)
    requires i < |s| && AllInTable(ops) && IsDigit(s[i])
    ensures StepShaped(s, i, ops, Step(s, prev, i, out, ops))
  {
    DigitStepShape(s, prev, i, out, ops);
    NumberStepFlat(s, i, out, ops);
  }

  lemma OperatorShaped(s: string, prev: real, i: nat, out: seq<Tok>, ops: seq<char>)
    requires i < |s| && AllInTable(ops) && !IsDigit(s[i]) && s[i] !in ".ape"
    ensures StepShaped(s, i, ops, Step(s, prev, i, out, ops))
  {
    OperatorStepShape(s, prev, i, out, ops);
    OperatorStepOpens(s, i, out, ops);
    var r := OperatorStep(s, i, out, ops);
    if r.Ok? {
      assert r.value.next == i + 1 && Recognized(s[i]);
    }
  }

  /** What one step passes over, and what it does to the `(` markers. */
  lemma StepShape(s: string, prev: real, i: nat, out: seq<Tok>, ops: seq<char>)
    requires i < |s| && AllInTable(ops)
    ensures StepShaped(s, i, ops, Step(s, prev, i, out, ops))
  {
    if IsDigit(s[i]) {
      DigitShaped(s, prev, i, out, ops);
    } else if s[i] !in ".ape" {
      OperatorShaped(s, prev, i, out, ops);
    }
  }

  /** The run from index `i` passes only over recognized characters and reports only foreign ones. */
  lemma {:induction false} ConvertRecognizes(s: string, prev: real, i: nat, out: seq<Tok>, ops: seq<char>)
    requires i <= |s| && AllInTable(ops)
    ensures var r := ConvertFrom(s, prev, i, out, ops);
      && (r.Ok? ==> forall k :: i <= k < |s| ==> Recognized(s[k]))
      && (r.Err? && r.error.UknownSymbol? ==> exists k :: i <= k < |s| && s[k] == r.error.symbol && !Recognized(s[k]))
    decreases |s| - i
  {
    if i < |s| {
      StepShape(s, prev, i, out, ops);
      var r := Step(s, prev, i, out, ops);
      if r.Ok? {
        ConvertRecognizes(s, prev, r.value.next, r.value.out, r.value.ops);
      }
    }
  }

  /**
   * A character outside the accepted set makes the conversion fail, and
   * `UknownSymbol(c)` names such a character of the input.
   */
  lemma UnknownSymbolIffForeign(s: string, prev: real)
    ensures (exists k :: 0 <= k < |s| && !Recognized(s[k])) ==> ToPostfix(s, prev).Err?
    ensures ToPostfix(s, prev).Err? && ToPostfix(s, prev).error.UknownSymbol? ==>
      var c := ToPostfix(s, prev).error.symbol; c in s && !Recognized(c)
  {
    ConvertRecognizes(s, prev, 0, AnswerPrefix(s, prev), []);
  }

  lemma DepthNext(s: string, i: nat)
    requires i < |s|
    ensures Depth(s[..i + 1]) == Depth(s[..i]) + Delta(s[i])
  {
    assert s[..i + 1][..i] == s[..i];
  }

  /** Moving past one bracket-or-operator character, or past a run of literal characters. */
  lemma DepthAdvance(s: string, i: nat, next: nat, before: int, after: int)
    requires i < next <= |s|
    requires before == Depth(s[..i])
    requires forall n :: 0 <= n <= i ==> Depth(s[..n]) >= 0
    requires after == before + Delta(s[i]) && after >= 0
    requires next == i + 1 || forall k :: i <= k < next ==> NumberChar(s[k])
    ensures after == Depth(s[..next])
    ensures forall n :: 0 <= n <= next ==> Depth(s[..n]) >= 0
  {
    DepthNext(s, i);
    if next != i + 1 {
      assert NumberChar(s[i]);
      forall n | i <= n <= next
        ensures Depth(s[..n]) == before
      {
        DepthFlat(s, i, n);
      }
    }
  }

  /** A successful step keeps the `(` count equal to the depth read so far, and that depth non-negative. */
  lemma StepKeepsDepth(s: string, prev: real, i: nat, out: seq<Tok>, ops: seq<char>)
    requires i < |s| && AllInTable(ops)
    requires Opens(ops) == Depth(s[..i])
    requires forall n :: 0 <= n <= i ==> Depth(s[..n]) >= 0
    requires Step(s, prev, i, out, ops).Ok?
    ensures var st := Step(s, prev, i, out, ops).value;
      && Opens(st.ops) == Depth(s[..st.next])
      && forall n :: 0 <= n <= st.next ==> Depth(s[..n]) >= 0
  {
    StepShape(s, prev, i, out, ops);
    var st := Step(s, prev, i, out, ops).value;
    DepthAdvance(s, i, st.next, Opens(ops), Opens(st.ops));
  }

  /** The run from index `i`, with the stack's `(` count tracking the depth read so far. */
  lemma {:induction false} ConvertBrackets(s: string, prev: real, i: nat, out: seq<Tok>, ops: seq<char>)
    requires i <= |s| && AllInTable(ops)
    requires Opens(ops) == Depth(s[..i])
    requires forall n :: 0 <= n <= i ==> Depth(s[..n]) >= 0
    ensures var r := ConvertFrom(s, prev, i, out, ops);
      && (r.Ok? ==> Balanced(s))
      && (r == Err(ClosingBracketWithoutAPair) ==> exists n :: 0 < n <= |s| && Depth(s[..n]) < 0)
      && (r == Err(OpeningBracketWithoutAPair) ==> Depth(s) > 0 && forall n :: 0 <= n <= |s| ==> Depth(s[..n]) >= 0)
    decreases |s| - i
  {
    if i == |s| {
      assert s[..i] == s;
      assert '(' in ops <==> '(' in multiset(ops);
    } else {
      var r := Step(s, prev, i, out, ops);
      if r.Ok? {
        StepKeepsDepth(s, prev, i, out, ops);
        ConvertBrackets(s, prev, r.value.next, r.value.out, r.value.ops);
      } else {
        StepShape(s, prev, i, out, ops);
        DepthNext(s, i);
      }
    }
  }

  /**
   * Bracket outcomes of `to_postfix`: a successful conversion had balanced
   * brackets; `ClosingBracketWithoutAPair` means some prefix closed more
   * brackets than it opened; `OpeningBracketWithoutAPair` means no prefix did
   * but some bracket stayed open.
   */
  lemma BracketOutcome(s: string, prev: real)
    ensures ToPostfix(s, prev).Ok? ==> Balanced(s)
    ensures ToPostfix(s, prev) == Err(ClosingBracketWithoutAPair) ==> exists n :: 0 < n <= |s| && Depth(s[..n]) < 0
    ensures ToPostfix(s, prev) == Err(OpeningBracketWithoutAPair) ==>
      Depth(s) > 0 && forall n :: 0 <= n <= |s| ==> Depth(s[..n]) >= 0
  {
    assert s[..0] == [];
    ConvertBrackets(s, prev, 0, AnswerPrefix(s, prev), []);
  }
}
