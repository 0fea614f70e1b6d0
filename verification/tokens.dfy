/**
 * What the converter and the evaluator share: the postfix token, the operator
 * priority table (`OPERATION_PRIORITY`), the constants `p` and `e`, and the
 * value of a decimal literal.
 */
module Tokens {

  /**
   * A postfix cell. The Rust code keeps each cell as text; a number is kept
   * here as its value, and `ReadsAsNumber` recovers what the text would show.
   */
  datatype Tok = Num(value: real) | Op(symbol: char)

  /** `Calculator::OPERATION_PRIORITY`. */
  const OperationPriority: seq<(char, nat)> :=
    [('(', 0), ('+', 1), ('-', 1), ('*', 2), ('/', 2), ('^', 3), ('~', 4)]

  /** The keys of the priority table. */
  predicate InTable(c: char)
  {
    c in "(+-*/^~"
  }

  /** The lookup `opration_priority.get(c)`, defined on the table's keys. */
  function Priority(c: char): (p: nat)
    requires InTable(c)
    ensures p == 0 <==> c == '('
  {
    match c
    case '(' => 0
    case '+' => 1
    case '-' => 1
    case '*' => 2
    case '/' => 2
    case '^' => 3
    case '~' => 4
  }

  /** The lookup returns the priority the table lists for the key. */
  lemma PriorityMatchesTable(c: char)
    requires InTable(c)
    ensures (c, Priority(c)) in OperationPriority
  {
  }

  /** Every key of the table is recognised by `InTable`, and each key occurs once. */
  lemma TableKeysAreDistinct()
    ensures forall j :: 0 <= j < |OperationPriority| ==> InTable(OperationPriority[j].0)
    ensures forall j, k :: 0 <= j < k < |OperationPriority| ==> OperationPriority[j].0 != OperationPriority[k].0
  {
  }

  predicate IsDigit(c: char)
  {
    '0' <= c <= '9'
  }

  /** A character a number literal may contain. */
  predicate NumberChar(c: char)
  {
    IsDigit(c) || c == '.'
  }

  /** `std::f64::consts::PI` and `E` as `f64::to_string` writes them. */
  const Pi: real := 3.141592653589793
  const Euler: real := 2.718281828459045

  /**
   * Whether the cell's text starts with an ASCII digit. The text of a
   * non-negative number does; that of a negative number starts with `-`.
   */
  predicate ReadsAsNumber(t: Tok)
    ensures ReadsAsNumber(t) ==> t.Num?
    ensures t.Num? && t.value >= 0.0 ==> ReadsAsNumber(t)
    ensures t.Num? && t.value < 0.0 ==> !ReadsAsNumber(t) && Lead(t) == '-'
  {
    t.Num? && t.value >= 0.0
  }

  /** No cell is a bracket: every operator cell is one the evaluator can apply. */
  predicate Arithmetic(toks: seq<Tok>)
  {
    forall j :: 0 <= j < |toks| && toks[j].Op? ==> toks[j].symbol in "+-*/^~"
  }

  /** The first character of a cell that does not read as a number. */
  function Lead(t: Tok): char
  {
    if t.Num? then '-' else t.symbol
  }

  function DigitValue(c: char): nat
    requires IsDigit(c)
  {
    c as nat - '0' as nat
  }

  function Pow10(n: nat): (r: nat)
    ensures r >= 1
  {
    if n == 0 then 1 else 10 * Pow10(n - 1)
  }

  function DotCount(text: string): nat
  {
    if |text| == 0 then 0 else (if text[0] == '.' then 1 else 0) + DotCount(text[1..])
  }

  /** The digits of `text` read as one natural number, dots skipped. */
  function DigitsValue(text: string): nat
    requires forall j :: 0 <= j < |text| ==> NumberChar(text[j])
  {
    if |text| == 0 then 0
    else
      var last := text[|text| - 1];
      assert NumberChar(last);
      if last == '.' then DigitsValue(text[..|text| - 1])
      else 10 * DigitsValue(text[..|text| - 1]) + DigitValue(last)
  }

  /** How many characters follow the dot (0 without one). */
  function FractionLength(text: string): nat
  {
    if |text| == 0 || text[|text| - 1] == '.' then 0 else
      var rest := FractionLength(text[..|text| - 1]);
      if '.' in text[..|text| - 1] then rest + 1 else 0
  }

  /**
   * The exact value of a literal made of digits and at most one dot, such as
   * `2.2` or `2.`: what `str::parse::<f64>` rounds.
   */
  function DecimalValue(text: string): (v: real)
    requires forall j :: 0 <= j < |text| ==> NumberChar(text[j])
    ensures v >= 0.0
    ensures v == 0.0 <==> DigitsValue(text) == 0
  {
    DigitsValue(text) as real / Pow10(FractionLength(text)) as real
  }
}
