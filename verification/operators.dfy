/**
 * `CalculatorOperator`: the typed operator set with its `execute` semantics,
 * the `TryFrom<char>` / `From<CalculatorOperator> for char` conversions and the
 * zero-checked division they rely on.
 */
module Operators {

  import opened Wrappers
  import opened Errors

  datatype CalculatorOperator = Add | Subtract | Multiply | Divide | Power | Inverse

  /** The division of `CheckedDiv for f64`: refuses exactly the divisor zero. */
  function CheckedDiv(dividend: real, divisor: real): (r: Result<real, CalculatorError>)
    ensures r.Err? <==> divisor == 0.0
    ensures r.Err? ==> r.error == DivisonByZero
    ensures r.Ok? ==> r.value * divisor == dividend
  {
    if divisor == 0.0 then Err(DivisonByZero) else Ok(dividend / divisor)
  }

  /**
   * `execute`: every binary operator unwraps `first` (the Rust code panics on
   * `None`, hence the precondition); `Inverse` negates `second` alone.
   * `pow` stands for `f64::powf`.
   */
  function Execute(op: CalculatorOperator, first: Option<real>, second: real, pow: (real, real) -> real): (r: Result<real, CalculatorError>)
    requires op != Inverse ==> first.Some?
    ensures r.Err? <==> op == Divide && second == 0.0
    ensures r.Err? ==> r.error == DivisonByZero
    ensures op == Divide && r.Ok? ==> r.value * second == first.value
    ensures op == Inverse ==> r.value + second == 0.0
    ensures op == Add ==> r == Ok(first.value + second)
    ensures op == Subtract ==> r == Ok(first.value - second)
    ensures op == Multiply ==> r == Ok(first.value * second)
    ensures op == Power ==> r == Ok(pow(first.value, second))
  {
    match op
    case Add => Ok(first.value + second)
    case Subtract => Ok(first.value - second)
    case Multiply => Ok(first.value * second)
    case Divide => CheckedDiv(first.value, second)
    case Power => Ok(pow(first.value, second))
    case Inverse => Ok(-second)
  }

  /** `Inverse` never looks at its first operand. */
  lemma InverseIgnoresFirst(a: Option<real>, b: Option<real>, x: real, pow: (real, real) -> real)
    ensures Execute(Inverse, a, x, pow) == Execute(Inverse, b, x, pow)
    ensures Execute(Inverse, a, x, pow).value + x == 0.0
  {
  }

  /** `TryFrom<char>`: the six operator symbols, and `Err(())` for any other character. */
  function TryFrom(c: char): (r: Result<CalculatorOperator, ()>)
    ensures r.Ok? <==> c in "+-*/^~"
  {
    match c
    case '+' => Ok(Add)
    case '-' => Ok(Subtract)
    case '*' => Ok(Multiply)
    case '/' => Ok(Divide)
    case '^' => Ok(Power)
    case '~' => Ok(Inverse)
    case _ => Err(())
  }

  /** Two symbols that convert successfully convert to different operators. */
  lemma TryFromInjective(c: char, d: char)
    requires TryFrom(c).Ok? && TryFrom(d).Ok?
    ensures TryFrom(c) == TryFrom(d) ==> c == d
  {
  }

  /** Every operator is reached by `TryFrom` from some symbol. */
  lemma TryFromSurjective(op: CalculatorOperator)
    ensures exists c :: c in "+-*/^~" && TryFrom(c) == Ok(op)
  {
    var c := match op
      case Add => '+' case Subtract => '-' case Multiply => '*'
      case Divide => '/' case Power => '^' case Inverse => '~';
    assert TryFrom(c) == Ok(op);
  }

  /** `From<CalculatorOperator> for char`, as written: `Power` prints as `'*'`. */
  function ToChar(op: CalculatorOperator): (c: char)
    ensures c in "+-*/~"
  {
    match op
    case Add => '+'
    case Subtract => '-'
    case Multiply => '*'
    case Divide => '/'
    case Power => '*'
    case Inverse => '~'
  }

  /** Converting to a char and back restores every operator except `Power`. */
  lemma ToCharRoundTrip(op: CalculatorOperator)
    ensures TryFrom(ToChar(op)) == Ok(op) <==> op != Power
  {
  }

  /** `ToChar` is not injective: `Multiply` and `Power` share `'*'`, so `Power` comes back as `Multiply`. */
  lemma PowerPrintsAsMultiply()
    ensures ToChar(Power) == ToChar(Multiply)
    ensures TryFrom(ToChar(Power)) == Ok(Multiply)
  {
  }

  /** The conversion the `TryFrom` table implies, with `Power` printed as `'^'`. */
  function Symbol(op: CalculatorOperator): (c: char)
    ensures TryFrom(c) == Ok(op)
  {
    match op
    case Add => '+'
    case Subtract => '-'
    case Multiply => '*'
    case Divide => '/'
    case Power => '^'
    case Inverse => '~'
  }

  /** `Symbol` is injective and agrees with `ToChar` everywhere but on `Power`. */
  lemma SymbolInjective(a: CalculatorOperator, b: CalculatorOperator)
    ensures Symbol(a) == Symbol(b) ==> a == b
    ensures Symbol(a) == ToChar(a) <==> a != Power
  {
  }
}
