# Calculator core in Dafny

A model of the core of a small text calculator. The calculator reads an
arithmetic expression: digits with at most one decimal point, `+ - * / ^`,
brackets, unary minus, and the symbols `a` (the previous answer), `p` (pi) and
`e` (Euler's number). It converts the infix text to postfix cells with the
shunting-yard algorithm. It then evaluates the cells on a value stack and keeps
the result as the new previous answer.

The modules follow the source files:

- `Wrappers`: `Option` and `Result`.
- `Errors`: `CalculatorError` and its messages (`calculator_error.rs`).
- `Tokens`: the priority table, and characters, numbers and cells as the
  calculator sees them. A postfix cell is `Num(v)` or `Op(c)`. A number cell
  reads as a number exactly when `v >= 0`. A negative number's text starts
  with `-`, so the evaluation loop takes it for the operator `-`.
- `Postfix`: `to_postfix` and `get_string_number`. The operator stack is a
  sequence whose top is its last element.
- `Evaluator`: the evaluation loop of `calculate` and `math`.
- `Calculator`: the `Calculator` state, `new`, `reset` and `calculate`.
- `Operators`, `Expressions`, `Cells`: `calculator_operator.rs`,
  `calculator_expression.rs` and `calculator_cell.rs`.
- `PostfixLaws`: properties of the conversion that span many steps. These are
  the bracket discipline, unknown symbols and the role of the previous answer.
- `Precedence`: what conversion and evaluation compute together for
  `d o d o d`, three one-digit literals joined by two of `+ - * /`, against a
  reference grouping by priority and then from the left.
- `Replay`: lemmas that replay the conversion loop one pass at a time, from
  a state named in closed form to the next.
- `Scenarios`: the expected outcomes listed in `src/tests/calculator_test.rs`,
  and a few further inputs that show how the code behaves (`--2`, `2/0.5`, a
  negative previous answer). Each one is proved by replaying the conversion loop state by state and the
  evaluation cell by cell.

Numbers are exact reals. `f64::powf` is a function-valued parameter `pow`,
because its rounding is not modelled. A literal's value is the exact decimal
value of its text. `PI` and `E` are the decimals that `f64`'s `to_string`
prints, which the evaluation loop parses back.

Three behaviours of the code that a reader might not expect:

- The previous answer is prefixed before every input that starts with a
  non-digit, a leading `-` included; that `-` is then the unary `~`. With a
  non-negative previous answer `5`, `-2` gives -2: the prefix stays beneath
  the result and is dropped. But `-2+` gives 3, because the prefix becomes the
  first operand of `+`. With a negative previous answer, every input that
  starts with a non-digit and converts fails with
  `OperationWihtoutANumber('-')`. See Findings.
- After evaluation, `calculate` returns the top of the value stack and drops
  any values beneath it (`src/calculator/calculator.rs:67-73`).
- Division refuses every divisor whose `as i64` truncation is 0, not only 0.
  See Findings.

The test file names some error variants differently from the enum (for
example `UnknownSymbol`, `DivisionByZero`). The model uses the enum's own
spelling: `UknownSymbol`, `OperationWihtoutANumber`, `DivisonByZero`.

## Model

| member | source | states |
|---|---|---|
| Tokens.Priority | src/calculator/calculator.rs:13-21 | The priority of a table key is 0 exactly for `(`, so an arriving operator never pops a `(`. |
| Tokens.PriorityMatchesTable | src/calculator/calculator.rs:13-21 | Every key with its priority is an entry of `OPERATION_PRIORITY`. |
| Tokens.TableKeysAreDistinct | src/calculator/calculator.rs:13-26 | The table's keys are exactly the seven operator characters, pairwise distinct, so building the `HashMap` loses nothing. |
| Tokens.DecimalValue | src/calculator/calculator.rs:44 | The value parsed from a literal's text is non-negative, and is zero exactly when all of its digits are zero. |
| Tokens.ReadsAsNumber | src/calculator/calculator.rs:43 | A cell is read as a number exactly when it is a number cell whose value is not negative. A negative number's text starts with `-`, so the loop takes it for the operator `-`. |
| Postfix.PopOrder | src/calculator/calculator.rs:113-126 | Cells emitted from a run of the stack come top first: cell `j` is the `j`-th entry from the top. |
| Postfix.RunStart | src/calculator/calculator.rs:155-170 | The popped run is maximal: every entry above the cut has priority at least `p`, and the entry just below it has less. |
| Postfix.PushOperator | src/calculator/calculator.rs:150-176 | An arriving operator pops the maximal top run of entries that bind at least as tightly, emits them top first, and is pushed. `(` is never popped, and the stack discipline is kept. |
| Postfix.StackedPush | src/calculator/calculator.rs:172-176 | Cutting the stack and pushing an operator that binds tighter than the entry beneath it keeps every operator above a weaker one. |
| PostfixLaws.PushPopsTopIff | src/calculator/calculator.rs:155-176 | An operator pops anything exactly when the stack's top binds at least as tightly. The first cell emitted is that top, and with nothing popped the operator is simply pushed. |
| Postfix.CloseBracket | src/calculator/calculator.rs:110-137 | `)` fails with `ClosingBracketWithoutAPair` exactly when the stack has no `(`. Otherwise it emits the entries above the topmost `(` top first, removes that `(`, and leaves the rest untouched. |
| Postfix.Flush | src/calculator/calculator.rs:184-197 | At the end of the input, the stack is emitted top first, unless it still holds a `(`, which is `OpeningBracketWithoutAPair`. |
| Postfix.RunEnd | src/calculator/calculator.rs:209-226 | A literal extends over the maximal run of digits and dots from its first digit. |
| Postfix.ScanEnd | src/calculator/calculator.rs:207-227 | Scanning stops at the end of the run and fails exactly when the run, counting a dot already seen, has two or more dots. |
| Postfix.ScanNumber | src/calculator/calculator.rs:202-235 | `get_string_number` succeeds exactly when the run of digits and dots has at most one dot. It then returns that text and the index of its last character; a second dot is `DotWithoutANumber`. |
| Postfix.OperatorAt | src/calculator/calculator.rs:138-148 | A `-` becomes `~` exactly at the start of the input or right after a table key; every other key stays itself. |
| Postfix.NumberStep | src/calculator/calculator.rs:92-99 | A digit fails with `DotWithoutANumber` exactly when the run of digits and dots from it has two or more dots. Otherwise it emits one cell holding the exact value of that run, leaves the stack alone and resumes right after the run. |
| Postfix.Operand | src/calculator/calculator.rs:102-107 | `a` stands for the previous answer, `p` for `PI` and `e` for `E`; both constants are non-zero and their cells read as numbers. |
| Postfix.OperatorStep | src/calculator/calculator.rs:108-179 | `(` is pushed. A paired `)` emits the entries above its `(` and removes them with it. Any other table key goes through the priority push. Each advances one character, emits no bracket cell and keeps the stack discipline. They fail exactly on an unpaired `)` or a character that is neither `)` nor a table key. |
| Postfix.Step | src/calculator/calculator.rs:84-182 | One pass of the loop moves forward, only appends cells, keeps the stack discipline and fails only with a conversion error. A digit starts a literal; a `.` there is `DotWithoutANumber`; `a`, `p` and `e` push the previous answer, pi and Euler's number; any other character goes to the operator step. |
| Postfix.ConvertFrom | src/calculator/calculator.rs:83-199 | The conversion loop only appends to the cells it is given, emits no bracket cell, and fails only with a conversion error. |
| Postfix.AnswerPrefix | src/calculator/calculator.rs:88-90 | The previous answer is prefixed exactly when the input is non-empty and starts with a non-digit. |
| Postfix.ToPostfix | src/calculator/calculator.rs:80-200 | Empty input gives no cells. A successful non-empty conversion starts with a number cell: the previous answer after a leading non-digit, otherwise a cell that reads as a number. No cell is a bracket. |
| PostfixLaws.ConvertIgnoresAnswer | src/calculator/calculator.rs:102-103 | Without `a` in the rest of the input, the conversion does not depend on the previous answer. |
| PostfixLaws.BracketOutcome | src/calculator/calculator.rs:108-137 | A successful conversion has balanced brackets. `ClosingBracketWithoutAPair` means some prefix closes more than it opens. `OpeningBracketWithoutAPair` means no prefix does, but the whole input opens more. |
| PostfixLaws.ConvertBrackets | src/calculator/calculator.rs:108-197 | The bracket outcome of the loop, from any state whose stack holds as many `(` as the consumed prefix leaves open. |
| PostfixLaws.StepKeepsDepth | src/calculator/calculator.rs:108-137 | Each pass keeps the number of `(` on the stack equal to the open bracket depth of the consumed prefix. |
| PostfixLaws.OperatorStepOpens | src/calculator/calculator.rs:108-179 | `(` adds one marker, `)` removes one, and an operator keeps the count. An error is an unpaired `)` on a stack without markers, or a foreign character. |
| PostfixLaws.PushOperatorOpens | src/calculator/calculator.rs:150-176 | Pushing an operator never pops or adds a `(`. |
| PostfixLaws.CloseBracketOpens | src/calculator/calculator.rs:110-137 | A paired `)` removes exactly one `(` from the stack. |
| PostfixLaws.DepthFlat | src/calculator/calculator.rs:92-99 | A literal does not change the bracket depth. |
| PostfixLaws.StepShape | src/calculator/calculator.rs:84-182 | A pass reports a character as unknown exactly when it is foreign, passes over only recognized characters, and changes the `(` count by the character's bracket contribution. |
| PostfixLaws.ConvertRecognizes | src/calculator/calculator.rs:84-182 | A successful conversion saw only recognized characters, and an `UknownSymbol` names a foreign character of the input. |
| PostfixLaws.UnknownSymbolIffForeign | src/calculator/calculator.rs:177-179 | Any foreign character makes the conversion fail, and a reported unknown symbol occurs in the input and is foreign. |
| Evaluator.AsI64ZeroIff | src/calculator/calculator.rs:247 | The truncating, saturating cast `as i64` is 0 exactly for values strictly between -1 and 1. |
| Evaluator.Math | src/calculator/calculator.rs:237-254 | `math` gives the sum, difference and product of its operands in order, and `pow` for `^`. It fails exactly on a non-operator, or on `/` with a divisor strictly between -1 and 1; every successful division times the divisor gives back the dividend. |
| Evaluator.MathAgreesWithExecute | src/calculator/calculator.rs:237-254 | `math` and `CalculatorOperator::execute` agree on every operator, except on divisions by non-zero divisors strictly between -1 and 1. |
| Evaluator.Apply | src/calculator/calculator.rs:43-62 | A cell reading as a number is pushed, and `~` negates the top (or does nothing on an empty stack). A binary operator with fewer than two values is `OperationWihtoutANumber`. Otherwise it replaces the two top values by `math` of the lower one and the top, in that order, or fails as `math` does. A cell that is no table key is skipped. |
| Evaluator.Run | src/calculator/calculator.rs:37-65 | The loop keeps a non-empty stack non-empty and raises only evaluation errors, never `UknownOperator` on bracket-free cells. |
| Evaluator.Evaluate | src/calculator/calculator.rs:37-73 | The result is the top of the stack the loop leaves; an error of the loop is returned as it is, and an empty final stack is `Uknown`. A first cell that reads as a number rules out `Uknown`, and a negative first number is `OperationWihtoutANumber('-')`. |
| Evaluator.HiddenProductBySign | src/calculator/calculator.rs:43-58 | The hidden product `prev * y` succeeds exactly for a non-negative previous answer, and otherwise fails with `OperationWihtoutANumber('-')`. The intended loop gives `prev * y` for every sign. |
| Evaluator.IntendedAgreesOnNonNegative | src/calculator/calculator.rs:43-62 | The intended loop changes nothing while every number cell is non-negative. |
| Evaluator.RunIntended | src/calculator/calculator.rs:43-62 | The loop as intended, pushing every number cell whatever its sign, keeps a non-empty stack non-empty and raises only evaluation errors. |
| Evaluator.EvaluateIntended | src/calculator/calculator.rs:37-73 | With the intended loop, the result is the top of the stack it leaves; its error is returned as it is, and an empty final stack is `Uknown`. A first number cell of either sign rules out `Uknown`. |
| Evaluator.RunAppend | src/calculator/calculator.rs:39-65 | The loop over two runs of cells is the loop over the first, continued from the stack it leaves over the second; an error in the first stops it. |
| Precedence.PrecedenceThenLeftToRight | src/calculator/calculator.rs:30-74 | For three one-digit literals joined by two of `+ - * /`, `calculate` gives the value with the higher-priority operator applied first and, at equal priority, the left one first. |
| Precedence.ThreeLiteralsConvert | src/calculator/calculator.rs:150-197 | For `d o1 d o2 d`, the conversion emits `o1` before the last literal exactly when `o1` binds at least as tightly as `o2`; otherwise it emits `o2` then `o1` at the end. |
| Precedence.EvaluatesLeftFirst | src/calculator/calculator.rs:39-73 | The cells `x y o1 z o2` evaluate to `(x o1 y) o2 z`, with `math`'s errors in evaluation order. |
| Precedence.EvaluatesRightFirst | src/calculator/calculator.rs:39-73 | The cells `x y z o2 o1` evaluate to `x o1 (y o2 z)`, with `math`'s errors in evaluation order. |
| Calculator.New | src/calculator/calculator.rs:23-28 | A new calculator's previous answer is 0. |
| Calculator.Reset | src/calculator/calculator.rs:76-78 | `reset` gives the same state as a new calculator. |
| Calculator.Calculate | src/calculator/calculator.rs:30-74 | A conversion error is returned as it is; otherwise a non-empty input gives the evaluation of its cells. Success stores the result as the previous answer, and every error leaves the state unchanged. `EmptyInput` is returned exactly for the empty string; `Uknown` and `UknownOperator` are never returned. |
| Calculator.NegativeAnswerBlocksLeadingSymbol | src/calculator/calculator.rs:43-60 | With a negative previous answer, every input that starts with a non-digit and converts fails with `OperationWihtoutANumber('-')`. |
| Calculator.AnswerUnusedWithoutPrefixOrA | src/calculator/calculator.rs:88-103 | An input starting with a digit and without `a` gives the same outcome in every calculator state. |
| Errors.Message | src/calculator/calculator_error.rs:16-31 | Every message is non-empty, and an error carrying a character quotes that character. |
| Errors.MessageInjective | src/calculator/calculator_error.rs:20-30 | Distinct errors have distinct messages. |
| Operators.Execute | src/calculator/calculator_operator.rs:17-36 | `Add`, `Subtract`, `Multiply` and `Power` give the sum, difference, product and `pow` of the operands in order. `execute` fails exactly on `Divide` by 0, with `DivisonByZero`; a successful division times the divisor gives back the dividend, and `Inverse` yields the operand's negation. |
| Operators.InverseIgnoresFirst | src/calculator/calculator_operator.rs:34 | `Inverse` ignores the first operand and negates the second. |
| Operators.CheckedDiv | src/calculator/calculator_operator.rs:76-84 | `checked_div` fails exactly on a zero divisor; otherwise the quotient times the divisor is the dividend. |
| Operators.TryFrom | src/calculator/calculator_operator.rs:42-54 | The conversion from a character succeeds exactly on `+ - * / ^ ~`. |
| Operators.TryFromInjective | src/calculator/calculator_operator.rs:42-54 | Distinct accepted characters give distinct operators. |
| Operators.TryFromSurjective | src/calculator/calculator_operator.rs:42-54 | Every operator comes from some accepted character. |
| Operators.ToChar | src/calculator/calculator_operator.rs:57-70 | The character of an operator is one of `+ - * / ~`, never `^`. |
| Operators.ToCharRoundTrip | src/calculator/calculator_operator.rs:57-70 | Converting an operator to its character and back gives the operator back for every operator except `Power`. |
| Operators.PowerPrintsAsMultiply | src/calculator/calculator_operator.rs:66 | `Power` prints as `*`, the character of `Multiply`, which converts back to `Multiply`. |
| Operators.Symbol | src/calculator/calculator_operator.rs:42-70 | The intended character of an operator converts back to that operator. |
| Operators.SymbolInjective | src/calculator/calculator_operator.rs:57-70 | The intended characters are pairwise distinct and differ from the printed ones only for `Power`. |
| Expressions.FromChar | src/calculator/calculator_expression.rs:10-22 | A binary operator character gives the expression that matches the operator parsed from the same character. |
| Expressions.FromCharInjective | src/calculator/calculator_expression.rs:10-22 | Distinct binary characters give distinct expressions. |
| Expressions.AcceptsBinaryOperatorsOnly | src/calculator/calculator_expression.rs:14-21 | The conversion is defined exactly on the operator characters other than `~`. |
| Cells.NewNumber | src/calculator/calculator_cell.rs:8-13 | A number cell holds its number and no operator. |
| Cells.NewOperator | src/calculator/calculator_cell.rs:15-20 | An operator cell holds its operator and no number. |
| Cells.ConstructedCellsHoldOne | src/calculator/calculator_cell.rs:8-36 | Every constructed cell holds exactly one of a number and an operator, so `_is_operator` is the negation of `is_number`. |
| Cells.OneOfSplits | src/calculator/calculator_cell.rs:22-36 | A cell holding exactly one part is the cell its getters describe, built by the matching constructor. |
| Scenarios.NormalEquation | src/tests/calculator_test.rs:4-8 | `2+2` is 4, which becomes the previous answer. |
| Scenarios.FloatingPointEquation | src/tests/calculator_test.rs:10-14 | `2.2+2.2` is 4.4. |
| Scenarios.OrderOfOperations | src/tests/calculator_test.rs:16-20 | `2+2*2` is 6. |
| Scenarios.PAndE | src/tests/calculator_test.rs:28-32 | `p+e` is 5.859874482048838. |
| Scenarios.Answer | src/tests/calculator_test.rs:34-39 | After `2+2`, `a*2` is 8. |
| Scenarios.HiddenAnswer | src/tests/calculator_test.rs:41-46 | After `2+2`, `*2` is 8. |
| Scenarios.AnswerReset | src/tests/calculator_test.rs:48-54 | After `2+2` and `reset`, `a+2` is 2. |
| Scenarios.NegativeNumber | src/tests/calculator_test.rs:56-60 | `-2-2` is -4. |
| Scenarios.HarderNegativeNumber | src/tests/calculator_test.rs:62-66 | `-(-2-2)*-2` is -8. |
| Scenarios.DoubleMinus | src/calculator/calculator.rs:141-176 | `--2` is -2: both minus signs are `~`, the second pops the first, which negates the prefixed 0. |
| Scenarios.UnknownSymbol | src/tests/calculator_test.rs:74-81 | `@` fails with `UknownSymbol('@')`. |
| Scenarios.UnknownSymbolInExpression | src/tests/calculator_test.rs:83-90 | `2+@2` fails with `UknownSymbol('@')`. |
| Scenarios.OperationWithoutANumber | src/tests/calculator_test.rs:92-99 | `2+` fails with `OperationWihtoutANumber('+')`. |
| Scenarios.UnpairedClosingBracket | src/tests/calculator_test.rs:101-108 | `)` fails with `ClosingBracketWithoutAPair`. |
| Scenarios.NestedUnpairedClosingBracket | src/tests/calculator_test.rs:110-117 | `(()))` fails with `ClosingBracketWithoutAPair`. |
| Scenarios.UnpairedOpeningBracket | src/tests/calculator_test.rs:119-126 | `(` fails with `OpeningBracketWithoutAPair`. |
| Scenarios.NestedUnpairedOpeningBracket | src/tests/calculator_test.rs:128-135 | `((())` fails with `OpeningBracketWithoutAPair`. |
| Scenarios.DotWithoutANumberBefore | src/tests/calculator_test.rs:137-144 | `.2` fails with `DotWithoutANumber`. |
| Scenarios.DotWithoutANumberAfter | src/tests/calculator_test.rs:146-153 | `2.2.` fails with `DotWithoutANumber`. |
| Scenarios.DivisionByZero | src/tests/calculator_test.rs:155-162 | `2/0` fails with `DivisonByZero`, and the state is kept. |
| Scenarios.FractionalDivisorRefused | src/calculator/calculator.rs:247-249 | `2/0.5` fails with `DivisonByZero`, while `checked_div` gives 4. |
| Scenarios.HiddenNegativeAnswer | src/calculator/calculator.rs:43-60 | After `-2-2`, `*2` fails with `OperationWihtoutANumber('-')`, while the intended loop gives -8 on the same cells. |

The empty-input test (`src/tests/calculator_test.rs:68-72`) is the case
`|s| == 0` of `Calculator.Calculate`'s contract.

## Left out

- The console loop and `main` (reading lines, the `help`/`end`/`reset`/`clear` commands, printing) are I/O and not part of this model.
- Floating point: rounding, NaN, infinities and `-0.0` are not modelled; numbers are exact reals.
- `f64::powf` and `num_traits::Pow` are the parameter `pow`, so nothing is stated about powers beyond which `pow` they call.
- `f64::to_string` and `str::parse` are modelled as exact decimal text. The number of digits printed for a non-terminating value is not modelled.
- Tokens.DecimalValue: states non-negativity and the zero case, not the full decimal value, which is its definition.
- The `hard_equation` test (`src/tests/calculator_test.rs:22-26`) is not replayed. Its exact value is -2917/97, and the expected -30.072164948453608 is that value rounded to an `f64`, which exact reals do not reproduce.
- `Option::expect` panics in `execute` are a precondition of `Operators.Execute`, and the `panic!` in `CalculatorExpression::from` is a precondition of `Expressions.FromChar`.
- The value that conversion followed by evaluation computes is proved against a reference grouping only for `d o d o d` with `o` in `+ - * /` (`Precedence.PrecedenceThenLeftToRight`). Longer inputs, brackets, `^`, unary minus and multi-digit literals are covered by the step-wise contracts and by the concrete scenarios, not by a general theorem, because a general one needs an expression grammar that the code does not have.
- Characters outside ASCII: the loop in `to_postfix` runs while `i` is below the byte length `infix_expression.len()`, but it reads characters with `chars().nth(i)`. The model indexes characters only. The first non-ASCII character is rejected as an unknown symbol, so the two bounds differ only after the conversion has already failed.

## Findings

| source | as written | input that shows it | evidently intended | confidence | as-written member | corrected member |
|---|---|---|---|---|---|---|
| src/calculator/calculator.rs:247 | `/` refuses a divisor when `second_number as i64` is 0, that is every divisor strictly between -1 and 1 | `2/0.5` gives `DivisonByZero` | refuse only a zero divisor, as `checked_div` does, so `2/0.5` is 4 | high, not executed | Scenarios.FractionalDivisorRefused | Operators.CheckedDiv |
| src/calculator/calculator_operator.rs:66 | `Power` converts to the character `*` | `char::from(Power)` is `*`, which parses back as `Multiply` | `Power` converts to `^` | high, not executed | Operators.PowerPrintsAsMultiply | Operators.Symbol |
| src/calculator/calculator.rs:43-60 | a cell is a number only when its text starts with a digit, so a negative previous answer, prefixed as `-4`, is read as the operator `-` | `-2-2` then `*2` gives `OperationWihtoutANumber('-')` | the prefixed previous answer is an operand whatever its sign, so `*2` gives -8 | high, not executed | Scenarios.HiddenNegativeAnswer | Evaluator.HiddenProductBySign |
