# A verified model of a terminal scientific calculator

`calculator.py` is an interactive calculator. `main` shows a menu of 14 items and reads a
choice line. Items 1 to 13 read one or two operands with `get_number`, or one integer with
`get_int` for the factorial, and print the result. Item 14 or a quit keyword says goodbye.
The readers re-prompt on input `float()` rejects. A quit keyword (`q`, `quit`, `exit`, in any
case) at an operand prompt raises `SystemExit`, which `main` turns into "Exiting..." and
the end of the session. The operations `divide`, `sqrt`, `log10`, `ln` and `factorial` guard
their domains and raise `ZeroDivisionError` or `ValueError`. `main` prints those as
"Error: ..." and shows the menu again. Python adds two failures of its own on the factorial
path, and the model has both:
- `math.factorial` raises `OverflowError` for an argument above 2^63 - 1 (operand "1e19",
  say). The catch-all reports it.
- `print` raises `ValueError` when it writes an int of more than 4300 decimal digits, the
  default of `sys.set_int_max_str_digits` in Python 3.11 and the patched earlier releases
  (3.10.7, 3.9.14, 3.8.14, 3.7.14). Factorials from 1559! on are
  that long. `except ValueError` reports it as "Error: ...".

The model replaces the keyboard by a script of input lines (`seq<string>`) and the console
by a trace of events (`Trace.Event`): one event per message printed, without its wording.

- **Operations** (`operations.dfy`). The arithmetic is on exact reals. Python's `math` is a
  parameter `MathLib`: a record of function values, each of which may return or raise.
  `Conforming(lib)` states the little that `math` documents and the guarded operations
  rely on.
- **Text** (`text.dfy`). `str.strip()`, with Python's full set of whitespace, and the
  case-insensitive quit test.
- **Input** (`input.dfy`). `float()` is a parameter `Parser`. `Classify` says what one line
  means at an operand prompt: a quit keyword, a number or a malformed line. The
  specification functions `ReadReal` and `ReadInt` work over this classification of the
  script. The loops `GetNumber` and `GetInt` are proved equal to them.
- **Calculator** (`calculator.dfy`). `main` is split into these pieces:
  - `Gather` reads the operands of a choice;
  - `Attempt` is the whole `try` block;
  - `Iteration` is one pass of the loop;
  - `Session` is the whole run.

  Each piece is defined over what every line means at the menu prompt (`Choices`) and at
  an operand prompt (`Kinds`). The methods `ReadOperands`, `Operate`, `Turn` and
  `RunSession` work on the raw script and are proved equal to those functions.
- **Properties** (`properties.dfy`). What the loop guarantees:
  - lines consumed per choice;
  - quitting at any operand prompt;
  - errors never ending the session;
  - exactly one final event.
- **Scenarios** (`scenarios.dfy`). Whole sessions on short scripts, from the raw lines to
  the trace.

End of input stands for `EOFError` from `input`. At an operand prompt it is raised inside
the `try`, so the catch-all reports it and the loop goes on (`Unexpected(EofMessage)`). At
the choice prompt (calculator.py:130) it is raised outside the `try` and ends the program.
The model records this with the final event `OutOfInput`. A finite script needs such a
stop; with an interactive user the source would simply wait for the next line.

Two behaviours of the code are easy to miss, and the model follows the code in both:
- `math.pow` *raises* `ValueError` for a negative base with a fractional exponent, and
  `math.exp` raises `OverflowError`, rather than passing NaN or infinity through. As
  `MathLib` functions may raise, the model lets them. `ValueError` is reported as `Error`
  and `OverflowError` by the catch-all as `Unexpected`.
- The session can end without a quit: input that runs out at the menu prompt is not caught.

## Model

| member | source | states |
|---|---|---|
| `Text.Strip` | calculator.py:21 | `str.strip()` over Python's whitespace set; characterised by `StripShape`, `StripPadded` and `StripIdempotent` |
| `Text.IsQuitKeyword` | calculator.py:22 | `text.lower() in ("q", "quit", "exit")`; characterised by `QuitKeywordIgnoresCase` and `QuitKeywordSpellings` |
| `Text.TrimLeftShape` | calculator.py:21 | stripping the left keeps a suffix not starting with whitespace and drops only whitespace |
| `Text.TrimRightShape` | calculator.py:21 | stripping the right keeps a prefix not ending with whitespace and drops only whitespace |
| `Text.StripShape` | calculator.py:21 | `strip()` never lengthens a line and leaves no whitespace at either end |
| `Text.StripPadded` | calculator.py:21 | `strip()` removes exactly the whitespace padding around any text, however long, and turns a whitespace-only line into the empty text |
| `Text.StripIdempotent` | calculator.py:21 | stripping twice is stripping once |
| `Text.QuitKeywordIgnoresCase` | calculator.py:22 | two texts equal up to letter case are both quit keywords or both not |
| `Text.QuitKeywordSpellings` | calculator.py:22 | q/quit/exit in any mixture of case are quit keywords; "", "quit!", "14", "x" are not |
| `Operations.Add` | calculator.py:43-44 | the exact sum; `ArithmeticInverses` shows `Subtract` undoes it, and `EvaluateFaults` shows choice 1 never raises |
| `Operations.Subtract` | calculator.py:47-48 | the exact difference; `ArithmeticInverses` shows `Add` undoes it, and `EvaluateFaults` shows choice 2 never raises |
| `Operations.Multiply` | calculator.py:51-52 | the exact product; `ArithmeticInverses` shows dividing by a non-zero factor undoes it, and `EvaluateFaults` shows choice 3 never raises |
| `Operations.Divide` | calculator.py:55-58 | the guarded quotient; characterised by `DivideGuard` and `ArithmeticInverses` |
| `Operations.Power` | calculator.py:62-63 | `math.pow` with no guard of its own; `EvaluateFaults` shows choice 5 raises exactly what `math.pow` raises |
| `Operations.Sqrt` | calculator.py:66-69 | the guarded square root; characterised by `SqrtGuard` |
| `Operations.Sin` | calculator.py:72-73 | `math.sin` with no guard of its own; see `EvaluateFaults` |
| `Operations.Cos` | calculator.py:76-77 | `math.cos` with no guard of its own; see `EvaluateFaults` |
| `Operations.Tan` | calculator.py:80-81 | `math.tan` with no guard of its own; see `EvaluateFaults` |
| `Operations.Log10` | calculator.py:84-87 | the guarded base-10 logarithm; characterised by `LogGuards` |
| `Operations.Ln` | calculator.py:90-93 | the guarded natural logarithm; characterised by `LogGuards` |
| `Operations.Factorial` | calculator.py:96-99 | the guard n < 0, then `math.factorial`, which refuses arguments above 2^63 - 1 with `OverflowError`; characterised by `FactorialGuard` |
| `Operations.Expo` | calculator.py:102-103 | `math.exp` with no guard of its own; see `EvaluateFaults` |
| `Operations.Fact` | calculator.py:99 | n! is at least 1 and at least n |
| `Operations.DivideGuard` | calculator.py:55-58 | `divide` raises the division-by-zero error exactly when b = 0; otherwise the quotient times b is a |
| `Operations.SqrtGuard` | calculator.py:66-69 | `sqrt` raises its own error exactly below 0 and otherwise is `math.sqrt`; with a conforming `math` it succeeds exactly from 0 on, with a non-negative root |
| `Operations.LogGuards` | calculator.py:84-93 | `log10` and `ln` raise their own errors exactly at or below 0 and otherwise are `math`'s; with a conforming `math` they succeed exactly above 0 and are 0 at 1 |
| `Operations.FactorialGuard` | calculator.py:96-99 | `factorial` raises exactly for n < 0, with its own `ValueError`, and for n > 2^63 - 1, with `math.factorial`'s `OverflowError`; in between 0! = 1, n! = n * (n-1)!, and the result is at least 1 |
| `Operations.ArithmeticInverses` | calculator.py:43-58 | adding and subtracting b cancel, and multiplying and dividing by a non-zero b cancel |
| `Operations.FactorialOfFive` | calculator.py:96-99 | factorial(5) = 120 |
| `Input.Classify` | calculator.py:21-24 | what a line means to a reader: the quit test on the stripped text first, then `float()`; characterised by `QuitLineEndsRead` and `MalformedLineRetries` |
| `Input.Scan` | calculator.py:19-26 | the reader stops at the first line that is not malformed; all lines before it are malformed |
| `Input.ReadReal` | calculator.py:19-26 | a read consumes its retried lines and, unless the input ends, one more; it ends at end of input exactly when all remaining lines are malformed, with a quit keyword or number on its last line otherwise |
| `Input.Trunc` | calculator.py:36 | `int()` on a float truncates toward zero: the result lies within 1 of x, on the side of 0 |
| `Input.ReadInt` | calculator.py:29-39 | the read of `get_int`: `int(float(text))`; characterised by `ReadIntTruncates` |
| `Input.GetNumber` | calculator.py:13-26 | the loop reads exactly what `ReadReal` says and prints one "Invalid number" per retry |
| `Input.GetInt` | calculator.py:29-39 | the loop reads exactly what `ReadInt` says and prints one "Invalid integer" per retry |
| `Input.QuitLineEndsRead` | calculator.py:21-23 | a quit keyword at the prompt ends either read at once, whatever `float()` would make of it |
| `Input.MalformedLineRetries` | calculator.py:24-26 | a rejected line costs one retry, and the same operand is then read from the next line |
| `Input.ReadIntTruncates` | calculator.py:36 | `get_int` reads the same lines as `get_number` and truncates its value toward zero |
| `Input.TruncExamples` | calculator.py:36 | 3.7 gives 3, -0.5 gives 0, -3.7 gives -3, 5.0 gives 5 |
| `Input.TruncTowardZero` | calculator.py:36 | truncation keeps whole numbers and never moves away from zero |
| `Input.ScanFinds` | calculator.py:19-26 | malformed lines up to line k, which is decisive, make the scan stop exactly at k |
| `Input.ReadStopsAt` | calculator.py:19-26 | such a read ends at k with k - pos retries, as a quit, a value or end of input |
| `Input.Values` | calculator.py:24 | the values `float()` gives the number lines of a stretch of input, in order; characterised by `ReadValue` |
| `Input.ReadValue` | calculator.py:19-26 | a read that delivers a value delivers the value of the one number line it consumed; any other read consumed no number line |
| `Input.ReadConsumesOneDecisiveLine` | calculator.py:19-26 | a read that does not run out consumes exactly one number-or-quit line, its last |
| `Calculator.ChoiceOf` | calculator.py:133-195 | the exact-match `if`/`elif` chain on the stripped choice; characterised by `ChoiceTable`, `LeaveChoice` and `NearMissChoices` |
| `Calculator.ParseChoice` | calculator.py:130 | the choice read from a raw line, stripped first; characterised by `ChoiceTable`, `LeaveChoice` and `PaddedChoices` |
| `Calculator.Evaluate` | calculator.py:133-188 | the call each branch makes on its operands; characterised by `EvaluateFaults` |
| `Calculator.Printable` | calculator.py:184 | `print` can write every float and exactly the ints of at most 4300 digits; characterised by `PrintLimit` |
| `Calculator.DigitsBelow` | calculator.py:184 | an integer has at most k decimal digits exactly when it is below 10^k |
| `Calculator.Report` | calculator.py:197-205 | the message for an outcome, including the `ValueError` that `print` raises at line 184 for an over-long int; characterised by `ReportShape` |
| `Calculator.Attempt` | calculator.py:132-205 | the `try` block of a chosen operation; characterised by `AttemptShape`, `AttemptQuits`, `GatherReadsItsOperands` and `GatherDeliversItsOperands` |
| `Calculator.Gather` | calculator.py:133-188 | the operand reads stay within the input, and delivered operands fit the chosen operation; which lines they are and what values they carry is `GatherReadsItsOperands` and `GatherDeliversItsOperands` |
| `Calculator.Iteration` | calculator.py:128-205 | every iteration shows the menu first and, if it continues, moves strictly forward in the input |
| `Calculator.Session` | calculator.py:128-205 | the whole run from a choice line on; characterised by `SessionEndsOnce`, `ErrorKeepsSessionGoing` and the quit lemmas |
| `Calculator.ReadOperands` | calculator.py:133-188 | the reads of a choice are exactly `Gather`, with one retry message per malformed line |
| `Calculator.Operate` | calculator.py:132-205 | the `try` block's events and next position are exactly `Attempt` |
| `Calculator.Turn` | calculator.py:129-205 | one loop pass on the raw script is exactly `Iteration` |
| `Calculator.RunSession` | calculator.py:126-205 | `main` on a script produces exactly the trace `Session` |
| `Properties.ChoiceTable` | calculator.py:133-188 | a line selects operation op exactly when its stripped text is op's menu number |
| `Properties.LeaveChoice` | calculator.py:190 | a line leaves exactly when its stripped text is "14" or a quit keyword |
| `Properties.ArityTable` | calculator.py:133-188 | items 1-5 take two operands, items 6-13 take one |
| `Properties.NearMissChoices` | calculator.py:194-195 | "01", "1.0", "15", "" and "0" are invalid choices |
| `Properties.PaddedChoices` | calculator.py:130 | surrounding whitespace is ignored in a choice: " 1 ", "12\t", " QUIT " |
| `Properties.ReportShape` | calculator.py:197-205 | an outcome is shown as a result exactly when the operation returned a printable value; an over-long int gives "Error:", `OverflowError` goes to the catch-all, and the other exceptions go to "Error:" |
| `Properties.PrintLimit` | calculator.py:184 | an int result is shown exactly when it lies strictly between -10^4300 and 10^4300 |
| `Properties.EvaluateFaults` | calculator.py:133-188 | choices 1-3 never raise; choices 5, 7-9 and 13 raise exactly what `math` raises; the guarded choices raise on their guards, factorial also above 2^63 - 1 |
| `Properties.AttemptShape` | calculator.py:132-205 | the `try` block shows retries, then one closing event, which is `Exiting` exactly when the session stops |
| `Properties.SessionStops` | calculator.py:192 | an iteration that ends the session is the rest of the session |
| `Properties.IterationFinality` | calculator.py:190-203 | an iteration's last event is final exactly when it stops the session, and no earlier event is final |
| `Properties.SessionEndsOnce` | calculator.py:128-205 | every session starts with the menu and has exactly one final event, its last |
| `Properties.InvalidChoiceConsumesOneLine` | calculator.py:194-195 | an invalid choice shows one message, consumes only its line, and returns to the menu |
| `Properties.LeaveEndsSession` | calculator.py:190-192 | choice 14 or a quit keyword shows the menu and goodbye, and nothing after |
| `Properties.EndOfInputEndsSession` | calculator.py:130 | input running out at the menu prompt ends the session |
| `Properties.GatherStopsAtFirstRead` | calculator.py:134-135 | a quit or end of input at the first read ends the operand reads there, for either reader |
| `Properties.GatherStopsAtSecondRead` | calculator.py:134-135 | a quit or end of input at the second read ends them with the retries of both reads |
| `Properties.AttemptQuits` | calculator.py:201-203 | operands ended by a quit keyword close the `try` block with `Exiting` and stop the session |
| `Properties.RunStops` | calculator.py:201-203 | a chosen operation that stops the session leaves only the menu and its own events |
| `Properties.QuitAtFirstOperand` | calculator.py:22-23 | a quit keyword at the first operand prompt ends the session: retries, then one `Exiting`, no result |
| `Properties.GatherQuitsAtSecondRead` | calculator.py:134-135 | reads that meet a number and then a quit keyword end with the quit after one retry for each other line |
| `Properties.QuitAtSecondOperand` | calculator.py:134-135 | a quit keyword at the second prompt ends the session the same way, though one operand was read |
| `Properties.StopShowsNoOutcome` | calculator.py:201-203 | an iteration that ends the session shows only the menu, retry messages and its final event |
| `Properties.ExitingShowsNoResult` | calculator.py:201-203 | `Exiting` appears only last in an iteration that stops the session, after nothing but retries |
| `Properties.ErrorKeepsSessionGoing` | calculator.py:197-200 | an error or unexpected error never ends the session: the menu comes back and the next line is a choice |
| `Properties.GatherReadsItsOperands` | calculator.py:133-188 | delivering operands consumed exactly `Arity(op)` number lines, no quit keyword, and one retried line for each other line |
| `Properties.GatherDeliversItsOperands` | calculator.py:133-188 | the delivered operands are the values of the number lines read, in order; the factorial's is its line's value truncated toward zero |
| `Properties.CompletedOperationUsesItsOperands` | calculator.py:133-188 | an operation ending in a result or error reports the operation applied to the numbers typed at its prompts, in order, truncated for the factorial |
| `Properties.CompletedOperationReadsItsOperands` | calculator.py:133-188 | an operation ending in a result or error consumed exactly its operands plus its retried lines |
| `Scenarios.AddSession` | calculator.py:133-136 | choice 1 with numbers 2 and 3 and nothing after shows the result 5, then runs out of input |
| `Scenarios.AddTwoNumbers` | calculator.py:133-136 | "1", "2", "3" shows the result 5, then runs out of input at the menu |
| `Scenarios.DivideByZeroSession` | calculator.py:148-151 | choice 4 with 10 and 0, then a leave choice, shows the division error, the menu again and goodbye |
| `Scenarios.DivideByZeroKeepsGoing` | calculator.py:148-151 | "4", "10", "0", "14" shows the division error, the menu again, then goodbye |
| `Scenarios.FactorialSession` | calculator.py:182-184 | choice 12 with -0.5, then a leave choice, shows the factorial 1 and goodbye |
| `Scenarios.FactorialOfMinusHalf` | calculator.py:182-184 | "12", "-0.5", "q" shows the factorial 1, not an error |
| `Scenarios.FactorialOverflowSession` | calculator.py:182-184 | choice 12 with 10^19, then a leave choice, reports `math.factorial`'s `OverflowError` through the catch-all, then goodbye |
| `Scenarios.FactorialTooLarge` | calculator.py:204-205 | "12", "1e19", "14" shows the unexpected error, the menu again, then goodbye |
| `Scenarios.RetryThenQuit` | calculator.py:158-159 | "6", "abc", "quit" shows one retry, then `Exiting` |
| `Scenarios.NearMissIsInvalid` | calculator.py:194-195 | " 01 ", "14" is an invalid choice, then goodbye |
| `Scenarios.EndAtOperandSession` | calculator.py:204-205 | choice 1 with one number and no more input reports the end of input, then stops at the menu |
| `Scenarios.InputEndsAtOperand` | calculator.py:204-205 | "1", "2" runs out at the second operand; the catch-all reports it and the loop continues |

## Left out

- Floating point: operands and results are exact reals. IEEE-754 rounding, infinities,
  NaN and `-0.0` are not modelled.
- The numeric values of `math.pow`, `sin`, `cos`, `tan`, `exp`, `sqrt`, `log10` and `log`:
  they are function values in `MathLib`, as are the cases where `math` itself raises.
- `float()` string parsing: it is the `Parser` given.
- `int(float("inf"))` raising `OverflowError` and `int(float("nan"))` raising `ValueError`
  in `get_int`: reals have neither value, so `Trunc` is total.
- `str.lower()` is modelled on ASCII letters only (`LowerChar`). For the quit keywords this
  is exact. The only non-ASCII character whose lower case contains one of those letters
  is 'İ' (U+0130), which lowers to "i" followed by a combining dot. The dot makes the
  lowered text longer than the keyword, so it never matches.
- `input`, `print`, the menu text (calculator.py:106-123) and the prompts: the script and
  the event trace stand for them. A result event carries its value, not its rendering.
- `KeyboardInterrupt` (calculator.py:209-212): signal handling, outside the sequential
  logic.
- The end of the script stands for `EOFError` from `input`. At the choice prompt it is
  uncaught and ends the program; the model writes this as the final event `OutOfInput`.
- `main`'s 13 operation branches are one branch in the model, driven by `Arity` and
  `Evaluate`. The prompts that tell the branches apart are not modelled.
- The OverflowError bound of `math.factorial` is the C `long` of a 64-bit Unix platform
  (2^63 - 1); where `long` is 32 bits (Windows) the bound is lower.
- `math.factorial` of an argument it accepts but cannot finish (1e18, say) would run out of
  memory or time; the model returns n!, which the digit limit then reports as an error.
- The digit limit of `print` is Python's default and is modelled for Python 3.11 and the patched earlier releases.
  Its wording is Python 3.12's, and nothing models `PYTHONINTMAXSTRDIGITS` or
  `sys.set_int_max_str_digits`. The "Result: " that `print` writes before failing is wording
  and is not modelled. The bound 1559, from which on factorials are too long, is not proved;
  the model compares the digit count directly.
- The retries of the two reads of a two-operand choice are added up in `Gather`. Both
  reads print the same message, so the trace is the same.
