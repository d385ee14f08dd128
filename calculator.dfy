/** The menu loop `main`: one menu, one choice line and the operands that choice needs per
    iteration, until the user quits or the input runs out. */
module Calculator {
  import opened Text
  import opened Trace
  import opened Input
  import Operations

  /** What a choice line selects. */
  datatype Choice = Run(op: Op) | Leave | Invalid

  /** The menu number of each operation. */
  function MenuCode(op: Op): string {
    match op
    case Add => "1"
    case Subtract => "2"
    case Multiply => "3"
    case Divide => "4"
    case Power => "5"
    case Sqrt => "6"
    case Sin => "7"
    case Cos => "8"
    case Tan => "9"
    case Log10 => "10"
    case Ln => "11"
    case Factorial => "12"
    case Exp => "13"
  }

  /** The `if`/`elif` chain of `main` on the stripped choice: exact matches only. */
  function ChoiceOf(text: string): Choice {
    if text == "1" then Run(Add)
    else if text == "2" then Run(Subtract)
    else if text == "3" then Run(Multiply)
    else if text == "4" then Run(Divide)
    else if text == "5" then Run(Power)
    else if text == "6" then Run(Sqrt)
    else if text == "7" then Run(Sin)
    else if text == "8" then Run(Cos)
    else if text == "9" then Run(Tan)
    else if text == "10" then Run(Log10)
    else if text == "11" then Run(Ln)
    else if text == "12" then Run(Factorial)
    else if text == "13" then Run(Exp)
    else if text == "14" || IsQuitKeyword(text) then Leave
    else Invalid
  }

  /** The choice read from a line at the menu prompt: `input(...).strip()`. */
  function ParseChoice(line: string): Choice {
    ChoiceOf(Strip(line))
  }

  /** What every line of the script would mean at the menu prompt. */
  function Choices(script: seq<string>): (choices: seq<Choice>)
    ensures |choices| == |script|
    ensures forall i {:trigger choices[i]} :: 0 <= i < |script| ==> choices[i] == ParseChoice(script[i])
  {
    seq(|script|, i requires 0 <= i < |script| => ParseChoice(script[i]))
  }

  /** How many operands an operation reads. */
  function Arity(op: Op): nat {
    match op
    case Add | Subtract | Multiply | Divide | Power => 2
    case _ => 1
  }

  /** The retry message of the reader an operation uses: `get_int` for factorial,
      `get_number` for everything else. */
  function InvalidOf(op: Op): Event {
    if op == Factorial then InvalidInt else InvalidNumber
  }

  /** The operands handed to an operation. */
  datatype Args = Pair(a: real, b: real) | Single(x: real) | Whole(n: int)

  predicate Fits(op: Op, args: Args) {
    if op == Factorial then args.Whole? else if Arity(op) == 2 then args.Pair? else args.Single?
  }

  function AsFloat(o: Operations.Outcome<real>): Operations.Outcome<Number> {
    match o
    case Ok(v) => Operations.Ok(Float(v))
    case Raise(f) => Operations.Raise(f)
  }

  /** The call `main` makes for a chosen operation. */
  function Evaluate(lib: Operations.MathLib, op: Op, args: Args): Operations.Outcome<Number>
    requires Fits(op, args)
  {
    match op
    case Add => Operations.Ok(Float(Operations.Add(args.a, args.b)))
    case Subtract => Operations.Ok(Float(Operations.Subtract(args.a, args.b)))
    case Multiply => Operations.Ok(Float(Operations.Multiply(args.a, args.b)))
    case Divide => AsFloat(Operations.Divide(args.a, args.b))
    case Power => AsFloat(Operations.Power(lib, args.a, args.b))
    case Sqrt => AsFloat(Operations.Sqrt(lib, args.x))
    case Sin => AsFloat(Operations.Sin(lib, args.x))
    case Cos => AsFloat(Operations.Cos(lib, args.x))
    case Tan => AsFloat(Operations.Tan(lib, args.x))
    case Log10 => AsFloat(Operations.Log10(lib, args.x))
    case Ln => AsFloat(Operations.Ln(lib, args.x))
    case Exp => AsFloat(Operations.Expo(lib, args.x))
    case Factorial =>
      match Operations.Factorial(args.n)
      case Ok(v) => Operations.Ok(Integer(v))
      case Raise(f) => Operations.Raise(f)
  }

  /** The number of decimal digits of `n`. */
  function Digits(n: nat): (d: nat)
    ensures 1 <= d
  {
    if n < 10 then 1 else 1 + Digits(n / 10)
  }

  function Pow10(k: nat): (p: nat)
    ensures 1 <= p
  {
    if k == 0 then 1 else 10 * Pow10(k - 1)
  }

  /** Python's default `sys.get_int_max_str_digits()`: `str()` of an int with more decimal
      digits raises `ValueError`. */
  const IntMaxStrDigits := 4300
  const IntStrMessage := "Exceeds the limit (4300 digits) for integer string conversion; use sys.set_int_max_str_digits() to increase the limit"

  /** Whether `print` can turn a result into text: every float, and every int within the
      digit limit. */
  predicate Printable(v: Number) {
    match v
    case Float(_) => true
    case Integer(n) => Digits(if n < 0 then -n else n) <= IntMaxStrDigits
  }

  /** The message printed for an operation's outcome: its result, or the `except` clause
      that catches what it raised, either in the operation or while `print` writes the
      result. */
  function Report(op: Op, o: Operations.Outcome<Number>): Event {
    match o
    case Ok(v) => if Printable(v) then Result(op, v) else Error(Operations.ValueError(IntStrMessage))
    case Raise(f) => if f.OverflowError? then Unexpected(f.message) else Error(f)
  }

  /** An integer has at most `k` digits exactly when it is below 10^k. */
  lemma {:induction false} DigitsBelow(n: nat, k: nat)
    requires 1 <= k
    ensures Digits(n) <= k <==> n < Pow10(k)
    decreases n
  {
    if n < 10 {
      assert Pow10(k) == 10 * Pow10(k - 1);
    } else if k == 1 {
      assert Pow10(1) == 10 * Pow10(0);
    } else {
      DigitsBelow(n / 10, k - 1);
      var p := Pow10(k - 1);
      assert Pow10(k) == 10 * p;
      assert n == 10 * (n / 10) + n % 10;
      if n / 10 < p {
        assert n / 10 <= p - 1;
        assert n < 10 * p;
      } else {
        assert 10 * p <= 10 * (n / 10);
      }
    }
  }

  /** The message of the `EOFError` that `input` raises on exhausted input. */
  const EofMessage := "EOF when reading a line"

  /** One stretch of the session: the events shown, and where the next menu iteration reads
      its choice, or `None` when the session is over. */
  datatype Step = Step(events: seq<Event>, next: Option<nat>)

  /** The operand reads of the `try` block for a chosen operation whose operands start at
      `pos`: `get_int` once for factorial, `get_number` once or twice for the others, the
      second read only once the first has delivered its value. The retries of both reads
      are added up, as both print the same message. */
  function Gather(op: Op, kinds: seq<LineKind>, pos: nat): (g: Read<Args>)
    requires pos <= |kinds|
    ensures pos <= g.next <= |kinds|
    ensures g.ending.Got? ==> Fits(op, g.ending.value)
  {
    if op == Factorial then
      var n := ReadInt(kinds, pos);
      match n.ending
      case Got(v) => Read(Got(Whole(v)), n.retries, n.next)
      case QuitKeyword => Read(QuitKeyword, n.retries, n.next)
      case EndOfFile => Read(EndOfFile, n.retries, n.next)
    else
      var a := ReadReal(kinds, pos);
      match a.ending
      case QuitKeyword => Read(QuitKeyword, a.retries, a.next)
      case EndOfFile => Read(EndOfFile, a.retries, a.next)
      case Got(x) =>
        if Arity(op) == 1 then Read(Got(Single(x)), a.retries, a.next)
        else
          var b := ReadReal(kinds, a.next);
          match b.ending
          case Got(y) => Read(Got(Pair(x, y)), a.retries + b.retries, b.next)
          case QuitKeyword => Read(QuitKeyword, a.retries + b.retries, b.next)
          case EndOfFile => Read(EndOfFile, a.retries + b.retries, b.next)
  }

  /** The message that closes the `try` block: `Exiting` for the `SystemExit` of a quit
      keyword, the catch-all's report of the `EOFError` of exhausted input, or the
      operation's outcome. */
  function Close(lib: Operations.MathLib, op: Op, e: Ending<Args>): Event
    requires e.Got? ==> Fits(op, e.value)
  {
    match e
    case QuitKeyword => Exiting
    case EndOfFile => Unexpected(EofMessage)
    case Got(args) => Report(op, Evaluate(lib, op, args))
  }

  /** The `try` block of `main` for a chosen operation whose operands start at `pos`. */
  function Attempt(lib: Operations.MathLib, op: Op, kinds: seq<LineKind>, pos: nat): Step
    requires pos <= |kinds|
  {
    var g := Gather(op, kinds, pos);
    Step(Repeat(InvalidOf(op), g.retries) + [Close(lib, op, g.ending)],
         if g.ending.QuitKeyword? then None else Some(g.next))
  }

  /** One iteration of `main`'s loop, reading its choice at `pos`; `choices` and `kinds`
      say what each line means at the menu prompt and at an operand prompt. */
  function Iteration(lib: Operations.MathLib, choices: seq<Choice>, kinds: seq<LineKind>, pos: nat): (s: Step)
    requires |choices| == |kinds| && pos <= |kinds|
    ensures |s.events| >= 2 && s.events[0] == ShowMenu
    ensures s.next.Some? ==> pos < s.next.value <= |kinds|
  {
    if pos == |kinds| then Step([ShowMenu, OutOfInput], None)
    else match choices[pos]
      case Leave => Step([ShowMenu, Goodbye], None)
      case Invalid => Step([ShowMenu, InvalidChoice], Some(pos + 1))
      case Run(op) =>
        var s := Attempt(lib, op, kinds, pos + 1);
        Step([ShowMenu] + s.events, s.next)
  }

  /** The events of the whole session from the choice line at `pos` on. */
  function Session(lib: Operations.MathLib, choices: seq<Choice>, kinds: seq<LineKind>, pos: nat): seq<Event>
    requires |choices| == |kinds| && pos <= |kinds|
    decreases |kinds| - pos
  {
    var s := Iteration(lib, choices, kinds, pos);
    match s.next
    case None => s.events
    case Some(p) => s.events + Session(lib, choices, kinds, p)
  }

  /** The operand reads of the `try` block: `get_int` for factorial, `get_number` once or
      twice for the others. */
  method ReadOperands(parse: Parser, op: Op, script: seq<string>, pos: nat)
    returns (g: Read<Args>, out: seq<Event>)
    requires pos <= |script|
    ensures g == Gather(op, Kinds(parse, script), pos)
    ensures out == Repeat(InvalidOf(op), g.retries)
  {
    if op == Factorial {
      var n;
      n, out := GetInt(parse, script, pos);
      match n.ending {
        case Got(v) => g := Read(Got(Whole(v)), n.retries, n.next);
        case QuitKeyword => g := Read(QuitKeyword, n.retries, n.next);
        case EndOfFile => g := Read(EndOfFile, n.retries, n.next);
      }
      return;
    }
    var a;
    a, out := GetNumber(parse, script, pos);
    match a.ending {
      case QuitKeyword => g := Read(QuitKeyword, a.retries, a.next);
      case EndOfFile => g := Read(EndOfFile, a.retries, a.next);
      case Got(x) =>
        if Arity(op) == 1 {
          g := Read(Got(Single(x)), a.retries, a.next);
          return;
        }
        var b, out' := GetNumber(parse, script, a.next);
        RepeatAdds(InvalidNumber, a.retries, b.retries);
        out := out + out';
        match b.ending {
          case Got(y) => g := Read(Got(Pair(x, y)), a.retries + b.retries, b.next);
          case QuitKeyword => g := Read(QuitKeyword, a.retries + b.retries, b.next);
          case EndOfFile => g := Read(EndOfFile, a.retries + b.retries, b.next);
        }
    }
  }

  /** The `try` block of `main` for a chosen operation: read its operands, call it, and
      report the result or what the `except` clauses catch. */
  method Operate(parse: Parser, lib: Operations.MathLib, op: Op, script: seq<string>, pos: nat)
    returns (events: seq<Event>, next: Option<nat>)
    requires pos <= |script|
    ensures Step(events, next) == Attempt(lib, op, Kinds(parse, script), pos)
  {
    var g, out := ReadOperands(parse, op, script, pos);
    match g.ending {
      case Got(args) =>
        events, next := out + [Report(op, Evaluate(lib, op, args))], Some(g.next);
      case QuitKeyword =>
        events, next := out + [Exiting], None;
      case EndOfFile =>
        events, next := out + [Unexpected(EofMessage)], Some(g.next);
    }
  }

  /** A session is its first iteration followed, unless that ends it, by the session from
      the next choice line. */
  lemma SessionUnfold(lib: Operations.MathLib, choices: seq<Choice>, kinds: seq<LineKind>, pos: nat)
    requires |choices| == |kinds| && pos <= |kinds|
    ensures var s := Iteration(lib, choices, kinds, pos);
      Session(lib, choices, kinds, pos)
        == s.events + (if s.next.Some? then Session(lib, choices, kinds, s.next.value) else [])
  {
  }

  /** One pass of `main`'s loop body: show the menu, read the choice at `pos` and act on it. */
  method Turn(parse: Parser, lib: Operations.MathLib, script: seq<string>, pos: nat)
    returns (events: seq<Event>, next: Option<nat>)
    requires pos <= |script|
    ensures Step(events, next) == Iteration(lib, Choices(script), Kinds(parse, script), pos)
  {
    events := [ShowMenu];
    if pos == |script| {
      events, next := events + [OutOfInput], None;
      return;
    }
    var choice := ParseChoice(script[pos]);
    match choice {
      case Leave =>
        events, next := events + [Goodbye], None;
      case Invalid =>
        events, next := events + [InvalidChoice], Some(pos + 1);
      case Run(op) =>
        var out;
        out, next := Operate(parse, lib, op, script, pos + 1);
        events := events + out;
    }
  }

  /** `main`: the whole session on the given input lines. */
  method RunSession(parse: Parser, lib: Operations.MathLib, script: seq<string>) returns (trace: seq<Event>)
    ensures trace == Session(lib, Choices(script), Kinds(parse, script), 0)
  {
    ghost var choices, kinds := Choices(script), Kinds(parse, script);
    var pos := 0;
    trace := [];
    while true
      invariant pos <= |script|
      invariant trace + Session(lib, choices, kinds, pos) == Session(lib, choices, kinds, 0)
      decreases |script| - pos
    {
      var events, next := Turn(parse, lib, script, pos);
      SessionUnfold(lib, choices, kinds, pos);
      trace := trace + events;
      if next.None? {
        return;
      }
      pos := next.value;
    }
  }
}
