/** What the menu loop guarantees: how a choice line is read, how many lines each choice
    consumes, which events it shows, and when the session ends. The session lemmas hold
    for whatever the lines mean at either prompt (`choices`, `kinds`); `Choices` and
    `Kinds` give the meanings of an actual script. */
module Properties {
  import opened Text
  import opened Trace
  import opened Input
  import opened Calculator
  import Operations

  /** Choices 1 to 13 are matched exactly, after stripping, against the menu numbers. */
  lemma ChoiceTable(line: string, op: Op)
    ensures ParseChoice(line) == Run(op) <==> Strip(line) == MenuCode(op)
  {
  }

  /** Choice "14" and the quit keywords in any case, and only they, end the session. */
  lemma LeaveChoice(line: string)
    ensures ParseChoice(line) == Leave <==> Strip(line) == "14" || IsQuitKeyword(Strip(line))
  {
    var t := Strip(line);
    if IsQuitKeyword(t) {
      assert |t| == 1 ==> t[0] == 'q' || t[0] == 'Q';
    }
  }

  /** Choices 1 to 5 take two operands, choices 6 to 13 take one. */
  lemma ArityTable(op: Op)
    ensures Arity(op) == 2 <==> MenuCode(op) in {"1", "2", "3", "4", "5"}
    ensures Arity(op) == 1 <==> MenuCode(op) in {"6", "7", "8", "9", "10", "11", "12", "13"}
  {
  }

  /** Near misses are invalid choices: no numeric conversion is made. */
  lemma NearMissChoices()
    ensures ParseChoice("01") == Invalid && ParseChoice("1.0") == Invalid
    ensures ParseChoice("15") == Invalid && ParseChoice("") == Invalid && ParseChoice("0") == Invalid
  {
    assert Strip("01") == "01" && Strip("1.0") == "1.0" && Strip("15") == "15" && Strip("0") == "0";
    assert "01"[0] == '0' && "1.0"[1] == '.' && "15"[1] == '5';
  }

  /** Surrounding whitespace is all that is ignored in a choice line. */
  lemma PaddedChoices()
    ensures ParseChoice(" 1 ") == Run(Add) && ParseChoice("12\t") == Run(Factorial)
    ensures ParseChoice(" QUIT ") == Leave
  {
    StripPadded(" ", "1", " ");
    StripPadded("", "12", "\t");
    StripPadded(" ", "QUIT", " ");
    assert " " + "1" + " " == " 1 ";
    assert "" + "12" + "\t" == "12\t";
    assert " " + "QUIT" + " " == " QUIT ";
    assert "QUIT"[0] == 'Q';
  }

  /** Every outcome is reported as a result, an error or an unexpected error: a result
      exactly when the operation returned a value `print` can write, "Error:" for a value
      too long to write and for the two exceptions `main` names, and the catch-all's report
      exactly for an `OverflowError`. */
  lemma ReportShape(op: Op, o: Operations.Outcome<Number>)
    ensures var e := Report(op, o);
      && (e.Result? <==> o.Ok? && Printable(o.value))
      && (o.Ok? && Printable(o.value) ==> e == Result(op, o.value))
      && (o.Ok? && !Printable(o.value) ==> e == Error(Operations.ValueError(IntStrMessage)))
      && (o.Ok? && o.value.Float? ==> e == Result(op, o.value))
      && (o.Raise? && o.fault.OverflowError? ==> e == Unexpected(o.fault.message))
      && (o.Raise? && !o.fault.OverflowError? ==> e == Error(o.fault))
  {
  }

  /** An integer result is shown exactly when it lies strictly between -10^4300 and
      10^4300. */
  lemma PrintLimit(n: int)
    ensures Printable(Integer(n)) <==> -(Pow10(IntMaxStrDigits) as int) < n < Pow10(IntMaxStrDigits)
  {
    DigitsBelow(if n < 0 then -n else n, IntMaxStrDigits);
  }

  /** Which chosen operations can fail, and on what: addition, subtraction and
      multiplication never raise and give the sum, difference and product; power, the
      trigonometric functions and the exponential raise exactly when `math` does, with its
      fault; the guarded operations raise on their guards. */
  lemma EvaluateFaults(lib: Operations.MathLib, op: Op, args: Args)
    requires Fits(op, args)
    ensures var o := Evaluate(lib, op, args);
      && (op == Add ==> o == Operations.Ok(Float(args.a + args.b)))
      && (op == Subtract ==> o == Operations.Ok(Float(args.a - args.b)))
      && (op == Multiply ==> o == Operations.Ok(Float(args.a * args.b)))
      && (op == Power ==> o == AsFloat(lib.pow(args.a, args.b)))
      && (op == Sin ==> o == AsFloat(lib.sin(args.x)))
      && (op == Cos ==> o == AsFloat(lib.cos(args.x)))
      && (op == Tan ==> o == AsFloat(lib.tan(args.x)))
      && (op == Exp ==> o == AsFloat(lib.exp(args.x)))
      && (op == Divide ==> (o.Raise? <==> args.b == 0.0))
      && (op == Sqrt && args.x < 0.0 ==> o == Operations.Raise(Operations.ValueError(Operations.SqrtNegativeMessage)))
      && (op == Log10 && args.x <= 0.0 ==> o == Operations.Raise(Operations.ValueError(Operations.Log10DomainMessage)))
      && (op == Ln && args.x <= 0.0 ==> o == Operations.Raise(Operations.ValueError(Operations.LnDomainMessage)))
      && (op == Factorial ==> (o.Raise? <==> args.n < 0 || Operations.LongMax < args.n))
      && (o.Ok? ==> (o.value.Integer? <==> op == Factorial))
  {
    var o := Evaluate(lib, op, args);
    if op == Multiply {
      assert Operations.Multiply(args.a, args.b) == args.a * args.b;
      assert o == Operations.Ok(Float(Operations.Multiply(args.a, args.b)));
    }
  }

  /** A trace of `n` retry messages followed by one more event. */
  lemma RetriesThenLast(events: seq<Event>, retry: Event, n: nat)
    requires |events| == n + 1 && events[..n] == Repeat(retry, n)
    ensures forall i :: 0 <= i < n ==> events[i] == retry
    ensures events == Repeat(retry, n) + [events[n]]
  {
    forall i | 0 <= i < n
      ensures events[i] == retry
    {
      assert events[i] == events[..n][i];
    }
  }

  /** The events of a chosen operation: one retry message per malformed operand line,
      then one closing event, which is `Exiting` exactly when the operation stops the
      session and is otherwise its result or an error. */
  lemma AttemptShape(lib: Operations.MathLib, op: Op, kinds: seq<LineKind>, pos: nat)
    requires pos <= |kinds|
    ensures var s := Attempt(lib, op, kinds, pos);
      && |s.events| >= 1
      && (forall i :: 0 <= i < |s.events| - 1 ==> s.events[i] == InvalidOf(op))
      && (s.next.None? <==> s.events[|s.events| - 1] == Exiting)
      && (var last := s.events[|s.events| - 1];
          last.Exiting? || last.Result? || last.Error? || last.Unexpected?)
  {
    var g := Gather(op, kinds, pos);
    var s := Attempt(lib, op, kinds, pos);
    RetriesThenLast(s.events, InvalidOf(op), g.retries);
  }

  /** A choice of an operation shows the menu and then runs its `try` block on the lines
      after the choice. */
  lemma RunIteration(lib: Operations.MathLib, choices: seq<Choice>, kinds: seq<LineKind>, pos: nat, op: Op)
    requires |choices| == |kinds| && pos < |kinds| && choices[pos] == Run(op)
    ensures var a := Attempt(lib, op, kinds, pos + 1);
      Iteration(lib, choices, kinds, pos) == Step([ShowMenu] + a.events, a.next)
  {
  }

  /** An iteration that ends the session is the rest of the session. */
  lemma SessionStops(lib: Operations.MathLib, choices: seq<Choice>, kinds: seq<LineKind>, pos: nat)
    requires |choices| == |kinds| && pos <= |kinds| && Iteration(lib, choices, kinds, pos).next.None?
    ensures Session(lib, choices, kinds, pos) == Iteration(lib, choices, kinds, pos).events
  {
  }

  /** Every iteration ends with exactly one closing event, and that event is final
      (`Goodbye`, `Exiting`, `OutOfInput`) exactly when the session stops there. */
  lemma IterationFinality(lib: Operations.MathLib, choices: seq<Choice>, kinds: seq<LineKind>, pos: nat)
    requires |choices| == |kinds| && pos <= |kinds|
    ensures var s := Iteration(lib, choices, kinds, pos);
      && (s.next.None? <==> IsFinal(s.events[|s.events| - 1]))
      && (forall i :: 0 <= i < |s.events| - 1 ==> !IsFinal(s.events[i]))
  {
    if pos < |kinds| && choices[pos].Run? {
      var op := choices[pos].op;
      RunIteration(lib, choices, kinds, pos, op);
      AttemptShape(lib, op, kinds, pos + 1);
      var a := Attempt(lib, op, kinds, pos + 1);
      var s := Iteration(lib, choices, kinds, pos);
      forall i | 0 <= i < |s.events| - 1
        ensures !IsFinal(s.events[i])
      {
        if 0 < i {
          assert s.events[i] == a.events[i - 1];
        }
      }
    }
  }

  /** A final event exactly at the end of a trace, and nowhere else. */
  predicate EndsOnce(t: seq<Event>) {
    && |t| >= 1
    && IsFinal(t[|t| - 1])
    && (forall i :: 0 <= i < |t| - 1 ==> !IsFinal(t[i]))
  }

  /** Events with no final one among them, followed by a trace that ends once, end once. */
  lemma EndsOnceAfter(a: seq<Event>, b: seq<Event>)
    requires |a| >= 1 && forall i :: 0 <= i < |a| ==> !IsFinal(a[i])
    requires EndsOnce(b)
    ensures EndsOnce(a + b) && (a + b)[0] == a[0] && |a + b| > |a|
  {
    var t := a + b;
    assert t[|t| - 1] == b[|b| - 1];
    forall i | 0 <= i < |t| - 1
      ensures !IsFinal(t[i])
    {
      if i >= |a| {
        assert t[i] == b[i - |a|];
      }
    }
  }

  /** A session always ends, and it ends with a single final event: `Goodbye`, `Exiting`
      or `OutOfInput` appears once, as the last event, and nowhere before it. */
  lemma {:induction false} SessionEndsOnce(lib: Operations.MathLib, choices: seq<Choice>, kinds: seq<LineKind>, pos: nat)
    requires |choices| == |kinds| && pos <= |kinds|
    ensures var t := Session(lib, choices, kinds, pos);
      EndsOnce(t) && |t| >= 2 && t[0] == ShowMenu
    decreases |kinds| - pos
  {
    var s := Iteration(lib, choices, kinds, pos);
    var ev := s.events;
    IterationFinality(lib, choices, kinds, pos);
    SessionUnfold(lib, choices, kinds, pos);
    if s.next.Some? {
      SessionEndsOnce(lib, choices, kinds, s.next.value);
      EndsOnceAfter(ev, Session(lib, choices, kinds, s.next.value));
    } else {
      assert EndsOnce(ev);
    }
  }

  /** An invalid choice shows one message, consumes only its own line, and the loop goes
      back to the menu. */
  lemma InvalidChoiceConsumesOneLine(lib: Operations.MathLib, choices: seq<Choice>, kinds: seq<LineKind>, pos: nat)
    requires |choices| == |kinds| && pos < |kinds| && choices[pos] == Invalid
    ensures Session(lib, choices, kinds, pos) == [ShowMenu, InvalidChoice] + Session(lib, choices, kinds, pos + 1)
  {
  }

  /** Choice 14 or a quit keyword says goodbye and ends the session. */
  lemma LeaveEndsSession(lib: Operations.MathLib, choices: seq<Choice>, kinds: seq<LineKind>, pos: nat)
    requires |choices| == |kinds| && pos < |kinds| && choices[pos] == Leave
    ensures Session(lib, choices, kinds, pos) == [ShowMenu, Goodbye]
  {
  }

  /** Input that runs out at the menu prompt ends the session there. */
  lemma EndOfInputEndsSession(lib: Operations.MathLib, choices: seq<Choice>, kinds: seq<LineKind>)
    requires |choices| == |kinds|
    ensures Session(lib, choices, kinds, |kinds|) == [ShowMenu, OutOfInput]
  {
  }

  /** A first read that does not deliver a value ends the gathering of operands with it,
      whichever reader the operation uses. */
  lemma GatherStopsAtFirstRead(op: Op, kinds: seq<LineKind>, pos: nat)
    requires pos <= |kinds|
    ensures var a, g := ReadReal(kinds, pos), Gather(op, kinds, pos);
      && (a.ending.QuitKeyword? ==> g == Read(QuitKeyword, a.retries, a.next))
      && (a.ending.EndOfFile? ==> g == Read(EndOfFile, a.retries, a.next))
  {
    if op == Factorial {
      ReadIntTruncates(kinds, pos);
    }
  }

  /** A second read that does not deliver a value ends the gathering with the retries of
      both reads. */
  lemma GatherStopsAtSecondRead(op: Op, kinds: seq<LineKind>, pos: nat)
    requires pos <= |kinds| && Arity(op) == 2
    requires ReadReal(kinds, pos).ending.Got?
    ensures var a, g := ReadReal(kinds, pos), Gather(op, kinds, pos);
      var b := ReadReal(kinds, a.next);
      && (b.ending.QuitKeyword? ==> g == Read(QuitKeyword, a.retries + b.retries, b.next))
      && (b.ending.EndOfFile? ==> g == Read(EndOfFile, a.retries + b.retries, b.next))
  {
    assert op != Factorial;
  }

  /** Operands gathered up to a quit keyword close the `try` block with `Exiting`. */
  lemma AttemptQuits(lib: Operations.MathLib, op: Op, kinds: seq<LineKind>, pos: nat)
    requires pos <= |kinds| && Gather(op, kinds, pos).ending.QuitKeyword?
    ensures Attempt(lib, op, kinds, pos)
      == Step(Repeat(InvalidOf(op), Gather(op, kinds, pos).retries) + [Exiting], None)
  {
  }

  /** A chosen operation that stops the session leaves the menu and its own events as the
      rest of the session. */
  lemma RunStops(lib: Operations.MathLib, choices: seq<Choice>, kinds: seq<LineKind>, pos: nat, op: Op)
    requires |choices| == |kinds| && pos < |kinds| && choices[pos] == Run(op)
    requires Attempt(lib, op, kinds, pos + 1).next.None?
    ensures Session(lib, choices, kinds, pos) == [ShowMenu] + Attempt(lib, op, kinds, pos + 1).events
  {
    RunIteration(lib, choices, kinds, pos, op);
    SessionStops(lib, choices, kinds, pos);
  }

  /** A quit keyword at the first operand prompt, on line `k`, ends the session with one
      `Exiting` after a retry message for each malformed line before it, and shows no
      result. */
  lemma QuitAtFirstOperand(lib: Operations.MathLib, choices: seq<Choice>, kinds: seq<LineKind>, pos: nat, op: Op, k: nat)
    requires |choices| == |kinds| && pos < k < |kinds| && choices[pos] == Run(op)
    requires forall i :: pos < i < k ==> kinds[i].Malformed?
    requires kinds[k] == QuitLine
    ensures Session(lib, choices, kinds, pos) == [ShowMenu] + Repeat(InvalidOf(op), k - pos - 1) + [Exiting]
  {
    ReadStopsAt(kinds, pos + 1, k);
    GatherStopsAtFirstRead(op, kinds, pos + 1);
    AttemptQuits(lib, op, kinds, pos + 1);
    RunStops(lib, choices, kinds, pos, op);
  }

  /** Operand reads that meet a number on line `j` and then a quit keyword on line `k`
      end with the quit, having re-prompted on every other line. */
  lemma GatherQuitsAtSecondRead(op: Op, kinds: seq<LineKind>, pos: nat, j: nat, k: nat)
    requires pos <= j < k < |kinds| && Arity(op) == 2
    requires forall i :: pos <= i < j ==> kinds[i].Malformed?
    requires kinds[j].Numeric?
    requires forall i :: j < i < k ==> kinds[i].Malformed?
    requires kinds[k] == QuitLine
    ensures Gather(op, kinds, pos) == Read(QuitKeyword, k - pos - 1, k + 1)
  {
    ReadStopsAt(kinds, pos, j);
    ReadStopsAt(kinds, j + 1, k);
    GatherStopsAtSecondRead(op, kinds, pos);
  }

  /** A quit keyword at the second operand prompt ends the session just the same, although
      the first operand, a number on line `j`, was read; the quit keyword is on line `k`. */
  lemma QuitAtSecondOperand(lib: Operations.MathLib, choices: seq<Choice>, kinds: seq<LineKind>, pos: nat, op: Op, j: nat, k: nat)
    requires |choices| == |kinds| && pos < j < k < |kinds| && choices[pos] == Run(op) && Arity(op) == 2
    requires forall i :: pos < i < j ==> kinds[i].Malformed?
    requires kinds[j].Numeric?
    requires forall i :: j < i < k ==> kinds[i].Malformed?
    requires kinds[k] == QuitLine
    ensures Session(lib, choices, kinds, pos) == [ShowMenu] + Repeat(InvalidNumber, k - pos - 2) + [Exiting]
  {
    assert op != Factorial && InvalidOf(op) == InvalidNumber;
    GatherQuitsAtSecondRead(op, kinds, pos + 1, j, k);
    AttemptQuits(lib, op, kinds, pos + 1);
    RunStops(lib, choices, kinds, pos, op);
  }

  /** An iteration that ends the session shows the menu, retry messages and its final event,
      nothing else: no result and no error. */
  lemma StopShowsNoOutcome(lib: Operations.MathLib, choices: seq<Choice>, kinds: seq<LineKind>, pos: nat)
    requires |choices| == |kinds| && pos <= |kinds|
    ensures var s := Iteration(lib, choices, kinds, pos);
      s.next.None? ==>
        && IsFinal(s.events[|s.events| - 1])
        && (forall i :: 0 < i < |s.events| - 1 ==> s.events[i] == InvalidNumber || s.events[i] == InvalidInt)
  {
    var s := Iteration(lib, choices, kinds, pos);
    IterationFinality(lib, choices, kinds, pos);
    if pos < |kinds| && choices[pos].Run? {
      var op := choices[pos].op;
      RunIteration(lib, choices, kinds, pos, op);
      AttemptShape(lib, op, kinds, pos + 1);
      var a := Attempt(lib, op, kinds, pos + 1);
      forall i | 0 < i < |s.events| - 1
        ensures s.events[i] == InvalidNumber || s.events[i] == InvalidInt
      {
        assert s.events[i] == a.events[i - 1];
      }
    }
  }

  /** `Exiting` is only ever the last event of an iteration that ends the session, and such
      an iteration shows nothing but the menu and retry messages before it. */
  lemma ExitingShowsNoResult(lib: Operations.MathLib, choices: seq<Choice>, kinds: seq<LineKind>, pos: nat)
    requires |choices| == |kinds| && pos <= |kinds|
    ensures var s := Iteration(lib, choices, kinds, pos);
      Exiting in s.events ==>
        && s.next.None?
        && s.events[|s.events| - 1] == Exiting
        && (forall i :: 0 < i < |s.events| - 1 ==> s.events[i] == InvalidNumber || s.events[i] == InvalidInt)
  {
    IterationFinality(lib, choices, kinds, pos);
    StopShowsNoOutcome(lib, choices, kinds, pos);
  }

  /** An error from an operation, or any exception the catch-all reports, never ends the
      session: the loop shows the menu again and reads the next line as a choice. */
  lemma ErrorKeepsSessionGoing(lib: Operations.MathLib, choices: seq<Choice>, kinds: seq<LineKind>, pos: nat)
    requires |choices| == |kinds| && pos <= |kinds|
    ensures var s := Iteration(lib, choices, kinds, pos);
      (exists i :: 0 <= i < |s.events| && (s.events[i].Error? || s.events[i].Unexpected?)) ==>
        && s.next.Some?
        && Session(lib, choices, kinds, pos) == s.events + Session(lib, choices, kinds, s.next.value)
        && Session(lib, choices, kinds, s.next.value)[0] == ShowMenu
  {
    var s := Iteration(lib, choices, kinds, pos);
    StopShowsNoOutcome(lib, choices, kinds, pos);
    SessionUnfold(lib, choices, kinds, pos);
    if s.next.Some? {
      SessionEndsOnce(lib, choices, kinds, s.next.value);
    }
  }

  /** Operands that were all delivered were read from exactly `Arity(op)` lines that are
      numbers, among no quit keyword, and every other line consumed cost one retry. */
  lemma GatherReadsItsOperands(op: Op, kinds: seq<LineKind>, pos: nat)
    requires pos <= |kinds|
    ensures var g := Gather(op, kinds, pos);
      g.ending.Got? ==>
        && g.next == pos + g.retries + Arity(op)
        && Decisive(kinds, pos, g.next) == Arity(op)
        && (forall i :: pos <= i < g.next ==> kinds[i] != QuitLine)
  {
    var a := ReadReal(kinds, pos);
    ReadConsumesOneDecisiveLine(kinds, pos);
    if op == Factorial {
      ReadIntTruncates(kinds, pos);
    } else if a.ending.Got? && Arity(op) == 2 {
      var b := ReadReal(kinds, a.next);
      ReadConsumesOneDecisiveLine(kinds, a.next);
      DecisiveSplit(kinds, pos, a.next, b.next);
    }
  }

  /** The operands handed to the operation are the values of the number lines read, in
      the order typed; the factorial's is the value of its line truncated toward zero. */
  lemma GatherDeliversItsOperands(op: Op, kinds: seq<LineKind>, pos: nat)
    requires pos <= |kinds|
    ensures var g := Gather(op, kinds, pos);
      g.ending.Got? ==>
        var vs := Values(kinds, pos, g.next);
        && (g.ending.value.Pair? ==> vs == [g.ending.value.a, g.ending.value.b])
        && (g.ending.value.Single? ==> vs == [g.ending.value.x])
        && (g.ending.value.Whole? ==> |vs| == 1 && g.ending.value.n == Trunc(vs[0]))
  {
    var a := ReadReal(kinds, pos);
    ReadValue(kinds, pos);
    if op == Factorial {
      ReadIntTruncates(kinds, pos);
    } else if a.ending.Got? && Arity(op) == 2 {
      var b := ReadReal(kinds, a.next);
      ReadValue(kinds, a.next);
      ValuesSplit(kinds, pos, a.next, b.next);
    }
  }

  /** An operation that gets as far as a result or an error closes with the report of the
      operation applied to the numbers typed at its operand prompts, in order, truncated
      toward zero for the factorial. */
  lemma CompletedOperationUsesItsOperands(lib: Operations.MathLib, choices: seq<Choice>, kinds: seq<LineKind>, pos: nat, op: Op)
    requires |choices| == |kinds| && pos < |kinds| && choices[pos] == Run(op)
    ensures var s := Iteration(lib, choices, kinds, pos);
      var last := s.events[|s.events| - 1];
      (last.Result? || last.Error?) ==>
        && s.next.Some?
        && var vs := Values(kinds, pos + 1, s.next.value);
        && (Arity(op) == 2 ==> |vs| == 2 && last == Report(op, Evaluate(lib, op, Pair(vs[0], vs[1]))))
        && (Arity(op) == 1 && op != Factorial ==> |vs| == 1 && last == Report(op, Evaluate(lib, op, Single(vs[0]))))
        && (op == Factorial ==> |vs| == 1 && last == Report(op, Evaluate(lib, op, Whole(Trunc(vs[0])))))
  {
    RunIteration(lib, choices, kinds, pos, op);
    var g := Gather(op, kinds, pos + 1);
    var a := Attempt(lib, op, kinds, pos + 1);
    assert a.events[|a.events| - 1] == Close(lib, op, g.ending);
    GatherDeliversItsOperands(op, kinds, pos + 1);
  }

  /** An operation that gets as far as a result or an error has read exactly its number of
      operands: among the lines after the choice it consumed, exactly `Arity(op)` were
      numbers, none was a quit keyword, and each of the others cost one retry message. */
  lemma CompletedOperationReadsItsOperands(lib: Operations.MathLib, choices: seq<Choice>, kinds: seq<LineKind>, pos: nat, op: Op)
    requires |choices| == |kinds| && pos < |kinds| && choices[pos] == Run(op)
    ensures var s := Iteration(lib, choices, kinds, pos);
      var last := s.events[|s.events| - 1];
      (last.Result? || last.Error?) ==>
        && s.next.Some?
        && pos + 1 + Arity(op) <= s.next.value
        && Decisive(kinds, pos + 1, s.next.value) == Arity(op)
        && (forall i :: pos < i < s.next.value ==> kinds[i] != QuitLine)
        && s.events == [ShowMenu] + Repeat(InvalidOf(op), s.next.value - pos - 1 - Arity(op)) + [last]
  {
    RunIteration(lib, choices, kinds, pos, op);
    GatherReadsItsOperands(op, kinds, pos + 1);
    var g := Gather(op, kinds, pos + 1);
    var a := Attempt(lib, op, kinds, pos + 1);
    RetriesThenLast(a.events, InvalidOf(op), g.retries);
  }
}
