/** Whole sessions on short scripts, end to end from the raw input lines. `float()` is only
    pinned down on the lines that reach it; `math` is left arbitrary wherever its values do
    not show in the trace. Each scenario is split in two: a session lemma over what the
    lines mean, and the reading of the lines themselves. */
module Scenarios {
  import opened Text
  import opened Trace
  import opened Input
  import opened Calculator
  import Operations
  import Properties

  /** Choice 1 with the numbers 2 and 3, then the end of the input. */
  lemma AddSession(lib: Operations.MathLib, choices: seq<Choice>, kinds: seq<LineKind>)
    requires |choices| == |kinds| == 3 && choices[0] == Run(Add)
    requires kinds[1] == Numeric(2.0) && kinds[2] == Numeric(3.0)
    ensures Session(lib, choices, kinds, 0) == [ShowMenu, Result(Add, Float(5.0)), ShowMenu, OutOfInput]
  {
    ReadStopsAt(kinds, 1, 1);
    ReadStopsAt(kinds, 2, 2);
    SessionUnfold(lib, choices, kinds, 0);
  }

  /** "1", "2", "3": the sum 5 is shown, and the input then runs out at the menu. */
  lemma AddTwoNumbers(parse: Parser, lib: Operations.MathLib)
    requires parse("2") == Some(2.0) && parse("3") == Some(3.0)
    ensures Session(lib, Choices(["1", "2", "3"]), Kinds(parse, ["1", "2", "3"]), 0)
      == [ShowMenu, Result(Add, Float(5.0)), ShowMenu, OutOfInput]
  {
    var script := ["1", "2", "3"];
    var choices, kinds := Choices(script), Kinds(parse, script);
    assert Strip("1") == "1" && Strip("2") == "2" && Strip("3") == "3";
    assert choices[0] == Run(Add);
    assert kinds[1] == Numeric(2.0) && kinds[2] == Numeric(3.0);
    AddSession(lib, choices, kinds);
  }

  /** Choice 4 with the numbers 10 and 0, then choice 14. */
  lemma DivideByZeroSession(lib: Operations.MathLib, choices: seq<Choice>, kinds: seq<LineKind>)
    requires |choices| == |kinds| == 4 && choices[0] == Run(Divide) && choices[3] == Leave
    requires kinds[1] == Numeric(10.0) && kinds[2] == Numeric(0.0)
    ensures Session(lib, choices, kinds, 0)
      == [ShowMenu, Error(Operations.ZeroDivisionError(Operations.DivisionByZeroMessage)), ShowMenu, Goodbye]
  {
    ReadStopsAt(kinds, 1, 1);
    ReadStopsAt(kinds, 2, 2);
    SessionUnfold(lib, choices, kinds, 0);
  }

  /** "4", "10", "0", "14": dividing by zero shows the error and the menu comes back; 14
      then says goodbye. */
  lemma DivideByZeroKeepsGoing(parse: Parser, lib: Operations.MathLib)
    requires parse("10") == Some(10.0) && parse("0") == Some(0.0)
    ensures Session(lib, Choices(["4", "10", "0", "14"]), Kinds(parse, ["4", "10", "0", "14"]), 0)
      == [ShowMenu, Error(Operations.ZeroDivisionError(Operations.DivisionByZeroMessage)), ShowMenu, Goodbye]
  {
    var script := ["4", "10", "0", "14"];
    var choices, kinds := Choices(script), Kinds(parse, script);
    assert Strip("4") == "4" && Strip("10") == "10" && Strip("0") == "0" && Strip("14") == "14";
    assert "10"[1] == '0' && "14"[1] == '4';
    assert choices[0] == Run(Divide) && choices[3] == Leave;
    assert kinds[1] == Numeric(10.0) && kinds[2] == Numeric(0.0);
    DivideByZeroSession(lib, choices, kinds);
  }

  /** Choice 12 with the number -0.5, then a choice that leaves. */
  lemma FactorialSession(lib: Operations.MathLib, choices: seq<Choice>, kinds: seq<LineKind>)
    requires |choices| == |kinds| == 3 && choices[0] == Run(Factorial) && choices[2] == Leave
    requires kinds[1] == Numeric(-0.5)
    ensures Session(lib, choices, kinds, 0) == [ShowMenu, Result(Factorial, Integer(1)), ShowMenu, Goodbye]
  {
    ReadStopsAt(kinds, 1, 1);
    assert Trunc(-0.5) == 0;
    SessionUnfold(lib, choices, kinds, 0);
  }

  /** "12", "-0.5", "q": the operand is truncated to 0, so the factorial is 1 rather than
      an error; "q" at the menu then says goodbye. */
  lemma FactorialOfMinusHalf(parse: Parser, lib: Operations.MathLib)
    requires parse("-0.5") == Some(-0.5)
    ensures Session(lib, Choices(["12", "-0.5", "q"]), Kinds(parse, ["12", "-0.5", "q"]), 0)
      == [ShowMenu, Result(Factorial, Integer(1)), ShowMenu, Goodbye]
  {
    var script := ["12", "-0.5", "q"];
    var choices, kinds := Choices(script), Kinds(parse, script);
    assert Strip("12") == "12" && Strip("-0.5") == "-0.5" && Strip("q") == "q";
    assert "12"[1] == '2' && "-0.5"[0] == '-';
    assert choices[0] == Run(Factorial) && choices[2] == Leave;
    assert kinds[1] == Numeric(-0.5);
    FactorialSession(lib, choices, kinds);
  }

  /** Choice 12 with the number 10^19, then a choice that leaves. */
  lemma FactorialOverflowSession(lib: Operations.MathLib, choices: seq<Choice>, kinds: seq<LineKind>)
    requires |choices| == |kinds| == 3 && choices[0] == Run(Factorial) && choices[2] == Leave
    requires kinds[1] == Numeric(10000000000000000000.0)
    ensures Session(lib, choices, kinds, 0)
      == [ShowMenu, Unexpected(Operations.FactorialOverflowMessage), ShowMenu, Goodbye]
  {
    ReadStopsAt(kinds, 1, 1);
    assert Trunc(10000000000000000000.0) == 10000000000000000000;
    SessionUnfold(lib, choices, kinds, 0);
  }

  /** "12", "1e19", "14": the operand is beyond what `math.factorial` accepts, so its
      `OverflowError` reaches the catch-all, and the menu comes back. */
  lemma FactorialTooLarge(parse: Parser, lib: Operations.MathLib)
    requires parse("1e19") == Some(10000000000000000000.0)
    ensures Session(lib, Choices(["12", "1e19", "14"]), Kinds(parse, ["12", "1e19", "14"]), 0)
      == [ShowMenu, Unexpected(Operations.FactorialOverflowMessage), ShowMenu, Goodbye]
  {
    var script := ["12", "1e19", "14"];
    var choices, kinds := Choices(script), Kinds(parse, script);
    assert Strip("12") == "12" && Strip("1e19") == "1e19" && Strip("14") == "14";
    assert "12"[1] == '2' && "1e19"[0] == '1' && "14"[1] == '4';
    assert choices[0] == Run(Factorial) && choices[2] == Leave;
    assert kinds[1] == Numeric(10000000000000000000.0);
    FactorialOverflowSession(lib, choices, kinds);
  }

  /** "6", "abc", "quit": the malformed operand is answered with one retry message, and the
      quit keyword at the re-prompt ends the session with no result. */
  lemma RetryThenQuit(parse: Parser, lib: Operations.MathLib)
    requires parse("abc") == None
    ensures Session(lib, Choices(["6", "abc", "quit"]), Kinds(parse, ["6", "abc", "quit"]), 0)
      == [ShowMenu, InvalidNumber, Exiting]
  {
    var script := ["6", "abc", "quit"];
    var choices, kinds := Choices(script), Kinds(parse, script);
    assert Strip("6") == "6" && Strip("abc") == "abc" && Strip("quit") == "quit";
    assert "abc"[0] == 'a';
    assert choices[0] == Run(Sqrt);
    assert kinds[1] == Malformed && kinds[2] == QuitLine;
    Properties.QuitAtFirstOperand(lib, choices, kinds, 0, Sqrt, 2);
  }

  /** " 01 ", "14": a near miss of a menu number is an invalid choice, not choice 1. */
  lemma NearMissIsInvalid(parse: Parser, lib: Operations.MathLib)
    ensures Session(lib, Choices([" 01 ", "14"]), Kinds(parse, [" 01 ", "14"]), 0)
      == [ShowMenu, InvalidChoice, ShowMenu, Goodbye]
  {
    var script := [" 01 ", "14"];
    var choices, kinds := Choices(script), Kinds(parse, script);
    StripPadded(" ", "01", " ");
    assert " " + "01" + " " == " 01 ";
    assert Strip("14") == "14" && "01"[0] == '0' && "14"[1] == '4';
    assert choices[0] == Invalid && choices[1] == Leave;
    Properties.InvalidChoiceConsumesOneLine(lib, choices, kinds, 0);
    Properties.LeaveEndsSession(lib, choices, kinds, 1);
  }

  /** Choice 1 with the number 2, then the end of the input. */
  lemma EndAtOperandSession(lib: Operations.MathLib, choices: seq<Choice>, kinds: seq<LineKind>)
    requires |choices| == |kinds| == 2 && choices[0] == Run(Add)
    requires kinds[1] == Numeric(2.0)
    ensures Session(lib, choices, kinds, 0) == [ShowMenu, Unexpected(EofMessage), ShowMenu, OutOfInput]
  {
    ReadStopsAt(kinds, 1, 1);
    ReadStopsAt(kinds, 2, 2);
    SessionUnfold(lib, choices, kinds, 0);
  }

  /** "1", "2": the input runs out at the second operand prompt; the catch-all reports the
      `EOFError`, and the menu then finds no more input. */
  lemma InputEndsAtOperand(parse: Parser, lib: Operations.MathLib)
    requires parse("2") == Some(2.0)
    ensures Session(lib, Choices(["1", "2"]), Kinds(parse, ["1", "2"]), 0)
      == [ShowMenu, Unexpected(EofMessage), ShowMenu, OutOfInput]
  {
    var script := ["1", "2"];
    var choices, kinds := Choices(script), Kinds(parse, script);
    assert Strip("1") == "1" && Strip("2") == "2";
    assert choices[0] == Run(Add);
    assert kinds[1] == Numeric(2.0);
    EndAtOperandSession(lib, choices, kinds);
  }
}
