/** What the calculator shows its user, as a trace of events: one event per message the
    source prints, without the wording. */
module Trace {
  import Operations

  /** Menu items 1 to 13. */
  datatype Op =
    | Add | Subtract | Multiply | Divide | Power
    | Sqrt | Sin | Cos | Tan | Log10 | Ln | Factorial | Exp

  /** A printed result: a float, or an int for `factorial`. */
  datatype Number = Float(x: real) | Integer(n: int)

  datatype Event =
    | ShowMenu                          // print_menu()
    | InvalidNumber                     // "Invalid number. ..." from get_number
    | InvalidInt                        // "Invalid integer. ..." from get_int
    | Result(op: Op, value: Number)     // "Result: <value>"
    | Error(fault: Operations.Fault)    // "Error: <message>" for ZeroDivisionError and ValueError
    | Unexpected(message: string)       // "An unexpected error occurred: <message>"
    | InvalidChoice                     // "Invalid choice. ..."
    | Goodbye                           // "Goodbye!"
    | Exiting                           // "Exiting..." after a quit keyword at an operand prompt
    | OutOfInput                        // the input ran out at the choice prompt

  /** The events after which the session is over. */
  predicate IsFinal(e: Event) {
    e.Goodbye? || e.Exiting? || e.OutOfInput?
  }

  function Repeat(e: Event, n: nat): seq<Event> {
    seq(n, _ => e)
  }

  lemma RepeatAdds(e: Event, m: nat, n: nat)
    ensures Repeat(e, m) + Repeat(e, n) == Repeat(e, m + n)
  {
  }
}
