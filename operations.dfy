/** The calculator's operations, from `add` to `expo`. Operands are exact reals; the
    functions the source takes from Python's `math` module are given as a `MathLib`. */
module Operations {

  /** The exceptions an operation can raise, each with the message Python prints. */
  datatype Fault =
    | ZeroDivisionError(message: string)
    | ValueError(message: string)
    | OverflowError(message: string)

  /** An operation either returns a value or raises. */
  datatype Outcome<T> = Ok(value: T) | Raise(fault: Fault)

  /** The functions of Python's `math` module that the calculator calls. Their numeric
      values are not modelled, and neither is when `math` itself raises (for instance a
      `ValueError` for `pow(-8, 1/3)` or an `OverflowError` for `exp(1000)`): both are
      whatever the library given says. */
  datatype MathLib = MathLib(
    pow: (real, real) -> Outcome<real>,
    sqrt: real -> Outcome<real>,
    sin: real -> Outcome<real>,
    cos: real -> Outcome<real>,
    tan: real -> Outcome<real>,
    log10: real -> Outcome<real>,
    log: real -> Outcome<real>,
    exp: real -> Outcome<real>)

  /** What `math` documents for the functions whose inputs the calculator guards: a square
      root exists and is non-negative from 0 on, the logarithms exist above 0, and both
      logarithms of 1 are 0. */
  ghost predicate Conforming(lib: MathLib) {
    && (forall a: real :: 0.0 <= a ==> lib.sqrt(a).Ok? && 0.0 <= lib.sqrt(a).value)
    && (forall a: real :: 0.0 < a ==> lib.log10(a).Ok?)
    && (forall a: real :: 0.0 < a ==> lib.log(a).Ok?)
    && lib.log10(1.0) == Ok(0.0)
    && lib.log(1.0) == Ok(0.0)
  }

  const DivisionByZeroMessage := "Division by zero is not allowed"
  const SqrtNegativeMessage := "Square root of negative number"
  const Log10DomainMessage := "Logarithm domain error; input must be > 0"
  const LnDomainMessage := "Natural logarithm domain error; input must be > 0"
  const FactorialNegativeMessage := "Factorial of negative number"

  /** The largest C `long` on a 64-bit platform: `math.factorial` refuses any larger
      argument with an `OverflowError` before computing anything. */
  const LongMax := 0x7FFF_FFFF_FFFF_FFFF
  const FactorialOverflowMessage := "factorial() argument should not exceed 9223372036854775807"

  function Add(a: real, b: real): real { a + b }

  function Subtract(a: real, b: real): real { a - b }

  function Multiply(a: real, b: real): real { a * b }

  function Divide(a: real, b: real): Outcome<real> {
    if b == 0.0 then Raise(ZeroDivisionError(DivisionByZeroMessage)) else Ok(a / b)
  }

  function Power(lib: MathLib, a: real, b: real): Outcome<real> { lib.pow(a, b) }

  function Sqrt(lib: MathLib, a: real): Outcome<real> {
    if a < 0.0 then Raise(ValueError(SqrtNegativeMessage)) else lib.sqrt(a)
  }

  function Sin(lib: MathLib, a: real): Outcome<real> { lib.sin(a) }

  function Cos(lib: MathLib, a: real): Outcome<real> { lib.cos(a) }

  function Tan(lib: MathLib, a: real): Outcome<real> { lib.tan(a) }

  function Log10(lib: MathLib, a: real): Outcome<real> {
    if a <= 0.0 then Raise(ValueError(Log10DomainMessage)) else lib.log10(a)
  }

  function Ln(lib: MathLib, a: real): Outcome<real> {
    if a <= 0.0 then Raise(ValueError(LnDomainMessage)) else lib.log(a)
  }

  /** n!, the value `math.factorial` returns for an argument it accepts. */
  function Fact(n: nat): (r: nat)
    ensures 1 <= r && n <= r
  {
    if n == 0 then 1 else n * Fact(n - 1)
  }

  /** The guard of `factorial`, then `math.factorial`'s own refusal of too large an
      argument. */
  function Factorial(n: int): Outcome<int> {
    if n < 0 then Raise(ValueError(FactorialNegativeMessage))
    else if LongMax < n then Raise(OverflowError(FactorialOverflowMessage))
    else Ok(Fact(n))
  }

  function Expo(lib: MathLib, a: real): Outcome<real> { lib.exp(a) }

  /** `divide` raises exactly when the divisor is zero, and otherwise returns the quotient:
      the number that multiplied by the divisor gives back the dividend. */
  lemma DivideGuard(a: real, b: real)
    ensures Divide(a, b).Raise? <==> b == 0.0
    ensures b == 0.0 ==> Divide(a, b) == Raise(ZeroDivisionError(DivisionByZeroMessage))
    ensures b != 0.0 ==> Divide(a, b).value * b == a
  {
  }

  /** `sqrt` raises its own error exactly for negative input and otherwise defers to `math`;
      with a conforming `math` it succeeds exactly on the non-negative numbers, with a
      non-negative root. */
  lemma SqrtGuard(lib: MathLib, a: real)
    ensures a < 0.0 ==> Sqrt(lib, a) == Raise(ValueError(SqrtNegativeMessage))
    ensures 0.0 <= a ==> Sqrt(lib, a) == lib.sqrt(a)
    ensures Conforming(lib) ==> (Sqrt(lib, a).Ok? <==> 0.0 <= a)
    ensures Conforming(lib) && Sqrt(lib, a).Ok? ==> 0.0 <= Sqrt(lib, a).value
  {
  }

  /** `log10` and `ln` raise their own errors exactly for input at most 0 and otherwise
      defer to `math`; with a conforming `math` they succeed exactly on the positive
      numbers, and both are 0 at 1. */
  lemma LogGuards(lib: MathLib, a: real)
    ensures a <= 0.0 ==> Log10(lib, a) == Raise(ValueError(Log10DomainMessage))
    ensures a <= 0.0 ==> Ln(lib, a) == Raise(ValueError(LnDomainMessage))
    ensures 0.0 < a ==> Log10(lib, a) == lib.log10(a) && Ln(lib, a) == lib.log(a)
    ensures Conforming(lib) ==> (Log10(lib, a).Ok? <==> 0.0 < a) && (Ln(lib, a).Ok? <==> 0.0 < a)
    ensures Conforming(lib) ==> Log10(lib, 1.0) == Ok(0.0) && Ln(lib, 1.0) == Ok(0.0)
  {
  }

  /** `factorial` raises exactly for negative input, with its own `ValueError`, and for
      input above `LongMax`, with `math`'s `OverflowError`; in between it obeys 0! = 1 and
      n! = n * (n - 1)! and is at least 1. */
  lemma FactorialGuard(n: int)
    ensures Factorial(n).Raise? <==> n < 0 || LongMax < n
    ensures n < 0 ==> Factorial(n) == Raise(ValueError(FactorialNegativeMessage))
    ensures LongMax < n ==> Factorial(n) == Raise(OverflowError(FactorialOverflowMessage))
    ensures Factorial(0) == Ok(1)
    ensures 0 < n <= LongMax ==> Factorial(n) == Ok(n * Factorial(n - 1).value)
    ensures Factorial(n).Ok? ==> 1 <= Factorial(n).value
  {
  }

  /** Adding and subtracting the same number, or multiplying and dividing by the same
      non-zero number, gives back the first operand. */
  lemma ArithmeticInverses(a: real, b: real)
    ensures Subtract(Add(a, b), b) == a && Add(Subtract(a, b), b) == a
    ensures b != 0.0 ==> Divide(Multiply(a, b), b) == Ok(a)
    ensures b != 0.0 ==> Multiply(Divide(a, b).value, b) == a
  {
    if b != 0.0 {
      assert Multiply(a, b) == a * b && (a * b) / b == a;
    }
  }

  lemma FactorialOfFive()
    ensures Factorial(5) == Ok(120)
  {
    assert Fact(5) == 5 * Fact(4) == 5 * 24;
  }
}
