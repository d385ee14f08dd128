/** The operand readers `get_number` and `get_int`. The keyboard is a script of input
    lines read from a position on; Python's `float()` is the parser given. */
module Input {
  import opened Text
  import opened Trace

  datatype Option<T> = None | Some(value: T)

  /** Python's `float()` on a stripped line: `None` where it raises `ValueError`. */
  type Parser = string -> Option<real>

  /** What one operand line means to a reader. */
  datatype LineKind = QuitLine | Numeric(value: real) | Malformed

  /** The keyword test comes before parsing, so a quit keyword never reaches the parser. */
  function Classify(parse: Parser, line: string): LineKind {
    var text := Strip(line);
    if IsQuitKeyword(text) then QuitLine
    else match parse(text)
      case Some(v) => Numeric(v)
      case None => Malformed
  }

  /** What every line of the script would mean at an operand prompt. */
  function Kinds(parse: Parser, script: seq<string>): (kinds: seq<LineKind>)
    ensures |kinds| == |script|
    ensures forall i {:trigger kinds[i]} :: 0 <= i < |script| ==> kinds[i] == Classify(parse, script[i])
  {
    seq(|script|, i requires 0 <= i < |script| => Classify(parse, script[i]))
  }

  /** The first line at or after `pos` that ends a read (a quit keyword or a number), or
      the end of the input if there is none: every line before it is malformed. */
  function Scan(kinds: seq<LineKind>, pos: nat): (k: nat)
    requires pos <= |kinds|
    ensures pos <= k <= |kinds|
    ensures forall i :: pos <= i < k ==> kinds[i].Malformed?
    ensures k < |kinds| ==> kinds[k] != Malformed
    decreases |kinds| - pos
  {
    if pos == |kinds| || kinds[pos] != Malformed then pos
    else Scan(kinds, pos + 1)
  }

  /** How a read ends: with a value, with a quit keyword (`raise SystemExit`), or with
      the input exhausted (`EOFError` from `input`). */
  datatype Ending<T> = Got(value: T) | QuitKeyword | EndOfFile

  /** A whole read: how it ended, how many malformed lines it re-prompted on, and the
      position of the first line it did not consume. */
  datatype Read<T> = Read(ending: Ending<T>, retries: nat, next: nat)

  /** The read `get_number` makes from `pos` on. */
  function ReadReal(kinds: seq<LineKind>, pos: nat): (r: Read<real>)
    requires pos <= |kinds|
    ensures r.next <= |kinds|
    ensures r.next == pos + r.retries + (if r.ending.EndOfFile? then 0 else 1)
    ensures forall i :: pos <= i < pos + r.retries ==> kinds[i].Malformed?
    ensures r.ending.EndOfFile? <==> pos + r.retries == |kinds|
    ensures r.ending.QuitKeyword? ==> kinds[pos + r.retries].QuitLine?
    ensures r.ending.Got? ==> kinds[pos + r.retries] == Numeric(r.ending.value)
  {
    var k := Scan(kinds, pos);
    if k == |kinds| then Read(EndOfFile, k - pos, k)
    else match kinds[k]
      case QuitLine => Read(QuitKeyword, k - pos, k + 1)
      case Numeric(v) => Read(Got(v), k - pos, k + 1)
  }

  /** Python's `int()` on a float: truncation toward zero. */
  function Trunc(x: real): (n: int)
    ensures 0.0 <= x ==> 0 <= n && n as real <= x < n as real + 1.0
    ensures x < 0.0 ==> n <= 0 && n as real - 1.0 < x <= n as real
  {
    if 0.0 <= x then x.Floor else -((-x).Floor)
  }

  /** The read `get_int` makes from `pos` on: `int(float(text))`. */
  function ReadInt(kinds: seq<LineKind>, pos: nat): Read<int>
    requires pos <= |kinds|
  {
    var r := ReadReal(kinds, pos);
    match r.ending
    case Got(v) => Read(Got(Trunc(v)), r.retries, r.next)
    case QuitKeyword => Read(QuitKeyword, r.retries, r.next)
    case EndOfFile => Read(EndOfFile, r.retries, r.next)
  }

  /** `get_number`: one `InvalidNumber` for every malformed line, then the value, the quit
      request or the end of the input. */
  method GetNumber(parse: Parser, script: seq<string>, pos: nat) returns (r: Read<real>, out: seq<Event>)
    requires pos <= |script|
    ensures r == ReadReal(Kinds(parse, script), pos)
    ensures out == Repeat(InvalidNumber, r.retries)
  {
    ghost var kinds := Kinds(parse, script);
    var i := pos;
    out := [];
    while i < |script|
      invariant pos <= i <= |script|
      invariant Scan(kinds, i) == Scan(kinds, pos)
      invariant out == Repeat(InvalidNumber, i - pos)
      decreases |script| - i
    {
      var text := Strip(script[i]);
      if IsQuitKeyword(text) {
        r := Read(QuitKeyword, i - pos, i + 1);
        return;
      }
      match parse(text) {
        case Some(v) =>
          r := Read(Got(v), i - pos, i + 1);
          return;
        case None =>
          out := out + [InvalidNumber];
          i := i + 1;
      }
    }
    r := Read(EndOfFile, i - pos, i);
  }

  /** `get_int`: as `get_number`, with `InvalidInt` for a malformed line and the value
      truncated toward zero. */
  method GetInt(parse: Parser, script: seq<string>, pos: nat) returns (r: Read<int>, out: seq<Event>)
    requires pos <= |script|
    ensures r == ReadInt(Kinds(parse, script), pos)
    ensures out == Repeat(InvalidInt, r.retries)
  {
    ghost var kinds := Kinds(parse, script);
    var i := pos;
    out := [];
    while i < |script|
      invariant pos <= i <= |script|
      invariant Scan(kinds, i) == Scan(kinds, pos)
      invariant out == Repeat(InvalidInt, i - pos)
      decreases |script| - i
    {
      var text := Strip(script[i]);
      if IsQuitKeyword(text) {
        r := Read(QuitKeyword, i - pos, i + 1);
        return;
      }
      match parse(text) {
        case Some(v) =>
          r := Read(Got(Trunc(v)), i - pos, i + 1);
          return;
        case None =>
          out := out + [InvalidInt];
          i := i + 1;
      }
    }
    r := Read(EndOfFile, i - pos, i);
  }

  /** A quit keyword at the prompt ends the read at once, whatever the parser would say
      of it. */
  lemma QuitLineEndsRead(parse: Parser, script: seq<string>, pos: nat)
    requires pos < |script| && IsQuitKeyword(Strip(script[pos]))
    ensures ReadReal(Kinds(parse, script), pos) == Read(QuitKeyword, 0, pos + 1)
    ensures ReadInt(Kinds(parse, script), pos) == Read(QuitKeyword, 0, pos + 1)
  {
    var kinds := Kinds(parse, script);
    assert kinds[pos] == QuitLine;
  }

  /** A line the parser rejects is answered with one retry and the same operand is then
      read from the next line: the read is never abandoned. */
  lemma MalformedLineRetries(kinds: seq<LineKind>, pos: nat)
    requires pos < |kinds| && kinds[pos].Malformed?
    ensures var r, s := ReadReal(kinds, pos), ReadReal(kinds, pos + 1);
      r.ending == s.ending && r.retries == s.retries + 1 && r.next == s.next
    ensures var r, s := ReadInt(kinds, pos), ReadInt(kinds, pos + 1);
      r.ending == s.ending && r.retries == s.retries + 1 && r.next == s.next
  {
  }

  /** `get_int` reads exactly what `get_number` reads and truncates the value toward zero. */
  lemma ReadIntTruncates(kinds: seq<LineKind>, pos: nat)
    requires pos <= |kinds|
    ensures var r, s := ReadInt(kinds, pos), ReadReal(kinds, pos);
      && r.retries == s.retries && r.next == s.next
      && (r.ending.Got? <==> s.ending.Got?)
      && (r.ending.QuitKeyword? <==> s.ending.QuitKeyword?)
      && (s.ending.Got? ==> r.ending.value == Trunc(s.ending.value))
  {
  }

  lemma TruncExamples()
    ensures Trunc(3.7) == 3 && Trunc(-0.5) == 0 && Trunc(-3.7) == -3 && Trunc(5.0) == 5
  {
  }

  /** Truncation leaves whole numbers alone and never moves away from zero. */
  lemma TruncTowardZero(x: real, n: int)
    ensures Trunc(n as real) == n
    ensures -1.0 < x - Trunc(x) as real < 1.0
    ensures 0.0 <= x ==> Trunc(x) as real <= x
    ensures x <= 0.0 ==> x <= Trunc(x) as real
  {
  }

  /** The scan stops at the first line that is not malformed. */
  lemma {:induction false} ScanFinds(kinds: seq<LineKind>, pos: nat, k: nat)
    requires pos <= k <= |kinds|
    requires forall i :: pos <= i < k ==> kinds[i].Malformed?
    requires k == |kinds| || kinds[k] != Malformed
    ensures Scan(kinds, pos) == k
    decreases k - pos
  {
    if pos < k {
      ScanFinds(kinds, pos + 1, k);
    }
  }

  /** A read from `pos` whose lines are malformed up to line `k`, which is a number, a quit
      keyword or the end of the input, ends there after `k - pos` retries. */
  lemma ReadStopsAt(kinds: seq<LineKind>, pos: nat, k: nat)
    requires pos <= k <= |kinds|
    requires forall i :: pos <= i < k ==> kinds[i].Malformed?
    requires k == |kinds| || kinds[k] != Malformed
    ensures k == |kinds| ==> ReadReal(kinds, pos) == Read(EndOfFile, k - pos, k)
    ensures k < |kinds| && kinds[k].QuitLine? ==> ReadReal(kinds, pos) == Read(QuitKeyword, k - pos, k + 1)
    ensures k < |kinds| && kinds[k].Numeric? ==>
      ReadReal(kinds, pos) == Read(Got(kinds[k].value), k - pos, k + 1)
  {
    ScanFinds(kinds, pos, k);
  }

  function Ends(kind: LineKind): nat {
    if kind.Malformed? then 0 else 1
  }

  /** The number of lines in `kinds[lo..hi]` that end a read. */
  function Decisive(kinds: seq<LineKind>, lo: nat, hi: nat): nat
    requires lo <= hi <= |kinds|
    decreases hi - lo
  {
    if lo == hi then 0
    else Ends(kinds[lo]) + Decisive(kinds, lo + 1, hi)
  }

  lemma {:induction false} DecisiveSplit(kinds: seq<LineKind>, lo: nat, mid: nat, hi: nat)
    requires lo <= mid <= hi <= |kinds|
    ensures Decisive(kinds, lo, hi) == Decisive(kinds, lo, mid) + Decisive(kinds, mid, hi)
    decreases mid - lo
  {
    if lo < mid {
      DecisiveSplit(kinds, lo + 1, mid, hi);
    }
  }

  lemma {:induction false} DecisiveNone(kinds: seq<LineKind>, lo: nat, hi: nat)
    requires lo <= hi <= |kinds|
    requires forall i :: lo <= i < hi ==> kinds[i].Malformed?
    ensures Decisive(kinds, lo, hi) == 0
    decreases hi - lo
  {
    if lo < hi {
      DecisiveNone(kinds, lo + 1, hi);
    }
  }

  /** The values of the number lines in `kinds[lo..hi]`, in order. */
  function Values(kinds: seq<LineKind>, lo: nat, hi: nat): seq<real>
    requires lo <= hi <= |kinds|
    decreases hi - lo
  {
    if lo == hi then []
    else (if kinds[lo].Numeric? then [kinds[lo].value] else []) + Values(kinds, lo + 1, hi)
  }

  lemma {:induction false} ValuesSplit(kinds: seq<LineKind>, lo: nat, mid: nat, hi: nat)
    requires lo <= mid <= hi <= |kinds|
    ensures Values(kinds, lo, hi) == Values(kinds, lo, mid) + Values(kinds, mid, hi)
    decreases mid - lo
  {
    if lo < mid {
      ValuesSplit(kinds, lo + 1, mid, hi);
      var head := if kinds[lo].Numeric? then [kinds[lo].value] else [];
      assert head + (Values(kinds, lo + 1, mid) + Values(kinds, mid, hi))
        == (head + Values(kinds, lo + 1, mid)) + Values(kinds, mid, hi);
    }
  }

  lemma {:induction false} ValuesNone(kinds: seq<LineKind>, lo: nat, hi: nat)
    requires lo <= hi <= |kinds|
    requires forall i :: lo <= i < hi ==> kinds[i].Malformed?
    ensures Values(kinds, lo, hi) == []
    decreases hi - lo
  {
    if lo < hi {
      ValuesNone(kinds, lo + 1, hi);
    }
  }

  /** A read that delivers a value delivers the value of the one number line it consumed;
      one that ends otherwise consumed no number line. */
  lemma ReadValue(kinds: seq<LineKind>, pos: nat)
    requires pos <= |kinds|
    ensures var r := ReadReal(kinds, pos);
      && (r.ending.Got? ==> Values(kinds, pos, r.next) == [r.ending.value])
      && (!r.ending.Got? ==> Values(kinds, pos, r.next) == [])
  {
    var r := ReadReal(kinds, pos);
    var k := pos + r.retries;
    ValuesNone(kinds, pos, k);
    if !r.ending.EndOfFile? {
      ValuesSplit(kinds, pos, k, r.next);
      assert Values(kinds, k + 1, k + 1) == [];
      assert Values(kinds, k, r.next) == (if kinds[k].Numeric? then [kinds[k].value] else []) + [];
    }
  }

  /** A read that does not run out of input consumes exactly one line that is a number or a
      quit keyword, its last; every line before it is malformed and cost one retry. */
  lemma ReadConsumesOneDecisiveLine(kinds: seq<LineKind>, pos: nat)
    requires pos <= |kinds|
    ensures var r := ReadReal(kinds, pos);
      && (!r.ending.EndOfFile? ==> Decisive(kinds, pos, r.next) == 1 && r.next - pos == r.retries + 1)
      && (r.ending.Got? ==> forall i :: pos <= i < r.next ==> kinds[i] != QuitLine)
  {
    var r := ReadReal(kinds, pos);
    if !r.ending.EndOfFile? {
      var k := pos + r.retries;
      DecisiveSplit(kinds, pos, k, r.next);
      DecisiveNone(kinds, pos, k);
    }
  }
}
