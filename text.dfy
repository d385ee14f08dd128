/** The two string operations the calculator applies to every line it reads:
    Python's `str.strip()` and the case-insensitive test against the quit keywords. */
module Text {

  /** The characters for which Python's `str.isspace()` holds; `str.strip()` with no
      argument removes exactly these from both ends of a string. */
  predicate IsSpace(c: char) {
    || ('\U{9}' <= c <= '\U{D}')
    || ('\U{1C}' <= c <= '\U{20}')
    || c == '\U{85}' || c == '\U{A0}' || c == '\U{1680}'
    || ('\U{2000}' <= c <= '\U{200A}')
    || c == '\U{2028}' || c == '\U{2029}' || c == '\U{202F}' || c == '\U{205F}' || c == '\U{3000}'
  }

  /** True when `s` has no whitespace at either end. */
  predicate Trimmed(s: string) {
    s == [] || (!IsSpace(s[0]) && !IsSpace(s[|s| - 1]))
  }

  predicate AllSpace(s: string) {
    forall i :: 0 <= i < |s| ==> IsSpace(s[i])
  }

  /** Drops the leading whitespace. */
  function TrimLeft(s: string): string {
    if s != [] && IsSpace(s[0]) then TrimLeft(s[1..]) else s
  }

  /** Drops the trailing whitespace. */
  function TrimRight(s: string): string {
    if s != [] && IsSpace(s[|s| - 1]) then TrimRight(s[..|s| - 1]) else s
  }

  /** Python's `str.strip()`. */
  function Strip(s: string): string {
    TrimRight(TrimLeft(s))
  }

  /** TrimLeft keeps a suffix that does not start with whitespace, and what it drops is
      whitespace. */
  lemma {:induction false} TrimLeftShape(s: string)
    ensures var r := TrimLeft(s);
      |r| <= |s| && r == s[|s| - |r|..] && AllSpace(s[..|s| - |r|]) && (r == [] || !IsSpace(r[0]))
    decreases |s|
  {
    if s != [] && IsSpace(s[0]) {
      TrimLeftShape(s[1..]);
      var r := TrimLeft(s);
      assert s[1..][..|s| - 1 - |r|] == s[1..|s| - |r|];
    }
  }

  /** TrimRight keeps a prefix that does not end with whitespace, and what it drops is
      whitespace. */
  lemma {:induction false} TrimRightShape(s: string)
    ensures var r := TrimRight(s);
      |r| <= |s| && r == s[..|r|] && AllSpace(s[|r|..]) && (r == [] || !IsSpace(r[|r| - 1]))
    decreases |s|
  {
    if s != [] && IsSpace(s[|s| - 1]) {
      var t := s[..|s| - 1];
      TrimRightShape(t);
      var r := TrimRight(s);
      forall i | |r| <= i < |s|
        ensures IsSpace(s[i])
      {
        if i < |s| - 1 {
          assert s[i] == t[|r|..][i - |r|];
        }
      }
    }
  }

  /** What Strip keeps is a piece of the line with no whitespace at either end. */
  lemma StripShape(s: string)
    ensures |Strip(s)| <= |s| && Trimmed(Strip(s))
  {
    TrimLeftShape(s);
    TrimRightShape(TrimLeft(s));
  }

  lemma {:induction false} TrimLeftPadded(p: string, t: string)
    requires AllSpace(p) && (t == [] || !IsSpace(t[0]))
    ensures TrimLeft(p + t) == t
    decreases |p|
  {
    if p != [] {
      assert (p + t)[1..] == p[1..] + t;
      TrimLeftPadded(p[1..], t);
    } else {
      assert p + t == t;
    }
  }

  lemma {:induction false} TrimRightPadded(t: string, q: string)
    requires AllSpace(q) && (t == [] || !IsSpace(t[|t| - 1]))
    ensures TrimRight(t + q) == t
    decreases |q|
  {
    if q != [] {
      assert (t + q)[..|t + q| - 1] == t + q[..|q| - 1];
      TrimRightPadded(t, q[..|q| - 1]);
    } else {
      assert t + q == t;
    }
  }

  lemma {:induction false} TrimLeftAllSpace(s: string)
    requires AllSpace(s)
    ensures TrimLeft(s) == []
    decreases |s|
  {
    if s != [] {
      TrimLeftAllSpace(s[1..]);
    }
  }

  /** Stripping removes exactly the whitespace padding around a text that has none at
      its ends, however long the padding is on either side; a line of whitespace alone
      strips to the empty text. */
  lemma StripPadded(p: string, t: string, q: string)
    requires AllSpace(p) && AllSpace(q) && Trimmed(t)
    ensures Strip(p + t + q) == t
  {
    assert p + t + q == p + (t + q);
    if t == [] {
      assert p + t + q == p + q;
      TrimLeftAllSpace(p + q);
    } else {
      TrimLeftPadded(p, t + q);
      TrimRightPadded(t, q);
    }
  }

  /** Stripping twice is stripping once. */
  lemma StripIdempotent(s: string)
    ensures Strip(Strip(s)) == Strip(s)
  {
    var t := Strip(s);
    StripShape(s);
    assert [] + t + [] == t;
    StripPadded([], t, []);
  }

  /** Python's `str.lower()` on one character, for the ASCII letters. */
  function LowerChar(c: char): char {
    if 'A' <= c <= 'Z' then (c as int - 'A' as int + 'a' as int) as char else c
  }

  /** `t.lower() == k` for a keyword `k` written in lower case. */
  predicate SameUpToCase(t: string, k: string) {
    |t| == |k| && forall i :: 0 <= i < |t| ==> LowerChar(t[i]) == k[i]
  }

  /** The test `text.lower() in ("q", "quit", "exit")` made on stripped text. */
  predicate IsQuitKeyword(text: string) {
    SameUpToCase(text, "q") || SameUpToCase(text, "quit") || SameUpToCase(text, "exit")
  }

  /** The quit test ignores case: two texts that agree letter by letter up to case are
      both quit keywords or both not. */
  lemma QuitKeywordIgnoresCase(t: string, u: string)
    requires |t| == |u|
    requires forall i :: 0 <= i < |t| ==> LowerChar(t[i]) == LowerChar(u[i])
    ensures IsQuitKeyword(t) <==> IsQuitKeyword(u)
  {
  }

  /** Examples: q, quit and exit are quit keywords in any mixture of cases; the empty
      text, a keyword with a character added and the menu's own "14" are not. */
  lemma QuitKeywordSpellings()
    ensures IsQuitKeyword("q") && IsQuitKeyword("Q")
    ensures IsQuitKeyword("quit") && IsQuitKeyword("QUIT") && IsQuitKeyword("Quit")
    ensures IsQuitKeyword("exit") && IsQuitKeyword("EXIT") && IsQuitKeyword("eXiT")
    ensures !IsQuitKeyword("") && !IsQuitKeyword("quit!") && !IsQuitKeyword("14") && !IsQuitKeyword("x")
  {
    assert "quit!"[4] == '!' && "14"[0] == '1' && "x"[0] == 'x';
  }
}
