/** The few JavaScript string operations the client relies on: `trim()`,
    `slice(0, n)`, `String(n)` of a whole number, and joining chunks. */
module Text {

  /** The characters JavaScript's `trim()` removes and `\s` matches: the
      WhiteSpace and LineTerminator productions of ECMAScript. */
  predicate IsWhitespace(c: char) {
    c == '\t' || c == '\n' || c == '\U{B}' || c == '\U{C}' || c == '\r' || c == ' '
    || c == '\U{A0}' || c == '\U{1680}' || ('\U{2000}' <= c <= '\U{200A}')
    || c == '\U{2028}' || c == '\U{2029}' || c == '\U{202F}' || c == '\U{205F}'
    || c == '\U{3000}' || c == '\U{FEFF}'
  }

  predicate AllWhitespace(s: string) {
    forall i :: 0 <= i < |s| ==> IsWhitespace(s[i])
  }

  predicate NoWhitespace(s: string) {
    forall i :: 0 <= i < |s| ==> !IsWhitespace(s[i])
  }

  /** How many whitespace characters `s` starts with. */
  function LeadingWhitespace(s: string): (n: nat)
    ensures n <= |s|
    ensures forall i :: 0 <= i < n ==> IsWhitespace(s[i])
    ensures n < |s| ==> !IsWhitespace(s[n])
  {
    if s != [] && IsWhitespace(s[0]) then LeadingWhitespace(s[1..]) + 1 else 0
  }

  /** How many whitespace characters `s` ends with. */
  function TrailingWhitespace(s: string): (n: nat)
    ensures n <= |s|
    ensures forall i :: |s| - n <= i < |s| ==> IsWhitespace(s[i])
    ensures n < |s| ==> !IsWhitespace(s[|s| - 1 - n])
  {
    if s != [] && IsWhitespace(s[|s| - 1]) then TrailingWhitespace(s[..|s| - 1]) + 1 else 0
  }

  /** `s.trim()`: `s` without its leading and its trailing whitespace, so that
      what is left neither starts nor ends with whitespace. */
  function Trim(s: string): (r: string)
    ensures |r| <= |s|
    ensures r != [] ==> !IsWhitespace(r[0]) && !IsWhitespace(r[|r| - 1])
  {
    var start := LeadingWhitespace(s);
    if start == |s| then "" else s[start..|s| - TrailingWhitespace(s)]
  }

  /** What `trim()` keeps is a run of consecutive characters of the text, and
      everything before and after that run is whitespace. */
  lemma TrimIsInfix(s: string)
    ensures exists i, j :: 0 <= i <= j <= |s| && Trim(s) == s[i..j]
                           && AllWhitespace(s[..i]) && AllWhitespace(s[j..])
  {
    var i := LeadingWhitespace(s);
    var j := if i == |s| then i else |s| - TrailingWhitespace(s);
    assert forall k :: 0 <= k < i ==> s[..i][k] == s[k];
    assert forall k :: 0 <= k < |s| - j ==> s[j..][k] == s[j + k];
    assert Trim(s) == s[i..j];
  }

  /** Trimming leaves nothing exactly when the text is blank. */
  lemma TrimEmptyIffBlank(s: string)
    ensures Trim(s) == [] <==> AllWhitespace(s)
  {
  }

  /** `s.slice(0, n)` for a non-negative `n`: the first `n` characters, or all of
      them when there are fewer. */
  function Take(s: string, n: nat): (r: string)
    ensures |r| <= n && |r| <= |s|
    ensures |r| == if |s| < n then |s| else n
    ensures r == s[..|r|]
  {
    if |s| <= n then s else s[..n]
  }

  function DigitChar(d: nat): (c: char)
    requires d < 10
  {
    "0123456789"[d]
  }

  /** `String(n)` for a whole number: its decimal digits, without leading zeros. */
  function NatToString(n: nat): (r: string)
    ensures r != []
    ensures (|r| == 1) == (n < 10)
  {
    if n < 10 then [DigitChar(n)] else NatToString(n / 10) + [DigitChar(n % 10)]
  }

  /** Different numbers print differently, so distinct server room ids stay
      distinct once turned into strings. */
  lemma {:induction false} NatToStringInjective(n: nat, m: nat)
    requires NatToString(n) == NatToString(m)
    ensures n == m
  {
    if n < 10 || m < 10 {
      assert n < 10 && m < 10;
      assert DigitChar(n) == DigitChar(m);
    } else {
      var a, b := NatToString(n), NatToString(m);
      assert a[|a| - 1] == DigitChar(n % 10) && b[|b| - 1] == DigitChar(m % 10);
      assert a[..|a| - 1] == NatToString(n / 10) && b[..|b| - 1] == NatToString(m / 10);
      NatToStringInjective(n / 10, m / 10);
    }
  }

  /** The chunks joined in order: what successive `+=` of each chunk builds up. */
  function Concat(chunks: seq<string>): string {
    if chunks == [] then "" else Concat(chunks[..|chunks| - 1]) + chunks[|chunks| - 1]
  }

  /** String concatenation is associative. */
  lemma AppendAssoc(a: string, b: string, c: string)
    ensures (a + b) + c == a + (b + c)
  {
  }

  /** The empty string is a left unit. */
  lemma EmptyAppend(a: string)
    ensures [] + a == a
  {
  }

  /** Joining a non-empty list is its first chunk followed by joining the rest. */
  lemma {:induction false} ConcatFirst(chunks: seq<string>)
    requires |chunks| >= 1
    ensures Concat(chunks) == chunks[0] + Concat(chunks[1..])
  {
    var n := |chunks|;
    if n == 1 {
      assert chunks[..n - 1] == [] && chunks[1..] == [];
    } else {
      var init := chunks[..n - 1];
      ConcatFirst(init);
      assert init[1..] == chunks[1..][..n - 2];
      assert chunks[1..][n - 2] == chunks[n - 1];
      var mid := Concat(init[1..]);
      AppendAssoc(chunks[0], mid, chunks[n - 1]);
    }
  }

  /** Joining a chunk put in front of a list is that chunk followed by joining the list. */
  lemma ConcatCons(x: string, rest: seq<string>)
    ensures Concat([x] + rest) == x + Concat(rest)
  {
    ConcatFirst([x] + rest);
    assert ([x] + rest)[1..] == rest;
  }
}
