/**
 * String operations the application relies on: JavaScript's `trim` and
 * `toLowerCase`, `join` (the same in JavaScript and Python), the decimal
 * rendering of integers, and the plural suffix used by the status lines.
 */
module Text {

  /** The characters ECMAScript's `String.prototype.trim` removes: WhiteSpace and LineTerminator. */
  predicate IsJsWhitespace(c: char) {
    || c == '\t' || c == '\n' || c == '\U{B}' || c == '\U{C}' || c == '\r' || c == ' '
    || c == '\U{A0}' || c == '\U{1680}' || ('\U{2000}' <= c <= '\U{200A}')
    || c == '\U{2028}' || c == '\U{2029}' || c == '\U{202F}' || c == '\U{205F}'
    || c == '\U{3000}' || c == '\U{FEFF}'
  }

  /** Neither starts nor ends with whitespace. */
  predicate IsTrimmed(s: string) {
    s == [] || (!IsJsWhitespace(s[0]) && !IsJsWhitespace(s[|s| - 1]))
  }

  predicate AllWhitespace(s: string) {
    forall i :: 0 <= i < |s| ==> IsJsWhitespace(s[i])
  }

  /** The number of whitespace characters at the front of `s`. */
  function LeadingWhitespace(s: string): (k: nat)
    ensures k <= |s|
    ensures AllWhitespace(s[..k])
    ensures k < |s| ==> !IsJsWhitespace(s[k])
  {
    if s == [] || !IsJsWhitespace(s[0]) then 0
    else
      var k := 1 + LeadingWhitespace(s[1..]);
      assert s[..k] == [s[0]] + s[1..][..k - 1];
      k
  }

  /** The number of whitespace characters at the end of `s`. */
  function TrailingWhitespace(s: string): (k: nat)
    ensures k <= |s|
    ensures AllWhitespace(s[|s| - k..])
    ensures k < |s| ==> !IsJsWhitespace(s[|s| - 1 - k])
  {
    if s == [] || !IsJsWhitespace(s[|s| - 1]) then 0
    else
      var k := 1 + TrailingWhitespace(s[..|s| - 1]);
      assert s[|s| - k..] == s[..|s| - 1][|s| - k..] + [s[|s| - 1]];
      k
  }

  /** `r` is `s` with `lead` whitespace characters cut from the front and only whitespace cut from the end. */
  predicate CutsOnlyWhitespace(s: string, r: string, lead: nat) {
    && lead + |r| <= |s|
    && r == s[lead..lead + |r|]
    && AllWhitespace(s[..lead])
    && AllWhitespace(s[lead + |r|..])
  }

  /** JavaScript's `s.trim()`. */
  function Trim(s: string): (r: string)
    ensures IsTrimmed(r)
    ensures r == [] <==> AllWhitespace(s)
    ensures CutsOnlyWhitespace(s, r, LeadingWhitespace(s))
  {
    var lead := LeadingWhitespace(s);
    var rest := s[lead..];
    var trail := TrailingWhitespace(rest);
    var r := rest[..|rest| - trail];
    assert s[lead + |r|..] == rest[|rest| - trail..];
    assert r == [] ==> s == s[..lead] + rest[|rest| - trail..];
    r
  }

  /** JavaScript's `toLowerCase` on one character, restricted to the ASCII letters. */
  function LowerChar(c: char): (r: char)
    ensures !('A' <= r <= 'Z')
    ensures !('A' <= c <= 'Z') ==> r == c
  {
    if 'A' <= c <= 'Z' then (c as int + 32) as char else c
  }

  /** `s.toLowerCase()`, on ASCII letters. */
  function ToLower(s: string): (r: string)
    ensures |r| == |s|
    ensures forall i :: 0 <= i < |r| ==> !('A' <= r[i] <= 'Z')
    ensures forall i :: 0 <= i < |s| && !('A' <= s[i] <= 'Z') ==> r[i] == s[i]
  {
    seq(|s|, i requires 0 <= i < |s| => LowerChar(s[i]))
  }

  /** The comparison `a.toLowerCase() === b.toLowerCase()`. */
  predicate SameIgnoringCase(a: string, b: string) {
    ToLower(a) == ToLower(b)
  }

  /** `xs.join(sep)` in JavaScript, `sep.join(xs)` in Python. */
  function Join(sep: string, xs: seq<string>): string {
    if xs == [] then ""
    else if |xs| == 1 then xs[0]
    else xs[0] + sep + Join(sep, xs[1..])
  }

  function Digit(d: nat): (c: char)
    requires d < 10
    ensures '0' <= c <= '9'
  {
    ('0' as int + d) as char
  }

  predicate IsDigits(s: string) {
    forall i :: 0 <= i < |s| ==> '0' <= s[i] <= '9'
  }

  /** The decimal rendering of `n`, as both `String(n)` and Python's `str(n)` produce it. */
  function NatStr(n: nat): (r: string)
    ensures |r| >= 1 && IsDigits(r)
    ensures n >= 10 ==> |r| >= 2
    ensures r[0] == '0' ==> n == 0
  {
    if n < 10 then [Digit(n)] else NatStr(n / 10) + [Digit(n % 10)]
  }

  /** Distinct numbers have distinct decimal renderings. */
  lemma {:induction false} NatStrInjective(m: nat, n: nat)
    requires NatStr(m) == NatStr(n)
    ensures m == n
  {
    if m >= 10 && n >= 10 {
      var sm, sn := NatStr(m), NatStr(n);
      assert sm[..|sm| - 1] == NatStr(m / 10);
      assert sn[..|sn| - 1] == NatStr(n / 10);
      NatStrInjective(m / 10, n / 10);
      assert Digit(m % 10) == sm[|sm| - 1] == Digit(n % 10);
    }
  }

  /** `String(n)` for an integer `n`. */
  function IntStr(n: int): string {
    if n < 0 then "-" + NatStr(-n) else NatStr(n)
  }

  /** `"<n> <noun>"`, with `"s"` appended exactly when `n` is not 1. */
  function Counted(n: nat, noun: string): (r: string)
    ensures |NatStr(n)| + 1 + |noun| <= |r|
    ensures r[..|NatStr(n)| + 1 + |noun|] == NatStr(n) + " " + noun
    ensures |r| == |NatStr(n)| + 1 + |noun| + 1 <==> n != 1
    ensures n != 1 ==> r[|r| - 1] == 's'
    ensures n == 1 ==> r == NatStr(n) + " " + noun
  {
    NatStr(n) + " " + noun + (if n != 1 then "s" else "")
  }

  /** `sub` occurs in `s` at position `k`. */
  predicate OccursAt(s: string, sub: string, k: nat) {
    k + |sub| <= |s| && s[k..k + |sub|] == sub
  }

  ghost predicate Contains(s: string, sub: string) {
    exists k: nat :: OccursAt(s, sub, k)
  }
}
