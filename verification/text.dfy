/**
 * String helpers for the handful of Python string operations the core uses:
 * `in` on strings, `str.lower`, `str.strip`, `str.replace`, `str(int)` and the
 * `repr` of a list of integers. Only ASCII is modelled.
 */
module Text {

  predicate StartsWith(s: string, prefix: string)
  {
    |prefix| <= |s| && s[..|prefix|] == prefix
  }

  predicate EndsWith(s: string, suffix: string)
  {
    |suffix| <= |s| && s[|s| - |suffix|..] == suffix
  }

  /** Python's `sub in s`. */
  predicate Contains(s: string, sub: string)
    decreases |s|
  {
    StartsWith(s, sub) || (|s| > 0 && Contains(s[1..], sub))
  }

  lemma {:induction false} ContainsAt(s: string, sub: string, i: nat)
    requires i + |sub| <= |s| && s[i..i + |sub|] == sub
    ensures Contains(s, sub)
    decreases i
  {
    if i == 0 {
      assert s[..|sub|] == sub;
    } else {
      assert s[1..][i - 1..i - 1 + |sub|] == s[i..i + |sub|];
      ContainsAt(s[1..], sub, i - 1);
    }
  }

  lemma {:induction false} ContainsInPrefix(s: string, t: string, sub: string)
    requires Contains(s, sub)
    ensures Contains(s + t, sub)
    decreases |s|
  {
    if StartsWith(s, sub) {
      assert (s + t)[..|sub|] == s[..|sub|];
    } else {
      assert (s + t)[1..] == s[1..] + t;
      ContainsInPrefix(s[1..], t, sub);
    }
  }

  /** A string that contains `sub` contains every prefix of `sub`. */
  lemma {:induction false} ContainsPrefixOf(s: string, sub: string, p: string)
    requires Contains(s, sub) && StartsWith(sub, p)
    ensures Contains(s, p)
    decreases |s|
  {
    if StartsWith(s, sub) {
      assert s[..|p|] == s[..|sub|][..|p|];
    } else {
      ContainsPrefixOf(s[1..], sub, p);
    }
  }

  function LowerChar(c: char): (d: char)
    ensures 'A' <= c <= 'Z' ==> 'a' <= d <= 'z' && d as int - c as int == 32
    ensures !('A' <= c <= 'Z') ==> d == c
  {
    if 'A' <= c <= 'Z' then (c as int + 32) as char else c
  }

  /** Python's `str.lower()`, restricted to ASCII letters. */
  function Lower(s: string): (r: string)
    ensures |r| == |s|
    ensures forall i :: 0 <= i < |s| ==> r[i] == LowerChar(s[i])
  {
    seq(|s|, i requires 0 <= i < |s| => LowerChar(s[i]))
  }

  /** Number of leading spaces of `s`. */
  function LeadingSpaces(s: string): (n: nat)
    ensures n <= |s|
    ensures forall k :: 0 <= k < n ==> s[k] == ' '
    ensures n < |s| ==> s[n] != ' '
  {
    if |s| > 0 && s[0] == ' ' then 1 + LeadingSpaces(s[1..]) else 0
  }

  /** Number of trailing spaces of `s`. */
  function TrailingSpaces(s: string): (n: nat)
    ensures n <= |s|
    ensures forall k :: |s| - n <= k < |s| ==> s[k] == ' '
    ensures n < |s| ==> s[|s| - 1 - n] != ' '
  {
    if |s| > 0 && s[|s| - 1] == ' ' then 1 + TrailingSpaces(s[..|s| - 1]) else 0
  }

  /**
   * Python's `str.strip()` on text made of printable ASCII, where the space
   * is the only whitespace character: the longest middle part of `s` that
   * neither starts nor ends with a space.
   */
  function Strip(s: string): (r: string)
    ensures |r| <= |s|
    ensures r == [] || (r[0] != ' ' && r[|r| - 1] != ' ')
    ensures exists i, j :: 0 <= i <= j <= |s| && r == s[i..j]
              && (forall k :: 0 <= k < i ==> s[k] == ' ')
              && (forall k :: j <= k < |s| ==> s[k] == ' ')
  {
    var lead := LeadingSpaces(s);
    if lead == |s| then
      assert s[0..0] == [];
      []
    else
      var trail := TrailingSpaces(s);
      assert s[|s| - 1 - trail] != ' ';
      s[lead..|s| - trail]
  }

  function DigitChar(d: nat): (c: char)
    requires d < 10
    ensures '0' <= c <= '9'
  {
    "0123456789"[d]
  }

  /** Python's `str(n)` for a non-negative integer. */
  function NatToString(n: nat): (r: string)
    ensures 1 <= |r|
    ensures forall k :: 0 <= k < |r| ==> '0' <= r[k] <= '9'
    decreases n
  {
    if n < 10 then [DigitChar(n)] else NatToString(n / 10) + [DigitChar(n % 10)]
  }

  /** Python's `str(i)` for any integer. */
  function IntToString(i: int): (r: string)
    ensures 1 <= |r|
  {
    if i < 0 then "-" + NatToString(-i) else NatToString(i)
  }

  function JoinInts(xs: seq<int>): string
  {
    if |xs| == 0 then ""
    else if |xs| == 1 then IntToString(xs[0])
    else IntToString(xs[0]) + ", " + JoinInts(xs[1..])
  }

  /** Python's `str(xs)` for a list of integers, e.g. "[1, 2, 3]". */
  function ListRepr(xs: seq<int>): (r: string)
    ensures StartsWith(r, "[") && EndsWith(r, "]")
  {
    "[" + JoinInts(xs) + "]"
  }

  /**
   * Python's `s.replace(pattern, replacement)`: every non-overlapping
   * occurrence, scanning from the left.
   */
  function ReplaceAll(s: string, pattern: string, replacement: string): string
    requires |pattern| > 0
    decreases |s|
  {
    if StartsWith(s, pattern) then replacement + ReplaceAll(s[|pattern|..], pattern, replacement)
    else if |s| == 0 then ""
    else [s[0]] + ReplaceAll(s[1..], pattern, replacement)
  }

  /** Text in which `pattern` occurs nowhere is left as it is. */
  lemma {:induction false} ReplaceAllAbsent(s: string, pattern: string, replacement: string)
    requires |pattern| > 0
    requires !Contains(s, pattern)
    ensures ReplaceAll(s, pattern, replacement) == s
    decreases |s|
  {
    if |s| > 0 {
      ReplaceAllAbsent(s[1..], pattern, replacement);
      assert [s[0]] + s[1..] == s;
    }
  }
}
