/**
 * The JavaScript string operations the application relies on, over `seq<char>`:
 * `includes`, `indexOf`, `startsWith`, the `$`-anchored suffix test of a regular expression,
 * `replace` with a string pattern, `split(c)[0]`, `trim()` emptiness, ASCII `toLowerCase`,
 * and the decimal rendering of an integer in a template literal.
 */
module Strings {
  import opened Wrappers

  /** `t` occurs in `s` starting at index `i`. */
  predicate OccursAt(s: string, t: string, i: nat)
  {
    i + |t| <= |s| && s[i..i + |t|] == t
  }

  /** First index at or after `from` where `t` occurs in `s` (`String.prototype.indexOf`). */
  function IndexFrom(s: string, t: string, from: nat): (r: Option<nat>)
    ensures r.Some? ==> from <= r.value && OccursAt(s, t, r.value)
    ensures r.Some? ==> forall j: nat :: from <= j < r.value ==> !OccursAt(s, t, j)
    ensures r.None? ==> forall j: nat :: from <= j ==> !OccursAt(s, t, j)
    decreases |s| - from
  {
    if from + |t| > |s| then None
    else if s[from..from + |t|] == t then Some(from)
    else IndexFrom(s, t, from + 1)
  }

  function IndexOf(s: string, t: string): (r: Option<nat>)
  {
    IndexFrom(s, t, 0)
  }

  /** `s.includes(t)`. */
  predicate Contains(s: string, t: string)
  {
    IndexOf(s, t).Some?
  }

  lemma ContainsWitness(s: string, t: string, i: nat)
    requires OccursAt(s, t, i)
    ensures Contains(s, t)
  {
  }

  /** A string containing a character that `s` lacks is never a substring of `s`. */
  lemma {:induction false} MissingCharNotContained(s: string, t: string, k: nat)
    requires k < |t|
    requires forall i :: 0 <= i < |s| ==> s[i] != t[k]
    ensures !Contains(s, t)
  {
    forall i: nat | i + |t| <= |s| ensures !OccursAt(s, t, i) {
      assert s[i..i + |t|][k] == s[i + k];
    }
  }

  /** `s.startsWith(p)`. */
  predicate StartsWith(s: string, p: string)
  {
    |p| <= |s| && s[..|p|] == p
  }

  predicate IsUpperAscii(c: char)
  {
    'A' <= c <= 'Z'
  }

  /** `toLowerCase` restricted to ASCII letters; every other character is kept. */
  function LowerChar(c: char): (r: char)
  {
    if IsUpperAscii(c) then (c as int + 32) as char else c
  }

  function Lower(s: string): (r: string)
    ensures |r| == |s|
    ensures forall i :: 0 <= i < |s| ==> r[i] == LowerChar(s[i])
  {
    seq(|s|, i requires 0 <= i < |s| => LowerChar(s[i]))
  }

  /** The case-insensitive suffix test of `/\.(ext)$/i` for a lower-case `suffix`. */
  predicate EndsWithIgnoringCase(s: string, suffix: string)
  {
    |suffix| <= |s| && Lower(s[|s| - |suffix|..]) == suffix
  }

  /** `s.replace(pattern, replacement)` with a string pattern: only the first occurrence is replaced. */
  function ReplaceFirst(s: string, pattern: string, replacement: string): (r: string)
    ensures IndexOf(s, pattern).None? ==> r == s
    ensures IndexOf(s, pattern).Some? ==>
              var i := IndexOf(s, pattern).value;
              r == s[..i] + replacement + s[i + |pattern|..] && |r| == |s| - |pattern| + |replacement|
  {
    match IndexOf(s, pattern)
    case None => s
    case Some(i) => s[..i] + replacement + s[i + |pattern|..]
  }

  /** `s.split([c])[0]`: the text before the first `c`, or all of `s`. */
  function BeforeFirst(s: string, c: char): (r: string)
    ensures |r| <= |s| && r == s[..|r|]
    ensures forall i :: 0 <= i < |r| ==> r[i] != c
    ensures |r| < |s| ==> s[|r|] == c
  {
    match IndexOf(s, [c])
    case None =>
      assert forall i :: 0 <= i < |s| ==> s[i] != c by {
        forall i | 0 <= i < |s| ensures s[i] != c {
          assert !OccursAt(s, [c], i);
          assert s[i..i + 1] == [s[i]];
        }
      }
      s
    case Some(i) =>
      assert forall j :: 0 <= j < i ==> s[j] != c by {
        forall j | 0 <= j < i ensures s[j] != c {
          assert !OccursAt(s, [c], j);
          assert s[j..j + 1] == [s[j]];
        }
      }
      assert s[i..i + 1] == [c];
      s[..i]
  }

  /** The characters `String.prototype.trim` removes: ECMAScript WhiteSpace and LineTerminator. */
  predicate IsJsWhitespace(c: char)
  {
    || c == '\t' || c == '\n' || c == '\U{000B}' || c == '\U{000C}' || c == '\r' || c == ' '
    || c == '\U{00A0}' || c == '\U{1680}' || ('\U{2000}' <= c <= '\U{200A}')
    || c == '\U{2028}' || c == '\U{2029}' || c == '\U{202F}' || c == '\U{205F}'
    || c == '\U{3000}' || c == '\U{FEFF}'
  }

  /** `s.trim()` is the empty string exactly when every character of `s` is whitespace. */
  predicate IsBlank(s: string)
  {
    forall i :: 0 <= i < |s| ==> IsJsWhitespace(s[i])
  }

  predicate IsDigit(c: char)
  {
    '0' <= c <= '9'
  }

  function DigitChar(d: nat): (c: char)
    requires d < 10
    ensures IsDigit(c)
  {
    ('0' as int + d) as char
  }

  /** Decimal rendering of a natural number, no leading zeros. */
  function NatToString(n: nat): (r: string)
    ensures |r| >= 1
    ensures forall i :: 0 <= i < |r| ==> IsDigit(r[i])
  {
    if n < 10 then [DigitChar(n)] else NatToString(n / 10) + [DigitChar(n % 10)]
  }

  /** Decimal rendering of an integer as a template literal writes it. */
  function IntToString(n: int): (r: string)
    ensures forall i :: 0 <= i < |r| ==> IsDigit(r[i]) || r[i] == '-'
  {
    if n < 0 then "-" + NatToString(-n) else NatToString(n)
  }
}
