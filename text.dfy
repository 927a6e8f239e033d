/**
 * The JavaScript string operations the application relies on: `trim`, `toLowerCase`,
 * `includes`, `split(sep).pop()`, `split(sep)[0]`, capitalisation and the decimal
 * rendering of a non-negative integer inside a template literal.
 */
module Text {

  /** JavaScript's WhiteSpace and LineTerminator code points: what `\s` matches and `trim` strips. */
  predicate IsWhitespace(c: char) {
    || c == ' ' || c == '\t' || c == '\n' || c == '\U{000B}' || c == '\U{000C}' || c == '\r'
    || c == '\U{00A0}' || c == '\U{1680}' || ('\U{2000}' <= c <= '\U{200A}')
    || c == '\U{2028}' || c == '\U{2029}' || c == '\U{202F}' || c == '\U{205F}'
    || c == '\U{3000}' || c == '\U{FEFF}'
  }

  ghost predicate AllWhitespace(s: string) {
    forall k :: 0 <= k < |s| ==> IsWhitespace(s[k])
  }

  /** Strips the longest whitespace prefix. */
  function TrimStart(s: string): (r: string)
    ensures |r| <= |s| && r == s[|s| - |r|..]
    ensures forall k :: 0 <= k < |s| - |r| ==> IsWhitespace(s[k])
    ensures r != [] ==> !IsWhitespace(r[0])
  {
    if s != [] && IsWhitespace(s[0]) then TrimStart(s[1..]) else s
  }

  /** Strips the longest whitespace suffix. */
  function TrimEnd(s: string): (r: string)
    ensures |r| <= |s| && r == s[..|r|]
    ensures forall k :: |r| <= k < |s| ==> IsWhitespace(s[k])
    ensures r != [] ==> !IsWhitespace(r[|r| - 1])
  {
    if s != [] && IsWhitespace(s[|s| - 1]) then TrimEnd(s[..|s| - 1]) else s
  }

  /** `s.trim()` */
  function Trim(s: string): (r: string)
    ensures |r| <= |s|
    ensures r == [] <==> AllWhitespace(s)
    ensures r != [] ==> !IsWhitespace(r[0]) && !IsWhitespace(r[|r| - 1])
  {
    TrimEnd(TrimStart(s))
  }

  /** `s.trim() === ''`, stated without `Trim` so that it unfolds one character at a time. */
  predicate Blank(s: string) {
    s == [] || (IsWhitespace(s[0]) && Blank(s[1..]))
  }

  /** `Blank` is exactly "trims to the empty string". */
  lemma {:induction false} BlankIffTrimEmpty(s: string)
    ensures Blank(s) <==> Trim(s) == ""
  {
    if s != [] {
      BlankIffTrimEmpty(s[1..]);
    }
  }

  /** A string with no whitespace at either end is its own trim. */
  lemma TrimNoop(s: string)
    requires s == [] || (!IsWhitespace(s[0]) && !IsWhitespace(s[|s| - 1]))
    ensures Trim(s) == s
  {
  }

  /** `toLowerCase` on one code unit, for the ASCII letters. */
  function LowerChar(c: char): char {
    if 'A' <= c <= 'Z' then (c as int + 32) as char else c
  }

  /** Lower-casing neither creates nor removes whitespace. */
  lemma LowerCharWhitespace(c: char)
    ensures IsWhitespace(LowerChar(c)) == IsWhitespace(c)
  {
    if 'A' <= c <= 'Z' {
      assert 'a' <= LowerChar(c) <= 'z';
    }
  }

  /** `toUpperCase` on one code unit, for the ASCII letters. */
  function UpperChar(c: char): char {
    if 'a' <= c <= 'z' then (c as int - 32) as char else c
  }

  /** `s.toLowerCase()` (ASCII letters). */
  function ToLower(s: string): (r: string)
    ensures |r| == |s|
    ensures forall k :: 0 <= k < |s| ==> r[k] == LowerChar(s[k])
  {
    if s == [] then [] else [LowerChar(s[0])] + ToLower(s[1..])
  }

  /** A string without upper-case ASCII letters is its own lower-case form. */
  lemma ToLowerKeepsNonUpper(s: string)
    requires forall k :: 0 <= k < |s| ==> !('A' <= s[k] <= 'Z')
    ensures ToLower(s) == s
  {
    assert forall k :: 0 <= k < |s| ==> ToLower(s)[k] == s[k];
  }

  /** No whitespace character is an ASCII letter. */
  lemma WhitespaceIsNotLetter(c: char)
    requires IsWhitespace(c)
    ensures !('A' <= c <= 'Z') && !('a' <= c <= 'z')
  {
  }

  /** `s.charAt(0).toUpperCase() + s.slice(1)` */
  function Capitalize(s: string): string {
    if s == [] then [] else [UpperChar(s[0])] + s[1..]
  }

  ghost predicate OccursAt(s: string, q: string, i: int) {
    0 <= i && i + |q| <= |s| && s[i..i + |q|] == q
  }

  /** `s.includes(q)` */
  function Includes(s: string, q: string): (b: bool)
    ensures b <==> exists i :: OccursAt(s, q, i)
    decreases |s|
  {
    if q <= s then
      assert OccursAt(s, q, 0);
      true
    else if s == [] then
      false
    else
      var b := Includes(s[1..], q);
      assert b ==> exists i :: OccursAt(s, q, i) by {
        if b {
          var i :| OccursAt(s[1..], q, i);
          assert s[i + 1..i + 1 + |q|] == s[1..][i..i + |q|];
          assert OccursAt(s, q, i + 1);
        }
      }
      assert (exists i :: OccursAt(s, q, i)) ==> b by {
        if exists i :: OccursAt(s, q, i) {
          var i :| OccursAt(s, q, i);
          assert i != 0;
          assert s[1..][i - 1..i - 1 + |q|] == s[i..i + |q|];
          assert OccursAt(s[1..], q, i - 1);
        }
      }
      b
  }

  /** The part after the last `sep`: `s.split(sep).pop()`. */
  function LastSegment(s: string, sep: char): (r: string)
    ensures |r| <= |s| && r == s[|s| - |r|..]
    ensures sep !in r
    ensures |r| < |s| ==> s[|s| - |r| - 1] == sep
  {
    if s == [] then []
    else if s[|s| - 1] == sep then []
    else
      var r := LastSegment(s[..|s| - 1], sep) + [s[|s| - 1]];
      assert s[..|s| - 1][|s| - |r|..] + [s[|s| - 1]] == s[|s| - |r|..];
      r
  }

  /** What follows the last separator is the last segment. */
  lemma {:induction false} LastSegmentAfter(prefix: string, sep: char, tail: string)
    requires sep !in tail
    ensures LastSegment(prefix + [sep] + tail, sep) == tail
    decreases |tail|
  {
    var s := prefix + [sep] + tail;
    if tail != [] {
      var n := |tail| - 1;
      assert s[..|s| - 1] == prefix + [sep] + tail[..n];
      LastSegmentAfter(prefix, sep, tail[..n]);
      assert tail == tail[..n] + [tail[n]];
    }
  }

  /** The part before the first `sep`: `s.split(sep)[0]`. */
  function BeforeFirst(s: string, sep: char): (r: string)
    ensures |r| <= |s| && r == s[..|r|]
    ensures sep !in r
    ensures |r| < |s| ==> s[|r|] == sep
  {
    if s == [] then []
    else if s[0] == sep then []
    else [s[0]] + BeforeFirst(s[1..], sep)
  }

  function DigitChar(d: nat): (c: char)
    requires d < 10
    ensures '0' <= c <= '9'
  {
    ('0' as int + d) as char
  }

  /** The decimal rendering of `n` inside a template literal. */
  function NatToString(n: nat): (r: string)
    ensures |r| >= 1
    ensures forall k :: 0 <= k < |r| ==> '0' <= r[k] <= '9'
    ensures n >= 10 ==> |r| >= 2
  {
    if n < 10 then [DigitChar(n)] else NatToString(n / 10) + [DigitChar(n % 10)]
  }

  /** Different numbers render differently. */
  lemma {:induction false} NatToStringInjective(a: nat, b: nat)
    requires NatToString(a) == NatToString(b)
    ensures a == b
  {
    if a >= 10 && b >= 10 {
      var sa, sb := NatToString(a), NatToString(b);
      assert sa[..|sa| - 1] == NatToString(a / 10);
      assert sb[..|sb| - 1] == NatToString(b / 10);
      NatToStringInjective(a / 10, b / 10);
      assert DigitChar(a % 10) == sa[|sa| - 1] == sb[|sb| - 1] == DigitChar(b % 10);
    } else if a < 10 && b < 10 {
      assert DigitChar(a) == NatToString(a)[0] == NatToString(b)[0] == DigitChar(b);
    }
  }
}
