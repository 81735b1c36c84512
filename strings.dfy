/** The JavaScript string operations the rapport engine relies on
    (`includes`, `startsWith`, `toLowerCase`, `trim`, number-to-string
    conversion in template literals, `Array.prototype.join`), stated over
    `string == seq<char>`. */
module Strings {

  /** `s.startsWith(p)` */
  predicate StartsWith(s: string, p: string) {
    |p| <= |s| && s[..|p|] == p
  }

  /** `s.endsWith(p)` */
  predicate EndsWith(s: string, p: string) {
    |p| <= |s| && s[|s| - |p|..] == p
  }

  /** `s.includes(t)`: `t` occurs in `s` at some offset. */
  predicate Contains(s: string, t: string)
    ensures Contains(s, t) <==> exists i :: 0 <= i <= |s| && StartsWith(s[i..], t)
    decreases |s|
  {
    if StartsWith(s, t) then
      assert s[0..] == s;
      true
    else if |s| == 0 then
      false
    else
      assert forall i :: 1 <= i <= |s| ==> s[1..][i - 1..] == s[i..];
      Contains(s[1..], t)
  }

  /** Some pattern of `ts` occurs in `s`: an alternation regex such as
      `/不|沒|別|甭|免/.test(s)`, or `ts.some(t => s.includes(t))`. */
  predicate ContainsAny(s: string, ts: seq<string>) {
    exists k :: 0 <= k < |ts| && Contains(s, ts[k])
  }

  lemma ContainsAt(s: string, t: string, i: nat)
    requires i + |t| <= |s| && s[i..i + |t|] == t
    ensures Contains(s, t)
  {
    assert StartsWith(s[i..], t);
  }

  /** A pattern whose first character does not occur in `s` does not occur in `s`. */
  lemma {:induction false} NotContainsFirstChar(s: string, t: string)
    requires |t| > 0 && t[0] !in s
    ensures !Contains(s, t)
  {
    if |s| > 0 {
      assert s[0] != t[0];
      assert t[0] !in s[1..] by {
        forall k | 0 <= k < |s[1..]| ensures s[1..][k] != t[0] {
          assert s[1..][k] == s[k + 1];
        }
      }
      NotContainsFirstChar(s[1..], t);
    }
  }

  lemma ContainsPrefix(s: string, t: string)
    requires StartsWith(s, t)
    ensures Contains(s, t)
  {
  }

  lemma NotContainsAny(s: string, ts: seq<string>)
    requires forall k :: 0 <= k < |ts| ==> |ts[k]| > 0 && ts[k][0] !in s
    ensures !ContainsAny(s, ts)
  {
    forall k | 0 <= k < |ts| ensures !Contains(s, ts[k]) {
      NotContainsFirstChar(s, ts[k]);
    }
  }

  // ---------------------------------------------------------------------
  // Case folding

  predicate IsAsciiUpper(c: char) {
    'A' <= c <= 'Z'
  }

  /** `toLowerCase` on one character, restricted to ASCII letters. */
  function LowerChar(c: char): (r: char)
    ensures !IsAsciiUpper(r)
    ensures IsAsciiUpper(c) ==> r as int == c as int + 32
    ensures !IsAsciiUpper(c) ==> r == c
  {
    if IsAsciiUpper(c) then (c as int + 32) as char else c
  }

  /** `s.toLowerCase()` for ASCII letters; every other character is kept. */
  function Lower(s: string): (r: string)
    ensures |r| == |s|
  {
    seq(|s|, i requires 0 <= i < |s| => LowerChar(s[i]))
  }

  lemma LowerIdempotent(s: string)
    ensures Lower(Lower(s)) == Lower(s)
  {
  }

  /** Lower-casing keeps every occurrence of a text without ASCII capitals. */
  lemma LowerKeepsInner(s: string, t: string, i: nat)
    requires i + |t| <= |s| && s[i..i + |t|] == t
    requires forall k :: 0 <= k < |t| ==> !IsAsciiUpper(t[k])
    ensures Lower(s)[i..i + |t|] == t
  {
    forall k | 0 <= k < |t| ensures Lower(s)[i + k] == t[k] {
      assert s[i + k] == t[k];
    }
  }

  /** Text without ASCII capitals (all of the Chinese text of the rule table)
      is its own lower-case form. */
  lemma LowerNoUpper(s: string)
    requires forall i :: 0 <= i < |s| ==> !IsAsciiUpper(s[i])
    ensures Lower(s) == s
  {
  }

  predicate IsAsciiLetter(c: char) {
    IsAsciiUpper(c) || 'a' <= c <= 'z'
  }

  /** Only ASCII letters change under `toLowerCase`. */
  lemma LowerCharOnlyLetters(c: char)
    ensures !IsAsciiLetter(LowerChar(c)) ==> LowerChar(c) == c
  {
    if IsAsciiUpper(c) {
      assert 'a' as int <= LowerChar(c) as int <= 'z' as int;
    }
  }

  /** Where the lower-cased text shows a text without ASCII letters, the
      original shows it too. */
  lemma LowerSliceUnchanged(s: string, t: string, i: nat)
    requires forall k :: 0 <= k < |t| ==> !IsAsciiLetter(t[k])
    requires i + |t| <= |s| && Lower(s)[i..i + |t|] == t
    ensures s[i..i + |t|] == t
  {
    forall k | 0 <= k < |t| ensures s[i + k] == t[k] {
      assert t[k] == Lower(s)[i..i + |t|][k] == LowerChar(s[i + k]);
      LowerCharOnlyLetters(s[i + k]);
    }
  }

  /** Lower-casing creates no occurrence of a text without ASCII letters. */
  lemma LowerOnlyRemoves(s: string, t: string)
    requires forall k :: 0 <= k < |t| ==> !IsAsciiLetter(t[k])
    requires Contains(Lower(s), t)
    ensures Contains(s, t)
  {
    var i :| 0 <= i <= |Lower(s)| && StartsWith(Lower(s)[i..], t);
    assert Lower(s)[i..i + |t|] == Lower(s)[i..][..|t|];
    LowerSliceUnchanged(s, t, i);
    ContainsAt(s, t, i);
  }

  // ---------------------------------------------------------------------
  // Trimming

  /** The characters `String.prototype.trim` removes: ECMAScript WhiteSpace
      and LineTerminator code points. */
  const Whitespace: set<char> :=
    {'\t', '\n', '\U{000B}', '\U{000C}', '\r', ' ', '\U{00A0}', '\U{1680}',
     '\U{2000}', '\U{2001}', '\U{2002}', '\U{2003}', '\U{2004}', '\U{2005}',
     '\U{2006}', '\U{2007}', '\U{2008}', '\U{2009}', '\U{200A}',
     '\U{2028}', '\U{2029}', '\U{202F}', '\U{205F}', '\U{3000}', '\U{FEFF}'}

  predicate IsWhitespace(c: char) {
    c in Whitespace
  }

  /** Number of whitespace characters at the start of `s`. */
  function LeadingWhitespace(s: string): (n: nat)
    ensures n <= |s|
    ensures forall k :: 0 <= k < n ==> IsWhitespace(s[k])
    ensures n < |s| ==> !IsWhitespace(s[n])
  {
    if |s| > 0 && IsWhitespace(s[0]) then 1 + LeadingWhitespace(s[1..]) else 0
  }

  /** Number of whitespace characters at the end of `s`. */
  function TrailingWhitespace(s: string): (n: nat)
    ensures n <= |s|
    ensures forall k :: |s| - n <= k < |s| ==> IsWhitespace(s[k])
    ensures n < |s| ==> !IsWhitespace(s[|s| - n - 1])
  {
    if |s| > 0 && IsWhitespace(s[|s| - 1]) then 1 + TrailingWhitespace(s[..|s| - 1]) else 0
  }

  /** Where `s.trim()` ends: before the trailing whitespace, or at the
      start when `s` is all whitespace. */
  function TrimEnd(s: string): (e: nat)
    ensures LeadingWhitespace(s) <= e <= |s|
    ensures LeadingWhitespace(s) < e ==> !IsWhitespace(s[e - 1])
  {
    var a := LeadingWhitespace(s);
    if a == |s| then a
    else
      assert !IsWhitespace(s[a]);
      |s| - TrailingWhitespace(s)
  }

  /** `s.trim()`: the slice of `s` between its leading and its trailing
      whitespace. */
  function Trim(s: string): (r: string)
    ensures |r| <= |s|
    ensures r != [] ==> !IsWhitespace(r[0]) && !IsWhitespace(r[|r| - 1])
  {
    s[LeadingWhitespace(s)..TrimEnd(s)]
  }

  /** Everything after the end of the trimmed text is whitespace. */
  lemma TrimEndTrailing(s: string)
    ensures forall k :: TrimEnd(s) <= k < |s| ==> IsWhitespace(s[k])
  {
  }

  /** A slice that starts and ends with non-whitespace lies inside the
      trimmed text. */
  lemma TrimBetween(s: string, i: nat, j: nat)
    requires i < j <= |s| && !IsWhitespace(s[i]) && !IsWhitespace(s[j - 1])
    ensures LeadingWhitespace(s) <= i && j <= TrimEnd(s)
  {
    assert LeadingWhitespace(s) < |s|;
  }

  /** Trimming keeps every occurrence of a text that has no whitespace. */
  lemma {:induction false} TrimKeepsInner(s: string, t: string, i: nat)
    requires i + |t| <= |s| && s[i..i + |t|] == t && t != []
    requires forall k :: 0 <= k < |t| ==> !IsWhitespace(t[k])
    ensures Contains(Trim(s), t)
  {
    assert s[i] == t[0] && s[i + |t| - 1] == t[|t| - 1];
    TrimBetween(s, i, i + |t|);
    var a, e := LeadingWhitespace(s), TrimEnd(s);
    SliceOfSlice(s, a, e, i - a, i - a + |t|);
    ContainsAt(Trim(s), t, i - a);
  }

  /** Trimming creates no occurrence of any text. */
  lemma TrimOnlyRemoves(s: string, t: string)
    requires Contains(Trim(s), t)
    ensures Contains(s, t)
  {
    var a, e := LeadingWhitespace(s), TrimEnd(s);
    var i :| 0 <= i <= |Trim(s)| && StartsWith(Trim(s)[i..], t);
    SliceOfSlice(s, a, e, i, i + |t|);
    ContainsAt(s, t, a + i);
  }

  lemma SliceOfSlice(s: string, a: nat, e: nat, x: nat, y: nat)
    requires a <= e <= |s| && x <= y <= e - a
    ensures s[a..e][x..y] == s[a + x..a + y]
  {
    assert |s[a..e][x..y]| == |s[a + x..a + y]|;
    forall k | 0 <= k < y - x ensures s[a..e][x..y][k] == s[a + x..a + y][k] {
      assert s[a..e][x..y][k] == s[a..e][x + k];
    }
  }

  // ---------------------------------------------------------------------
  // Regular-expression building blocks

  /** The characters a regex `.` does not match (no `s` flag). */
  predicate IsLineTerminator(c: char) {
    c in {'\n', '\r', '\U{2028}', '\U{2029}'}
  }

  predicate NoLineTerminator(s: string) {
    forall k :: 0 <= k < |s| ==> !IsLineTerminator(s[k])
  }

  // ---------------------------------------------------------------------
  // Numbers in template literals

  function DigitChar(d: nat): (c: char)
    requires d < 10
    ensures '0' <= c <= '9'
    ensures c as int - '0' as int == d
  {
    (d + '0' as int) as char
  }

  /** Decimal text of a natural number, as `${n}` writes it. */
  function NatToString(n: nat): (r: string)
    ensures |r| >= 1
    ensures forall i :: 0 <= i < |r| ==> '0' <= r[i] <= '9'
    decreases n
  {
    if n < 10 then [DigitChar(n)] else NatToString(n / 10) + [DigitChar(n % 10)]
  }

  /** The number a string of decimal digits denotes. */
  function DecimalValue(s: string): nat
    requires forall i :: 0 <= i < |s| ==> '0' <= s[i] <= '9'
  {
    if s == [] then 0 else DecimalValue(s[..|s| - 1]) * 10 + (s[|s| - 1] as int - '0' as int)
  }

  /** The decimal text of `n` reads back as `n`. */
  lemma {:induction false} NatToStringRoundTrip(n: nat)
    ensures DecimalValue(NatToString(n)) == n
    decreases n
  {
    if n >= 10 {
      var r := NatToString(n);
      assert r[..|r| - 1] == NatToString(n / 10);
      NatToStringRoundTrip(n / 10);
    }
  }

  /** Decimal text of an integer, with a leading `-` for negative values
      and never a sign otherwise. */
  function IntToString(n: int): (r: string)
    ensures r != []
    ensures r[0] == '-' <==> n < 0
    ensures r[0] != '+'
  {
    if n < 0 then "-" + NatToString(-n) else NatToString(n)
  }

  // ---------------------------------------------------------------------
  // Array.prototype.join

  /** `lines.join(sep)` */
  function Join(lines: seq<string>, sep: string): string {
    if |lines| == 0 then ""
    else if |lines| == 1 then lines[0]
    else Join(lines[..|lines| - 1], sep) + sep + lines[|lines| - 1]
  }

}
