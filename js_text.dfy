/**
 * The JavaScript string operations the core relies on.  A string is a sequence of
 * Unicode scalar values.  JavaScript counts UTF-16 code units instead, two for every
 * character outside the Basic Multilingual Plane; `Utf16Length` and `Utf16Prefix` state
 * that count where the core's behaviour depends on it (`s.length`, `s.substring(0, n)`,
 * a regular expression without the `u` flag).  The positions `IndexOf` returns count
 * characters; the core only uses them to cut the same string again.
 */
module JsText {

  /** The characters `String.prototype.trim` and the regular expression `\s` treat as
      white space: the WhiteSpace and LineTerminator code points of ECMAScript. */
  predicate IsWhitespace(c: char) {
    c == ' ' || c == '\t' || c == '\n' || c == '\r' || c == '\U{B}' || c == '\U{C}'
    || c == '\U{A0}' || c == '\U{FEFF}' || c == '\U{1680}' || ('\U{2000}' <= c <= '\U{200A}')
    || c == '\U{2028}' || c == '\U{2029}' || c == '\U{202F}' || c == '\U{205F}' || c == '\U{3000}'
  }

  /** The characters the regular-expression `.` does not match (LineTerminator). */
  predicate IsLineTerminator(c: char) {
    c == '\n' || c == '\r' || c == '\U{2028}' || c == '\U{2029}'
  }

  /** `s` with its leading white space removed. */
  function TrimStart(s: string): (r: string)
    ensures |r| <= |s| && r == s[|s| - |r|..]
    ensures r == [] || !IsWhitespace(r[0])
    ensures forall i :: 0 <= i < |s| - |r| ==> IsWhitespace(s[i])
  {
    if s != [] && IsWhitespace(s[0]) then TrimStart(s[1..]) else s
  }

  /** `s` with its trailing white space removed. */
  function TrimEnd(s: string): (r: string)
    ensures |r| <= |s| && r == s[..|r|]
    ensures r == [] || !IsWhitespace(r[|r| - 1])
    ensures forall i :: |r| <= i < |s| ==> IsWhitespace(s[i])
  {
    if s != [] && IsWhitespace(s[|s| - 1]) then TrimEnd(s[..|s| - 1]) else s
  }

  /** JavaScript's `s.trim()`. */
  function Trim(s: string): string {
    TrimEnd(TrimStart(s))
  }

  /** `!s.trim()`: the string is empty or white space only. */
  predicate IsBlank(s: string) {
    Trim(s) == ""
  }

  lemma IsBlankIffAllWhitespace(s: string)
    ensures IsBlank(s) <==> forall i :: 0 <= i < |s| ==> IsWhitespace(s[i])
  {
    var t := TrimStart(s);
    if IsBlank(s) {
      assert t == [];
    } else {
      var r := TrimEnd(t);
      assert r != [] && r[0] == s[|s| - |t|] && !IsWhitespace(r[0]);
    }
  }

  /** The number of UTF-16 code units JavaScript uses for `c`. */
  function CodeUnits(c: char): nat {
    if c as int >= 0x1_0000 then 2 else 1
  }

  /** JavaScript's `s.length`: never less than the number of characters, and equal to it
      exactly when every character lies in the Basic Multilingual Plane. */
  function Utf16Length(s: string): (n: nat)
    ensures |s| <= n <= 2 * |s|
    ensures n == |s| <==> forall i :: 0 <= i < |s| ==> CodeUnits(s[i]) == 1
  {
    if s == [] then 0
    else
      assert forall i :: 1 <= i < |s| ==> s[1..][i - 1] == s[i];
      CodeUnits(s[0]) + Utf16Length(s[1..])
  }

  /** `s.substring(0, n)`: the longest prefix of `s` that is at most `n` code units long.
      When the cut falls inside a surrogate pair JavaScript keeps the lone first half,
      which no `char` can hold, so the prefix stops before that character. */
  function Utf16Prefix(s: string, n: nat): (r: string)
    ensures |r| <= |s| && r == s[..|r|] && Utf16Length(r) <= n
    ensures Utf16Length(s) <= n ==> r == s
    ensures |r| < |s| ==> n < Utf16Length(r) + CodeUnits(s[|r|])
  {
    if s == [] || CodeUnits(s[0]) > n then []
    else
      var rest := Utf16Prefix(s[1..], n - CodeUnits(s[0]));
      assert ([s[0]] + rest)[1..] == rest;
      [s[0]] + rest
  }

  /** With more than `n` code units, the prefix holds exactly `n` of them, or `n - 1` when
      the next character is a surrogate pair the cut would split. */
  lemma Utf16PrefixOfLong(s: string, n: nat)
    requires Utf16Length(s) > n
    ensures var r := Utf16Prefix(s, n);
      |r| < |s| && (Utf16Length(r) == n || (Utf16Length(r) + 1 == n && CodeUnits(s[|r|]) == 2))
  {
  }

  /** Regrouping a concatenation, as a fact the solver can apply in one step. */
  lemma ConcatAssoc<T>(a: seq<T>, b: seq<T>, c: seq<T>)
    ensures (a + b) + c == a + (b + c)
  {
  }

  /** JavaScript's `s.startsWith(p)`. */
  predicate StartsWith(s: string, p: string) {
    |p| <= |s| && s[..|p|] == p
  }

  /** JavaScript's `s.endsWith(p)`. */
  predicate EndsWith(s: string, p: string) {
    |p| <= |s| && s[|s| - |p|..] == p
  }

  lemma StartsWithAppend(a: string, b: string, p: string)
    requires StartsWith(a, p)
    ensures StartsWith(a + b, p)
  {
    assert (a + b)[..|p|] == a[..|p|];
  }

  lemma EndsWithAppend(a: string, b: string, p: string)
    requires EndsWith(b, p)
    ensures EndsWith(a + b, p)
  {
    assert (a + b)[|a + b| - |p|..] == b[|b| - |p|..];
  }

  /** `pat` occurs in `s` starting at position `i`. */
  predicate OccursAt(s: string, pat: string, i: int) {
    0 <= i && i + |pat| <= |s| && s[i..i + |pat|] == pat
  }

  /** `s.indexOf(pat, from)`: the first occurrence at or after `from`, or -1. */
  function IndexOfFrom(s: string, pat: string, from: nat): (r: int)
    ensures r == -1 || (from <= r && OccursAt(s, pat, r))
    ensures forall j :: from <= j && (r == -1 || j < r) ==> !OccursAt(s, pat, j)
    decreases |s| - from
  {
    if from + |pat| > |s| then -1
    else if s[from..from + |pat|] == pat then from
    else IndexOfFrom(s, pat, from + 1)
  }

  /** `s.indexOf(pat)`. */
  function IndexOf(s: string, pat: string): (r: int)
    ensures r == -1 <==> forall j :: !OccursAt(s, pat, j)
    ensures r != -1 ==> OccursAt(s, pat, r) && forall j :: 0 <= j < r ==> !OccursAt(s, pat, j)
  {
    IndexOfFrom(s, pat, 0)
  }

  /** Text appended after a found occurrence does not move the first occurrence. */
  lemma IndexOfAppend(s: string, c: string, p: string)
    requires IndexOf(s, p) != -1
    ensures IndexOf(s + c, p) == IndexOf(s, p)
  {
    var r := IndexOf(s, p);
    assert (s + c)[r..r + |p|] == s[r..r + |p|];
    assert OccursAt(s + c, p, r);
    forall j | 0 <= j < r ensures !OccursAt(s + c, p, j) {
      if OccursAt(s + c, p, j) {
        assert (s + c)[j..j + |p|] == s[j..j + |p|];
        assert OccursAt(s, p, j);
      }
    }
  }

  /** Cutting at the first occurrence: the text before it, the pattern, the text after. */
  lemma IndexOfSplit(s: string, p: string)
    requires IndexOf(s, p) != -1
    ensures s == s[..IndexOf(s, p)] + p + s[IndexOf(s, p) + |p|..]
  {
    var r := IndexOf(s, p);
    assert s[r..r + |p|] == p;
    assert s == s[..r] + s[r..r + |p|] + s[r + |p|..];
  }

  /** The text before the first occurrence holds none. */
  lemma IndexOfPrefixFree(s: string, p: string)
    requires |p| > 0 && IndexOf(s, p) != -1
    ensures IndexOf(s[..IndexOf(s, p)], p) == -1
  {
    var r := IndexOf(s, p);
    var t := s[..r];
    forall j ensures !OccursAt(t, p, j) {
      if OccursAt(t, p, j) {
        assert t[j..j + |p|] == s[j..j + |p|];
        assert OccursAt(s, p, j);
      }
    }
  }

  /** The position of the first `c` in `s`, or `|s|` when there is none. */
  function FirstIndexOfChar(s: string, c: char): (r: nat)
    ensures r <= |s| && c !in s[..r]
    ensures r < |s| ==> s[r] == c
  {
    if s == [] then 0
    else if s[0] == c then 0
    else
      var r := 1 + FirstIndexOfChar(s[1..], c);
      assert s[..r] == [s[0]] + s[1..][..r - 1];
      r
  }

  /** `s.split(c)` for a one-character separator. */
  function Split(s: string, c: char): (parts: seq<string>)
    ensures |parts| >= 1
    ensures forall k :: 0 <= k < |parts| ==> c !in parts[k]
    ensures JoinWith(parts, [c]) == s
    decreases |s|
  {
    var i := FirstIndexOfChar(s, c);
    if i == |s| then [s]
    else
      var rest := Split(s[i + 1..], c);
      assert s == s[..i] + [c] + s[i + 1..];
      [s[..i]] + rest
  }

  /** The pieces of text joined end to end, in order. */
  function Concat(chunks: seq<string>): string {
    if chunks == [] then "" else Concat(chunks[..|chunks| - 1]) + chunks[|chunks| - 1]
  }

  /** `parts.join(sep)`. */
  function JoinWith(parts: seq<string>, sep: string): string {
    if parts == [] then ""
    else if |parts| == 1 then parts[0]
    else parts[0] + sep + JoinWith(parts[1..], sep)
  }

  /** The first part is the text before the first `c`; when `c` occurs, the other parts
      are those of the text after it. */
  lemma SplitHead(s: string, c: char)
    ensures Split(s, c)[0] == s[..FirstIndexOfChar(s, c)]
    ensures FirstIndexOfChar(s, c) < |s| ==>
      |Split(s, c)| >= 2 && Split(s, c)[1..] == Split(s[FirstIndexOfChar(s, c) + 1..], c)
    ensures FirstIndexOfChar(s, c) == |s| ==> Split(s, c) == [s]
  {
    var i := FirstIndexOfChar(s, c);
    if i < |s| {
      assert Split(s, c) == [s[..i]] + Split(s[i + 1..], c);
    }
  }

  /** Splitting on `c` yields exactly two parts precisely when `c` occurs once; the two
      parts are then the text before and after it. */
  lemma SplitInTwo(s: string, c: char)
    requires |Split(s, c)| == 2
    ensures Split(s, c)[0] + [c] + Split(s, c)[1] == s
    ensures c !in Split(s, c)[0] && c !in Split(s, c)[1]
    ensures Split(s, c)[0] == s[..FirstIndexOfChar(s, c)]
  {
    var parts := Split(s, c);
    assert JoinWith(parts[1..], [c]) == parts[1];
  }

  /** The decimal digit for `d`. */
  function Digit(d: nat): (c: char)
    requires d < 10
    ensures c as int - '0' as int == d
  {
    ('0' as int + d) as char
  }

  /** `String(n)` for a non-negative integer: its decimal digits. */
  function NatToString(n: nat): (r: string)
    ensures |r| >= 1
    ensures forall i :: 0 <= i < |r| ==> '0' <= r[i] <= '9'
    decreases n
  {
    if n < 10 then [Digit(n)] else NatToString(n / 10) + [Digit(n % 10)]
  }

  /** The value of a string of decimal digits: the inverse of `NatToString`. */
  function DigitsValue(s: string): nat
    requires forall i :: 0 <= i < |s| ==> '0' <= s[i] <= '9'
  {
    if s == [] then 0 else 10 * DigitsValue(s[..|s| - 1]) + (s[|s| - 1] as int - '0' as int)
  }

  lemma {:induction false} NatToStringRoundTrip(n: nat)
    ensures DigitsValue(NatToString(n)) == n
    decreases n
  {
    if n >= 10 {
      var prefix := NatToString(n / 10);
      var r := prefix + [Digit(n % 10)];
      NatToStringRoundTrip(n / 10);
      assert r[..|r| - 1] == prefix;
      assert DigitsValue(r) == 10 * (n / 10) + n % 10;
    }
  }

  /** Distinct numbers print differently, so numbered names never collide. */
  lemma NatToStringInjective(m: nat, n: nat)
    requires m != n
    ensures NatToString(m) != NatToString(n)
  {
    NatToStringRoundTrip(m);
    NatToStringRoundTrip(n);
  }
}
