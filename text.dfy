/** The handful of Python `str` operations the gate is built from, on
    strings as sequences of characters. Case mapping covers ASCII letters. */
module Text {

  /** The characters for which Python's `str.isspace()` holds: what `strip()`,
      `lstrip()` and `rstrip()` remove when given no argument. */
  const WhitespaceChars: set<char> := {
    '\t', '\n', '\U{B}', '\U{C}', '\r', '\U{1C}', '\U{1D}', '\U{1E}', '\U{1F}', ' ',
    '\U{85}', '\U{A0}', '\U{1680}',
    '\U{2000}', '\U{2001}', '\U{2002}', '\U{2003}', '\U{2004}', '\U{2005}',
    '\U{2006}', '\U{2007}', '\U{2008}', '\U{2009}', '\U{200A}',
    '\U{2028}', '\U{2029}', '\U{202F}', '\U{205F}', '\U{3000}'
  }

  /** No whitespace at either end, as `strip()` leaves a string. */
  predicate Trimmed(s: string)
  {
    s == [] || (s[0] !in WhitespaceChars && s[|s| - 1] !in WhitespaceChars)
  }

  /** Every character is whitespace. */
  predicate Blank(s: string)
  {
    forall k :: 0 <= k < |s| ==> s[k] in WhitespaceChars
  }

  /** How many leading characters of `s` belong to `cs`. */
  function LeadingIn(s: string, cs: set<char>): (n: nat)
    ensures n <= |s|
    ensures forall i :: 0 <= i < n ==> s[i] in cs
    ensures n < |s| ==> s[n] !in cs
  {
    if |s| > 0 && s[0] in cs then 1 + LeadingIn(s[1..], cs) else 0
  }

  /** How many trailing characters of `s` belong to `cs`. */
  function TrailingIn(s: string, cs: set<char>): (n: nat)
    ensures n <= |s|
    ensures forall i :: |s| - n <= i < |s| ==> s[i] in cs
    ensures n < |s| ==> s[|s| - 1 - n] !in cs
  {
    if |s| > 0 && s[|s| - 1] in cs then 1 + TrailingIn(s[..|s| - 1], cs) else 0
  }

  /** Python's `s.lstrip(chars)`. */
  function LStripSet(s: string, cs: set<char>): string
  {
    s[LeadingIn(s, cs)..]
  }

  /** Python's `s.rstrip(chars)`. */
  function RStripSet(s: string, cs: set<char>): string
  {
    s[..|s| - TrailingIn(s, cs)]
  }

  /** Python's `s.strip(chars)`. */
  function StripSet(s: string, cs: set<char>): string
  {
    RStripSet(LStripSet(s, cs), cs)
  }

  /** Python's `s.strip()`, `s.lstrip()` and `s.rstrip()`. */
  function Strip(s: string): string { StripSet(s, WhitespaceChars) }
  function LStrip(s: string): string { LStripSet(s, WhitespaceChars) }
  function RStrip(s: string): string { RStripSet(s, WhitespaceChars) }

  /** `strip()` keeps one contiguous piece of its argument, trimmed. */
  lemma StripIsTrimmedSlice(s: string) returns (i: nat, j: nat)
    ensures i <= j <= |s| && Strip(s) == s[i..j] && Trimmed(Strip(s))
  {
    i := LeadingIn(s, WhitespaceChars);
    var t := s[i..];
    j := |s| - TrailingIn(t, WhitespaceChars);
    assert Strip(s) == t[..|t| - TrailingIn(t, WhitespaceChars)];
  }

  /** Leading characters from `cs` in front of a string that starts with
      one outside `cs` are counted exactly. */
  lemma {:induction false} LeadingInPrefix(p: string, s: string, cs: set<char>)
    requires forall k :: 0 <= k < |p| ==> p[k] in cs
    requires s != [] && s[0] !in cs
    ensures LeadingIn(p + s, cs) == |p|
  {
    if p != [] {
      assert (p + s)[1..] == p[1..] + s;
      LeadingInPrefix(p[1..], s, cs);
    } else {
      assert p + s == s;
    }
  }

  /** Trailing characters from `cs` after a string that ends with one
      outside `cs` are counted exactly. */
  lemma {:induction false} TrailingInSuffix(s: string, p: string, cs: set<char>)
    requires forall k :: 0 <= k < |p| ==> p[k] in cs
    requires s != [] && s[|s| - 1] !in cs
    ensures TrailingIn(s + p, cs) == |p|
  {
    if p != [] {
      assert (s + p)[..|s + p| - 1] == s + p[..|p| - 1];
      TrailingInSuffix(s, p[..|p| - 1], cs);
    } else {
      assert s + p == s;
    }
  }

  /** `strip(chars)` removes exactly the characters from `cs` around a
      string whose ends are outside `cs`. */
  lemma StripSetAround(lead: string, s: string, tail: string, cs: set<char>)
    requires forall k :: 0 <= k < |lead| ==> lead[k] in cs
    requires forall k :: 0 <= k < |tail| ==> tail[k] in cs
    requires s != [] && s[0] !in cs && s[|s| - 1] !in cs
    ensures StripSet(lead + s + tail, cs) == s
  {
    assert lead + s + tail == lead + (s + tail);
    LeadingInPrefix(lead, s + tail, cs);
    assert LStripSet(lead + s + tail, cs) == s + tail;
    TrailingInSuffix(s, tail, cs);
    assert (s + tail)[..|s + tail| - |tail|] == s;
  }

  /** `strip()` leaves a string without whitespace at its ends unchanged. */
  lemma StripUnpadded(s: string)
    requires s != [] && s[0] !in WhitespaceChars && s[|s| - 1] !in WhitespaceChars
    ensures Strip(s) == s
  {
  }

  /** `lstrip()` removes exactly one leading whitespace character from
      `[c] + u` when `u` starts with a visible one. */
  lemma LStripOne(c: char, u: string)
    requires c in WhitespaceChars && u != [] && u[0] !in WhitespaceChars
    ensures LStrip([c] + u) == u
  {
    assert ([c] + u)[1..] == u;
  }

  /** `rstrip()` removes exactly one trailing whitespace character from
      `v + [c]` when `v` ends with a visible one. */
  lemma RStripOne(v: string, c: char)
    requires c in WhitespaceChars && v != [] && v[|v| - 1] !in WhitespaceChars
    ensures RStrip(v + [c]) == v
  {
    assert (v + [c])[..|v|] == v;
  }

  /** Lower-casing leaves a prefix without capital letters in place. */
  lemma LowerPrefix(s: string, p: string)
    requires StartsWith(s, p) && Lower(p) == p
    ensures StartsWith(Lower(s), p)
  {
    assert forall k :: 0 <= k < |p| ==> Lower(s)[k] == LowerChar(s[k]) == LowerChar(p[k]) == Lower(p)[k];
  }

  /** Lower-casing leaves a suffix without capital letters in place. */
  lemma LowerSuffix(s: string, p: string)
    requires EndsWith(s, p) && Lower(p) == p
    ensures EndsWith(Lower(s), p)
  {
    var d := |s| - |p|;
    assert forall k :: 0 <= k < |p| ==> Lower(s)[d + k] == LowerChar(s[d + k]) == LowerChar(p[k]) == Lower(p)[k];
  }

  function LowerChar(c: char): char
  {
    if 'A' <= c <= 'Z' then (c as int + 32) as char else c
  }

  function UpperChar(c: char): char
  {
    if 'a' <= c <= 'z' then (c as int - 32) as char else c
  }

  /** Python's `s.lower()` on ASCII letters. */
  function Lower(s: string): (r: string)
    ensures |r| == |s|
  {
    seq(|s|, i requires 0 <= i < |s| => LowerChar(s[i]))
  }

  /** Python's `s.upper()` on ASCII letters. */
  function Upper(s: string): (r: string)
    ensures |r| == |s|
  {
    seq(|s|, i requires 0 <= i < |s| => UpperChar(s[i]))
  }

  /** Python's `s.startswith(p)`. */
  predicate StartsWith(s: string, p: string)
  {
    |p| <= |s| && s[..|p|] == p
  }

  /** Python's `s.endswith(p)`. */
  predicate EndsWith(s: string, p: string)
  {
    |p| <= |s| && s[|s| - |p|..] == p
  }

  /** Python's `p in s`. */
  predicate Contains(s: string, p: string)
    decreases |s|
  {
    StartsWith(s, p) || (|s| > 0 && Contains(s[1..], p))
  }

  /** Python's `s.find(p)`: the first index at which `p` occurs, or -1. */
  function Find(s: string, p: string): (k: int)
    decreases |s|
  {
    if StartsWith(s, p) then 0
    else if |s| == 0 then -1
    else
      var k := Find(s[1..], p);
      if k < 0 then -1 else k + 1
  }

  /** Python's `s.rfind(p)`: the last index at which `p` occurs, or -1. */
  function RFind(s: string, p: string): (k: int)
    decreases |s|
  {
    if EndsWith(s, p) then |s| - |p|
    else if |s| == 0 then -1
    else RFind(s[..|s| - 1], p)
  }

  /** Python's `sep.join(parts)`. */
  function Join(sep: string, parts: seq<string>): string
  {
    if |parts| == 0 then ""
    else if |parts| == 1 then parts[0]
    else parts[0] + sep + Join(sep, parts[1..])
  }

  /** Python's `s.replace(a, b)` for one-character `a` and `b`. */
  function ReplaceChar(s: string, a: char, b: char): (r: string)
    ensures |r| == |s|
  {
    seq(|s|, i requires 0 <= i < |s| => if s[i] == a then b else s[i])
  }

  /** Python's `c * n` for a one-character string `c`. */
  function Repeat(c: char, n: nat): (r: string)
    ensures |r| == n
  {
    seq(n, _ => c)
  }

  /** Python's `str(n)` for a natural number. */
  function NatToString(n: nat): (r: string)
  {
    if n < 10 then [DigitChar(n)] else NatToString(n / 10) + [DigitChar(n % 10)]
  }

  function DigitChar(d: nat): char
    requires d < 10
  {
    ('0' as int + d) as char
  }

  /** A string that contains `p` contains its first character. */
  lemma {:induction false} ContainsFirstChar(s: string, p: string)
    requires |p| > 0 && Contains(s, p)
    ensures p[0] in s
  {
    if StartsWith(s, p) {
      assert s[0] == p[0];
    } else {
      ContainsFirstChar(s[1..], p);
    }
  }

  /** `p` occurs in any string that has it between two other strings. */
  lemma {:induction false} ContainsMiddle(a: string, p: string, b: string)
    ensures Contains(a + p + b, p)
  {
    if |a| == 0 {
      assert (a + p + b)[..|p|] == p;
    } else {
      ContainsMiddle(a[1..], p, b);
      assert (a + p + b)[1..] == a[1..] + p + b;
    }
  }

  /** A prefix of the left operand is a prefix of the concatenation. */
  lemma StartsWithConcat(a: string, b: string, p: string)
    requires StartsWith(a, p)
    ensures StartsWith(a + b, p)
  {
    assert (a + b)[..|p|] == a[..|p|];
  }

  /** A suffix of the right operand is a suffix of the concatenation. */
  lemma EndsWithConcat(a: string, b: string, p: string)
    requires EndsWith(b, p)
    ensures EndsWith(a + b, p)
  {
    assert (a + b)[|a + b| - |p|..] == b[|b| - |p|..];
  }

  /** String concatenation is associative. */
  lemma ConcatAssoc(a: string, b: string, c: string)
    ensures (a + b) + c == a + (b + c)
  {
  }

  /** A slice of a slice is a slice of the whole. */
  lemma SliceOfSlice(x: string, a: nat, b: nat, i: nat, j: nat)
    requires a <= b <= |x| && i <= j <= b - a
    ensures x[a..b][i..j] == x[a + i..a + j]
  {
    assert forall t :: 0 <= t < j - i ==> x[a..b][i..j][t] == x[a + i + t];
  }

  /** Slices of the suffix `s[i..]` are slices of `s`: its first `k`
      characters, the `k`-th one, and the parts before and after its last
      `n` characters. */
  lemma SuffixSlices(s: string, i: nat, k: nat, n: nat)
    requires i + k <= |s|
    ensures s[i..][..k] == s[i..i + k]
    ensures k > 0 ==> s[i..][k - 1] == s[i + k - 1]
    ensures k + n <= |s| - i ==> s[i..][k..|s| - i - n] == s[i + k..|s| - n] && s[i..][|s| - i - n..] == s[|s| - n..]
  {
  }

  /** Joining with no separator extends by the appended part. */
  lemma {:induction false} JoinAppend(parts: seq<string>, x: string)
    ensures Join("", parts + [x]) == Join("", parts) + x
    decreases |parts|
  {
    if |parts| == 0 {
      assert parts + [x] == [x];
    } else if |parts| == 1 {
      assert (parts + [x])[1..] == [x];
    } else {
      assert (parts + [x])[1..] == parts[1..] + [x];
      JoinAppend(parts[1..], x);
    }
  }
}
