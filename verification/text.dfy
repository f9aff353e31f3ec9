/**
 * The Python `str` operations the services rely on, with Python's semantics:
 * `strip()`, `lower()`, `startswith`, `endswith`, `in`, `replace`, `split('\n')`,
 * `sep.join(...)` and `str(n)` for a natural number.
 */
module Text {

  /** Python's `str.isspace()` for one character. */
  predicate IsSpace(c: char) {
    ('\t' <= c <= '\r') || ('\U{1C}' <= c <= '\U{1F}') || c == ' ' || c == '\U{85}' || c == '\U{A0}'
    || c == '\U{1680}' || ('\U{2000}' <= c <= '\U{200A}') || c == '\U{2028}' || c == '\U{2029}'
    || c == '\U{202F}' || c == '\U{205F}' || c == '\U{3000}'
  }

  function StripStart(s: string): (r: string)
    ensures |r| <= |s| && r == s[|s| - |r|..]
    ensures r == [] || !IsSpace(r[0])
    ensures forall i :: 0 <= i < |s| - |r| ==> IsSpace(s[i])
  {
    if s != [] && IsSpace(s[0]) then
      var r := StripStart(s[1..]);
      assert s[1..][|s| - 1 - |r|..] == s[|s| - |r|..];
      assert forall i :: 1 <= i < |s| - |r| ==> s[i] == s[1..][i - 1];
      r
    else s
  }

  function StripEnd(s: string): (r: string)
    ensures |r| <= |s| && r == s[..|r|]
    ensures r == [] || !IsSpace(r[|r| - 1])
    ensures forall i :: |r| <= i < |s| ==> IsSpace(s[i])
  {
    if s != [] && IsSpace(s[|s| - 1]) then
      var r := StripEnd(s[..|s| - 1]);
      assert s[..|s| - 1][..|r|] == s[..|r|];
      assert forall i :: |r| <= i < |s| - 1 ==> s[i] == s[..|s| - 1][i];
      r
    else s
  }

  /** Python's `s.strip()`: removes leading and trailing whitespace. */
  function Strip(s: string): (r: string)
    ensures |r| <= |s|
    ensures r == [] || (!IsSpace(r[0]) && !IsSpace(r[|r| - 1]))
  {
    StripEnd(StripStart(s))
  }

  /** A string without leading or trailing whitespace is left alone by `strip()`. */
  lemma StripOfStripped(s: string)
    requires s == [] || (!IsSpace(s[0]) && !IsSpace(s[|s| - 1]))
    ensures Strip(s) == s
  {
  }

  /** Python's `str.lower()` on one character; only ASCII letters are modelled. */
  function LowerChar(c: char): char {
    if 'A' <= c <= 'Z' then (c as int + 32) as char else c
  }

  /** Python's `s.lower()`, restricted to ASCII case mapping. */
  function Lower(s: string): (r: string)
    ensures |r| == |s|
    ensures forall i :: 0 <= i < |s| ==> r[i] == LowerChar(s[i])
  {
    seq(|s|, i requires 0 <= i < |s| => LowerChar(s[i]))
  }

  /** Lower-casing twice is lower-casing once. */
  lemma LowerIdempotent(s: string)
    ensures Lower(Lower(s)) == Lower(s)
  {
  }

  /** Python's `s.startswith(p)`. */
  predicate StartsWith(s: string, p: string) {
    |p| <= |s| && s[..|p|] == p
  }

  /** Python's `s.endswith(p)`. */
  predicate EndsWith(s: string, p: string) {
    |p| <= |s| && s[|s| - |p|..] == p
  }

  /** Python's `p in s` on two strings: `p` occurs in `s` as a contiguous substring. */
  predicate Contains(s: string, p: string)
    decreases |s|
  {
    StartsWith(s, p) || (s != [] && Contains(s[1..], p))
  }

  /** Python's `s.replace(pat, rep)` for a non-empty `pat`: every non-overlapping occurrence, left to right. */
  function ReplaceAll(s: string, pat: string, rep: string): string
    requires pat != []
    decreases |s|
  {
    if StartsWith(s, pat) then rep + ReplaceAll(s[|pat|..], pat, rep)
    else if s == [] then []
    else [s[0]] + ReplaceAll(s[1..], pat, rep)
  }

  /** A string in which `pat` does not occur is left alone by `replace`. */
  lemma {:induction false} ReplaceAllAbsent(s: string, pat: string, rep: string)
    requires pat != [] && !Contains(s, pat)
    ensures ReplaceAll(s, pat, rep) == s
    decreases |s|
  {
    if s != [] {
      ReplaceAllAbsent(s[1..], pat, rep);
    }
  }

  /** A string whose characters avoid the first character of `pat` does not contain `pat`. */
  lemma {:induction false} MissingFirstCharNotContained(s: string, pat: string)
    requires pat != [] && pat[0] !in s
    ensures !Contains(s, pat)
    decreases |s|
  {
    if s != [] {
      assert s[1..] <= s[1..];
      assert forall c :: c in s[1..] ==> c in s;
      MissingFirstCharNotContained(s[1..], pat);
    }
  }

  /** Removing a leading `pat` that does not recur, then stripping, leaves a stripped remainder unchanged. */
  lemma ReplacePrefixStrip(x: string, pat: string)
    requires pat != [] && !Contains(x, pat)
    requires x == [] || (!IsSpace(x[0]) && !IsSpace(x[|x| - 1]))
    ensures Strip(ReplaceAll(pat + x, pat, "")) == x
  {
    var s := pat + x;
    assert s[..|pat|] == pat && s[|pat|..] == x;
    ReplaceAllAbsent(x, pat, "");
    assert ReplaceAll(s, pat, "") == x;
    StripOfStripped(x);
  }

  /** As `ReplacePrefixStrip`, for a remainder that avoids the first character of `pat`. */
  lemma ReplacePrefixStripFree(x: string, pat: string)
    requires pat != [] && pat[0] !in x
    requires x == [] || (!IsSpace(x[0]) && !IsSpace(x[|x| - 1]))
    ensures Strip(ReplaceAll(pat + x, pat, "")) == x
  {
    MissingFirstCharNotContained(x, pat);
    ReplacePrefixStrip(x, pat);
  }

  /** Python's `s.replace(a, b)` for single characters. */
  function ReplaceChar(s: string, a: char, b: char): (r: string)
    ensures |r| == |s|
    ensures forall i :: 0 <= i < |s| ==> r[i] == (if s[i] == a then b else s[i])
  {
    seq(|s|, i requires 0 <= i < |s| => if s[i] == a then b else s[i])
  }

  /** Index of the first occurrence of `c` in `s`. */
  function IndexOf(s: string, c: char): (k: nat)
    requires c in s
    ensures k < |s| && s[k] == c && c !in s[..k]
  {
    if s[0] == c then 0 else 1 + IndexOf(s[1..], c)
  }

  /** Python's `s.split(sep)` for a one-character separator. */
  function Split(s: string, sep: char): (parts: seq<string>)
    ensures |parts| >= 1
    decreases |s|
  {
    if sep in s then
      var k := IndexOf(s, sep);
      [s[..k]] + Split(s[k + 1..], sep)
    else
      [s]
  }

  /** Python's `sep.join(parts)`. */
  function Join(parts: seq<string>, sep: string): string
    decreases |parts|
  {
    if parts == [] then ""
    else if |parts| == 1 then parts[0]
    else parts[0] + sep + Join(parts[1..], sep)
  }

  lemma JoinCons(head: string, tail: seq<string>, sep: string)
    requires tail != []
    ensures Join([head] + tail, sep) == head + sep + Join(tail, sep)
  {
    assert ([head] + tail)[1..] == tail;
  }

  /** Joining the pieces of a split with the same separator gives back the string. */
  lemma {:induction false} JoinSplit(s: string, sep: char)
    ensures Join(Split(s, sep), [sep]) == s
    decreases |s|
  {
    if sep !in s {
      assert Split(s, sep) == [s];
    } else {
      var k := IndexOf(s, sep);
      var rest := s[k + 1..];
      JoinSplit(rest, sep);
      var tail := Split(rest, sep);
      assert Split(s, sep) == [s[..k]] + tail;
      JoinCons(s[..k], tail, [sep]);
      SplitAround(s, k);
    }
  }

  lemma SplitAround(s: string, k: nat)
    requires k < |s|
    ensures s[..k] + [s[k]] + s[k + 1..] == s
  {
  }

  /** A split at the first separator peels off the text before it. */
  lemma SplitFirst(a: string, sep: char, b: string)
    requires sep !in a
    ensures Split(a + [sep] + b, sep) == [a] + Split(b, sep)
  {
    var s := a + [sep] + b;
    assert s[|a|] == sep;
    var k := IndexOf(s, sep);
    assert s[..|a|] == a;
    assert k == |a|;
    assert s[k + 1..] == b;
  }

  /** A line, an empty line, then the rest. */
  lemma SplitBlankLine(a: string, sep: char, b: string)
    requires sep !in a
    ensures Split(a + [sep, sep] + b, sep) == [a, []] + Split(b, sep)
  {
    var rest := [sep] + b;
    assert a + [sep, sep] + b == a + [sep] + rest;
    SplitFirst(a, sep, rest);
    SplitLeadingSeparator(sep, b);
    assert [a] + ([[]] + Split(b, sep)) == [a, []] + Split(b, sep);
  }

  /** A leading separator splits off an empty piece. */
  lemma SplitLeadingSeparator(sep: char, b: string)
    ensures Split([sep] + b, sep) == [[]] + Split(b, sep)
  {
    var empty: string := [];
    assert empty + [sep] + b == [sep] + b;
    SplitFirst(empty, sep, b);
  }

  /** Trailing whitespace after a non-space character is what `StripEnd` removes. */
  lemma {:induction false} StripEndTrailing(x: string, w: string)
    requires x == [] || !IsSpace(x[|x| - 1])
    requires forall i :: 0 <= i < |w| ==> IsSpace(w[i])
    ensures StripEnd(x + w) == x
    decreases |w|
  {
    if w != [] {
      var xw := x + w;
      assert xw[..|xw| - 1] == x + w[..|w| - 1];
      StripEndTrailing(x, w[..|w| - 1]);
    } else {
      assert x + w == x;
    }
  }

  function DigitChar(d: nat): char
    requires d < 10
  {
    "0123456789"[d]
  }

  /** Python's `str(n)` for a natural number. */
  function NatToString(n: nat): (r: string)
    ensures |r| >= 1
  {
    if n < 10 then [DigitChar(n)] else NatToString(n / 10) + [DigitChar(n % 10)]
  }
}
