/**
 * ASCII text helpers shared by the Python back end and the TypeScript front end.
 *
 * Strings are sequences of characters restricted, in the properties proved, to
 * their ASCII behaviour: case mapping touches only 'A'..'Z' and 'a'..'z', and the
 * two runtimes' notions of whitespace are spelled out separately, because
 * Python's str.split()/str.strip() treat the separators U+001C..U+001F as
 * whitespace and JavaScript's \s and String.prototype.trim do not.
 */
module Strings {

  datatype Option<+T> = None | Some(value: T) {
    function GetOr(default: T): T {
      match this
      case Some(v) => v
      case None => default
    }
  }

  /** Which runtime's whitespace class a trim or split follows. */
  datatype Runtime = Python | JavaScript

  predicate IsSpace(c: char, rt: Runtime) {
    c == ' ' || 9 <= c as int <= 13 || (rt == Python && 28 <= c as int <= 31)
  }

  predicate IsUpperAscii(c: char) { 'A' <= c <= 'Z' }
  predicate IsLowerAscii(c: char) { 'a' <= c <= 'z' }
  predicate IsDigit(c: char) { '0' <= c <= '9' }

  function ToLowerChar(c: char): (r: char)
    ensures !IsUpperAscii(r)
    ensures IsUpperAscii(c) ==> IsLowerAscii(r) && r as int == c as int + 32
    ensures !IsUpperAscii(c) ==> r == c
  {
    if IsUpperAscii(c) then (c as int + 32) as char else c
  }

  function ToUpperChar(c: char): (r: char)
    ensures !IsLowerAscii(r)
    ensures IsLowerAscii(c) ==> IsUpperAscii(r) && r as int == c as int - 32
    ensures !IsLowerAscii(c) ==> r == c
  {
    if IsLowerAscii(c) then (c as int - 32) as char else c
  }

  /** Python str.lower() / JavaScript toLowerCase() on ASCII text. */
  function Lower(s: string): (r: string)
    ensures |r| == |s|
    ensures forall i :: 0 <= i < |s| ==> r[i] == ToLowerChar(s[i])
  {
    seq(|s|, i requires 0 <= i < |s| => ToLowerChar(s[i]))
  }

  /** Python str.upper() on ASCII text. */
  function Upper(s: string): (r: string)
    ensures |r| == |s|
    ensures forall i :: 0 <= i < |s| ==> r[i] == ToUpperChar(s[i])
  {
    seq(|s|, i requires 0 <= i < |s| => ToUpperChar(s[i]))
  }

  /** First character not lower-case, every later one not upper-case. */
  predicate Capitalized(w: string) {
    (w != [] ==> !IsLowerAscii(w[0])) && forall i :: 1 <= i < |w| ==> !IsUpperAscii(w[i])
  }

  /**
   * Python str.capitalize() on ASCII text: the first character upper-cased and
   * every other one lower-cased; the letters are the input's up to case.
   */
  function Capitalize(s: string): (r: string)
    ensures |r| == |s|
    ensures Capitalized(r)
    ensures Lower(r) == Lower(s)
  {
    if s == [] then []
    else
      var r := [ToUpperChar(s[0])] + Lower(s[1..]);
      assert forall i :: 0 <= i < |s| ==> Lower(r)[i] == Lower(s)[i];
      r
  }

  /** `sub in s` for Python strings, `s.includes(sub)` in JavaScript. */
  predicate Contains(s: string, sub: string) {
    exists i :: 0 <= i <= |s| && sub <= s[i..]
  }

  /** Whether `s` contains any of `subs`: Python's any(x in s for x in subs), JavaScript's subs.some(x => s.includes(x)). */
  predicate ContainsAny(s: string, subs: seq<string>) {
    exists k :: 0 <= k < |subs| && Contains(s, subs[k])
  }

  /** A substring of a substring is a substring. */
  lemma ContainsTransitive(s: string, mid: string, sub: string)
    requires Contains(s, mid) && Contains(mid, sub)
    ensures Contains(s, sub)
  {
    var i :| 0 <= i <= |s| && mid <= s[i..];
    var j :| 0 <= j <= |mid| && sub <= mid[j..];
    assert sub <= s[i + j..] by {
      forall k | 0 <= k < |sub| ensures sub[k] == s[i + j..][k] {
        assert sub[k] == mid[j + k] == s[i + j + k];
      }
    }
  }

  /** A string contains itself placed anywhere inside a longer one. */
  lemma ContainsInfix(a: string, sub: string, b: string)
    ensures Contains(a + sub + b, sub)
  {
    assert sub <= (a + sub + b)[|a|..];
  }

  /** What a string contains, any longer string ending with it contains too. */
  lemma ContainsExtendLeft(a: string, b: string, sub: string)
    requires Contains(b, sub)
    ensures Contains(a + b, sub)
  {
    var i :| 0 <= i <= |b| && sub <= b[i..];
    assert (a + b)[|a| + i..] == b[i..];
  }

  /** Python's s[-n:] for n > 0: the last n items, or all of them when fewer. */
  function LastN<T>(s: seq<T>, n: nat): (r: seq<T>)
    ensures |r| == if |s| <= n then |s| else n
    ensures r == s[|s| - |r|..]
  {
    if |s| <= n then s else s[|s| - n..]
  }

  /** Python's "\n".join(lines). */
  function JoinLines(lines: seq<string>): (r: string)
    ensures |lines| == 1 ==> r == lines[0]
    ensures |lines| > 0 ==> lines[0] <= r
    ensures |lines| > 1 ==> lines[0] + "\n" <= r
  {
    if |lines| == 0 then ""
    else if |lines| == 1 then lines[0]
    else lines[0] + "\n" + JoinLines(lines[1..])
  }

  /** Every joined line occurs in the joined text. */
  lemma {:induction false} JoinLinesContains(lines: seq<string>, k: nat)
    requires k < |lines|
    ensures Contains(JoinLines(lines), lines[k])
    decreases |lines|
  {
    var j := JoinLines(lines);
    if k == 0 {
      assert lines[0] <= j[0..];
    } else {
      JoinLinesContains(lines[1..], k - 1);
      assert lines[1..][k - 1] == lines[k];
      ContainsExtendLeft(lines[0] + "\n", JoinLines(lines[1..]), lines[k]);
    }
  }

  /** The parts written one after another, as an f-string lays out its pieces. */
  function Concat(parts: seq<string>): string {
    if parts == [] then "" else parts[0] + Concat(parts[1..])
  }

  /** Every part occurs in the concatenation. */
  lemma {:induction false} ConcatContains(parts: seq<string>, k: nat)
    requires k < |parts|
    ensures Contains(Concat(parts), parts[k])
    decreases |parts|
  {
    if k == 0 {
      assert parts[0] <= Concat(parts)[0..];
    } else {
      ConcatContains(parts[1..], k - 1);
      assert parts[1..][k - 1] == parts[k];
      ContainsExtendLeft(parts[0], Concat(parts[1..]), parts[k]);
    }
  }

  /** Python's s.replace(pat, ""): removes non-overlapping occurrences, left to right. */
  function RemoveAll(s: string, pat: string): (r: string)
    requires |pat| > 0
    ensures |r| <= |s|
    decreases |s|
  {
    if |s| < |pat| then s
    else if pat <= s then RemoveAll(s[|pat|..], pat)
    else [s[0]] + RemoveAll(s[1..], pat)
  }

  /** A prefix in which no occurrence of `pat` starts is kept as it is. */
  lemma {:induction false} RemoveAllKeepsPrefix(a: string, s: string, pat: string)
    requires |pat| > 0
    requires forall i :: 0 <= i < |a| ==> !(pat <= (a + s)[i..])
    ensures RemoveAll(a + s, pat) == a + RemoveAll(s, pat)
    decreases |a|
  {
    if a == [] {
      assert a + s == s;
    } else if |a + s| < |pat| {
    } else {
      var t := a[1..];
      assert !(pat <= (a + s)[0..]);
      assert (a + s)[1..] == t + s;
      forall i | 0 <= i < |t| ensures !(pat <= (t + s)[i..]) {
        assert (t + s)[i..] == (a + s)[i + 1..];
      }
      RemoveAllKeepsPrefix(t, s, pat);
    }
  }

  /** Text that does not contain `pat` comes back unchanged. */
  lemma RemoveAllAbsent(s: string, pat: string)
    requires |pat| > 0 && !Contains(s, pat)
    ensures RemoveAll(s, pat) == s
  {
    assert s + [] == s;
    forall i | 0 <= i < |s| ensures !(pat <= (s + [])[i..]) {
      assert !(pat <= s[i..]);
    }
    RemoveAllKeepsPrefix(s, [], pat);
  }

  /** A Markdown code fence. */
  const Fence: string := "```"

  /** No three consecutive backticks anywhere. */
  predicate NoFence(s: string) {
    forall i :: 0 <= i && i + 2 < |s| ==> !(s[i] == '`' && s[i + 1] == '`' && s[i + 2] == '`')
  }

  /** A "```" starts at index i. */
  predicate FenceAt(s: string, i: int) {
    0 <= i && i + 2 < |s| && s[i] == '`' && s[i + 1] == '`' && s[i + 2] == '`'
  }

  /** Where the first "```" at or after `from` starts, or |s| when there is none. */
  function FenceIndex(s: string, from: nat): (n: nat)
    requires from <= |s|
    ensures from <= n <= |s|
    ensures forall i :: from <= i < n ==> !FenceAt(s, i)
    ensures n < |s| ==> FenceAt(s, n)
    decreases |s| - from
  {
    if from == |s| || FenceAt(s, from) then from else FenceIndex(s, from + 1)
  }

  predicate AllSpace(s: string, rt: Runtime) {
    forall i :: 0 <= i < |s| ==> IsSpace(s[i], rt)
  }

  /** How many whitespace characters `s` starts with. */
  function LeadingSpace(s: string, rt: Runtime): (n: nat)
    ensures n <= |s|
    ensures forall i :: 0 <= i < n ==> IsSpace(s[i], rt)
    ensures n < |s| ==> !IsSpace(s[n], rt)
    decreases |s|
  {
    if s != [] && IsSpace(s[0], rt) then
      var n := 1 + LeadingSpace(s[1..], rt);
      assert forall i :: 1 <= i < n ==> s[i] == s[1..][i - 1];
      n
    else 0
  }

  /** How many whitespace characters `s` ends with. */
  function TrailingSpace(s: string, rt: Runtime): (n: nat)
    ensures n <= |s|
    ensures forall i :: |s| - n <= i < |s| ==> IsSpace(s[i], rt)
    ensures n < |s| ==> !IsSpace(s[|s| - 1 - n], rt)
    decreases |s|
  {
    if s != [] && IsSpace(s[|s| - 1], rt) then
      var n := 1 + TrailingSpace(s[..|s| - 1], rt);
      assert forall i :: |s| - n <= i < |s| - 1 ==> s[i] == s[..|s| - 1][i];
      n
    else 0
  }

  /** Drops leading whitespace: what is left is a suffix that does not start with whitespace. */
  function TrimStart(s: string, rt: Runtime): (r: string)
    ensures |r| <= |s| && r == s[|s| - |r|..]
    ensures r == [] || !IsSpace(r[0], rt)
  {
    s[LeadingSpace(s, rt)..]
  }

  /**
   * Text is all whitespace exactly when its leading run covers it; otherwise the
   * trailing run of what follows the leading one stops short of its start.
   */
  lemma SpaceSplit(s: string, rt: Runtime)
    ensures var a := LeadingSpace(s, rt);
      && (AllSpace(s, rt) <==> a == |s|)
      && (a < |s| ==> TrailingSpace(s[a..], rt) < |s| - a)
  {
    var a := LeadingSpace(s, rt);
    if a < |s| {
      assert !IsSpace(s[a..][0], rt);
    }
  }

  /**
   * Python str.strip() / JavaScript String.prototype.trim(): the text between
   * the leading and the trailing whitespace.
   */
  function Trim(s: string, rt: Runtime): (r: string)
    ensures r == [] || (!IsSpace(r[0], rt) && !IsSpace(r[|r| - 1], rt))
    ensures r == [] <==> AllSpace(s, rt)
    ensures LeadingSpace(s, rt) + |r| <= |s| && r == s[LeadingSpace(s, rt)..LeadingSpace(s, rt) + |r|]
  {
    var a := LeadingSpace(s, rt);
    var b := TrailingSpace(s[a..], rt);
    SpaceSplit(s, rt);
    var r := s[a..|s| - b];
    assert r != [] ==> r[0] == s[a..][0] && r[|r| - 1] == s[a..][|s| - a - 1 - b];
    r
  }

  /** Only whitespace follows the trimmed text. */
  lemma TrimTailSpace(s: string, rt: Runtime)
    ensures forall i :: LeadingSpace(s, rt) + |Trim(s, rt)| <= i < |s| ==> IsSpace(s[i], rt)
  {
    var a := LeadingSpace(s, rt);
    var t := s[a..];
    var b := TrailingSpace(t, rt);
    assert |Trim(s, rt)| == |s| - b - a;
    forall i | |s| - b <= i < |s| ensures IsSpace(s[i], rt) {
      assert s[i] == t[i - a];
    }
  }

  /** Text that neither starts nor ends with whitespace is its own trim. */
  lemma TrimKeepsUnpadded(s: string, rt: Runtime)
    requires s != [] && !IsSpace(s[0], rt) && !IsSpace(s[|s| - 1], rt)
    ensures Trim(s, rt) == s
  {
    assert LeadingSpace(s, rt) == 0;
    TrimTailSpace(s, rt);
  }

  predicate NoSpace(w: string) {
    forall i :: 0 <= i < |w| ==> !IsSpace(w[i], Python)
  }

  /** The length of the longest prefix holding no Python whitespace. */
  function WordLength(s: string): (n: nat)
    ensures n <= |s|
    ensures forall i :: 0 <= i < n ==> !IsSpace(s[i], Python)
    ensures n < |s| ==> IsSpace(s[n], Python)
  {
    if s == [] || IsSpace(s[0], Python) then 0
    else
      var n := 1 + WordLength(s[1..]);
      assert forall i :: 1 <= i < n ==> s[i] == s[1..][i - 1];
      n
  }

  /** A non-empty run of characters none of which is Python whitespace. */
  predicate IsWord(w: string) {
    w != [] && NoSpace(w)
  }

  predicate AllWords(ws: seq<string>) {
    forall k :: 0 <= k < |ws| ==> IsWord(ws[k])
  }

  /** Python's s.split() with no argument: the maximal runs of non-whitespace. */
  function SplitWords(s: string): (words: seq<string>)
    ensures AllWords(words)
    decreases |s|
  {
    if s == [] then []
    else if IsSpace(s[0], Python) then SplitWords(s[1..])
    else
      var n := WordLength(s);
      var rest := SplitWords(s[n..]);
      assert IsWord(s[..n]) by {
        assert forall i :: 0 <= i < n ==> s[..n][i] == s[i];
      }
      [s[..n]] + rest
  }

  lemma {:induction false} WordLengthAppend(t: string, rest: string)
    requires rest != [] && IsSpace(rest[0], Python)
    ensures WordLength(t + rest) == WordLength(t)
    decreases |t|
  {
    if t == [] {
      assert t + rest == rest;
    } else if !IsSpace(t[0], Python) {
      assert (t + rest)[1..] == t[1..] + rest;
      WordLengthAppend(t[1..], rest);
    }
  }

  /** Splitting at a whitespace boundary: no word straddles the first blank of `rest`. */
  lemma {:induction false} SplitWordsAtBlank(a: string, rest: string)
    requires rest != [] && IsSpace(rest[0], Python)
    ensures SplitWords(a + rest) == SplitWords(a) + SplitWords(rest)
    decreases |a|
  {
    if a == [] {
      assert a + rest == rest;
    } else if IsSpace(a[0], Python) {
      assert SplitWords(a + rest) == SplitWords(a[1..] + rest) by {
        assert (a + rest)[0] == a[0];
        assert (a + rest)[1..] == a[1..] + rest;
      }
      SplitWordsAtBlank(a[1..], rest);
    } else {
      var n := WordLength(a);
      WordLengthAppend(a, rest);
      assert SplitWords(a + rest) == [a[..n]] + SplitWords(a[n..] + rest) by {
        assert (a + rest)[0] == a[0];
        assert (a + rest)[..n] == a[..n];
        assert (a + rest)[n..] == a[n..] + rest;
      }
      SplitWordsAtBlank(a[n..], rest);
    }
  }

  /**
   * Appending " " + b to a text splits into the words of the text followed by
   * the words of b: the separating blank never glues two words together.
   */
  lemma SplitWordsAppendSpaced(a: string, b: string)
    ensures SplitWords(a + " " + b) == SplitWords(a) + SplitWords(b)
  {
    var rest := " " + b;
    assert a + " " + b == a + rest;
    SplitWordsAtBlank(a, rest);
    assert rest[1..] == b;
  }

  function DigitChar(d: nat): (c: char)
    requires d < 10
    ensures IsDigit(c)
  {
    ('0' as int + d) as char
  }

  function DigitValue(c: char): nat
    requires IsDigit(c)
  {
    c as int - '0' as int
  }

  /** Decimal rendering of a natural number, as Python's str(n) and JavaScript's `${n}`. */
  function NatToString(n: nat): (r: string)
    ensures |r| > 0
    ensures forall i :: 0 <= i < |r| ==> IsDigit(r[i])
    ensures |r| > 1 ==> r[0] != '0'
    decreases n
  {
    if n < 10 then [DigitChar(n)] else NatToString(n / 10) + [DigitChar(n % 10)]
  }

  /** The number a string of decimal digits denotes. */
  function DigitsValue(s: string): nat
    requires forall i :: 0 <= i < |s| ==> IsDigit(s[i])
  {
    if s == [] then 0 else DigitsValue(s[..|s| - 1]) * 10 + DigitValue(s[|s| - 1])
  }

  /** Rendering a number in decimal loses nothing: reading the digits back gives it. */
  lemma {:induction false} NatToStringRoundTrip(n: nat)
    ensures DigitsValue(NatToString(n)) == n
    decreases n
  {
    var r := NatToString(n);
    if n >= 10 {
      NatToStringRoundTrip(n / 10);
      assert r[..|r| - 1] == NatToString(n / 10);
    }
  }

  /** Decimal rendering of an integer, with a leading '-' for negatives. */
  function IntToString(n: int): (r: string)
    ensures |r| > 0
    ensures n >= 0 ==> r == NatToString(n)
    ensures n < 0 ==> r == "-" + NatToString(-n)
  {
    if n < 0 then "-" + NatToString(-n) else NatToString(n)
  }
}
