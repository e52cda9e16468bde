/** Python `str` operations the repository relies on, over `seq<char>`.
    Only ASCII case mapping, ASCII digits and ASCII whitespace are modelled. */
module Strings {
  import opened Wrappers

  // ---------------------------------------------------------------------
  // Prefixes, suffixes and searching
  // ---------------------------------------------------------------------

  /** Python `s.startswith(p)`. */
  predicate StartsWith(s: string, p: string) {
    |p| <= |s| && s[..|p|] == p
  }

  /** Python `s.endswith(p)`. */
  predicate EndsWith(s: string, p: string) {
    |p| <= |s| && s[|s| - |p|..] == p
  }

  /** `sep` occurs in `s` starting at position `j`. */
  predicate MatchAt(s: string, sep: string, j: nat) {
    j + |sep| <= |s| && s[j..j + |sep|] == sep
  }

  /** First position at or after `i` where `sep` occurs. */
  function FindFrom(s: string, sep: string, i: nat): (r: Option<nat>)
    requires i <= |s|
    ensures r.Some? ==> i <= r.value && MatchAt(s, sep, r.value)
    ensures r.Some? ==> forall j: nat :: i <= j < r.value ==> !MatchAt(s, sep, j)
    ensures r.None? ==> forall j: nat :: i <= j <= |s| ==> !MatchAt(s, sep, j)
    decreases |s| - i
  {
    if MatchAt(s, sep, i) then Some(i)
    else if i == |s| then None
    else FindFrom(s, sep, i + 1)
  }

  /** Python `s.find(sep)`, with `None` standing for -1. */
  function Find(s: string, sep: string): Option<nat> {
    FindFrom(s, sep, 0)
  }

  /** Python `sub in s`. */
  predicate Contains(s: string, sub: string) {
    Find(s, sub).Some?
  }

  /** `Contains` agrees with the direct reading "some position matches". */
  lemma ContainsIff(s: string, sub: string)
    ensures Contains(s, sub) <==> exists j: nat :: j <= |s| && MatchAt(s, sub, j)
  {
    if Contains(s, sub) {
      assert MatchAt(s, sub, Find(s, sub).value);
    }
  }

  /** Any occurrence of `sub` inside a prefix `s + t` taken from the left part is an occurrence in the whole. */
  lemma ContainsPrefix(s: string, t: string, sub: string)
    requires Contains(s, sub)
    ensures Contains(s + t, sub)
  {
    ContainsIff(s, sub);
    var j: nat :| j <= |s| && MatchAt(s, sub, j);
    assert (s + t)[j..j + |sub|] == s[j..j + |sub|];
    assert MatchAt(s + t, sub, j);
    ContainsIff(s + t, sub);
  }

  /** A string containing a needle keeps containing it when text is put in front. */
  lemma ContainsSuffix(t: string, s: string, sub: string)
    requires Contains(s, sub)
    ensures Contains(t + s, sub)
  {
    ContainsIff(s, sub);
    var j: nat :| j <= |s| && MatchAt(s, sub, j);
    assert (t + s)[|t| + j..|t| + j + |sub|] == s[j..j + |sub|];
    assert MatchAt(t + s, sub, |t| + j);
    ContainsIff(t + s, sub);
  }

  // ---------------------------------------------------------------------
  // partition / split / join
  // ---------------------------------------------------------------------

  /** No occurrence of `sep` lies inside the text before its first occurrence. */
  lemma PrefixBeforeMatch(s: string, sep: string, p: nat)
    requires |sep| > 0 && p <= |s| && forall j: nat :: j < p ==> !MatchAt(s, sep, j)
    ensures !Contains(s[..p], sep)
  {
    match Find(s[..p], sep)
    case None =>
    case Some(j) =>
      assert s[..p][j..j + |sep|] == s[j..j + |sep|];
      assert MatchAt(s, sep, j);
  }

  datatype Parts = Parts(before: string, found: bool, after: string)

  /** Python `s.partition(sep)`: cut at the first occurrence of `sep`. */
  function Partition(s: string, sep: string): (r: Parts)
    requires |sep| > 0
    ensures r.found ==> s == r.before + sep + r.after
    ensures r.found ==> forall j: nat :: j < |r.before| ==> !MatchAt(s, sep, j)
    ensures r.found ==> !Contains(r.before, sep)
    ensures !r.found ==> r.before == s && r.after == "" && !Contains(s, sep)
    ensures r.found <==> Contains(s, sep)
  {
    match Find(s, sep)
    case None => Parts(s, false, "")
    case Some(p) =>
      assert s == s[..p] + sep + s[p + |sep|..];
      PrefixBeforeMatch(s, sep, p);
      Parts(s[..p], true, s[p + |sep|..])
  }

  /** Python `"sep".join(xs)`. */
  function Join(xs: seq<string>, sep: string): string {
    if |xs| == 0 then ""
    else if |xs| == 1 then xs[0]
    else xs[0] + sep + Join(xs[1..], sep)
  }

  /** Python `s.split(sep)` for a non-empty separator: joining the pieces
      back with `sep` gives `s` again, and there is always at least one piece. */
  function Split(s: string, sep: string): (r: seq<string>)
    requires |sep| > 0
    ensures |r| >= 1
    ensures Join(r, sep) == s
    decreases |s|
  {
    var p := Partition(s, sep);
    if !p.found then [s]
    else
      var rest := Split(p.after, sep);
      assert Join([p.before] + rest, sep) == p.before + sep + Join(rest, sep);
      [p.before] + rest
  }

  /** When the first character of `sep` does not occur in `k`, the first
      occurrence of `sep` in `k + sep + s` is the one right after `k`. */
  lemma FindAfterPrefix(k: string, s: string, sep: string)
    requires |sep| > 0 && sep[0] !in k
    ensures Find(k + sep + s, sep) == Some(|k|)
  {
    var t := k + sep + s;
    assert MatchAt(t, sep, |k|) by { assert t[|k|..|k| + |sep|] == sep; }
  }

  /** Splitting a join of pieces in which the separator's first character
      never occurs gives back the pieces. */
  lemma {:induction false} SplitJoinNoSep(items: seq<string>, sep: string)
    requires |sep| > 0 && |items| > 0
    requires forall i :: 0 <= i < |items| ==> sep[0] !in items[i]
    ensures Split(Join(items, sep), sep) == items
    decreases |items|
  {
    if |items| > 1 {
      var rest := Join(items[1..], sep);
      var t := Join(items, sep);
      assert t == items[0] + sep + rest;
      SplitJoinNoSep(items[1..], sep);
      FindAfterPrefix(items[0], rest, sep);
      var p := Partition(t, sep);
      assert p.before == t[..|items[0]|] == items[0];
      assert p.after == t[|items[0]| + |sep|..] == rest;
      assert Split(t, sep) == [items[0]] + Split(rest, sep);
      assert items == [items[0]] + items[1..];
    } else {
      NoFirstCharNoMatch(items[0], sep);
    }
  }

  /** A string without the separator's first character does not contain it. */
  lemma NoFirstCharNoMatch(s: string, sep: string)
    requires |sep| > 0 && sep[0] !in s
    ensures !Contains(s, sep)
  {
  }

  /** Python `s.split(sep, 1)`: at most two pieces, cut at the first occurrence. */
  function SplitOnce(s: string, sep: string): (r: seq<string>)
    requires |sep| > 0
    ensures 1 <= |r| <= 2
    ensures Join(r, sep) == s
    ensures |r| == 2 <==> Contains(s, sep)
  {
    var p := Partition(s, sep);
    if p.found then [p.before, p.after] else [s]
  }

  // ---------------------------------------------------------------------
  // Whitespace, case and character replacement
  // ---------------------------------------------------------------------

  /** The characters Python's `str.strip()`/`str.split()` treat as whitespace (ASCII part). */
  predicate IsSpace(c: char) {
    c == ' ' || c == '\t' || c == '\n' || c == '\r' || c == '\U{000B}' || c == '\U{000C}'
  }

  function LStrip(s: string): (r: string)
    ensures |r| <= |s| && r == s[|s| - |r|..]
    ensures |r| > 0 ==> !IsSpace(r[0])
    ensures forall i :: 0 <= i < |s| - |r| ==> IsSpace(s[i])
  {
    if |s| > 0 && IsSpace(s[0]) then LStrip(s[1..]) else s
  }

  function RStrip(s: string): (r: string)
    ensures |r| <= |s| && r == s[..|r|]
    ensures |r| > 0 ==> !IsSpace(r[|r| - 1])
    ensures forall i :: |r| <= i < |s| ==> IsSpace(s[i])
  {
    if |s| > 0 && IsSpace(s[|s| - 1]) then RStrip(s[..|s| - 1]) else s
  }

  /** Python `s.strip()`. */
  function Strip(s: string): (r: string)
    ensures |r| > 0 ==> !IsSpace(r[0]) && !IsSpace(r[|r| - 1])
  {
    RStrip(LStrip(s))
  }

  /** A string is blank when stripping leaves nothing (Python `not s.strip()`). */
  predicate IsBlank(s: string) {
    Strip(s) == ""
  }

  /** Python `s.rstrip(c)` for one character `c`. */
  function RStripChar(s: string, c: char): (r: string)
    ensures |r| <= |s| && r == s[..|r|]
    ensures |r| > 0 ==> r[|r| - 1] != c
    ensures forall i :: |r| <= i < |s| ==> s[i] == c
  {
    if |s| > 0 && s[|s| - 1] == c then RStripChar(s[..|s| - 1], c) else s
  }

  /** Python `s.lstrip(c)` for one character `c`. */
  function LStripChar(s: string, c: char): (r: string)
    ensures |r| <= |s| && r == s[|s| - |r|..]
    ensures |r| > 0 ==> r[0] != c
  {
    if |s| > 0 && s[0] == c then LStripChar(s[1..], c) else s
  }

  /** Python `s.strip(c)` for one character `c`. */
  function StripChar(s: string, c: char): (r: string)
    ensures |r| > 0 ==> r[0] != c && r[|r| - 1] != c
  {
    RStripChar(LStripChar(s, c), c)
  }

  function LowerChar(c: char): char {
    if 'A' <= c <= 'Z' then (c as int + 32) as char else c
  }

  /** Python `s.lower()` on the ASCII range. */
  function Lower(s: string): (r: string)
    ensures |r| == |s|
    ensures forall i :: 0 <= i < |s| ==> r[i] == LowerChar(s[i])
  {
    if |s| == 0 then "" else [LowerChar(s[0])] + Lower(s[1..])
  }

  /** Python `s.replace(a, b)` for single characters. */
  function ReplaceChar(s: string, a: char, b: char): (r: string)
    ensures |r| == |s|
    ensures forall i :: 0 <= i < |s| ==> r[i] == (if s[i] == a then b else s[i])
  {
    if |s| == 0 then "" else [if s[0] == a then b else s[0]] + ReplaceChar(s[1..], a, b)
  }

  /** Python `s.replace(a, "")` for a single character. */
  function RemoveChar(s: string, a: char): (r: string)
    ensures a !in r
    ensures |r| <= |s|
    ensures a !in s ==> r == s
  {
    if |s| == 0 then ""
    else if s[0] == a then RemoveChar(s[1..], a)
    else [s[0]] + RemoveChar(s[1..], a)
  }

  /** A non-empty piece of text without whitespace. */
  predicate IsWord(w: string) {
    |w| > 0 && forall i :: 0 <= i < |w| ==> !IsSpace(w[i])
  }

  /** Python `s.split()` with no argument: the maximal runs of non-whitespace. */
  function SplitWhitespace(s: string): (r: seq<string>)
    ensures |r| > 0 <==> |LStrip(s)| > 0
    decreases |s|
  {
    if |LStrip(s)| == 0 then []
    else
      var next := NextWord(s);
      [next.0] + SplitWhitespace(next.1)
  }

  /** Every piece `s.split()` yields is a non-empty run of non-whitespace. */
  lemma {:induction false} SplitWhitespaceWords(s: string)
    ensures forall k :: 0 <= k < |SplitWhitespace(s)| ==> IsWord(SplitWhitespace(s)[k])
    decreases |s|
  {
    if |LStrip(s)| > 0 {
      var next := NextWord(s);
      var words := SplitWhitespace(next.1);
      SplitWhitespaceWords(next.1);
      WordsCons(next.0, words);
    }
  }

  /** A word in front of words gives words. */
  lemma WordsCons(w: string, words: seq<string>)
    requires IsWord(w) && forall k :: 0 <= k < |words| ==> IsWord(words[k])
    ensures forall k :: 0 <= k < |[w] + words| ==> IsWord(([w] + words)[k])
  {
    forall k | 0 <= k < |[w] + words| ensures IsWord(([w] + words)[k]) {
      if k > 0 {
        assert ([w] + words)[k] == words[k - 1];
      }
    }
  }

  /** The first word of `s` after its leading whitespace, and the text after it. */
  function NextWord(s: string): (r: (string, string))
    requires |LStrip(s)| > 0
    ensures IsWord(r.0) && |r.1| < |s|
  {
    var t := LStrip(s);
    var w := WordPrefix(t);
    (w, t[|w|..])
  }

  /** The longest whitespace-free prefix of `s`. */
  function WordPrefix(s: string): (r: string)
    ensures |r| <= |s| && r == s[..|r|]
    ensures forall i :: 0 <= i < |r| ==> !IsSpace(r[i])
    ensures |r| < |s| ==> IsSpace(s[|r|])
    ensures |s| > 0 && !IsSpace(s[0]) ==> |r| > 0
  {
    if |s| == 0 || IsSpace(s[0]) then "" else [s[0]] + WordPrefix(s[1..])
  }

  // ---------------------------------------------------------------------
  // Decimal numbers
  // ---------------------------------------------------------------------

  predicate IsDigit(c: char) {
    '0' <= c <= '9'
  }

  /** Python `s.isdigit()` (ASCII digits): non-empty and digits only. */
  predicate IsDigits(s: string) {
    |s| > 0 && forall i :: 0 <= i < |s| ==> IsDigit(s[i])
  }

  /** The value of one decimal digit. */
  function DigitOf(c: char): nat
    requires IsDigit(c)
  {
    c as int - '0' as int
  }

  /** The value of a string of decimal digits. */
  function DigitsValue(s: string): nat
    requires forall i :: 0 <= i < |s| ==> IsDigit(s[i])
  {
    if |s| == 0 then 0 else DigitsValue(s[..|s| - 1]) * 10 + DigitOf(s[|s| - 1])
  }

  /** Python `str(n)` for a natural number. */
  function NatToString(n: nat): (r: string)
    ensures IsDigits(r)
    ensures DigitsValue(r) == n
    ensures |r| > 1 ==> r[0] != '0'
    decreases n
  {
    if n < 10 then [('0' as int + n) as char]
    else
      var prefix := NatToString(n / 10);
      var r := prefix + [('0' as int + n % 10) as char];
      assert r[..|r| - 1] == prefix;
      r
  }

  /** Python `str(i)` for any integer. */
  function IntToString(i: int): string {
    if i < 0 then "-" + NatToString(-i) else NatToString(i)
  }

  /** Digit strings without a superfluous leading zero are exactly the ones
      `str(int(s))` gives back unchanged. */
  lemma {:induction false} CanonicalDigits(s: string)
    requires IsDigits(s)
    ensures NatToString(DigitsValue(s)) == s <==> (|s| == 1 || s[0] != '0')
  {
    if |s| == 1 || s[0] != '0' {
      CanonicalDigitsPositive(s);
    } else {
      var r := NatToString(DigitsValue(s));
      if r == s {
        assert false;
      }
    }
  }

  lemma {:induction false} CanonicalDigitsPositive(s: string)
    requires IsDigits(s)
    requires |s| == 1 || s[0] != '0'
    ensures NatToString(DigitsValue(s)) == s
    decreases |s|
  {
    if |s| == 1 {
    } else {
      var p := s[..|s| - 1];
      assert p[0] == s[0];
      CanonicalDigitsPositive(p);
      DigitsPositiveLarge(p);
      var n := DigitsValue(s);
      assert n / 10 == DigitsValue(p);
      assert n % 10 == DigitOf(s[|s| - 1]);
      assert s == p + [s[|s| - 1]];
    }
  }

  /** A digit string whose first digit is not 0 has at least the value of its leading power of ten. */
  lemma {:induction false} DigitsPositiveLarge(s: string)
    requires IsDigits(s)
    requires s[0] != '0'
    ensures DigitsValue(s) >= 1
    decreases |s|
  {
    if |s| > 1 {
      var p := s[..|s| - 1];
      assert p[0] == s[0];
      DigitsPositiveLarge(p);
    }
  }

  /** Text that starts and ends with a non-space is its own strip. */
  lemma StripUnpadded(s: string)
    requires |s| > 0 && !IsSpace(s[0]) && !IsSpace(s[|s| - 1])
    ensures Strip(s) == s
  {
    assert LStrip(s) == s;
  }

  /** Python `int(s)` on text: surrounding whitespace, an optional sign and
      ASCII digits. `None` stands for the `ValueError` Python raises. */
  function PyIntOfStr(s: string): (r: Option<int>)
    ensures IsDigits(s) ==> r == Some(DigitsValue(s))
  {
    var t := Strip(s);
    if IsDigits(t) then Some(DigitsValue(t))
    else if |t| > 1 && t[0] == '+' && IsDigits(t[1..]) then Some(DigitsValue(t[1..]))
    else if |t| > 1 && t[0] == '-' && IsDigits(t[1..]) then Some(0 - DigitsValue(t[1..]) as int)
    else None
  }

  /** `int(str(i)) == i` for every integer. */
  lemma PyIntRoundTrip(i: int)
    ensures PyIntOfStr(IntToString(i)) == Some(i)
  {
    if i < 0 {
      var d := NatToString(-i);
      var t := "-" + d;
      assert t[1..] == d;
      StripUnpadded(t);
      assert !IsDigits(t);
    }
  }

  /** Python `re.findall(r'\d+', s)`: the maximal runs of digits, in order. */
  function DigitRuns(s: string): (r: seq<string>)
    ensures forall k :: 0 <= k < |r| ==> IsDigits(r[k])
    ensures (forall i :: 0 <= i < |s| ==> !IsDigit(s[i])) ==> r == []
    decreases |s|
  {
    if |s| == 0 then []
    else if !IsDigit(s[0]) then DigitRuns(s[1..])
    else
      var d := DigitPrefix(s);
      [d] + DigitRuns(s[|d|..])
  }

  /** The longest prefix of `s` made of digits. */
  function DigitPrefix(s: string): (r: string)
    ensures |r| <= |s| && r == s[..|r|]
    ensures forall i :: 0 <= i < |r| ==> IsDigit(r[i])
    ensures |s| > 0 && IsDigit(s[0]) ==> |r| > 0
  {
    if |s| == 0 || !IsDigit(s[0]) then "" else [s[0]] + DigitPrefix(s[1..])
  }

  /** A string with a digit somewhere has at least one digit run. */
  lemma {:induction false} DigitRunsNonEmpty(s: string, i: nat)
    requires i < |s| && IsDigit(s[i])
    ensures |DigitRuns(s)| > 0
    decreases |s|
  {
    if !IsDigit(s[0]) {
      DigitRunsNonEmpty(s[1..], i - 1);
    }
  }

  // ---------------------------------------------------------------------
  // Ordering
  // ---------------------------------------------------------------------

  /** Python `a < b` on strings: lexicographic by code point, a proper
      prefix coming first. */
  predicate StrLess(a: string, b: string)
    decreases |a|
  {
    if |a| == 0 then |b| > 0
    else if |b| == 0 then false
    else if a[0] != b[0] then a[0] < b[0]
    else StrLess(a[1..], b[1..])
  }

  lemma {:induction false} StrLessIrreflexive(a: string)
    ensures !StrLess(a, a)
    decreases |a|
  {
    if |a| > 0 {
      StrLessIrreflexive(a[1..]);
    }
  }

  lemma {:induction false} StrLessTransitive(a: string, b: string, c: string)
    requires StrLess(a, b) && StrLess(b, c)
    ensures StrLess(a, c)
    decreases |a|
  {
    if |a| > 0 && a[0] == b[0] && b[0] == c[0] {
      StrLessTransitive(a[1..], b[1..], c[1..]);
    }
  }

  /** Two different strings are always ordered one way or the other. */
  lemma {:induction false} StrLessTotal(a: string, b: string)
    ensures a == b || StrLess(a, b) || StrLess(b, a)
    decreases |a|
  {
    if |a| > 0 && |b| > 0 && a[0] == b[0] {
      StrLessTotal(a[1..], b[1..]);
      if a[1..] == b[1..] {
        assert a == [a[0]] + a[1..] && b == [b[0]] + b[1..];
      }
    }
  }
}
