/**
  The pieces of Python's `str` that the pipeline relies on, written out over
  `seq<char>`: whitespace and digit classes, `strip`, `rstrip(chars)`,
  `lower`, the `in` substring test, `startswith`/`endswith`, `split('\n')`,
  `'\n'.join`, `replace`, `int(...)` on a digit string, `str(n)`, and the
  universal newlines of a file opened in text mode.
*/
module Text {

  // ---------------------------------------------------------------------
  // Character classes
  // ---------------------------------------------------------------------

  /** Python's `str.isspace()` for one character, which is also what the
      regex class `\s` and the argument-less `strip()` use. */
  predicate IsSpace(c: char) {
    var n := c as int;
    (9 <= n <= 13) || (28 <= n <= 32) || n == 0x85 || n == 0xA0 || n == 0x1680
    || (0x2000 <= n <= 0x200A) || n == 0x2028 || n == 0x2029 || n == 0x202F
    || n == 0x205F || n == 0x3000
  }

  /** The regex class `\d`, restricted to the ASCII digits. */
  predicate IsDigit(c: char) {
    '0' <= c <= '9'
  }

  /** A word character for the regex assertion `\b` (ASCII letters, digits, `_`). */
  predicate IsWordChar(c: char) {
    IsDigit(c) || ('a' <= c <= 'z') || ('A' <= c <= 'Z') || c == '_'
  }

  predicate AllDigits(s: string) {
    forall k | 0 <= k < |s| :: IsDigit(s[k])
  }

  predicate HasDigit(s: string) {
    exists k | 0 <= k < |s| :: IsDigit(s[k])
  }

  predicate NoSpace(s: string) {
    forall k | 0 <= k < |s| :: !IsSpace(s[k])
  }

  // ---------------------------------------------------------------------
  // Reading a file in text mode
  // ---------------------------------------------------------------------

  /** The text a file opened for reading in text mode yields: with
      universal newlines every `\r\n`, and every `\r` on its own, becomes
      one `\n`. */
  function UniversalNewlines(s: string): (r: string)
    ensures '\r' !in r && |r| <= |s|
    decreases |s|
  {
    if s == [] then []
    else if s[0] == '\r' then
      "\n" + UniversalNewlines(if |s| > 1 && s[1] == '\n' then s[2..] else s[1..])
    else [s[0]] + UniversalNewlines(s[1..])
  }

  /** Text without a carriage return is read back as written, whatever
      follows it. */
  lemma {:induction false} NewlinesKept(a: string, b: string)
    requires '\r' !in a
    ensures UniversalNewlines(a + b) == a + UniversalNewlines(b)
    decreases |a|
  {
    if a == [] {
      assert a + b == b;
    } else {
      assert (a + b)[0] == a[0];
      assert (a + b)[1..] == a[1..] + b;
      NewlinesKept(a[1..], b);
    }
  }

  /** A carriage return ends a line when the text is read back: `a`, a
      `\r` and `b` read as `a`, a newline, and `b` read back. */
  lemma {:induction false} ReturnEndsLine(a: string, b: string)
    requires '\r' !in a && (b == [] || b[0] != '\n')
    ensures UniversalNewlines(a + "\r" + b) == a + "\n" + UniversalNewlines(b)
  {
    NewlinesKept(a, "\r" + b);
    assert ("\r" + b)[1..] == b;
    assert a + "\r" + b == a + ("\r" + b);
  }

  // ---------------------------------------------------------------------
  // Case
  // ---------------------------------------------------------------------

  function LowerChar(c: char): char {
    if 'A' <= c <= 'Z' then (c as int + 32) as char else c
  }

  /** `s.lower()` on the ASCII letters; every other character is kept. */
  function Lower(s: string): (r: string)
    ensures |r| == |s|
    ensures forall k | 0 <= k < |s| :: r[k] == LowerChar(s[k])
  {
    if s == [] then [] else [LowerChar(s[0])] + Lower(s[1..])
  }

  // ---------------------------------------------------------------------
  // Prefixes, suffixes and substrings
  // ---------------------------------------------------------------------

  predicate StartsWith(s: string, p: string) {
    |p| <= |s| && s[..|p|] == p
  }

  predicate EndsWith(s: string, p: string) {
    |p| <= |s| && s[|s| - |p|..] == p
  }

  /** `p` occurs in `s` starting at index `i`. */
  predicate OccursAt(s: string, p: string, i: nat) {
    i + |p| <= |s| && s[i..i + |p|] == p
  }

  /** Python's `p in s` for strings: `p` occurs at some index. */
  predicate Contains(s: string, p: string) {
    ContainsFrom(s, p, 0)
  }

  /** `p` occurs in `s` at index `i` or later, tried left to right. */
  predicate ContainsFrom(s: string, p: string, i: nat)
    decreases |s| - i
  {
    MatchesAt(s, p, i) || (i < |s| && ContainsFrom(s, p, i + 1))
  }

  /** `p` occurs at index `i`, compared one character at a time. */
  predicate MatchesAt(s: string, p: string, i: nat)
    decreases |p|
  {
    if p == [] then i <= |s| else i < |s| && s[i] == p[0] && MatchesAt(s, p[1..], i + 1)
  }

  lemma {:induction false} MatchesAtIff(s: string, p: string, i: nat)
    ensures MatchesAt(s, p, i) <==> OccursAt(s, p, i)
    decreases |p|
  {
    if p != [] && i < |s| {
      MatchesAtIff(s, p[1..], i + 1);
      if i + |p| <= |s| {
        var t := s[i..i + |p|];
        assert t[1..] == s[i + 1..i + |p|];
        if t == p {
          assert s[i] == p[0] && t[1..] == p[1..];
        }
        if s[i] == p[0] && t[1..] == p[1..] {
          assert t == [t[0]] + t[1..] && p == [p[0]] + p[1..];
        }
      }
    }
  }

  /** An occurrence at a known index makes `p in s` true. */
  lemma {:induction false} ContainsWitness(s: string, p: string, i: nat)
    requires OccursAt(s, p, i)
    ensures Contains(s, p)
  {
    MatchesAtIff(s, p, i);
    ContainsFromWitness(s, p, 0, i);
  }

  lemma {:induction false} ContainsFromWitness(s: string, p: string, j: nat, i: nat)
    requires j <= i <= |s| && MatchesAt(s, p, i)
    ensures ContainsFrom(s, p, j)
    decreases i - j
  {
    if j < i {
      ContainsFromWitness(s, p, j + 1, i);
    }
  }

  /** When `p in s` holds, an index where `p` occurs. */
  lemma {:induction false} ContainsFind(s: string, p: string) returns (i: nat)
    requires Contains(s, p)
    ensures OccursAt(s, p, i)
  {
    i := ContainsFromFind(s, p, 0);
    MatchesAtIff(s, p, i);
  }

  lemma {:induction false} ContainsFromFind(s: string, p: string, j: nat) returns (i: nat)
    requires ContainsFrom(s, p, j)
    ensures j <= i && MatchesAt(s, p, i)
    decreases |s| - j
  {
    if MatchesAt(s, p, j) {
      i := j;
    } else {
      i := ContainsFromFind(s, p, j + 1);
    }
  }

  /** A character in front keeps an occurrence. */
  lemma {:induction false} ContainsCons(c: char, s: string, p: string)
    requires Contains(s, p)
    ensures Contains([c] + s, p)
  {
    var i := ContainsFind(s, p);
    assert ([c] + s)[i + 1..i + 1 + |p|] == s[i..i + |p|];
    ContainsWitness([c] + s, p, i + 1);
  }

  lemma {:induction false} NewlineInside(s: string, p: string, i: nat, j: nat)
    requires OccursAt(s, p, i) && i <= j < i + |p| && s[j] == '\n'
    ensures '\n' in p
  {
    assert p[j - i] == s[j];
  }

  /** An occurrence of a pattern without a newline never straddles a newline:
      so a pattern absent from both sides is absent from `a + "\n" + b`. */
  lemma {:induction false} NotContainsAcrossNewline(a: string, b: string, p: string)
    requires '\n' !in p && |p| > 0
    requires !Contains(a, p) && !Contains(b, p)
    ensures !Contains(a + "\n" + b, p)
  {
    var s := a + "\n" + b;
    if Contains(s, p) {
      var i := ContainsFind(s, p);
      NoStraddle(a, b, p, i);
    }
  }

  /** The case analysis behind NotContainsAcrossNewline, for one index. */
  lemma {:induction false} NoStraddle(a: string, b: string, p: string, i: nat)
    requires '\n' !in p
    requires OccursAt(a + "\n" + b, p, i)
    ensures Contains(a, p) || Contains(b, p)
  {
    var s := a + "\n" + b;
    if i + |p| <= |a| {
      assert s[i..i + |p|] == a[i..i + |p|];
      ContainsWitness(a, p, i);
    } else if i > |a| {
      assert s[i..i + |p|] == b[i - |a| - 1..i - |a| - 1 + |p|];
      ContainsWitness(b, p, i - |a| - 1);
    } else {
      assert s[|a|] == '\n';
      NewlineInside(s, p, i, |a|);
      assert false;
    }
  }

  // ---------------------------------------------------------------------
  // Whitespace trimming
  // ---------------------------------------------------------------------

  /** The first index at or after `i` that does not hold whitespace. */
  function SkipSpaces(s: string, i: nat): (j: nat)
    requires i <= |s|
    ensures i <= j <= |s|
    ensures forall k | i <= k < j :: IsSpace(s[k])
    ensures j == |s| || !IsSpace(s[j])
    decreases |s| - i
  {
    if i < |s| && IsSpace(s[i]) then SkipSpaces(s, i + 1) else i
  }

  /** The end of `s[..j]` once its trailing whitespace is dropped. */
  function TrimEnd(s: string, j: nat): (k: nat)
    requires j <= |s|
    ensures k <= j
    ensures forall m | k <= m < j :: IsSpace(s[m])
    ensures k == 0 || !IsSpace(s[k - 1])
  {
    if j > 0 && IsSpace(s[j - 1]) then TrimEnd(s, j - 1) else j
  }

  /** Python's `s.strip()`. */
  function Strip(s: string): (r: string)
    ensures |r| <= |s|
    ensures r != [] ==> !IsSpace(r[0]) && !IsSpace(r[|r| - 1])
  {
    var a := SkipSpaces(s, 0);
    var b := TrimEnd(s, |s|);
    if a < b then s[a..b] else []
  }

  predicate NoneButSpace(s: string) {
    forall k | 0 <= k < |s| :: IsSpace(s[k])
  }

  /** `s.strip()` is empty exactly when `s` is all whitespace. */
  lemma {:induction false} StripEmpty(s: string)
    ensures Strip(s) == [] <==> NoneButSpace(s)
  {
    var a := SkipSpaces(s, 0);
    if a < |s| {
      assert !IsSpace(s[a]);
    }
  }

  /** Stripping a string that has no surrounding whitespace changes nothing. */
  lemma {:induction false} StripUnchanged(s: string)
    requires s == [] || (!IsSpace(s[0]) && !IsSpace(s[|s| - 1]))
    ensures Strip(s) == s
  {
  }

  /** Stripping a trailing blank from an already stripped, non-empty string. */
  lemma {:induction false} StripTrailingBlank(s: string)
    requires s != [] && !IsSpace(s[0]) && !IsSpace(s[|s| - 1])
    ensures Strip(s + " ") == s
  {
    var t := s + " ";
    assert SkipSpaces(t, 0) == 0;
    assert TrimEnd(t, |t|) == |s|;
    assert t[..|s|] == s;
  }

  /** A piece whose first and last characters are not whitespace, found
      inside `s`, is still inside `s.strip()`. */
  lemma {:induction false} StripKeeps(s: string, p: string, i: nat)
    requires OccursAt(s, p, i) && |p| > 0
    requires !IsSpace(p[0]) && !IsSpace(p[|p| - 1])
    ensures Contains(Strip(s), p)
  {
    var a := SkipSpaces(s, 0);
    var b := TrimEnd(s, |s|);
    assert s[i] == p[0] && s[i + |p| - 1] == p[|p| - 1];
    assert a <= i && i + |p| <= b;
    assert Strip(s) == s[a..b];
    OccursInSlice(s, p, i, a, b);
    ContainsWitness(s[a..b], p, i - a);
  }

  /** An occurrence inside `s[a..b]` is an occurrence in that slice. */
  lemma {:induction false} OccursInSlice(s: string, p: string, i: nat, a: nat, b: nat)
    requires OccursAt(s, p, i) && a <= i && i + |p| <= b <= |s|
    ensures OccursAt(s[a..b], p, i - a)
  {
    var t := s[a..b];
    forall k | 0 <= k < |p|
      ensures t[i - a..i - a + |p|][k] == p[k]
    {
      assert t[i - a + k] == s[i + k];
      assert s[i..i + |p|][k] == s[i + k];
    }
    assert t[i - a..i - a + |p|] == p;
  }

  /** Python's `s.rstrip(chars)`: drop trailing characters that are in `cs`. */
  function RStripChars(s: string, cs: set<char>): (r: string)
    ensures |r| <= |s| && r == s[..|r|]
    ensures r == [] || r[|r| - 1] !in cs
    ensures forall k | |r| <= k < |s| :: s[k] in cs
  {
    if |s| > 0 && s[|s| - 1] in cs then RStripChars(s[..|s| - 1], cs) else s
  }

  /** A stripped character at the end is dropped. */
  lemma {:induction false} RStripDrops(s: string, c: char, cs: set<char>)
    requires c in cs
    ensures RStripChars(s + [c], cs) == RStripChars(s, cs)
  {
    assert (s + [c])[..|s|] == s;
  }

  /** A text that does not end in a stripped character is kept. */
  lemma {:induction false} RStripStops(s: string, cs: set<char>)
    requires s != [] && s[|s| - 1] !in cs
    ensures RStripChars(s, cs) == s
  {
  }

  // ---------------------------------------------------------------------
  // split('\n') and '\n'.join
  // ---------------------------------------------------------------------

  /** Python's `s.split('\n')`: the pieces between newlines, at least one. */
  function SplitLines(s: string): (r: seq<string>)
    ensures |r| >= 1
    ensures forall k | 0 <= k < |r| :: '\n' !in r[k]
    decreases |s|
  {
    if |s| == 0 then [""]
    else
      var rest := SplitLines(s[1..]);
      if s[0] == '\n' then [""] + rest
      else [[s[0]] + rest[0]] + rest[1..]
  }

  /** Python's `'\n'.join(ls)`. */
  function JoinLines(ls: seq<string>): string
  {
    if |ls| == 0 then ""
    else if |ls| == 1 then ls[0]
    else ls[0] + "\n" + JoinLines(ls[1..])
  }

  /** Joining the pieces of a split gives the text back. */
  lemma {:induction false} JoinSplit(s: string)
    ensures JoinLines(SplitLines(s)) == s
    decreases |s|
  {
    if |s| > 0 {
      var rest := SplitLines(s[1..]);
      JoinSplit(s[1..]);
      if s[0] == '\n' {
        assert SplitLines(s) == [""] + rest;
        assert ([""] + rest)[1..] == rest;
      } else {
        var r := SplitLines(s);
        assert r == [[s[0]] + rest[0]] + rest[1..];
        if |rest| == 1 {
          assert r == [[s[0]] + rest[0]];
        } else {
          assert r[1..] == rest[1..];
          assert JoinLines(rest) == rest[0] + "\n" + JoinLines(rest[1..]);
        }
      }
    }
  }

  /** Splitting a join of newline-free lines gives the lines back. */
  lemma {:induction false} SplitJoin(ls: seq<string>)
    requires |ls| >= 1
    requires forall k | 0 <= k < |ls| :: '\n' !in ls[k]
    ensures SplitLines(JoinLines(ls)) == ls
    decreases |ls|, |ls[0]|
  {
    if |ls[0]| == 0 {
      if |ls| > 1 {
        SplitJoin(ls[1..]);
        assert JoinLines(ls) == "\n" + JoinLines(ls[1..]);
        assert JoinLines(ls)[1..] == JoinLines(ls[1..]);
      }
    } else {
      var c := ls[0][0];
      var ls' := [ls[0][1..]] + ls[1..];
      assert '\n' !in ls'[0] by {
        assert forall k | 0 <= k < |ls[0][1..]| :: ls[0][1..][k] == ls[0][k + 1];
      }
      SplitJoin(ls');
      assert JoinLines(ls) == [c] + JoinLines(ls') by {
        if |ls| == 1 {
          assert ls[0] == [c] + ls[0][1..];
        } else {
          assert ls'[1..] == ls[1..];
          assert ls[0] == [c] + ls[0][1..];
        }
      }
      assert JoinLines(ls)[1..] == JoinLines(ls');
      assert c != '\n';
      assert [c] + ls'[0] == ls[0];
      assert ls == [ls[0]] + ls[1..];
      assert ls'[1..] == ls[1..];
    }
  }

  /** `'\n'.join` of two non-empty lists of lines. */
  lemma {:induction false} JoinAppend(a: seq<string>, b: seq<string>)
    requires |a| > 0 && |b| > 0
    ensures JoinLines(a + b) == JoinLines(a) + "\n" + JoinLines(b)
    decreases |a|
  {
    if |a| == 1 {
      assert (a + b)[1..] == b;
    } else {
      assert (a + b)[1..] == a[1..] + b;
      JoinAppend(a[1..], b);
    }
  }

  // ---------------------------------------------------------------------
  // replace
  // ---------------------------------------------------------------------

  /** Python's `s.replace(p, r)` for a non-empty `p`: left to right,
      non-overlapping. */
  function Replace(s: string, p: string, r: string): string
    requires |p| > 0
    decreases |s|
  {
    if |s| == 0 then []
    else if StartsWith(s, p) then r + Replace(s[|p|..], p, r)
    else [s[0]] + Replace(s[1..], p, r)
  }

  /** Replacing one character by another is a character-wise map. */
  lemma {:induction false} ReplaceChar(s: string, a: char, b: char)
    ensures |Replace(s, [a], [b])| == |s|
    ensures forall k | 0 <= k < |s| :: Replace(s, [a], [b])[k] == if s[k] == a then b else s[k]
    decreases |s|
  {
    if |s| > 0 {
      ReplaceChar(s[1..], a, b);
    }
  }

  /** Deleting one character keeps every other character, in order. */
  lemma {:induction false} DeleteChar(s: string, a: char)
    ensures a !in Replace(s, [a], "")
    ensures forall c | c != a :: multiset(Replace(s, [a], ""))[c] == multiset(s)[c]
    decreases |s|
  {
    if |s| > 0 {
      DeleteChar(s[1..], a);
      assert s == [s[0]] + s[1..];
    }
  }

  /** Deleting every `p` keeps a prefix `w` that shares no character with `p`'s head. */
  lemma {:induction false} DeleteKeepsPrefix(s: string, p: string, w: string)
    requires |p| > 0 && p[0] !in w && StartsWith(s, w)
    ensures StartsWith(Replace(s, p, ""), w)
    decreases |w|
  {
    if |w| > 0 {
      assert s[0] == w[0];
      assert !StartsWith(s, p);
      assert s[1..][..|w| - 1] == w[1..];
      DeleteKeepsPrefix(s[1..], p, w[1..]);
      assert Replace(s, p, "") == [s[0]] + Replace(s[1..], p, "");
    }
  }

  /** Deleting every `p` keeps an occurrence of `w` when no occurrence of `p`
      can overlap it: `p`'s head is not in `w`, and `w`'s head is not in the
      rest of `p`. */
  lemma {:induction false} DeleteKeeps(s: string, p: string, w: string, i: nat)
    requires |p| > 0 && |w| > 0 && p[0] !in w && w[0] !in p[1..]
    requires OccursAt(s, w, i)
    ensures Contains(Replace(s, p, ""), w)
    decreases |s|
  {
    assert s[i] == w[0];
    if StartsWith(s, p) {
      assert forall k | 0 <= k < |p| :: s[k] == p[k];
      assert forall k | 1 <= k < |p| :: p[1..][k - 1] == p[k];
      assert w[0] in w;
      assert i >= |p|;
      assert s[|p|..][i - |p|..i - |p| + |w|] == s[i..i + |w|];
      DeleteKeeps(s[|p|..], p, w, i - |p|);
      assert |s| > 0;
      assert Replace(s, p, "") == "" + Replace(s[|p|..], p, "");
      assert "" + Replace(s[|p|..], p, "") == Replace(s[|p|..], p, "");
    } else if i == 0 {
      assert s[..|w|] == w;
      DeleteKeepsPrefix(s, p, w);
      ContainsWitness(Replace(s, p, ""), w, 0);
    } else {
      assert s[1..][i - 1..i - 1 + |w|] == s[i..i + |w|];
      DeleteKeeps(s[1..], p, w, i - 1);
      assert Replace(s, p, "") == [s[0]] + Replace(s[1..], p, "");
      ContainsCons(s[0], Replace(s[1..], p, ""), w);
    }
  }

  // ---------------------------------------------------------------------
  // int(...) and str(n)
  // ---------------------------------------------------------------------

  function DigitValue(c: char): nat
    requires IsDigit(c)
  {
    c as int - '0' as int
  }

  function DigitChar(d: nat): (c: char)
    requires d < 10
    ensures IsDigit(c) && DigitValue(c) == d
  {
    ('0' as int + d) as char
  }

  /** Python's `int(s)` for a string of ASCII digits. */
  function DigitsValue(s: string): nat
    requires AllDigits(s)
  {
    if |s| == 0 then 0 else DigitsValue(s[..|s| - 1]) * 10 + DigitValue(s[|s| - 1])
  }

  /** Python's `str(n)` for a natural number. */
  function NatToString(n: nat): (r: string)
    ensures |r| >= 1 && AllDigits(r)
    ensures r[0] == '0' ==> n == 0
  {
    if n < 10 then [DigitChar(n)] else NatToString(n / 10) + [DigitChar(n % 10)]
  }

  /** `int(str(n)) == n`. */
  lemma {:induction false} NatToStringValue(n: nat)
    ensures DigitsValue(NatToString(n)) == n
  {
    if n >= 10 {
      NatToStringValue(n / 10);
      var r := NatToString(n);
      assert r[..|r| - 1] == NatToString(n / 10);
    }
  }
}
