/**
  Hand-written recognisers for the regular expressions the OCR field
  extractor uses (03_ss_to_json.py). Each `...At(s, p)` function says what
  Python's backtracking matcher does when a match is attempted at index `p`:
  quantifiers are greedy, alternatives are tried in order, and the first
  successful path decides the groups. `...Search` functions are `re.search`
  (the leftmost start that matches); `DateFindAll` is `re.findall`.
*/
module Patterns {
  import opened Wrappers
  import opened Text

  /** The number of consecutive digits at `s[i..]`, at most `max` (a greedy `\d{..max}`). */
  function DigitRun(s: string, i: nat, max: nat): (n: nat)
    requires i <= |s|
    ensures n <= max && i + n <= |s|
    ensures forall k | i <= k < i + n :: IsDigit(s[k])
    ensures n == max || i + n == |s| || !IsDigit(s[i + n])
    decreases max
  {
    if max > 0 && i < |s| && IsDigit(s[i]) then 1 + DigitRun(s, i + 1, max - 1) else 0
  }

  /** One of the three-letter `words` starts at index `i`. */
  predicate WordAt(s: string, i: nat, words: seq<string>) {
    i + 3 <= |s| && s[i..i + 3] in words
  }

  // ---------------------------------------------------------------------
  // Date: (?:Mon|Tue|Wed|Thu|Fri|Sat|Sun)?\s*\d{1,2}\s+(?:Jan|...|Dec)\s+\d{4}
  // ---------------------------------------------------------------------

  const Weekdays: seq<string> := ["Mon", "Tue", "Wed", "Thu", "Fri", "Sat", "Sun"]
  const Months: seq<string> :=
    ["Jan", "Feb", "Mar", "Apr", "May", "Jun", "Jul", "Aug", "Sep", "Oct", "Nov", "Dec"]

  /** The end of the date match that starts at `p`, if there is one. A
      weekday that is present must be used (without it the digits cannot
      start on a letter); two day digits must be followed by whitespace
      (backing off to one digit leaves a digit where `\s+` is needed). */
  function DateAt(s: string, p: nat): (e: Option<nat>)
    requires p <= |s|
    ensures e.Some? ==> p + 4 <= e.value <= |s| && AllDigits(s[e.value - 4..e.value])
  {
    var a := if WordAt(s, p, Weekdays) then p + 3 else p;
    var b := SkipSpaces(s, a);
    var n := DigitRun(s, b, 2);
    if n == 0 || b + n >= |s| || !IsSpace(s[b + n]) then None
    else
      var m := SkipSpaces(s, b + n);
      if !WordAt(s, m, Months) then None
      else
        var y := SkipSpaces(s, m + 3);
        if y == m + 3 || DigitRun(s, y, 4) < 4 then None
        else Some(y + 4)
  }

  /** A date match ends with its four year digits. */
  predicate EndsWithYear(s: string) {
    |s| >= 4 && AllDigits(s[|s| - 4..])
  }

  /** `re.findall` of the date pattern over `s[p..]`: the matches, left to
      right, each search resuming where the previous match ended. */
  function DateFindAll(s: string, p: nat): (r: seq<string>)
    requires p <= |s|
    ensures forall k | 0 <= k < |r| :: EndsWithYear(r[k])
    decreases |s| - p
  {
    match DateAt(s, p)
    case Some(e) =>
      assert s[p..e][|s[p..e]| - 4..] == s[e - 4..e];
      [s[p..e]] + DateFindAll(s, e)
    case None => if p == |s| then [] else DateFindAll(s, p + 1)
  }

  // ---------------------------------------------------------------------
  // Time: \b\d{1,2}:\d{2}\s*(?:AM|PM)?\b  (IGNORECASE)
  // Guard: \b\d{1,2}:\d{2}\b
  // ---------------------------------------------------------------------

  /** The assertion `\b` at index `x`. */
  predicate BoundaryAt(s: string, x: nat)
    requires x <= |s|
  {
    (x > 0 && IsWordChar(s[x - 1])) != (x < |s| && IsWordChar(s[x]))
  }

  /** The common prefix `\b\d{1,2}:\d{2}`: the index just after the minutes. */
  function ClockAt(s: string, p: nat): (q: Option<nat>)
    requires p <= |s|
    ensures q.Some? ==> p + 4 <= q.value <= |s| && IsDigit(s[p]) && IsDigit(s[q.value - 1])
  {
    if !BoundaryAt(s, p) then None
    else
      var n := DigitRun(s, p, 2);
      var h := p + n;
      if n > 0 && h + 3 <= |s| && s[h] == ':' && IsDigit(s[h + 1]) && IsDigit(s[h + 2])
      then Some(h + 3) else None
  }

  /** `AM` or `PM`, in any case, at index `x`. */
  predicate MeridiemAt(s: string, x: nat) {
    x + 2 <= |s| && s[x] in {'a', 'A', 'p', 'P'} && s[x + 1] in {'m', 'M'}
  }

  /** The end of the time match that starts at `p`. After the minutes the
      greedy `\s*` takes every blank; the matcher then tries `AM|PM` with a
      closing `\b`, then `\b` right there, and then gives the blanks back one
      by one, where only the position just after the minutes can be a
      boundary. */
  function TimeAt(s: string, p: nat): (e: Option<nat>)
    requires p <= |s|
    ensures e.Some? ==> p < e.value <= |s| && IsDigit(s[p])
  {
    match ClockAt(s, p)
    case None => None
    case Some(q) =>
      var w := SkipSpaces(s, q);
      if MeridiemAt(s, w) && BoundaryAt(s, w + 2) then Some(w + 2)
      else if BoundaryAt(s, w) then Some(w)
      else if w > q then Some(q)
      else None
  }

  /** `re.search` of the time pattern in `s[p..]`: the leftmost match as
      (start, end). */
  function TimeSearch(s: string, p: nat): (r: Option<(nat, nat)>)
    requires p <= |s|
    ensures r.Some? ==> p <= r.value.0 < r.value.1 <= |s| && TimeAt(s, r.value.0) == Some(r.value.1)
    ensures r.Some? ==> forall x | p <= x < r.value.0 :: TimeAt(s, x).None?
    ensures r.None? ==> forall x | p <= x <= |s| :: TimeAt(s, x).None?
    decreases |s| - p
  {
    match TimeAt(s, p)
    case Some(e) => Some((p, e))
    case None => if p == |s| then None else TimeSearch(s, p + 1)
  }

  /** The guard pattern matches at `p`. */
  predicate GuardAt(s: string, p: nat)
    requires p <= |s|
  {
    match ClockAt(s, p)
    case Some(q) => BoundaryAt(s, q)
    case None => false
  }

  /** `re.search` of the guard pattern in `s[p..]` finds something. */
  predicate GuardSearch(s: string, p: nat)
    requires p <= |s|
    decreases |s| - p
  {
    GuardAt(s, p) || (p < |s| && GuardSearch(s, p + 1))
  }

  /** Wherever the guard pattern matches, the time pattern matches too. */
  lemma {:induction false} GuardImpliesTime(s: string, p: nat)
    requires p <= |s| && GuardAt(s, p)
    ensures TimeAt(s, p).Some?
  {
    var q := ClockAt(s, p).value;
    var w := SkipSpaces(s, q);
    if w == q && MeridiemAt(s, w) {
      // a letter right after the minutes rules out the guard's `\b`
      assert IsWordChar(s[q - 1]) && IsWordChar(s[q]);
      assert false;
    }
  }

  /** A line in which the time pattern finds nothing has no match of the
      guard pattern either. */
  lemma {:induction false} NoTimeNoGuard(s: string, p: nat)
    requires p <= |s|
    requires TimeSearch(s, p).None?
    ensures !GuardSearch(s, p)
    decreases |s| - p
  {
    if GuardAt(s, p) {
      GuardImpliesTime(s, p);
    }
    if p < |s| {
      assert TimeAt(s, p).None?;
      NoTimeNoGuard(s, p + 1);
    }
  }

  // ---------------------------------------------------------------------
  // re.search: the match at the leftmost starting index
  // ---------------------------------------------------------------------

  /** The match `at` gives at the leftmost index from `p` to `n` where it
      gives one. */
  function Leftmost<T>(at: nat -> Option<T>, p: nat, n: nat): Option<T>
    requires p <= n
    decreases n - p
  {
    if at(p).Some? then at(p) else if p == n then None else Leftmost(at, p + 1, n)
  }

  lemma {:induction false} LeftmostAt<T>(at: nat -> Option<T>, p: nat, n: nat) returns (x: nat)
    requires p <= n && Leftmost(at, p, n).Some?
    ensures p <= x <= n && at(x) == Leftmost(at, p, n)
    ensures forall y | p <= y < x :: at(y).None?
    decreases n - p
  {
    if at(p).Some? {
      x := p;
    } else {
      x := LeftmostAt(at, p + 1, n);
    }
  }

  lemma {:induction false} LeftmostNone<T>(at: nat -> Option<T>, p: nat, n: nat)
    requires p <= n && Leftmost(at, p, n).None?
    ensures forall x | p <= x <= n :: at(x).None?
    decreases n - p
  {
    if p < n {
      LeftmostNone(at, p + 1, n);
    }
  }

  // ---------------------------------------------------------------------
  // Price: the substitution (?<!\d)2\s*([.,]?\d{2,6}) -> \1, then
  // (?:₹|Rs\.?|INR)?\s*[\.:]?\s*(\d{2,6})(?:\.\d{1,2})?\s*(onwards|only)?
  // ---------------------------------------------------------------------

  /** A match of the substitution pattern at `p`: the bounds of group 1. */
  function TwoAt(s: string, p: nat): (r: Option<(nat, nat)>)
    requires p <= |s|
    ensures r.Some? ==> p < r.value.0 < r.value.1 <= |s|
  {
    if p < |s| && s[p] == '2' && (p == 0 || !IsDigit(s[p - 1])) then
      var a := SkipSpaces(s, p + 1);
      var b := if a < |s| && (s[a] == '.' || s[a] == ',') then a + 1 else a;
      var n := DigitRun(s, b, 6);
      if n >= 2 then Some((a, b + n)) else None
    else None
  }

  /** `re.sub` of the substitution over `s[p..]`: every match, found left to
      right on the original text, is replaced by its group 1. */
  function DropTwos(s: string, p: nat): (r: string)
    requires p <= |s|
    ensures |r| <= |s| - p
    decreases |s| - p
  {
    if p == |s| then []
    else
      match TwoAt(s, p)
      case Some((g, e)) => s[g..e] + DropTwos(s, e)
      case None => [s[p]] + DropTwos(s, p + 1)
  }

  /** What a price match captures: group 1 and group 2 (empty when absent). */
  datatype PriceMatch = PriceMatch(amount: string, suffix: string)

  /** The end of the optional currency marker at `p`. If the marker is taken
      and the rest fails, dropping it cannot help: the rest would then have
      to start on the marker's first character, which no later part accepts. */
  function CurrencyEnd(t: string, p: nat): (c: nat)
    requires p <= |t|
    ensures p <= c <= |t|
  {
    if p < |t| && t[p] == '\U{20B9}' then p + 1
    else if MatchesAt(t, "Rs.", p) then p + 3
    else if MatchesAt(t, "Rs", p) then p + 2
    else if MatchesAt(t, "INR", p) then p + 3
    else p
  }

  /** Where group 1 may start: after the currency marker, spaces, one
      optional `.` or `:`, and spaces. */
  function AmountStart(t: string, p: nat): (d: nat)
    requires p <= |t|
    ensures p <= d <= |t|
  {
    var b := SkipSpaces(t, CurrencyEnd(t, p));
    var c := if b < |t| && (t[b] == '.' || t[b] == ':') then b + 1 else b;
    SkipSpaces(t, c)
  }

  /** Group 2 after an amount that ends at `e`: the optional decimals and
      spaces are skipped, then `onwards` or `only` is tried. */
  function SuffixAfter(t: string, e: nat): (s: string)
    requires e <= |t|
    ensures s in {"", "onwards", "only"}
  {
    var f := if e + 1 < |t| && t[e] == '.' && IsDigit(t[e + 1]) then e + 1 + DigitRun(t, e + 1, 2) else e;
    var g := SkipSpaces(t, f);
    if MatchesAt(t, "onwards", g) then "onwards" else if MatchesAt(t, "only", g) then "only" else ""
  }

  /** The price match that starts at `p`, with its two groups. */
  function PriceAt(t: string, p: nat): (r: Option<PriceMatch>)
    requires p <= |t|
    ensures r.Some? ==> 2 <= |r.value.amount| <= 6 && AllDigits(r.value.amount)
    ensures r.Some? ==> r.value.suffix in {"", "onwards", "only"}
  {
    var d := AmountStart(t, p);
    var n := DigitRun(t, d, 6);
    if n < 2 then None
    else
      var amount := t[d..d + n];
      assert AllDigits(amount) by {
        forall k | 0 <= k < n ensures IsDigit(amount[k]) { assert amount[k] == t[d + k]; }
      }
      Some(PriceMatch(amount, SuffixAfter(t, d + n)))
  }

  /** The price match at any index of `t`; none past its end. */
  function PriceAtIn(t: string): nat -> Option<PriceMatch> {
    (x: nat) => if x <= |t| then PriceAt(t, x) else None
  }

  /** `re.search` of the price pattern in `t[p..]`. */
  function PriceSearch(t: string, p: nat): Option<PriceMatch>
    requires p <= |t|
  {
    Leftmost(PriceAtIn(t), p, |t|)
  }

  /** A price found by the search is the match at the leftmost index where
      the pattern matches. */
  lemma {:induction false} PriceSearchAt(t: string, p: nat) returns (x: nat)
    requires p <= |t| && PriceSearch(t, p).Some?
    ensures p <= x <= |t| && PriceAt(t, x) == PriceSearch(t, p)
    ensures forall y | p <= y < x :: PriceAt(t, y).None?
  {
    x := LeftmostAt(PriceAtIn(t), p, |t|);
    forall y | p <= y < x
      ensures PriceAt(t, y).None?
    {
      assert PriceAtIn(t)(y).None?;
    }
  }

  /** The search finds nothing only when the pattern matches nowhere. */
  lemma {:induction false} PriceSearchNone(t: string, p: nat)
    requires p <= |t| && PriceSearch(t, p).None?
    ensures forall x | p <= x <= |t| :: PriceAt(t, x).None?
  {
    LeftmostNone(PriceAtIn(t), p, |t|);
    forall x | p <= x <= |t|
      ensures PriceAt(t, x).None?
    {
      assert PriceAtIn(t)(x).None?;
    }
  }

  // ---------------------------------------------------------------------
  // Age limit: (\d+\s*yrs\s*\+?)  (IGNORECASE)
  // ---------------------------------------------------------------------

  /** `s`, case-insensitively; Python's matcher also folds U+017F (long s) onto `s`. */
  predicate FoldsToS(c: char) {
    c == 's' || c == 'S' || c == '\U{17F}'
  }

  /** The end of the age match that starts at `p`; it keeps the blanks after
      `yrs` when no `+` follows them. */
  function AgeAt(s: string, p: nat): (e: Option<nat>)
    requires p <= |s|
    ensures e.Some? ==> p + 4 <= e.value <= |s| && IsDigit(s[p])
  {
    var n := DigitRun(s, p, |s|);
    if n == 0 then None
    else
      var a := SkipSpaces(s, p + n);
      if a + 3 <= |s| && s[a] in {'y', 'Y'} && s[a + 1] in {'r', 'R'} && FoldsToS(s[a + 2]) then
        var b := SkipSpaces(s, a + 3);
        Some(if b < |s| && s[b] == '+' then b + 1 else b)
      else None
  }

  /** `re.search` of the age pattern in `s[p..]`: (start, end). */
  function AgeSearch(s: string, p: nat): (r: Option<(nat, nat)>)
    requires p <= |s|
    ensures r.Some? ==> p <= r.value.0 <= |s| && AgeAt(s, r.value.0) == Some(r.value.1)
    ensures r.Some? ==> forall x | p <= x < r.value.0 :: AgeAt(s, x).None?
    ensures r.None? ==> forall x | p <= x <= |s| :: AgeAt(s, x).None?
    decreases |s| - p
  {
    var m := AgeAt(s, p);
    if m.Some? then Some((p, m.value))
    else if p == |s| then None
    else AgeSearch(s, p + 1)
  }

  /** The parts of an age match at `p`: digits `s[p..i]`, blanks `s[i..j]`,
      `yrs` in any case at `j`, and blanks `s[j + 3..k]`. */
  predicate AgeParts(s: string, p: nat, i: nat, j: nat, k: nat) {
    && p < i <= j && j + 3 <= k <= |s|
    && (forall x | p <= x < i :: IsDigit(s[x]))
    && (forall x | i <= x < j :: IsSpace(s[x]))
    && s[j] in {'y', 'Y'} && s[j + 1] in {'r', 'R'} && FoldsToS(s[j + 2])
    && (forall x | j + 3 <= x < k :: IsSpace(s[x]))
  }

  /** An age match is digits, blanks, `yrs`, blanks, and a `+` when one follows. */
  lemma {:induction false} AgeAtParts(s: string, p: nat) returns (i: nat, j: nat, k: nat)
    requires p <= |s| && AgeAt(s, p).Some?
    ensures AgeParts(s, p, i, j, k)
    ensures AgeAt(s, p) == Some(if k < |s| && s[k] == '+' then k + 1 else k)
  {
    i := p + DigitRun(s, p, |s|);
    j := SkipSpaces(s, i);
    k := SkipSpaces(s, j + 3);
  }

  /** Conversely, wherever those parts are present the age pattern matches. */
  lemma {:induction false} AgeAtOfParts(s: string, p: nat, i: nat, j: nat, k: nat)
    requires AgeParts(s, p, i, j, k)
    ensures AgeAt(s, p).Some?
  {
    assert !IsDigit(s[i]) && !IsSpace(s[j]);
  }

  // ---------------------------------------------------------------------
  // Venue artefact: re.sub(r'<\d+', '', v)
  // ---------------------------------------------------------------------

  /** A `<` followed by a digit at index `i`. */
  predicate TagAt(s: string, i: nat) {
    i + 1 < |s| && s[i] == '<' && IsDigit(s[i + 1])
  }

  predicate NoTag(s: string) {
    forall i: nat | i < |s| :: !TagAt(s, i)
  }

  /** `re.sub(r'<\d+', '', s[p..])`. */
  function DropTags(s: string, p: nat): (r: string)
    requires p <= |s|
    decreases |s| - p
  {
    if p == |s| then []
    else if TagAt(s, p) then DropTags(s, p + 1 + DigitRun(s, p + 1, |s|))
    else [s[p]] + DropTags(s, p + 1)
  }

  /** The first character left by the substitution is not a digit, unless it
      is the first character of the input. */
  lemma {:induction false} DropTagsHead(s: string, p: nat)
    requires p <= |s|
    ensures var r := DropTags(s, p); r != [] ==> !IsDigit(r[0]) || r[0] == s[p]
    decreases |s| - p
  {
    if p < |s| && TagAt(s, p) {
      var j := p + 1 + DigitRun(s, p + 1, |s|);
      DropTagsHead(s, j);
    }
  }

  /** No `<digit` survives the substitution. */
  lemma {:induction false} DropTagsNoTag(s: string, p: nat)
    requires p <= |s|
    ensures NoTag(DropTags(s, p))
    decreases |s| - p
  {
    if p < |s| {
      if TagAt(s, p) {
        DropTagsNoTag(s, p + 1 + DigitRun(s, p + 1, |s|));
      } else {
        var rest := DropTags(s, p + 1);
        DropTagsNoTag(s, p + 1);
        DropTagsHead(s, p + 1);
        var r := [s[p]] + rest;
        forall i: nat | i < |r| ensures !TagAt(r, i) {
          if i > 0 {
            assert r[i..] == rest[i - 1..];
            assert !TagAt(rest, i - 1);
          }
        }
      }
    }
  }

  /** Text without a tag passes through the substitution unchanged. */
  lemma {:induction false} DropTagsFree(s: string, p: nat)
    requires p <= |s| && NoTag(s)
    ensures DropTags(s, p) == s[p..]
    decreases |s| - p
  {
    if p < |s| {
      assert !TagAt(s, p);
      DropTagsFree(s, p + 1);
    }
  }

  /** A piece of tag-free text is tag-free. */
  lemma {:induction false} NoTagSlice(s: string, a: nat, b: nat)
    requires a <= b <= |s| && NoTag(s)
    ensures NoTag(s[a..b])
  {
    forall i: nat | i < b - a ensures !TagAt(s[a..b], i) {
      assert !TagAt(s, a + i);
    }
  }
}
