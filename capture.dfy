/** The pure parts of 02_url_to_ss.py: the "Newly added events" section of
    an event report, the URLs and names found in it, the screenshot file
    names, the bounded retry, and the capture loop with its success count.
    The browser work of one attempt is an input: `succeeds(i, k)` says
    whether attempt `k` for the `i`-th event produced a screenshot. */
module Capture {
  import opened Wrappers
  import opened Text

  // ---------------------------------------------------------------------
  // str.find
  // ---------------------------------------------------------------------

  /** `str.find` from `i`: the first index from `i` on where `p` occurs
      in `s`, or -1. */
  function FindFrom(s: string, p: string, i: nat): int
    requires i <= |s|
    decreases |s| - i
  {
    if OccursAt(s, p, i) then i
    else if i == |s| then -1
    else FindFrom(s, p, i + 1)
  }

  /** `FindFrom` returns the leftmost occurrence from `i` on, and -1
      exactly when there is none. */
  lemma {:induction false} FindFromSpec(s: string, p: string, i: nat)
    requires i <= |s|
    ensures var r := FindFrom(s, p, i);
      (r != -1 ==>
        i <= r && OccursAt(s, p, r) && forall j | i <= j < r :: !OccursAt(s, p, j))
      && (r == -1 ==> forall j | i <= j <= |s| :: !OccursAt(s, p, j))
    decreases |s| - i
  {
    if !OccursAt(s, p, i) && i < |s| {
      FindFromSpec(s, p, i + 1);
    }
  }

  // ---------------------------------------------------------------------
  // The report section: a DOTALL search for the header, `):`, and "Removed events"
  // ---------------------------------------------------------------------

  const SectionStart: string := "Newly added events ("
  const SectionEnd: string := "Removed events"

  /** The text between the first `close` after the first `open` and the
      first `stop` after that: the first group of a DOTALL pattern made of
      `open`, a lazy `.*?`, `close`, a lazy `(.*?)` and `stop`. Both lazy
      parts take the shortest run that lets the rest match, so each
      delimiter is the first one after the previous; if the first `open`
      has no such continuation, no later `open` has one either. Beyond the
      -1 tests, the bound checks never fail (`FindFromSpec`); they only let
      the slices be written without a contract on `FindFrom`. */
  function Between(content: string, open: string, close: string, stop: string): Option<string>
  {
    var i := FindFrom(content, open, 0);
    if i < 0 || i + |open| > |content| then None else
    var j := FindFrom(content, close, i + |open|);
    if j < 0 || j + |close| > |content| then None else
    var k := FindFrom(content, stop, j + |close|);
    if k < j + |close| || k > |content| then None else
    Some(content[j + |close|..k])
  }

  /** Group 1 of the pattern that picks the newly added events out of a
      report: the text after the header's `):` up to `Removed events`. */
  function Section(content: string): Option<string> {
    Between(content, SectionStart, "):", SectionEnd)
  }

  /** `Between` from the positions of the three delimiters. */
  lemma {:induction false} BetweenIs(c: string, open: string, close: string, stop: string, i: nat, j: nat, k: nat)
    requires i + |open| <= |c| && j + |close| <= k <= |c|
    requires FindFrom(c, open, 0) == i
    requires FindFrom(c, close, i + |open|) == j
    requires FindFrom(c, stop, j + |close|) == k
    ensures Between(c, open, close, stop) == Some(c[j + |close|..k])
  {
  }

  /** `x` is the first index from `from` on where `p` occurs in `s`. */
  predicate FirstAt(s: string, p: string, from: nat, x: nat) {
    from <= x && OccursAt(s, p, x) && forall j | from <= j < x :: !OccursAt(s, p, j)
  }

  /** `Between` from the first positions of the three delimiters. */
  lemma {:induction false} BetweenOf(c: string, open: string, close: string, stop: string, i: nat, j: nat, k: nat)
    requires FirstAt(c, open, 0, i) && FirstAt(c, close, i + |open|, j)
    requires FirstAt(c, stop, j + |close|, k)
    ensures Between(c, open, close, stop) == Some(c[j + |close|..k])
  {
    FindIs(c, open, 0, i);
    FindIs(c, close, i + |open|, j);
    FindIs(c, stop, j + |close|, k);
    BetweenIs(c, open, close, stop, i, j, k);
  }

  /** `FindFrom` finds the first occurrence. */
  lemma {:induction false} FindIs(s: string, p: string, from: nat, x: nat)
    requires FirstAt(s, p, from, x)
    ensures FindFrom(s, p, from) == x
  {
    FindFromSpec(s, p, from);
  }

  /** When `Between` finds a text, the three delimiters sit at their first
      positions and the text runs between the last two. */
  lemma {:induction false} BetweenParts(c: string, open: string, close: string, stop: string) returns (i: nat, j: nat, k: nat)
    requires Between(c, open, close, stop).Some?
    ensures FirstAt(c, open, 0, i) && FirstAt(c, close, i + |open|, j)
    ensures FirstAt(c, stop, j + |close|, k)
    ensures j + |close| <= k <= |c| && Between(c, open, close, stop).value == c[j + |close|..k]
  {
    i := FindFirst(c, open, 0);
    j := FindFirst(c, close, i + |open|);
    k := FindFirst(c, stop, j + |close|);
  }

  /** A search that finds something finds the first occurrence. */
  lemma {:induction false} FindFirst(s: string, p: string, i: nat) returns (r: nat)
    requires i <= |s| && FindFrom(s, p, i) >= 0
    ensures r == FindFrom(s, p, i) && FirstAt(s, p, i, r)
  {
    FindFromSpec(s, p, i);
    r := FindFrom(s, p, i);
  }

  /** The delimited text follows a `close` directly, is followed by `stop`,
      and holds no `stop` of its own. */
  lemma {:induction false} BetweenShape(content: string, open: string, close: string, stop: string) returns (j: nat)
    requires stop != [] && Between(content, open, close, stop).Some?
    ensures var sec := Between(content, open, close, stop).value;
      |close| <= j && j + |sec| <= |content| && content[j..j + |sec|] == sec
      && OccursAt(content, close, j - |close|) && OccursAt(content, stop, j + |sec|)
      && !Contains(sec, stop)
  {
    var i, j2, k := BetweenParts(content, open, close, stop);
    j := j2 + |close|;
    var sec := content[j..k];
    if Contains(sec, stop) {
      var x := ContainsFind(sec, stop);
      OccursInWhole(content, j, k, stop, x);
      assert false;
    }
  }

  /** An occurrence in a slice is an occurrence in the whole text. */
  lemma {:induction false} OccursInWhole(s: string, a: nat, b: nat, p: string, x: nat)
    requires a <= b <= |s| && OccursAt(s[a..b], p, x)
    ensures OccursAt(s, p, a + x)
  {
    forall m | 0 <= m < |p|
      ensures s[a + x + m] == p[m]
    {
      assert s[a..b][x..x + |p|][m] == p[m];
    }
  }

  // ---------------------------------------------------------------------
  // The URL scan: "URL:", whitespace, then an https:// URL as group 1
  // ---------------------------------------------------------------------

  /** The end of the run of non-whitespace characters from `i`. */
  function NonSpaceEnd(s: string, i: nat): (j: nat)
    requires i <= |s|
    ensures i <= j <= |s|
    ensures forall k | i <= k < j :: !IsSpace(s[k])
    ensures j == |s| || IsSpace(s[j])
    decreases |s| - i
  {
    if i < |s| && !IsSpace(s[i]) then NonSpaceEnd(s, i + 1) else i
  }

  /** The literal `URL:` at `p`. */
  predicate UrlTagAt(s: string, p: nat) {
    p + 4 <= |s| && s[p] == 'U' && s[p + 1] == 'R' && s[p + 2] == 'L' && s[p + 3] == ':'
  }

  lemma {:induction false} UrlTagOccurs(s: string, p: nat)
    ensures UrlTagAt(s, p) <==> OccursAt(s, "URL:", p)
  {
    if p + 4 <= |s| && s[p..p + 4] == "URL:" {
      assert s[p + 1] == s[p..p + 4][1] && s[p + 3] == s[p..p + 4][3];
    }
  }

  /** The literal `- ` at `p`. */
  predicate DashAt(s: string, p: nat) {
    p + 2 <= |s| && s[p] == '-' && s[p + 1] == ' '
  }

  /** A URL match at `p`: the bounds of group 1, which also ends the match.
      `\s+` and `[^\s]+` are greedy, and giving characters back cannot help:
      `h` is not whitespace, and nothing follows the group. */
  function UrlAt(s: string, p: nat): (r: Option<(nat, nat)>)
    requires p <= |s|
    ensures r.Some? ==> p < r.value.0 < r.value.1 <= |s|
  {
    if !UrlTagAt(s, p) then None
    else
      var a := SkipSpaces(s, p + 4);
      if a == p + 4 || !OccursAt(s, "https://", a) then None
      else
        var b := NonSpaceEnd(s, a + 8);
        if b == a + 8 then None else Some((a, b))
  }

  /** `findall` from `p`: each match is tried at the leftmost index, and the
      search resumes where the match ended. */
  function UrlsFrom(s: string, p: nat): seq<string>
    requires p <= |s|
    decreases |s| - p
  {
    if p == |s| then []
    else
      match UrlAt(s, p)
      case Some((a, b)) => [s[a..b]] + UrlsFrom(s, b)
      case None => UrlsFrom(s, p + 1)
  }

  /** An absolute https URL without whitespace. */
  predicate HttpsUrl(u: string) {
    StartsWith(u, "https://") && NoSpace(u) && |u| > 8
  }

  predicate AllHttps(r: seq<string>) {
    forall k | 0 <= k < |r| :: HttpsUrl(r[k])
  }

  /** Every URL found is an https URL without whitespace. */
  lemma {:induction false} UrlsShape(s: string, p: nat)
    requires p <= |s|
    ensures AllHttps(UrlsFrom(s, p))
    decreases |s| - p
  {
    if p < |s| {
      match UrlAt(s, p)
      case Some((a, b)) =>
        assert UrlsFrom(s, p) == [s[a..b]] + UrlsFrom(s, b);
        UrlShape(s, p);
        UrlsShape(s, b);
        AllHttpsCons(s[a..b], UrlsFrom(s, b));
      case None =>
        assert UrlsFrom(s, p) == UrlsFrom(s, p + 1);
        UrlsShape(s, p + 1);
    }
  }

  lemma {:induction false} AllHttpsCons(x: string, rest: seq<string>)
    requires HttpsUrl(x) && AllHttps(rest)
    ensures AllHttps([x] + rest)
  {
    assert forall k | 0 <= k < |rest| :: ([x] + rest)[k + 1] == rest[k];
  }

  lemma {:induction false} UrlShape(s: string, p: nat)
    requires p <= |s| && UrlAt(s, p).Some?
    ensures var (a, b) := UrlAt(s, p).value;
      HttpsUrl(s[a..b])
  {
    var (a, b) := UrlAt(s, p).value;
    assert s[a..b][..8] == s[a..a + 8];
    forall k | 0 <= k < b - a
      ensures !IsSpace(s[a..b][k])
    {
      if k < 8 {
        assert s[a..b][k] == "https://"[k];
      } else {
        assert s[a..b][k] == s[a + k];
      }
    }
  }

  // ---------------------------------------------------------------------
  // The name scan: "- ", the rest of the line as group 1, whitespace, "URL:"
  // ---------------------------------------------------------------------

  /** The first newline from `i` on, or the end of the text. */
  function LineEnd(s: string, i: nat): (j: nat)
    requires i <= |s|
    ensures i <= j <= |s|
    ensures forall k | i <= k < j :: s[k] != '\n'
    ensures j == |s| || s[j] == '\n'
    decreases |s| - i
  {
    if i < |s| && s[i] != '\n' then LineEnd(s, i + 1) else i
  }

  /** A name match at `p`: the bounds of group 1 and the end of the match.
      Without DOTALL, `.` stops at a newline, so the lazy group can only end
      at the first newline; `\s+` is greedy and `U` is not whitespace. */
  function NameAt(s: string, p: nat): (r: Option<(nat, nat, nat)>)
    requires p <= |s|
    ensures r.Some? ==> p + 2 <= r.value.0 <= r.value.1 < r.value.2 <= |s|
  {
    if !DashAt(s, p) then None
    else
      var q := LineEnd(s, p + 2);
      if q == |s| then None
      else
        var w := SkipSpaces(s, q + 1);
        if w == q + 1 || !UrlTagAt(s, w) then None
        else
          Some((p + 2, q, w + 4))
  }

  function NamesFrom(s: string, p: nat): seq<string>
    requires p <= |s|
    decreases |s| - p
  {
    if p == |s| then []
    else
      match NameAt(s, p)
      case Some((a, b, e)) => [s[a..b]] + NamesFrom(s, e)
      case None => NamesFrom(s, p + 1)
  }

  predicate OneLines(r: seq<string>) {
    forall k | 0 <= k < |r| :: '\n' !in r[k]
  }

  /** Every name found is one line of the section. */
  lemma {:induction false} NamesShape(s: string, p: nat)
    requires p <= |s|
    ensures OneLines(NamesFrom(s, p))
    decreases |s| - p
  {
    if p < |s| {
      match NameAt(s, p)
      case Some((a, b, e)) =>
        assert NamesFrom(s, p) == [s[a..b]] + NamesFrom(s, e);
        NameOneLine(s, p);
        NamesShape(s, e);
        OneLinesCons(s[a..b], NamesFrom(s, e));
      case None =>
        assert NamesFrom(s, p) == NamesFrom(s, p + 1);
        NamesShape(s, p + 1);
    }
  }

  /** A name found holds no newline. */
  lemma {:induction false} NameOneLine(s: string, p: nat)
    requires p <= |s| && NameAt(s, p).Some?
    ensures var (a, b, _) := NameAt(s, p).value; '\n' !in s[a..b]
  {
    var (a, b, _) := NameAt(s, p).value;
    assert forall k | 0 <= k < b - a :: s[a..b][k] == s[a + k];
  }

  lemma {:induction false} OneLinesCons(x: string, rest: seq<string>)
    requires '\n' !in x && OneLines(rest)
    ensures OneLines([x] + rest)
  {
    assert forall k | 0 <= k < |rest| :: ([x] + rest)[k + 1] == rest[k];
  }

  // ---------------------------------------------------------------------
  // File names
  // ---------------------------------------------------------------------

  // The characters the file-name clean-up removes: backslash, slash, star, question
  // mark, colon, double quote, angle brackets and bar.
  const Unsafe: set<char> := {'\\', '/', '*', '?', ':', '"', '<', '>', '|'}

  /** Every unsafe character removed, the others kept in order. */
  function DropUnsafe(s: string): (r: string)
    ensures |r| <= |s|
    ensures forall c :: c in r <==> c in s && c !in Unsafe
  {
    if s == [] then []
    else (if s[0] in Unsafe then [] else [s[0]]) + DropUnsafe(s[1..])
  }

  /** A name without unsafe characters is kept as it is. */
  lemma {:induction false} DropUnsafeSafe(s: string)
    requires forall k | 0 <= k < |s| :: s[k] !in Unsafe
    ensures DropUnsafe(s) == s
  {
    if s != [] {
      DropUnsafeSafe(s[1..]);
      assert s[0] !in Unsafe;
      assert DropUnsafe(s) == [s[0]] + DropUnsafe(s[1..]);
      assert s == [s[0]] + s[1..];
    }
  }

  /** `clean_name`: the stripped event name without unsafe characters. */
  function Sanitize(name: string): (r: string)
    ensures forall c :: c in r <==> c in Strip(name) && c !in Unsafe
  {
    DropUnsafe(Strip(name))
  }

  /** `f"{i:02d}"`: at least two digits, zero-padded. */
  function Pad2(i: nat): (r: string)
    ensures |r| >= 2 && AllDigits(r)
  {
    if i < 10 then ['0'] + NatToString(i) else NatToString(i)
  }

  /** The padded index reads back as the index. */
  lemma {:induction false} Pad2Value(i: nat)
    ensures DigitsValue(Pad2(i)) == i
  {
    NatToStringValue(i);
    if i < 10 {
      var r := Pad2(i);
      assert r[..|r| - 1] == ['0'];
    }
  }

  /** `f"{i:02d}_{clean_name}.png"`. */
  function ShotName(i: nat, clean: string): (r: string)
    ensures EndsWith(r, ".png")
  {
    var r := Pad2(i) + "_" + clean + ".png";
    assert r[|r| - 4..] == ".png";
    r
  }

  /** `Path(output_dir) / name`. */
  function InDir(dir: string, name: string): string {
    dir + "/" + name
  }

  // ---------------------------------------------------------------------
  // The capture plan
  // ---------------------------------------------------------------------

  /** One screenshot to take: the URL and the output path. */
  datatype Job = Job(url: string, file: string)

  /** `enumerate(zip(event_names, urls), start=1)`, with the output path of
      each pair: pair `k` (from 0) is numbered `k + 1`. */
  function Jobs(names: seq<string>, urls: seq<string>, dir: string): seq<Job> {
    var n := if |names| <= |urls| then |names| else |urls|;
    seq(n, k requires 0 <= k < n => Job(urls[k], InDir(dir, ShotName(k + 1, Sanitize(names[k])))))
  }

  /** How far the script gets before the captures. */
  datatype Plan = NoReport | NoSection | NoUrls | Capture(jobs: seq<Job>)

  /** `process_event_urls_from_file` up to the loop; `report` is the file's
      text as a text-mode read returns it (`UniversalNewlines` of what was
      written), or `None` when it does not exist. A file that is not valid UTF-8
      raises an error the script does not catch, and is not represented. */
  function PlanOf(report: Option<string>, dir: string): Plan {
    if report.None? then NoReport
    else
      match Section(report.value)
      case None => NoSection
      case Some(sec) =>
        var urls := UrlsFrom(sec, 0);
        if urls == [] then NoUrls
        else Capture(Jobs(NamesFrom(sec, 0), urls, dir))
  }

  /** The script stops before any capture on a missing report, a missing
      section, or a section without a URL. */
  lemma {:induction false} PlanStops(report: Option<string>, dir: string)
    ensures PlanOf(report, dir) == NoReport <==> report.None?
    ensures PlanOf(report, dir) == NoSection <==> report.Some? && Section(report.value).None?
    ensures PlanOf(report, dir) == NoUrls <==>
      report.Some? && Section(report.value).Some? && UrlsFrom(Section(report.value).value, 0) == []
  {
  }

  /** Otherwise it pairs the names and URLs of the section by position, as
      many pairs as the shorter list has entries. */
  lemma {:induction false} PlanPairs(report: string, dir: string)
    requires PlanOf(Some(report), dir).Capture?
    ensures var sec := Section(report).value;
      var names, urls := NamesFrom(sec, 0), UrlsFrom(sec, 0);
      PlanOf(Some(report), dir).jobs == Jobs(names, urls, dir) && AllHttps(urls)
  {
    UrlsShape(Section(report).value, 0);
  }

  /** Pair `k` (from 0) takes the `k`-th URL and is written to a file numbered
      `k + 1` whose name holds no unsafe character. */
  lemma {:induction false} JobsPairs(names: seq<string>, urls: seq<string>, dir: string)
    requires AllHttps(urls)
    ensures var jobs := Jobs(names, urls, dir);
      && |jobs| == (if |names| <= |urls| then |names| else |urls|)
      && forall k | 0 <= k < |jobs| ::
           && jobs[k].url == urls[k] && HttpsUrl(jobs[k].url)
           && jobs[k].file == InDir(dir, ShotName(k + 1, Sanitize(names[k])))
           && forall c | c in Sanitize(names[k]) :: c !in Unsafe
  {
  }

  // ---------------------------------------------------------------------
  // process_with_retry and the capture loop
  // ---------------------------------------------------------------------

  /** `process_with_retry`: attempts 1, 2, ... up to `maxAttempts`, stopping
      at the first success; `made` is the number of attempts made. */
  method ProcessWithRetry(succeeds: nat -> bool, maxAttempts: nat) returns (ok: bool, made: nat)
    ensures made <= maxAttempts
    ensures ok <==> exists k | 1 <= k <= maxAttempts :: succeeds(k)
    ensures ok ==> made >= 1 && succeeds(made)
    ensures forall k | 1 <= k <= maxAttempts && k < made + (if ok then 0 else 1) :: !succeeds(k)
    ensures !ok ==> made == maxAttempts
  {
    made := 0;
    for attempt := 1 to maxAttempts + 1
      invariant made == attempt - 1
      invariant forall k | 1 <= k < attempt :: !succeeds(k)
    {
      made := attempt;
      if succeeds(attempt) {
        return true, made;
      }
    }
    return false, made;
  }

  /** Whether some of the first `maxAttempts` attempts for job number `i` succeeds. */
  predicate Captured(succeeds: (nat, nat) -> bool, i: nat, maxAttempts: nat) {
    exists k | 1 <= k <= maxAttempts :: succeeds(i, k)
  }

  /** The number of `true` entries. */
  function Count(bs: seq<bool>): (n: nat)
    ensures n <= |bs|
  {
    if bs == [] then 0 else Count(bs[..|bs| - 1]) + (if bs[|bs| - 1] then 1 else 0)
  }

  datatype Run = Stopped(plan: Plan) | Ran(jobs: seq<Job>, captured: seq<bool>, successCount: nat)

  /** The screenshot loop over the planned jobs, three attempts each;
      `succeeds(i, k)` is the outcome of attempt `k` for job number `i`. */
  method CaptureAll(jobs: seq<Job>, succeeds: (nat, nat) -> bool) returns (captured: seq<bool>, successCount: nat)
    ensures |captured| == |jobs|
    ensures forall k | 0 <= k < |jobs| :: captured[k] == Captured(succeeds, k + 1, 3)
    ensures successCount == Count(captured) <= |jobs|
  {
    captured := [];
    successCount := 0;
    for i := 1 to |jobs| + 1
      invariant |captured| == i - 1
      invariant forall k | 0 <= k < i - 1 :: captured[k] == Captured(succeeds, k + 1, 3)
      invariant successCount == Count(captured)
    {
      var attempt := (a: nat) => succeeds(i, a);
      var success, made := ProcessWithRetry(attempt, 3);
      assert (captured + [success])[..|captured|] == captured;
      if success {
        assert attempt(made);
        successCount := successCount + 1;
      } else {
        forall k | 1 <= k <= 3
          ensures !succeeds(i, k)
        {
          assert !attempt(k);
        }
      }
      captured := captured + [success];
    }
  }

  /** `process_event_urls_from_file`: nothing is captured unless the report
      exists, has the section, and the section has a URL. */
  method ProcessEventUrls(report: Option<string>, dir: string, succeeds: (nat, nat) -> bool) returns (run: Run)
    ensures PlanOf(report, dir).Capture? <==> run.Ran?
    ensures run.Stopped? ==> run.plan == PlanOf(report, dir)
    ensures run.Ran? ==> run.jobs == PlanOf(report, dir).jobs && |run.captured| == |run.jobs|
    ensures run.Ran? ==> forall k | 0 <= k < |run.jobs| :: run.captured[k] == Captured(succeeds, k + 1, 3)
    ensures run.Ran? ==> run.successCount == Count(run.captured) <= |run.jobs|
  {
    if report.None? {
      return Stopped(NoReport);
    }
    var section := Section(report.value);
    if section.None? {
      return Stopped(NoSection);
    }
    var urls := UrlsFrom(section.value, 0);
    var names := NamesFrom(section.value, 0);
    if urls == [] {
      return Stopped(NoUrls);
    }
    var jobs := Jobs(names, urls, dir);
    var captured, successCount := CaptureAll(jobs, succeeds);
    return Ran(jobs, captured, successCount);
  }
}
