/** What 02_url_to_ss.py reads back from the report 01_url_fetcher.py
    writes: the section, URLs and names of the added events, and the
    screenshot names as 03_ss_to_json.py orders them. */
module RoundTrip {
  import opened Wrappers
  import opened Text
  import opened Capture
  import opened Fetcher
  import opened Batch

  // ---------------------------------------------------------------------
  // The scans at one position
  // ---------------------------------------------------------------------

  /** A URL line with an https URL followed by whitespace matches, with the
      URL as group 1. */
  lemma {:induction false} UrlMatch(s: string, p: nat, u: string, q: nat)
    requires q == p + 5 + |u| && q < |s|
    requires UrlTagAt(s, p) && s[p + 4] == ' '
    requires forall k | 0 <= k < |u| :: s[p + 5 + k] == u[k]
    requires IsSpace(s[q])
    requires HttpsUrl(u)
    ensures UrlAt(s, p) == Some((p + 5, q))
    ensures UrlsFrom(s, p) == [u] + UrlsFrom(s, q)
  {
    UrlFound(s, p, u, q);
    assert s[p + 5..q] == u;
    UrlsStep(s, p);
  }

  /** The match itself: the URL runs from after `URL: ` to the whitespace. */
  lemma {:induction false} UrlFound(s: string, p: nat, u: string, q: nat)
    requires q == p + 5 + |u| && q < |s|
    requires UrlTagAt(s, p) && s[p + 4] == ' '
    requires forall k | 0 <= k < |u| :: s[p + 5 + k] == u[k]
    requires IsSpace(s[q])
    requires HttpsUrl(u)
    ensures UrlAt(s, p) == Some((p + 5, q))
  {
    var a := p + 5;
    assert s[a] == u[0] == 'h' by {
      assert u[..8] == "https://";
      assert u[0] == u[..8][0] == "https://"[0];
    }
    assert SkipSpaces(s, p + 4) == a;
    assert s[a..a + 8] == u[..8];
    assert forall k | a + 8 <= k < q :: !IsSpace(s[k]) by {
      forall k | a + 8 <= k < q
        ensures !IsSpace(s[k])
      {
        assert s[k] == u[k - a];
      }
    }
    assert NonSpaceEnd(s, a + 8) == q;
  }

  /** A `- ` line (at `o + 1`) followed by an indented `URL:` line matches,
      with the rest of the `- ` line as group 1; the scan resumes at `e`,
      past the `URL:`. */
  lemma {:induction false} NameMatch(s: string, o: nat, n: string, e: nat)
    requires e == o + 10 + |n| && e <= |s|
    requires s[o + 1] == '-' && s[o + 2] == ' ' && '\n' !in n
    requires forall k | 0 <= k < |n| :: s[o + 3 + k] == n[k]
    requires s[o + 3 + |n|] == '\n' && s[o + 4 + |n|] == ' ' && s[o + 5 + |n|] == ' '
    requires UrlTagAt(s, o + 6 + |n|)
    ensures NamesFrom(s, o + 1) == [n] + NamesFrom(s, e)
  {
    var p := o + 1;
    var a := o + 3;
    var q := a + |n|;
    assert DashAt(s, p);
    assert forall k | a <= k < q :: s[k] != '\n' by {
      assert forall k | a <= k < q :: s[k] == n[k - a];
    }
    assert LineEnd(s, p + 2) == q;
    assert SkipSpaces(s, q + 1) == q + 3;
    assert NameAt(s, p) == Some((a, q, e));
    assert s[a..q] == n;
    NamesStep(s, p);
  }

  /** The same match, reached from the newline before it. */
  lemma {:induction false} NameAfterNewline(s: string, o: nat, n: string, e: nat)
    requires e == o + 10 + |n| && e <= |s|
    requires s[o] == '\n' && s[o + 1] == '-' && s[o + 2] == ' ' && '\n' !in n
    requires forall k | 0 <= k < |n| :: s[o + 3 + k] == n[k]
    requires s[o + 3 + |n|] == '\n' && s[o + 4 + |n|] == ' ' && s[o + 5 + |n|] == ' '
    requires UrlTagAt(s, o + 6 + |n|)
    ensures NamesFrom(s, o) == [n] + NamesFrom(s, e)
  {
    NameMatch(s, o, n, e);
    assert !DashAt(s, o);
    NamesSkip(s, o, o + 1);
  }

  /** Positions where no match starts are passed over. */
  lemma {:induction false} UrlsSkip(s: string, p: nat, q: nat)
    requires p <= q <= |s|
    requires forall j | p <= j < q :: !UrlTagAt(s, j)
    ensures UrlsFrom(s, p) == UrlsFrom(s, q)
    decreases q - p
  {
    if p < q {
      UrlsSkip(s, p + 1, q);
    }
  }

  lemma {:induction false} NamesSkip(s: string, p: nat, q: nat)
    requires p <= q <= |s|
    requires forall j | p <= j < q :: !DashAt(s, j)
    ensures NamesFrom(s, p) == NamesFrom(s, q)
    decreases q - p
  {
    if p < q {
      NamesSkip(s, p + 1, q);
    }
  }

  // ---------------------------------------------------------------------
  // One added event in the report
  // ---------------------------------------------------------------------

  /** The flag lines of an added event, each with the newline before it. */
  function FlagText(e: Event): string {
    (if Flag(e.isFastFilling) then "\n" + FastFillingLine else "")
    + (if Flag(e.isSoldOut) then "\n" + SoldOutLine else "")
  }

  /** The report text of one added event, with the newline before it. */
  function Block(e: Event): string {
    "\n- " + NameOr(e) + "\n  URL: " + UrlOr(e) + FlagText(e)
  }

  /** An added event that the scans read back: a one-line name that does not
      look like a URL line or the end of the section, and an absolute https
      URL without whitespace. A carriage return also ends a line once the
      report is read back in text mode. */
  predicate Listed(e: Event) {
    var n := NameOr(e);
    var u := UrlOr(e);
    '\n' !in n && '\r' !in n && !Mentions(n, "URL:") && !Mentions(n, SectionEnd)
    && HttpsUrl(u)
  }

  /** `p` occurs in `s`, stated by its witness. */
  predicate Mentions(s: string, p: string) {
    exists j | 0 <= j <= |s| :: OccursAt(s, p, j)
  }

  lemma {:induction false} MentionsContains(s: string, p: string)
    ensures Mentions(s, p) <==> Contains(s, p)
  {
    if Contains(s, p) {
      var j := ContainsFind(s, p);
    }
    if Mentions(s, p) {
      var j :| 0 <= j <= |s| && OccursAt(s, p, j);
      ContainsWitness(s, p, j);
    }
  }

  /** What the block of an event shows: its name, its URL and its flag
      lines. The scans are proved on entries, whose parts are plain text. */
  datatype Entry = Entry(name: string, url: string, flags: string)

  function EntryOf(e: Event): Entry {
    Entry(NameOr(e), UrlOr(e), FlagText(e))
  }

  /** The text of a block, spelled from what it shows. */
  function EntryText(v: Entry): string {
    "\n- " + v.name + "\n  URL: " + v.url + v.flags
  }

  function EntryLen(v: Entry): nat {
    11 + |v.name| + |v.url| + |v.flags|
  }

  lemma {:induction false} BlockEntry(e: Event)
    ensures Block(e) == EntryText(EntryOf(e))
  {
  }

  /** Flag lines: they start with a newline, and hold no `R` and no `-`. */
  predicate QuietFlags(f: string) {
    (|f| > 0 ==> f[0] == '\n') && forall k | 0 <= k < |f| :: f[k] != 'R' && f[k] != '-'
  }

  lemma {:induction false} QuietFlagsJoin(f: string, g: string)
    requires QuietFlags(f) && QuietFlags(g)
    ensures QuietFlags(f + g)
  {
    forall k | 0 <= k < |f + g|
      ensures (f + g)[k] != 'R' && (f + g)[k] != '-'
    {
      if k < |f| {
        assert (f + g)[k] == f[k];
      } else {
        assert (f + g)[k] == g[k - |f|];
      }
    }
    if |f + g| > 0 {
      if |f| > 0 {
        assert (f + g)[0] == f[0];
      } else {
        assert f + g == g;
      }
    }
  }

  /** An entry whose block the scans read back. */
  predicate Readable(v: Entry) {
    '\n' !in v.name && !Mentions(v.name, "URL:")
    && HttpsUrl(v.url)
    && QuietFlags(v.flags)
  }

  /** A listed event's entry is readable. */
  lemma {:induction false} ListedEntry(e: Event)
    requires Listed(e)
    ensures Readable(EntryOf(e))
  {
    var f := if Flag(e.isFastFilling) then "\n" + FastFillingLine else "";
    var g := if Flag(e.isSoldOut) then "\n" + SoldOutLine else "";
    assert QuietFlags(f);
    assert QuietFlags(g);
    QuietFlagsJoin(f, g);
    assert FlagText(e) == f + g;
  }

  /** Where the parts of a block sit. */
  lemma {:induction false} EntryLayout(v: Entry)
    ensures var x := EntryText(v);
      var n := v.name;
      var u := v.url;
      var f := v.flags;
      |x| == EntryLen(v)
      && x[0] == '\n' && x[1] == '-' && x[2] == ' '
      && (forall k | 0 <= k < |n| :: x[3 + k] == n[k])
      && x[3 + |n|] == '\n' && x[4 + |n|] == ' ' && x[5 + |n|] == ' '
      && UrlTagAt(x, 6 + |n|) && x[10 + |n|] == ' '
      && (forall k | 0 <= k < |u| :: x[11 + |n| + k] == u[k])
      && (forall k | 0 <= k < |f| :: x[11 + |n| + |u| + k] == f[k])
  {
  }

  /** `s` holds `x` at `o`, character by character. */
  predicate Holds(s: string, o: nat, x: string) {
    o + |x| <= |s| && forall m | 0 <= m < |x| :: s[o + m] == x[m]
  }

  lemma {:induction false} HoldsSplit(s: string, o: nat, a: string, b: string)
    requires Holds(s, o, a + b)
    ensures Holds(s, o, a) && Holds(s, o + |a|, b)
  {
    forall m | 0 <= m < |a|
      ensures s[o + m] == a[m]
    {
      assert s[o + m] == (a + b)[m];
    }
    forall m | 0 <= m < |b|
      ensures s[o + |a| + m] == b[m]
    {
      assert s[o + (|a| + m)] == (a + b)[|a| + m];
    }
  }

  /** A character that starts neither the end line nor a name line. */
  predicate Quiet(s: string, k: nat) {
    k < |s| && s[k] != 'R' && s[k] != '-'
  }

  /** The block of `v` as the scans see it in `s` at `o`: its fixed
      characters, the name, the URL line, flag lines with no `R` and no `-`,
      and a newline after it. */
  predicate Laid(s: string, o: nat, v: Entry) {
    LaidName(s, o, v) && LaidUrl(s, o, v) && LaidEnd(s, o, v)
  }

  /** The name line of the block, and the start of its URL line. */
  predicate LaidName(s: string, o: nat, v: Entry) {
    var n := v.name;
    o + 10 + |n| < |s|
    && s[o] == '\n' && s[o + 1] == '-' && s[o + 2] == ' '
    && (forall k | 0 <= k < |n| :: s[o + 3 + k] == n[k])
    && s[o + 3 + |n|] == '\n' && s[o + 4 + |n|] == ' ' && s[o + 5 + |n|] == ' '
    && UrlTagAt(s, o + 6 + |n|) && s[o + 10 + |n|] == ' '
  }

  /** The URL of the block and the newline after it. */
  predicate LaidUrl(s: string, o: nat, v: Entry) {
    var n := v.name;
    var u := v.url;
    var b := o + 11 + |n| + |u|;
    b < |s| && (forall k | 0 <= k < |u| :: s[o + 11 + |n| + k] == u[k]) && s[b] == '\n'
  }

  /** The flag lines and the newline after the block. */
  predicate LaidEnd(s: string, o: nat, v: Entry) {
    var b := o + 11 + |v.name| + |v.url|;
    var z := o + EntryLen(v);
    z < |s| && s[z] == '\n' && forall k | b <= k <= z :: Quiet(s, k)
  }

  /** A part of a text held in `s` is held there too. */
  lemma {:induction false} HoldsPart(s: string, o: nat, x: string, i: nat, y: string, p: nat)
    requires Holds(s, o, x) && i + |y| <= |x| && p == o + i
    requires forall k | 0 <= k < |y| :: x[i + k] == y[k]
    ensures forall k | 0 <= k < |y| :: s[p + k] == y[k]
  {
    forall k | 0 <= k < |y|
      ensures s[p + k] == y[k]
    {
      assert s[o + (i + k)] == x[i + k];
    }
  }

  /** A block held in `s`, with a newline after it, is laid out there. */
  lemma {:induction false} LaidOf(s: string, o: nat, v: Entry)
    requires Holds(s, o, EntryText(v)) && QuietFlags(v.flags)
    requires o + EntryLen(v) < |s| && s[o + EntryLen(v)] == '\n'
    ensures Laid(s, o, v)
  {
    LaidFixed(s, o, v);
    LaidText(s, o, v);
    LaidFlags(s, o, v);
  }

  /** The fixed characters of a block held in `s`. */
  lemma {:induction false} LaidFixed(s: string, o: nat, v: Entry)
    requires Holds(s, o, EntryText(v))
    ensures var n := v.name;
      s[o] == '\n' && s[o + 1] == '-' && s[o + 2] == ' '
      && s[o + 3 + |n|] == '\n' && s[o + 4 + |n|] == ' ' && s[o + 5 + |n|] == ' '
      && UrlTagAt(s, o + 6 + |n|) && s[o + 10 + |n|] == ' '
  {
    var x := EntryText(v);
    var n := v.name;
    EntryLayout(v);
    assert s[o + 0] == x[0] && s[o + 1] == x[1] && s[o + 2] == x[2];
    assert s[o + (3 + |n|)] == x[3 + |n|] && s[o + (4 + |n|)] == x[4 + |n|];
    assert s[o + (5 + |n|)] == x[5 + |n|] && s[o + (6 + |n|)] == x[6 + |n|];
    assert s[o + (7 + |n|)] == x[7 + |n|] && s[o + (8 + |n|)] == x[8 + |n|];
    assert s[o + (9 + |n|)] == x[9 + |n|] && s[o + (10 + |n|)] == x[10 + |n|];
  }

  /** The name and the URL of a block held in `s`. */
  lemma {:induction false} LaidText(s: string, o: nat, v: Entry)
    requires Holds(s, o, EntryText(v))
    ensures var n := v.name;
      var u := v.url;
      (forall k | 0 <= k < |n| :: s[o + 3 + k] == n[k])
      && (forall k | 0 <= k < |u| :: s[o + 11 + |n| + k] == u[k])
  {
    var x := EntryText(v);
    EntryLayout(v);
    HoldsPart(s, o, x, 3, v.name, o + 3);
    HoldsPart(s, o, x, 11 + |v.name|, v.url, o + 11 + |v.name|);
  }

  /** The flag lines of a block held in `s`, and the newline after it. */
  lemma {:induction false} LaidFlags(s: string, o: nat, v: Entry)
    requires Holds(s, o, EntryText(v)) && QuietFlags(v.flags)
    requires o + EntryLen(v) < |s| && s[o + EntryLen(v)] == '\n'
    ensures var b := o + 11 + |v.name| + |v.url|;
      var z := o + EntryLen(v);
      s[b] == '\n' && forall k | b <= k <= z :: Quiet(s, k)
  {
    var x := EntryText(v);
    var f := v.flags;
    var b := o + 11 + |v.name| + |v.url|;
    var z := o + EntryLen(v);
    EntryLayout(v);
    HoldsPart(s, o, x, 11 + |v.name| + |v.url|, f, b);
    forall k | b <= k <= z
      ensures Quiet(s, k)
    {
      if k < z {
        assert s[b + (k - b)] == f[k - b];
      }
    }
    if |f| > 0 {
      assert s[b + 0] == f[0];
    }
  }

  /** No URL line starts inside the name part of a block. */
  lemma {:induction false} NoUrlInName(s: string, o: nat, v: Entry)
    requires !Mentions(v.name, "URL:") && LaidName(s, o, v)
    ensures forall j | o <= j < o + 6 + |v.name| :: !UrlTagAt(s, j)
  {
    var n := v.name;
    var m := o + 3 + |n|;
    forall j | o <= j < o + 6 + |n|
      ensures !UrlTagAt(s, j)
    {
      if UrlTagAt(s, j) {
        if o + 3 <= j && j + 4 <= m {
          assert UrlTagAt(n, j - o - 3);
          UrlTagOccurs(n, j - o - 3);
        }
      }
    }
  }

  /** A match found is taken, and the scan resumes where it ends. */
  lemma {:induction false} UrlsStep(s: string, p: nat)
    requires p < |s| && UrlAt(s, p).Some?
    ensures UrlsFrom(s, p) == [s[UrlAt(s, p).value.0..UrlAt(s, p).value.1]] + UrlsFrom(s, UrlAt(s, p).value.1)
  {
  }

  lemma {:induction false} NamesStep(s: string, p: nat)
    requires p < |s| && NameAt(s, p).Some?
    ensures NamesFrom(s, p) == [s[NameAt(s, p).value.0..NameAt(s, p).value.1]] + NamesFrom(s, NameAt(s, p).value.2)
  {
  }

  /** Past a block's URL, no URL line and no `- ` starts before the block ends. */
  lemma {:induction false} NothingAfterUrl(s: string, o: nat, v: Entry)
    requires LaidEnd(s, o, v)
    ensures var b := o + 11 + |v.name| + |v.url|;
      forall j | b <= j < o + EntryLen(v) :: !UrlTagAt(s, j) && !DashAt(s, j)
  {
    var b := o + 11 + |v.name| + |v.url|;
    forall j | b <= j < o + EntryLen(v)
      ensures !UrlTagAt(s, j) && !DashAt(s, j)
    {
      assert Quiet(s, j) && Quiet(s, j + 1);
    }
  }

  lemma {:induction false} UrlsEnter(s: string, o: nat, v: Entry)
    requires !Mentions(v.name, "URL:") && LaidName(s, o, v)
    ensures UrlsFrom(s, o) == UrlsFrom(s, o + 6 + |v.name|)
  {
    NoUrlInName(s, o, v);
    UrlsSkip(s, o, o + 6 + |v.name|);
  }

  /** The scan takes the block's URL at its URL line. */
  lemma {:induction false} UrlAtBlock(s: string, o: nat, v: Entry)
    requires HttpsUrl(v.url) && LaidName(s, o, v) && LaidUrl(s, o, v)
    ensures UrlsFrom(s, o + 6 + |v.name|) == [v.url] + UrlsFrom(s, o + 11 + |v.name| + |v.url|)
  {
    UrlMatch(s, o + 6 + |v.name|, v.url, o + 11 + |v.name| + |v.url|);
  }

  lemma {:induction false} UrlsLeave(s: string, o: nat, v: Entry)
    requires LaidEnd(s, o, v)
    ensures UrlsFrom(s, o + 11 + |v.name| + |v.url|) == UrlsFrom(s, o + EntryLen(v))
  {
    NothingAfterUrl(s, o, v);
    UrlsSkip(s, o + 11 + |v.name| + |v.url|, o + EntryLen(v));
  }

  /** The URL scan reads a block's URL and nothing else from it. */
  lemma {:induction false} UrlsBlock(s: string, o: nat, v: Entry)
    requires Readable(v) && Laid(s, o, v)
    ensures UrlsFrom(s, o) == [v.url] + UrlsFrom(s, o + EntryLen(v))
  {
    UrlsEnter(s, o, v);
    UrlAtBlock(s, o, v);
    UrlsLeave(s, o, v);
  }

  /** The scan passes the block's leading newline and takes its name. */
  lemma {:induction false} NameAtBlock(s: string, o: nat, v: Entry)
    requires '\n' !in v.name && LaidName(s, o, v)
    ensures NamesFrom(s, o) == [v.name] + NamesFrom(s, o + 10 + |v.name|)
  {
    NameAfterNewline(s, o, v.name, o + 10 + |v.name|);
  }

  lemma {:induction false} NamesLeave(s: string, o: nat, v: Entry)
    requires NoSpace(v.url) && LaidUrl(s, o, v) && LaidEnd(s, o, v) && s[o + 10 + |v.name|] == ' '
    ensures NamesFrom(s, o + 10 + |v.name|) == NamesFrom(s, o + EntryLen(v))
  {
    var a := o + 11 + |v.name|;
    UrlNoDash(s, a, v.url);
    NothingAfterUrl(s, o, v);
    NamesSkip(s, o + 10 + |v.name|, o + EntryLen(v));
  }

  /** No `- ` starts inside a URL without spaces that ends its line. */
  lemma {:induction false} UrlNoDash(s: string, a: nat, u: string)
    requires NoSpace(u) && a + |u| < |s| && s[a + |u|] == '\n'
    requires forall k | 0 <= k < |u| :: s[a + k] == u[k]
    ensures forall j | a <= j < a + |u| :: !DashAt(s, j)
  {
    forall j | a <= j < a + |u|
      ensures !DashAt(s, j)
    {
      if j + 1 < a + |u| {
        assert s[a + (j + 1 - a)] == u[j + 1 - a];
      }
    }
  }

  /** The name scan reads a block's name and nothing else from it. */
  lemma {:induction false} NamesBlock(s: string, o: nat, v: Entry)
    requires Readable(v) && Laid(s, o, v)
    ensures NamesFrom(s, o) == [v.name] + NamesFrom(s, o + EntryLen(v))
  {
    NameAtBlock(s, o, v);
    NamesLeave(s, o, v);
  }

  // ---------------------------------------------------------------------
  // All added entries
  // ---------------------------------------------------------------------

  /** The text of the entries, one block each. */
  function EntriesText(vs: seq<Entry>): string {
    if vs == [] then "" else EntriesText(vs[..|vs| - 1]) + EntryText(vs[|vs| - 1])
  }

  function EntriesLen(vs: seq<Entry>): nat {
    if vs == [] then 0 else EntriesLen(vs[..|vs| - 1]) + EntryLen(vs[|vs| - 1])
  }

  function UrlsOf(vs: seq<Entry>): seq<string> {
    seq(|vs|, k requires 0 <= k < |vs| => vs[k].url)
  }

  function NamesOf(vs: seq<Entry>): seq<string> {
    seq(|vs|, k requires 0 <= k < |vs| => vs[k].name)
  }

  predicate AllReadable(vs: seq<Entry>) {
    forall k | 0 <= k < |vs| :: Readable(vs[k])
  }

  /** Where the block of `vs[k]` starts, or where the blocks end when
      `k == |vs|`. */
  function Pos(o: nat, vs: seq<Entry>, k: nat): nat {
    if k <= |vs| then o + EntriesLen(vs[..k]) else o
  }

  /** The next block follows the one before it. */
  lemma {:induction false} PosNext(o: nat, vs: seq<Entry>, k: nat)
    requires k < |vs|
    ensures Pos(o, vs, k + 1) == Pos(o, vs, k) + EntryLen(vs[k])
  {
    assert vs[..k + 1][..k] == vs[..k];
  }

  /** Dropping the last entry moves no block. */
  lemma {:induction false} PosFront(o: nat, vs: seq<Entry>, k: nat)
    requires k < |vs|
    ensures Pos(o, vs[..|vs| - 1], k) == Pos(o, vs, k)
  {
    assert vs[..|vs| - 1][..k] == vs[..k];
  }

  /** The first block starts at `o`, and the last one ends the blocks. */
  lemma {:induction false} PosEnds(o: nat, vs: seq<Entry>)
    ensures Pos(o, vs, 0) == o && Pos(o, vs, |vs|) == o + EntriesLen(vs)
  {
    assert vs[..0] == [] && vs[..|vs|] == vs;
  }

  /** The blocks of `vs` laid out one after another in `s` from `o`. */
  predicate LaidAll(s: string, o: nat, vs: seq<Entry>) {
    o + EntriesLen(vs) < |s|
    && forall k {:trigger Pos(o, vs, k)} | 0 <= k < |vs| :: Laid(s, Pos(o, vs, k), vs[k])
  }

  lemma {:induction false} EntriesLength(vs: seq<Entry>)
    ensures |EntriesText(vs)| == EntriesLen(vs)
    decreases |vs|
  {
    if vs != [] {
      EntriesLength(vs[..|vs| - 1]);
      EntryLayout(vs[|vs| - 1]);
    }
  }

  /** The blocks held in `s`, with a newline after them, are laid out there. */
  lemma {:induction false} EntriesLaid(s: string, o: nat, vs: seq<Entry>)
    requires AllReadable(vs) && Holds(s, o, EntriesText(vs))
    requires o + EntriesLen(vs) < |s| && s[o + EntriesLen(vs)] == '\n'
    ensures LaidAll(s, o, vs)
    decreases |vs|
  {
    if vs != [] {
      var front := vs[..|vs| - 1];
      var v := vs[|vs| - 1];
      EntriesLength(front);
      EntryLayout(v);
      HoldsSplit(s, o, EntriesText(front), EntryText(v));
      var p := o + EntriesLen(front);
      assert s[p + 0] == EntryText(v)[0];
      EntriesLaid(s, o, front);
      LaidOf(s, p, v);
      forall k | 0 <= k < |vs|
        ensures Laid(s, Pos(o, vs, k), vs[k])
      {
        if k < |front| {
          PosFront(o, vs, k);
          assert vs[k] == front[k];
        } else {
          assert vs[..k] == front;
        }
      }
    }
  }

  /** Results that peel off one value per step concatenate. */
  lemma {:induction false} Chain<T>(h: nat -> seq<T>, xs: seq<T>)
    requires forall k {:trigger xs[k]} | 0 <= k < |xs| :: h(k) == [xs[k]] + h(k + 1)
    ensures h(0) == xs + h(|xs|)
    decreases |xs|
  {
    if xs != [] {
      var n := |xs| - 1;
      var front := xs[..n];
      Chain(h, front);
      AppendAssoc(front, [xs[n]], h(n + 1));
      assert front + [xs[n]] == xs;
    }
  }

  /** The scans at a position, and nothing past the end of the text. */
  function UrlsAt(s: string, p: nat): seq<string> {
    if p <= |s| then UrlsFrom(s, p) else []
  }

  function NamesAt(s: string, p: nat): seq<string> {
    if p <= |s| then NamesFrom(s, p) else []
  }

  /** The scans read each block and move to the next one. */
  lemma {:induction false} UrlSteps(s: string, o: nat, vs: seq<Entry>)
    requires AllReadable(vs) && LaidAll(s, o, vs)
    ensures forall k {:trigger UrlsOf(vs)[k]} | 0 <= k < |vs| ::
      UrlsAt(s, Pos(o, vs, k)) == [UrlsOf(vs)[k]] + UrlsAt(s, Pos(o, vs, k + 1))
  {
    forall k | 0 <= k < |vs|
      ensures UrlsAt(s, Pos(o, vs, k)) == [UrlsOf(vs)[k]] + UrlsAt(s, Pos(o, vs, k + 1))
    {
      assert Readable(vs[k]) && Laid(s, Pos(o, vs, k), vs[k]);
      UrlStep(s, o, vs, k);
    }
  }

  /** The URL scan reads one block and moves to the next. */
  lemma {:induction false} UrlStep(s: string, o: nat, vs: seq<Entry>, k: nat)
    requires k < |vs| && Readable(vs[k]) && Laid(s, Pos(o, vs, k), vs[k])
    ensures UrlsAt(s, Pos(o, vs, k)) == [vs[k].url] + UrlsAt(s, Pos(o, vs, k + 1))
  {
    PosNext(o, vs, k);
    UrlsBlock(s, Pos(o, vs, k), vs[k]);
  }

  lemma {:induction false} NameSteps(s: string, o: nat, vs: seq<Entry>)
    requires AllReadable(vs) && LaidAll(s, o, vs)
    ensures forall k {:trigger NamesOf(vs)[k]} | 0 <= k < |vs| ::
      NamesAt(s, Pos(o, vs, k)) == [NamesOf(vs)[k]] + NamesAt(s, Pos(o, vs, k + 1))
  {
    forall k | 0 <= k < |vs|
      ensures NamesAt(s, Pos(o, vs, k)) == [NamesOf(vs)[k]] + NamesAt(s, Pos(o, vs, k + 1))
    {
      assert Readable(vs[k]) && Laid(s, Pos(o, vs, k), vs[k]);
      NameStep(s, o, vs, k);
    }
  }

  /** The name scan reads one block and moves to the next. */
  lemma {:induction false} NameStep(s: string, o: nat, vs: seq<Entry>, k: nat)
    requires k < |vs| && Readable(vs[k]) && Laid(s, Pos(o, vs, k), vs[k])
    ensures NamesAt(s, Pos(o, vs, k)) == [vs[k].name] + NamesAt(s, Pos(o, vs, k + 1))
  {
    PosNext(o, vs, k);
    NamesBlock(s, Pos(o, vs, k), vs[k]);
  }

  /** The steps chain up: the scan from the first block reads every value
      and goes on after the last block. */
  lemma {:induction false} UrlsChain(s: string, o: nat, vs: seq<Entry>)
    requires o + EntriesLen(vs) <= |s|
    requires forall k {:trigger UrlsOf(vs)[k]} | 0 <= k < |vs| ::
      UrlsAt(s, Pos(o, vs, k)) == [UrlsOf(vs)[k]] + UrlsAt(s, Pos(o, vs, k + 1))
    ensures UrlsFrom(s, o) == UrlsOf(vs) + UrlsFrom(s, o + EntriesLen(vs))
  {
    var h := (k: nat) => UrlsAt(s, Pos(o, vs, k));
    PosEnds(o, vs);
    assert |UrlsOf(vs)| == |vs|;
    assert h(0) == UrlsFrom(s, o);
    assert h(|vs|) == UrlsFrom(s, o + EntriesLen(vs));
    Chain(h, UrlsOf(vs));
  }

  lemma {:induction false} NamesChain(s: string, o: nat, vs: seq<Entry>)
    requires o + EntriesLen(vs) <= |s|
    requires forall k {:trigger NamesOf(vs)[k]} | 0 <= k < |vs| ::
      NamesAt(s, Pos(o, vs, k)) == [NamesOf(vs)[k]] + NamesAt(s, Pos(o, vs, k + 1))
    ensures NamesFrom(s, o) == NamesOf(vs) + NamesFrom(s, o + EntriesLen(vs))
  {
    var h := (k: nat) => NamesAt(s, Pos(o, vs, k));
    PosEnds(o, vs);
    assert |NamesOf(vs)| == |vs|;
    assert h(0) == NamesFrom(s, o);
    assert h(|vs|) == NamesFrom(s, o + EntriesLen(vs));
    Chain(h, NamesOf(vs));
  }

  /** Two characters cannot hold a URL tag. */
  lemma {:induction false} UrlsTail(s: string, z: nat)
    requires |s| == z + 2
    ensures UrlsFrom(s, z) == []
  {
    UrlsSkip(s, z, |s|);
  }

  /** A blank line holds no name. */
  lemma {:induction false} NamesTail(s: string, z: nat)
    requires |s| == z + 2 && s[z] == '\n'
    ensures NamesFrom(s, z) == []
  {
    NamesSkip(s, z, |s|);
  }

  /** A scan that reads `xs` and then a blank line has read `xs`. */
  lemma {:induction false} UrlsEnd(s: string, o: nat, z: nat, xs: seq<string>)
    requires o <= z && |s| == z + 2 && UrlsFrom(s, o) == xs + UrlsFrom(s, z)
    ensures UrlsFrom(s, o) == xs
  {
    UrlsTail(s, z);
    assert xs + [] == xs;
  }

  lemma {:induction false} NamesEnd(s: string, o: nat, z: nat, xs: seq<string>)
    requires o <= z && |s| == z + 2 && s[z] == '\n' && NamesFrom(s, o) == xs + NamesFrom(s, z)
    ensures NamesFrom(s, o) == xs
  {
    NamesTail(s, z);
    assert xs + [] == xs;
  }

  /** The text of the entries, held in `s` from `o` and followed by a blank
      line that ends `s`, is read back by both scans. */
  lemma {:induction false} ScanHeld(s: string, o: nat, vs: seq<Entry>)
    requires AllReadable(vs) && Holds(s, o, EntriesText(vs))
    requires |s| == o + EntriesLen(vs) + 2 && s[o + EntriesLen(vs)] == '\n'
    ensures UrlsFrom(s, o) == UrlsOf(vs) && NamesFrom(s, o) == NamesOf(vs)
  {
    EntriesLaid(s, o, vs);
    UrlSteps(s, o, vs);
    NameSteps(s, o, vs);
    UrlsRead(s, o, vs);
    NamesRead(s, o, vs);
  }

  /** The URL steps and the blank line after them: the scan reads the
      entries' URLs. */
  lemma {:induction false} UrlsRead(s: string, o: nat, vs: seq<Entry>)
    requires |s| == o + EntriesLen(vs) + 2
    requires forall k {:trigger UrlsOf(vs)[k]} | 0 <= k < |vs| ::
      UrlsAt(s, Pos(o, vs, k)) == [UrlsOf(vs)[k]] + UrlsAt(s, Pos(o, vs, k + 1))
    ensures UrlsFrom(s, o) == UrlsOf(vs)
  {
    UrlsChain(s, o, vs);
    UrlsEnd(s, o, o + EntriesLen(vs), UrlsOf(vs));
  }

  lemma {:induction false} NamesRead(s: string, o: nat, vs: seq<Entry>)
    requires |s| == o + EntriesLen(vs) + 2 && s[o + EntriesLen(vs)] == '\n'
    requires forall k {:trigger NamesOf(vs)[k]} | 0 <= k < |vs| ::
      NamesAt(s, Pos(o, vs, k)) == [NamesOf(vs)[k]] + NamesAt(s, Pos(o, vs, k + 1))
    ensures NamesFrom(s, o) == NamesOf(vs)
  {
    NamesChain(s, o, vs);
    NamesEnd(s, o, o + EntriesLen(vs), NamesOf(vs));
  }

  /** A text holds each of its prefixes. */
  lemma {:induction false} HoldsPrefix(x: string, t: string)
    ensures Holds(x + t, 0, x)
  {
    forall m | 0 <= m < |x|
      ensures (x + t)[0 + m] == x[m]
    {
    }
  }

  /** Readable entries followed by a blank line: both scans read them back,
      in order. */
  lemma {:induction false} ScanEntries(vs: seq<Entry>)
    requires AllReadable(vs)
    ensures UrlsFrom(EntriesText(vs) + "\n\n", 0) == UrlsOf(vs)
    ensures NamesFrom(EntriesText(vs) + "\n\n", 0) == NamesOf(vs)
  {
    var x := EntriesText(vs);
    var s := x + "\n\n";
    EntriesLength(vs);
    HoldsPrefix(x, "\n\n");
    var z := 0 + EntriesLen(vs);
    assert s[z] == '\n';
    ScanHeld(s, 0, vs);
  }

  // ---------------------------------------------------------------------
  // No end marker inside the blocks
  // ---------------------------------------------------------------------

  /** A one-line pattern that starts with `R`, not followed by `L`, with a
      space at index 7 (as `Removed events`). */
  predicate EndLike(p: string) {
    |p| > 7 && p[0] == 'R' && p[1] != 'L' && p[7] == ' ' && '\n' !in p
  }

  /** No such pattern starts at the fixed characters of a block. */
  lemma {:induction false} NoPatFixed(s: string, o: nat, v: Entry, p: string)
    requires EndLike(p) && Laid(s, o, v)
    ensures var n := |v.name|;
      forall j | o <= j < o + 3 || o + 3 + n <= j < o + 11 + n :: !OccursAt(s, p, j)
  {
    var n := |v.name|;
    forall j | o <= j < o + 3 || o + 3 + n <= j < o + 11 + n
      ensures !OccursAt(s, p, j)
    {
      if j + |p| <= |s| {
        if j == o + 7 + n {
          assert s[j..j + |p|][1] == s[j + 1];
        } else {
          assert s[j..j + |p|][0] == s[j];
        }
      }
    }
  }

  /** Nor inside the name, which does not mention it. */
  lemma {:induction false} NoPatInName(s: string, o: nat, v: Entry, p: string)
    requires EndLike(p) && !Mentions(v.name, p) && Laid(s, o, v)
    ensures forall j | o + 3 <= j < o + 3 + |v.name| :: !OccursAt(s, p, j)
  {
    var n := v.name;
    forall j | o + 3 <= j < o + 3 + |n|
      ensures !OccursAt(s, p, j)
    {
      if j + |p| <= |s| {
        var a := s[j..j + |p|];
        if j + |p| <= o + 3 + |n| {
          var i := j - o - 3;
          var c := n[i..i + |p|];
          assert !OccursAt(n, p, i);
          forall k | 0 <= k < |p|
            ensures a[k] == c[k]
          {
            assert s[j + k] == n[i + k];
          }
          assert a == c;
        } else {
          assert a[o + 3 + |n| - j] == '\n';
        }
      }
    }
  }

  /** Nor inside the URL, which has no space. */
  lemma {:induction false} NoPatInUrl(s: string, o: nat, v: Entry, p: string)
    requires EndLike(p) && NoSpace(v.url) && Laid(s, o, v)
    ensures var a := o + 11 + |v.name|;
      forall j | a <= j < a + |v.url| :: !OccursAt(s, p, j)
  {
    var a := o + 11 + |v.name|;
    var u := v.url;
    forall j | a <= j < a + |u|
      ensures !OccursAt(s, p, j)
    {
      if j + |p| <= |s| {
        if j + 7 < a + |u| {
          assert s[j..j + |p|][7] == u[j + 7 - a];
        } else {
          assert s[j..j + |p|][a + |u| - j] == '\n';
        }
      }
    }
  }

  /** Nor in the flag lines, which have no `R`. */
  lemma {:induction false} NoPatInFlags(s: string, o: nat, v: Entry, p: string)
    requires EndLike(p) && Laid(s, o, v)
    ensures var b := o + 11 + |v.name| + |v.url|;
      forall j | b <= j < o + EntryLen(v) :: !OccursAt(s, p, j)
  {
    var b := o + 11 + |v.name| + |v.url|;
    forall j | b <= j < o + EntryLen(v)
      ensures !OccursAt(s, p, j)
    {
      if j + |p| <= |s| {
        assert Quiet(s, j);
        assert s[j..j + |p|][0] == s[j];
      }
    }
  }

  /** No occurrence of such a pattern starts inside a readable block. */
  lemma {:induction false} NoPatInBlock(s: string, o: nat, v: Entry, p: string)
    requires EndLike(p) && !Mentions(v.name, p) && NoSpace(v.url) && Laid(s, o, v)
    ensures forall j | o <= j < o + EntryLen(v) :: !OccursAt(s, p, j)
  {
    NoPatFixed(s, o, v, p);
    NoPatInName(s, o, v, p);
    NoPatInUrl(s, o, v, p);
    NoPatInFlags(s, o, v, p);
  }

  /** The block a position inside the blocks falls in. */
  lemma {:induction false} BlockOf(o: nat, vs: seq<Entry>, j: nat) returns (k: nat)
    requires o <= j < o + EntriesLen(vs)
    ensures k < |vs| && Pos(o, vs, k) <= j < Pos(o, vs, k + 1)
    decreases |vs|
  {
    var front := vs[..|vs| - 1];
    if j < o + EntriesLen(front) {
      k := BlockOf(o, front, j);
      PosFront(o, vs, k);
      PosFront(o, vs, k + 1);
    } else {
      k := |vs| - 1;
      assert vs[..k] == front && vs[..k + 1] == vs;
    }
  }

  /** Nor inside the blocks of readable entries whose names do not mention
      it. */
  lemma {:induction false} NoPatInEntries(s: string, o: nat, vs: seq<Entry>, p: string)
    requires EndLike(p) && AllReadable(vs) && LaidAll(s, o, vs)
    requires forall k | 0 <= k < |vs| :: !Mentions(vs[k].name, p)
    ensures forall j | o <= j < o + EntriesLen(vs) :: !OccursAt(s, p, j)
  {
    forall j | o <= j < o + EntriesLen(vs)
      ensures !OccursAt(s, p, j)
    {
      var k := BlockOf(o, vs, j);
      PosNext(o, vs, k);
      NoPatInBlock(s, Pos(o, vs, k), vs[k], p);
    }
  }

  /** The entries' text does not mention such a pattern. */
  lemma {:induction false} EntriesUnmentioned(vs: seq<Entry>, p: string)
    requires EndLike(p) && AllReadable(vs)
    requires forall k | 0 <= k < |vs| :: !Mentions(vs[k].name, p)
    ensures !Mentions(EntriesText(vs), p)
  {
    var x := EntriesText(vs);
    var s := x + "\n";
    EntriesLength(vs);
    HoldsPrefix(x, "\n");
    var z := 0 + EntriesLen(vs);
    assert s[z] == '\n';
    UnmentionedHeld(s, 0, vs, p);
    UnmentionedPrefix(x, "\n", p);
  }

  lemma {:induction false} UnmentionedHeld(s: string, o: nat, vs: seq<Entry>, p: string)
    requires EndLike(p) && AllReadable(vs) && Holds(s, o, EntriesText(vs))
    requires forall k | 0 <= k < |vs| :: !Mentions(vs[k].name, p)
    requires o + EntriesLen(vs) < |s| && s[o + EntriesLen(vs)] == '\n'
    ensures forall j | o <= j < o + EntriesLen(vs) :: !OccursAt(s, p, j)
  {
    EntriesLaid(s, o, vs);
    NoPatInEntries(s, o, vs, p);
  }

  /** A non-empty pattern that starts nowhere in the prefix of a text is not
      mentioned by the prefix. */
  lemma {:induction false} UnmentionedPrefix(x: string, t: string, p: string)
    requires p != [] && forall j | 0 <= j < |x| :: !OccursAt(x + t, p, j)
    ensures !Mentions(x, p)
  {
    var s := x + t;
    forall j | 0 <= j <= |x|
      ensures !OccursAt(x, p, j)
    {
      if j + |p| <= |x| {
        assert !OccursAt(s, p, j);
        assert s[j..j + |p|] == x[j..j + |p|];
      }
    }
  }

  // ---------------------------------------------------------------------
  // The added events
  // ---------------------------------------------------------------------

  /** The report text of the added events, one block each. */
  function Blocks(es: seq<Event>): string {
    if es == [] then "" else Blocks(es[..|es| - 1]) + Block(es[|es| - 1])
  }

  function Entries(es: seq<Event>): seq<Entry> {
    seq(|es|, k requires 0 <= k < |es| => EntryOf(es[k]))
  }

  /** The URLs of `es`, in order, with the report's default. */
  function Urls(es: seq<Event>): seq<string> {
    seq(|es|, k requires 0 <= k < |es| => UrlOr(es[k]))
  }

  /** The names of `es`, in order, with the report's default. */
  function Names(es: seq<Event>): seq<string> {
    seq(|es|, k requires 0 <= k < |es| => NameOr(es[k]))
  }

  predicate AllListed(es: seq<Event>) {
    forall k | 0 <= k < |es| :: Listed(es[k])
  }

  lemma {:induction false} BlocksEntries(es: seq<Event>)
    ensures Blocks(es) == EntriesText(Entries(es))
    decreases |es|
  {
    if es != [] {
      var n := |es| - 1;
      BlocksEntries(es[..n]);
      assert Entries(es)[..n] == Entries(es[..n]);
      BlockEntry(es[n]);
    }
  }

  lemma {:induction false} ListedEntries(es: seq<Event>)
    requires AllListed(es)
    ensures AllReadable(Entries(es))
    ensures forall k | 0 <= k < |es| :: !Mentions(Entries(es)[k].name, SectionEnd)
  {
    forall k | 0 <= k < |es|
      ensures Readable(Entries(es)[k])
    {
      ListedEntry(es[k]);
    }
  }

  /** The added events' text followed by a blank line: both scans read the
      events back, in order. */
  lemma {:induction false} ScanBlocks(es: seq<Event>)
    requires AllListed(es)
    ensures UrlsFrom(Blocks(es) + "\n\n", 0) == Urls(es)
    ensures NamesFrom(Blocks(es) + "\n\n", 0) == Names(es)
  {
    var vs := Entries(es);
    ListedEntries(es);
    BlocksEntries(es);
    ScanEntries(vs);
    assert UrlsOf(vs) == Urls(es);
    assert NamesOf(vs) == Names(es);
  }

  /** The added events' text has no `Removed events`. */
  lemma {:induction false} NoEndInBlocks(es: seq<Event>)
    requires AllListed(es)
    ensures !Mentions(Blocks(es), SectionEnd)
  {
    ListedEntries(es);
    BlocksEntries(es);
    EndMarker();
    EntriesUnmentioned(Entries(es), SectionEnd);
  }

  lemma {:induction false} EndMarker()
    ensures EndLike(SectionEnd)
  {
  }

  // ---------------------------------------------------------------------
  // Finding the section
  // ---------------------------------------------------------------------

  /** A one-line pattern with a character `pre` lacks is found first at
      the start of the line after `pre`. */
  lemma {:induction false} FirstAfterLine(c: string, pre: string, p: string, m: nat)
    requires |pre| < |c| && c[..|pre|] == pre && c[|pre|] == '\n'
    requires m < |p| && p[m] !in pre && '\n' !in p && OccursAt(c, p, |pre| + 1)
    ensures FirstAt(c, p, 0, |pre| + 1)
  {
    NoneBeforeLine(c, pre, p, m);
  }

  /** No occurrence of such a pattern starts in `pre` or at its newline. */
  lemma {:induction false} NoneBeforeLine(c: string, pre: string, p: string, m: nat)
    requires |pre| < |c| && c[..|pre|] == pre && c[|pre|] == '\n'
    requires m < |p| && p[m] !in pre && '\n' !in p
    ensures forall j | 0 <= j <= |pre| :: !OccursAt(c, p, j)
  {
    forall j | 0 <= j <= |pre|
      ensures !OccursAt(c, p, j)
    {
      if j + |p| <= |c| {
        if j + |p| > |pre| {
          assert c[j..j + |p|][|pre| - j] == '\n';
        } else {
          assert c[j..j + |p|][m] == c[..|pre|][j + m];
        }
      }
    }
  }

  /** A pattern that starts with a non-digit is found first after a run of
      digits. */
  lemma {:induction false} FirstAfterDigits(c: string, i: nat, d: string, p: string)
    requires p != [] && !IsDigit(p[0]) && AllDigits(d)
    requires i + |d| + |p| <= |c| && c[i..i + |d|] == d && c[i + |d|..i + |d| + |p|] == p
    ensures FirstAt(c, p, i, i + |d|)
  {
    var x := i + |d|;
    forall j | i <= j < x
      ensures !OccursAt(c, p, j)
    {
      if j + |p| <= |c| {
        assert c[j..j + |p|][0] == d[j - i];
      }
    }
  }

  /** A one-line pattern is found first after `body` and a newline when
      `body` does not mention it. */
  lemma {:induction false} FirstAfterBody(c: string, e: nat, body: string, p: string)
    requires p != [] && '\n' !in p && !Mentions(body, p)
    requires e + |body| + 1 <= |c| && c[e..e + |body|] == body && c[e + |body|] == '\n'
    requires OccursAt(c, p, e + |body| + 1)
    ensures FirstAt(c, p, e, e + |body| + 1)
  {
    var x := e + |body| + 1;
    forall j | e <= j < x
      ensures !OccursAt(c, p, j)
    {
      if j + |p| <= |c| {
        if j + |p| <= e + |body| {
          assert !OccursAt(body, p, j - e);
          SliceIn(c, e, body, j - e, j - e + |p|);
        } else {
          assert c[j..j + |p|][e + |body| - j] == '\n';
        }
      }
    }
  }

  /** A slice of a slice is a slice. */
  lemma {:induction false} SliceIn(s: string, o: nat, x: string, i: nat, j: nat)
    requires o + |x| <= |s| && s[o..o + |x|] == x && i <= j <= |x|
    ensures s[o + i..o + j] == x[i..j]
  {
    forall k | 0 <= k < j - i
      ensures s[o + i..o + j][k] == x[i..j][k]
    {
      assert s[o + i + k] == s[o..o + |x|][i + k];
    }
  }

  /** The delimited text of a text laid out as a report: `pre` (lacking a
      character of `open`), the one-line `open`, a run of digits, `close`
      (not starting with a digit), `body`, a blank line, and the one-line
      `stop` that `body` does not mention. */
  lemma {:induction false} BetweenIn(pre: string, d: string, body: string, rest: string,
                  open: string, close: string, stop: string, m: nat)
    requires m < |open| && open[m] !in pre && '\n' !in open
    requires close != [] && !IsDigit(close[0]) && AllDigits(d)
    requires stop != [] && '\n' !in stop && !Mentions(body, stop)
    ensures Between(pre + "\n" + (open + d + close + (body + "\n\n" + stop + rest)), open, close, stop)
      == Some(body + "\n\n")
  {
    var c := pre + "\n" + (open + d + close + (body + "\n\n" + stop + rest));
    Layout(pre, d, body, rest, open, close, stop);
    BetweenAt(c, pre, d, body, open, close, stop, m);
  }

  /** Where the parts of such a text sit. */
  lemma {:induction false} Layout(pre: string, d: string, body: string, rest: string,
               open: string, close: string, stop: string)
    ensures var c := pre + "\n" + (open + d + close + (body + "\n\n" + stop + rest));
      var i := |pre| + 1;
      var e := i + |open| + |d| + |close|;
      e + |body| + 2 + |stop| <= |c| && c[..|pre|] == pre && c[|pre|] == '\n'
      && c[i..i + |open|] == open && c[i + |open|..i + |open| + |d|] == d
      && c[i + |open| + |d|..e] == close && c[e..e + |body| + 1] == body + "\n"
      && c[e..e + |body| + 2] == body + "\n\n" && c[e + |body| + 1] == '\n'
      && c[e + |body| + 2..e + |body| + 2 + |stop|] == stop
  {
    var u := body + "\n\n" + stop + rest;
    var c := pre + "\n" + (open + d + close + u);
    var e := |pre| + 1 + |open| + |d| + |close|;
    LayoutHead(pre, d, open, close, u);
    LayoutTail(c, e, body, stop, rest);
  }

  /** Where the leading parts sit, and that the rest follows them. */
  lemma {:induction false} LayoutHead(pre: string, d: string, open: string, close: string, u: string)
    ensures var c := pre + "\n" + (open + d + close + u);
      var i := |pre| + 1;
      var e := i + |open| + |d| + |close|;
      e <= |c| && c[..|pre|] == pre && c[|pre|] == '\n'
      && c[i..i + |open|] == open && c[i + |open|..i + |open| + |d|] == d
      && c[i + |open| + |d|..e] == close && c[e..] == u
  {
    var t := open + d + close + u;
    var c := pre + "\n" + t;
    var i := |pre| + 1;
    assert c[i..] == t;
    SliceIn(c, i, t, 0, |open|);
    SliceIn(c, i, t, |open|, |open| + |d|);
    SliceIn(c, i, t, |open| + |d|, |open| + |d| + |close|);
    assert t[|open| + |d| + |close|..] == u;
  }

  /** Where the body, the blank line and the closing line sit. */
  lemma {:induction false} LayoutTail(c: string, e: nat, body: string, stop: string, rest: string)
    requires e <= |c| && c[e..] == body + "\n\n" + stop + rest
    ensures e + |body| + 2 + |stop| <= |c| && c[e..e + |body| + 1] == body + "\n"
      && c[e..e + |body| + 2] == body + "\n\n" && c[e + |body| + 1] == '\n'
      && c[e + |body| + 2..e + |body| + 2 + |stop|] == stop
  {
    var u := body + "\n\n" + stop + rest;
    assert u[..|body| + 1] == body + "\n";
    assert u[..|body| + 2] == body + "\n\n";
    assert u[|body| + 2..|body| + 2 + |stop|] == stop;
    SliceIn(c, e, u, 0, |body| + 1);
    SliceIn(c, e, u, 0, |body| + 2);
    SliceIn(c, e, u, |body| + 2, |body| + 2 + |stop|);
    assert c[e + |body| + 1] == u[|body| + 1];
  }

  /** The delimited text found from the positions of the parts alone. */
  lemma {:induction false} BetweenAt(c: string, pre: string, d: string, body: string,
                  open: string, close: string, stop: string, m: nat)
    requires m < |open| && open[m] !in pre && '\n' !in open
    requires close != [] && !IsDigit(close[0]) && AllDigits(d)
    requires stop != [] && '\n' !in stop && !Mentions(body, stop)
    requires var i := |pre| + 1;
      var e := i + |open| + |d| + |close|;
      e + |body| + 2 + |stop| <= |c| && c[..|pre|] == pre && c[|pre|] == '\n'
      && c[i..i + |open|] == open && c[i + |open|..i + |open| + |d|] == d
      && c[i + |open| + |d|..e] == close && c[e..e + |body| + 1] == body + "\n"
      && c[e..e + |body| + 2] == body + "\n\n" && c[e + |body| + 1] == '\n'
      && c[e + |body| + 2..e + |body| + 2 + |stop|] == stop
    ensures Between(c, open, close, stop) == Some(body + "\n\n")
  {
    var i := |pre| + 1;
    var k := i + |open| + |d|;
    var e := k + |close|;
    FindsAt(c, pre, d, body, open, close, stop, m);
    BetweenOf(c, open, close, stop, i, k, e + |body| + 2);
  }

  /** The delimiters found from the positions of the parts alone. */
  lemma {:induction false} FindsAt(c: string, pre: string, d: string, body: string,
                  open: string, close: string, stop: string, m: nat)
    requires m < |open| && open[m] !in pre && '\n' !in open
    requires close != [] && !IsDigit(close[0]) && AllDigits(d)
    requires stop != [] && '\n' !in stop && !Mentions(body, stop)
    requires var i := |pre| + 1;
      var e := i + |open| + |d| + |close|;
      e + |body| + 2 + |stop| <= |c| && c[..|pre|] == pre && c[|pre|] == '\n'
      && c[i..i + |open|] == open && c[i + |open|..i + |open| + |d|] == d
      && c[i + |open| + |d|..e] == close && c[e..e + |body| + 1] == body + "\n"
      && c[e..e + |body| + 2] == body + "\n\n" && c[e + |body| + 1] == '\n'
      && c[e + |body| + 2..e + |body| + 2 + |stop|] == stop
    ensures var i := |pre| + 1;
      var k := i + |open| + |d|;
      FirstAt(c, open, 0, i) && FirstAt(c, close, i + |open|, k)
      && FirstAt(c, stop, k + |close|, k + |close| + |body| + 2)
  {
    var i := |pre| + 1;
    var j0 := i + |open|;
    var k0 := j0 + |d|;
    var e := k0 + |close|;
    FirstAfterLine(c, pre, open, m);
    FirstAfterDigits(c, j0, d, close);
    MentionsLine(body, stop);
    FirstAfterBody(c, e, body + "\n", stop);
  }

  /** The section of a text laid out as a report: `pre` (no parenthesis),
      the header with its count, `body`, a blank line, and the removed
      header. */
  lemma {:induction false} SectionIn(pre: string, d: string, body: string, rest: string)
    requires '(' !in pre && AllDigits(d) && !Mentions(body, SectionEnd)
    ensures Section(pre + "\n" + (SectionStart + d + "):" + (body + "\n\n" + SectionEnd + rest))) == Some(body + "\n\n")
  {
    assert SectionStart[19] == '(' && '\n' !in SectionStart && '\n' !in SectionEnd;
    BetweenIn(pre, d, body, rest, SectionStart, "):", SectionEnd, 19);
  }

  /** Ending a text with a newline adds no occurrence of a one-line pattern. */
  lemma {:induction false} MentionsLine(s: string, p: string)
    requires p != [] && '\n' !in p && !Mentions(s, p)
    ensures !Mentions(s + "\n", p)
  {
    var t := s + "\n";
    forall j | 0 <= j <= |t|
      ensures !OccursAt(t, p, j)
    {
      if j + |p| <= |t| {
        if j + |p| <= |s| {
          assert !OccursAt(s, p, j);
          assert t[j..j + |p|] == s[j..j + |p|];
        } else {
          assert t[j..j + |p|][|s| - j] == '\n';
        }
      }
    }
  }

  // ---------------------------------------------------------------------
  // The report as written
  // ---------------------------------------------------------------------

  /** Lines, each written after a newline. */
  function Lined(ls: seq<string>): string {
    if ls == [] then "" else "\n" + ls[0] + Lined(ls[1..])
  }

  /** Joined lines are the first line followed by the others, each after a
      newline. */
  lemma {:induction false} JoinLined(ls: seq<string>)
    requires ls != []
    ensures JoinLines(ls) == ls[0] + Lined(ls[1..])
    decreases |ls|
  {
    if |ls| == 1 {
      assert ls[1..] == [];
    } else {
      JoinLined(ls[1..]);
      assert ls[1..][1..] == ls[2..];
    }
  }

  lemma {:induction false} LinedAppend(a: seq<string>, b: seq<string>)
    ensures Lined(a + b) == Lined(a) + Lined(b)
    decreases |a|
  {
    if a == [] {
      assert a + b == b;
    } else {
      LinedAppend(a[1..], b);
      assert (a + b)[1..] == a[1..] + b;
    }
  }

  lemma {:induction false} LinedOne(x: string, b: seq<string>)
    ensures Lined([x] + b) == "\n" + x + Lined(b)
  {
    assert ([x] + b)[1..] == b;
  }

  /** Two lines and at most two more, each after a newline. */
  lemma {:induction false} LinedFour(a: string, b: string, f: seq<string>, g: seq<string>)
    ensures Lined([a, b] + f + g) == "\n" + a + "\n" + b + Lined(f) + Lined(g)
  {
    LinedAppend([a, b] + f, g);
    LinedAppend([a, b], f);
    assert [a, b] == [a] + [b];
    LinedOne(a, [b]);
    LinedOne(b, []);
  }

  /** The flag lines of an event, each after a newline, are its flag text. */
  lemma {:induction false} LinedFlags(e: Event)
    ensures Lined((if Flag(e.isFastFilling) then [FastFillingLine] else []))
      + Lined((if Flag(e.isSoldOut) then [SoldOutLine] else [])) == FlagText(e)
  {
    LinedSingle(FastFillingLine);
    LinedSingle(SoldOutLine);
  }

  lemma {:induction false} LinedSingle(x: string)
    ensures Lined([x]) == "\n" + x
  {
    LinedOne(x, []);
    assert [x] + [] == [x];
  }

  /** The lines of one added event, each after a newline, are its block. */
  lemma {:induction false} LinedEntry(e: Event)
    ensures Lined(AddedEntry(e)) == Block(e)
  {
    var n := NameOr(e);
    var u := UrlOr(e);
    var f := if Flag(e.isFastFilling) then [FastFillingLine] else [];
    var g := if Flag(e.isSoldOut) then [SoldOutLine] else [];
    LinedFour("- " + n, "  URL: " + u, f, g);
    LinedFlags(e);
    Spelled(n, u);
  }

  /** The name and URL lines, spelled out. */
  lemma {:induction false} Spelled(n: string, u: string)
    ensures "\n" + ("- " + n) + "\n" + ("  URL: " + u) == "\n- " + n + "\n  URL: " + u
  {
  }

  /** The lines of the added events, each after a newline, are their blocks. */
  lemma {:induction false} LinedAdded(es: seq<Event>)
    ensures Lined(AddedLines(es)) == Blocks(es)
    decreases |es|
  {
    if es != [] {
      var n := |es| - 1;
      LinedAdded(es[..n]);
      LinedAppend(AddedLines(es[..n]), AddedEntry(es[n]));
      LinedEntry(es[n]);
    }
  }

  /** Five header lines, some lines, a title and more lines, joined. */
  lemma {:induction false} JoinedReport(h: seq<string>, a: seq<string>, t: string, r: seq<string>)
    requires |h| == 5
    ensures JoinLines(h + (a + ([t] + r)))
      == h[0] + Lined(h[1..4]) + "\n" + (h[4] + (Lined(a) + ("\n" + t + Lined(r))))
  {
    var ls := h + (a + ([t] + r));
    JoinLined(ls);
    assert ls[1..] == h[1..4] + ([h[4]] + (a + ([t] + r)));
    LinedAppend(h[1..4], [h[4]] + (a + ([t] + r)));
    LinedOne(h[4], a + ([t] + r));
    LinedAppend(a, [t] + r);
    LinedOne(t, r);
  }

  /** The report, from its first line to the header of the removed events. */
  lemma {:induction false} ReportText(c: Comparison, now: string)
    ensures var h := Header(c.stats, now);
      JoinLines(ReportLines(c, now))
      == h[0] + Lined(h[1..4]) + "\n" + (h[4] + (Blocks(c.added) + ("\n" + RemovedTitle(c.stats)
         + Lined(RemovedLines(c.removed) + Summary(c.added)))))
  {
    var h := Header(c.stats, now);
    var a := AddedLines(c.added);
    var r := RemovedLines(c.removed) + Summary(c.added);
    ReportLinesShape(c, now);
    JoinedReport(h, a, RemovedTitle(c.stats), r);
    LinedAdded(c.added);
  }

  /** The report lines, grouped from the right. */
  lemma {:induction false} ReportLinesShape(c: Comparison, now: string)
    ensures ReportLines(c, now) == Header(c.stats, now) + (AddedLines(c.added)
      + ([RemovedTitle(c.stats)] + (RemovedLines(c.removed) + Summary(c.added))))
  {
    Regroup(Header(c.stats, now), AddedLines(c.added), [RemovedTitle(c.stats)],
      RemovedLines(c.removed), Summary(c.added));
  }

  lemma {:induction false} Regroup(h: seq<string>, a: seq<string>, t: seq<string>, x: seq<string>, y: seq<string>)
    ensures h + a + t + x + y == h + (a + (t + (x + y)))
  {
    AppendAssoc(h + a + t, x, y);
    AppendAssoc(h + a, t, x + y);
    AppendAssoc(h, a, t + (x + y));
  }

  /** Digits hold no character that is not a digit. */
  lemma {:induction false} DigitsWithout(d: string, ch: char)
    requires AllDigits(d) && !IsDigit(ch)
    ensures ch !in d
  {
    forall k | 0 <= k < |d|
      ensures d[k] != ch
    {
      assert IsDigit(d[k]);
    }
  }

  /** Three lines, each after a newline. */
  lemma {:induction false} LinedThree(h: seq<string>)
    requires |h| == 3
    ensures Lined(h) == "\n" + h[0] + ("\n" + h[1] + ("\n" + h[2]))
  {
    assert h == [h[0]] + ([h[1]] + ([h[2]] + []));
    LinedOne(h[0], [h[1]] + ([h[2]] + []));
    LinedOne(h[1], [h[2]] + []);
    LinedOne(h[2], []);
  }

  /** The header lines before the count hold no parenthesis. */
  lemma {:induction false} HeadNoParen(s: Stats, now: string)
    requires '(' !in now
    ensures var h := Header(s, now); '(' !in h[0] + Lined(h[1..4])
  {
    var h := Header(s, now);
    DigitsWithout(NatToString(s.totalOld), '(');
    DigitsWithout(NatToString(s.totalNew), '(');
    LinedThree(h[1..4]);
  }

  /** Nor a carriage return. */
  lemma {:induction false} HeadNoReturn(s: Stats, now: string)
    requires '\r' !in now
    ensures var h := Header(s, now); '\r' !in h[0] + Lined(h[1..4])
  {
    var h := Header(s, now);
    DigitsWithout(NatToString(s.totalOld), '\r');
    DigitsWithout(NatToString(s.totalNew), '\r');
    LinedThree(h[1..4]);
  }

  /** The added events' text holds no carriage return. */
  lemma {:induction false} BlocksNoReturn(es: seq<Event>)
    requires AllListed(es)
    ensures '\r' !in Blocks(es)
    decreases |es|
  {
    if es != [] {
      var e := es[|es| - 1];
      assert Listed(e);
      assert '\r' !in UrlOr(e) by {
        forall k | 0 <= k < |UrlOr(e)|
          ensures UrlOr(e)[k] != '\r'
        {
          assert !IsSpace(UrlOr(e)[k]);
        }
      }
      assert '\r' !in FastFillingLine && '\r' !in SoldOutLine;
      assert '\r' !in FlagText(e);
      assert '\r' !in Block(e);
      BlocksNoReturn(es[..|es| - 1]);
      assert Blocks(es) == Blocks(es[..|es| - 1]) + Block(e);
    }
  }

  /** The header of the added events and the header of the removed events. */
  lemma {:induction false} Titles(s: Stats, now: string, tail: string)
    ensures Header(s, now)[4] == SectionStart + NatToString(s.added) + "):"
    ensures "\n" + RemovedTitle(s) + tail == "\n\n" + SectionEnd + (" (" + NatToString(s.removed) + "):" + tail)
  {
  }

  /** The section of the report, read back in text mode, is the added
      events' blocks and a blank line; `now` is the comparison time, which
      holds no parenthesis and no carriage return. */
  lemma {:induction false} ReportSection(c: Comparison, now: string)
    requires AllListed(c.added) && '(' !in now && '\r' !in now
    ensures Section(UniversalNewlines(JoinLines(ReportLines(c, now)))) == Some(Blocks(c.added) + "\n\n")
  {
    var h := Header(c.stats, now);
    var pre := h[0] + Lined(h[1..4]);
    var d := NatToString(c.stats.added);
    var head := SectionStart + d + "):";
    var body := Blocks(c.added);
    var tail := Lined(RemovedLines(c.removed) + Summary(c.added));
    var rest := " (" + NatToString(c.stats.removed) + "):" + tail;
    ReportText(c, now);
    Titles(c.stats, now, tail);
    HeadNoParen(c.stats, now);
    HeadNoReturn(c.stats, now);
    BlocksNoReturn(c.added);
    NoEndInBlocks(c.added);
    SectionReadBack(pre, d, body, rest);
    Regrouped(pre, head, body, "\n" + RemovedTitle(c.stats) + tail, "\n\n", SectionEnd, rest);
  }

  /** A text laid out as a report reads back unchanged up to the removed
      header when nothing before that header holds a carriage return, so
      its section is the same. */
  lemma {:induction false} SectionReadBack(pre: string, d: string, body: string, rest: string)
    requires '(' !in pre && '\r' !in pre && AllDigits(d)
    requires '\r' !in body && !Mentions(body, SectionEnd)
    ensures Section(UniversalNewlines(pre + "\n" + (SectionStart + d + "):" + (body + "\n\n" + SectionEnd + rest))))
      == Some(body + "\n\n")
  {
    var head := SectionStart + d + "):";
    DigitsWithout(d, '\r');
    assert '\r' !in SectionStart && '\r' !in SectionEnd;
    var lead := pre + "\n" + head + body + "\n\n" + SectionEnd;
    var back := UniversalNewlines(rest);
    LeadThen(pre + "\n", head, body, "\n\n", SectionEnd, rest);
    NewlinesKept(lead, rest);
    SectionIn(pre, d, body, back);
    LeadThen(pre + "\n", head, body, "\n\n", SectionEnd, back);
  }

  lemma {:induction false} LeadThen(a: string, head: string, body: string, gap: string, stop: string, rest: string)
    ensures a + head + body + gap + stop + rest == a + (head + (body + gap + stop + rest))
  {
  }

  lemma {:induction false} Regrouped(pre: string, head: string, body: string, x: string, gap: string, stop: string, rest: string)
    requires x == gap + stop + rest
    ensures pre + "\n" + (head + (body + x)) == pre + "\n" + (head + (body + gap + stop + rest))
  {
    assert body + x == body + gap + stop + rest;
  }

  /** What the screenshot step reads from the report: the URLs and the names
      of the added events, in order. */
  lemma {:induction false} ReportRoundTrip(c: Comparison, now: string)
    requires AllListed(c.added) && '(' !in now && '\r' !in now
    ensures var sec := Section(UniversalNewlines(JoinLines(ReportLines(c, now))));
      && sec.Some?
      && UrlsFrom(sec.value, 0) == Urls(c.added)
      && NamesFrom(sec.value, 0) == Names(c.added)
  {
    ReportSection(c, now);
    ScanBlocks(c.added);
  }

  /** The plan of a report whose section reads back the events `es`. */
  lemma {:induction false} PlanOfEvents(report: string, dir: string, es: seq<Event>)
    requires Section(report).Some?
    requires UrlsFrom(Section(report).value, 0) == Urls(es)
    requires NamesFrom(Section(report).value, 0) == Names(es)
    ensures var p := PlanOf(Some(report), dir);
      && (es == [] <==> p == NoUrls)
      && (es != [] ==> p.Capture? && |p.jobs| == |es|)
      && (p.Capture? ==> forall k | 0 <= k < |es| ::
            p.jobs[k] == Job(UrlOr(es[k]), InDir(dir, ShotName(k + 1, Sanitize(NameOr(es[k]))))))
  {
    assert |Urls(es)| == |es|;
  }

  /** The capture plan of a report: nothing to capture when no event was
      added, and otherwise one screenshot per added event, in order, of its
      URL into a file numbered from 1 and named after the event. */
  lemma {:induction false} ReportPlan(c: Comparison, now: string, dir: string)
    requires AllListed(c.added) && '(' !in now && '\r' !in now
    ensures var p := PlanOf(Some(UniversalNewlines(JoinLines(ReportLines(c, now)))), dir);
      && (c.added == [] <==> p == NoUrls)
      && (c.added != [] ==> p.Capture? && |p.jobs| == |c.added|)
      && (p.Capture? ==> forall k | 0 <= k < |c.added| ::
            p.jobs[k] == Job(UrlOr(c.added[k]), InDir(dir, ShotName(k + 1, Sanitize(NameOr(c.added[k]))))))
  {
    ReportRoundTrip(c, now);
    PlanOfEvents(UniversalNewlines(JoinLines(ReportLines(c, now))), dir, c.added);
  }

  // ---------------------------------------------------------------------
  // The screenshots, read back in capture order
  // ---------------------------------------------------------------------

  /** The screenshot of pair `i` sorts with key `i`. */
  lemma {:induction false} ShotNameKey(i: nat, clean: string)
    ensures PrefixKey(ShotName(i, clean)) == i
  {
    assert ShotName(i, clean) == Pad2(i) + "_" + (clean + ".png");
    PrefixKeyOfDigits(Pad2(i), clean + ".png");
    Pad2Value(i);
  }

  /** A name ending in `.png` is a `.png` entry. */
  lemma {:induction false} PngName(r: string)
    requires EndsWith(r, ".png")
    ensures IsPng(r)
  {
    var l := Lower(r);
    forall k | 0 <= k < 4
      ensures l[|l| - 4..][k] == ".png"[k]
    {
      assert r[|r| - 4 + k] == r[|r| - 4..][k];
    }
  }

  /** Files named as the capture step names them, numbered from 1. */
  function Shots(cleans: seq<string>): seq<string> {
    seq(|cleans|, k requires 0 <= k < |cleans| => ShotName(k + 1, cleans[k]))
  }

  /** A listing of only `.png` entries is kept whole. */
  lemma {:induction false} PngFilesAll(names: seq<string>)
    requires forall k | 0 <= k < |names| :: IsPng(names[k])
    ensures PngFiles(names) == names
    decreases |names|
  {
    if names != [] {
      PngFilesAll(names[1..]);
      assert names == [names[0]] + names[1..];
    }
  }

  /** Keys rising strictly along `s`. */
  predicate Rising(s: seq<string>, key: string -> nat) {
    forall i, j | 0 <= i < j < |s| :: key(s[i]) < key(s[j])
  }

  /** A sorted permutation of a sequence whose keys rise strictly starts
      with the same entry. */
  lemma {:induction false} SortedHead(a: seq<string>, b: seq<string>, key: string -> nat)
    requires a != [] && multiset(a) == multiset(b) && Sorted(a, key) && Rising(b, key)
    ensures b != [] && a[0] == b[0]
  {
    assert a[0] in multiset(b);
    var j :| 0 <= j < |b| && b[j] == a[0];
    assert b[0] in multiset(a);
    var i :| 0 <= i < |a| && a[i] == b[0];
    assert key(a[0]) <= key(a[i]);
  }

  /** A sorted permutation of a sequence whose keys rise strictly is that
      sequence. */
  lemma {:induction false} SortedUnique(a: seq<string>, b: seq<string>, key: string -> nat)
    requires multiset(a) == multiset(b) && Sorted(a, key) && Rising(b, key)
    ensures a == b
    decreases |a|
  {
    if a == [] {
      assert |b| == |multiset(b)| == 0;
    } else {
      SortedHead(a, b, key);
      MultisetTail(a);
      MultisetTail(b);
      SortedTail(a, key);
      RisingTail(b, key);
      SortedUnique(a[1..], b[1..], key);
      assert a == [a[0]] + a[1..] && b == [b[0]] + b[1..];
    }
  }

  lemma {:induction false} MultisetTail(a: seq<string>)
    requires a != []
    ensures multiset(a[1..]) == multiset(a) - multiset{a[0]}
  {
    assert a == [a[0]] + a[1..];
  }

  lemma {:induction false} SortedTail(a: seq<string>, key: string -> nat)
    requires a != [] && Sorted(a, key)
    ensures Sorted(a[1..], key)
  {
    forall i, j | 0 <= i < j < |a| - 1
      ensures key(a[1..][i]) <= key(a[1..][j])
    {
      assert a[1..][i] == a[i + 1] && a[1..][j] == a[j + 1];
    }
  }

  lemma {:induction false} RisingTail(b: seq<string>, key: string -> nat)
    requires b != [] && Rising(b, key)
    ensures Rising(b[1..], key)
  {
    forall i, j | 0 <= i < j < |b| - 1
      ensures key(b[1..][i]) < key(b[1..][j])
    {
      assert b[1..][i] == b[i + 1] && b[1..][j] == b[j + 1];
    }
  }

  /** The entries of `s` that `listing` holds, in the order of `s`. */
  function Present(s: seq<string>, listing: seq<string>): (r: seq<string>)
    ensures |r| <= |s|
    ensures forall x | x in r :: x in s && x in listing
    ensures (forall k | 0 <= k < |s| :: s[k] in listing) ==> r == s
    decreases |s|
  {
    if s == [] then []
    else
      var rest := Present(s[1..], listing);
      assert forall x | x in rest :: x in s by {
        forall x | x in rest
          ensures x in s
        {
          var m :| 0 <= m < |s| - 1 && s[1..][m] == x;
          assert s[m + 1] == x;
        }
      }
      if s[0] in listing then [s[0]] + rest else rest
  }

  /** The first entry of a sequence whose keys rise strictly does not occur
      again. */
  lemma {:induction false} RisingHeadFresh(s: seq<string>, key: string -> nat)
    requires s != [] && Rising(s, key)
    ensures s[0] !in s[1..]
  {
    forall m | 0 <= m < |s| - 1
      ensures s[1..][m] != s[0]
    {
      assert s[1..][m] == s[m + 1];
      assert key(s[0]) < key(s[m + 1]);
    }
  }

  /** An entry occurs at most once in a sequence whose keys rise strictly. */
  lemma {:induction false} RisingOnce(s: seq<string>, key: string -> nat, x: string)
    requires Rising(s, key)
    ensures multiset(s)[x] <= 1
    decreases |s|
  {
    if s != [] {
      RisingTail(s, key);
      RisingOnce(s[1..], key, x);
      RisingHeadFresh(s, key);
      assert s == [s[0]] + s[1..];
      assert multiset(s)[x] == multiset([s[0]])[x] + multiset(s[1..])[x];
      if s[0] == x {
        assert multiset(s[1..])[x] == 0;
      }
    }
  }

  /** `Present` keeps every occurrence of an entry the listing holds, and
      none of any other entry. */
  lemma {:induction false} PresentCount(s: seq<string>, listing: seq<string>, x: string)
    ensures multiset(Present(s, listing))[x] == if x in listing then multiset(s)[x] else 0
    decreases |s|
  {
    if s != [] {
      PresentCount(s[1..], listing, x);
      var rest := Present(s[1..], listing);
      var head: seq<string> := if s[0] in listing then [s[0]] else [];
      assert Present(s, listing) == head + rest;
      assert multiset(head + rest)[x] == multiset(head)[x] + multiset(rest)[x];
      MultisetTail(s);
    }
  }

  /** A listing of some of the entries of a sequence whose keys rise
      strictly is a permutation of what `Present` keeps. */
  lemma {:induction false} PresentPermutes(s: seq<string>, listing: seq<string>, key: string -> nat)
    requires Rising(s, key) && multiset(listing) <= multiset(s)
    ensures multiset(listing) == multiset(Present(s, listing))
  {
    var p := Present(s, listing);
    forall x
      ensures multiset(listing)[x] == multiset(p)[x]
    {
      RisingOnce(s, key, x);
      PresentCount(s, listing, x);
      if x in listing {
        assert x in multiset(listing);
      }
    }
    assert multiset(listing) == multiset(p);
  }

  /** What `Present` keeps of a sequence whose keys rise strictly still has
      rising keys. */
  lemma {:induction false} PresentRising(s: seq<string>, listing: seq<string>, key: string -> nat)
    requires Rising(s, key)
    ensures Rising(Present(s, listing), key)
    decreases |s|
  {
    if s != [] {
      RisingTail(s, key);
      PresentRising(s[1..], listing, key);
      var rest := Present(s[1..], listing);
      if s[0] in listing {
        forall y | y in rest
          ensures key(s[0]) < key(y)
        {
          assert y in s[1..];
          var m :| 0 <= m < |s| - 1 && s[1..][m] == y;
          assert s[1..][m] == s[m + 1];
          assert key(s[0]) < key(s[m + 1]);
        }
        RisingCons(s[0], rest, key);
        assert Present(s, listing) == [s[0]] + rest;
      } else {
        assert Present(s, listing) == rest;
      }
    }
  }

  /** An entry with a smaller key than every entry of a rising sequence can
      go in front of it. */
  lemma {:induction false} RisingCons(h: string, t: seq<string>, key: string -> nat)
    requires Rising(t, key) && forall y | y in t :: key(h) < key(y)
    ensures Rising([h] + t, key)
  {
    var r := [h] + t;
    forall i, j | 0 <= i < j < |r|
      ensures key(r[i]) < key(r[j])
    {
      assert r[j] == t[j - 1] && r[j] in t;
      if i > 0 {
        assert r[i] == t[i - 1];
      }
    }
  }

  /** The screenshots of a capture run are `.png` entries whose keys are
      their pair numbers, so they rise strictly. */
  lemma {:induction false} ShotsKeyed(cleans: seq<string>)
    ensures forall k | 0 <= k < |cleans| :: IsPng(Shots(cleans)[k]) && PrefixKey(Shots(cleans)[k]) == k + 1
    ensures Rising(Shots(cleans), PrefixKey)
  {
    var s := Shots(cleans);
    forall k | 0 <= k < |s|
      ensures IsPng(s[k]) && PrefixKey(s[k]) == k + 1
    {
      var r := ShotName(k + 1, cleans[k]);
      assert s[k] == r;
      ShotNameKey(k + 1, cleans[k]);
      PngName(r);
    }
  }

  /** The extraction step visits the screenshots of one capture run in
      capture order, whatever the listing order: when some captures failed,
      the folder holds only some of them and they are visited in the order
      they were taken; when every capture succeeded, that is the whole run. */
  lemma {:induction false} ShotsInOrder(cleans: seq<string>, listing: seq<string>)
    requires multiset(listing) <= multiset(Shots(cleans))
    ensures Screenshots(listing) == Present(Shots(cleans), listing)
    ensures multiset(listing) == multiset(Shots(cleans)) ==> Screenshots(listing) == Shots(cleans)
  {
    var s := Shots(cleans);
    ShotsKeyed(cleans);
    forall k | 0 <= k < |listing|
      ensures IsPng(listing[k])
    {
      assert listing[k] in multiset(s);
    }
    var p := Present(s, listing);
    PresentPermutes(s, listing, PrefixKey);
    PresentRising(s, listing, PrefixKey);
    PngFilesAll(listing);
    SortByPermutes(listing, PrefixKey);
    SortBySorted(listing, PrefixKey);
    SortedUnique(Screenshots(listing), p, PrefixKey);
    if multiset(listing) == multiset(s) {
      forall k | 0 <= k < |s|
        ensures s[k] in listing
      {
        assert s[k] in multiset(listing);
      }
    }
  }
}
