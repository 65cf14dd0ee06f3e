/** The batch driver of 03_ss_to_json.py: pick the `.png` entries of the
    screenshot folder, order them by their numeric prefix, and turn each one
    into a record, full or degraded. */
module Batch {
  import opened Wrappers
  import opened Text
  import opened Extractor

  // ---------------------------------------------------------------------
  // Which entries are screenshots, and in what order
  // ---------------------------------------------------------------------

  /** `f.lower().endswith('.png')`. */
  predicate IsPng(name: string) {
    EndsWith(Lower(name), ".png")
  }

  /** The `.png` entries of a listing, in listing order. */
  function PngFiles(names: seq<string>): (r: seq<string>)
    ensures forall k | 0 <= k < |r| :: IsPng(r[k])
    ensures forall f :: f in r <==> f in names && IsPng(f)
  {
    if names == [] then []
    else if IsPng(names[0]) then [names[0]] + PngFiles(names[1..])
    else PngFiles(names[1..])
  }

  /** The filter keeps each `.png` entry exactly as often as the listing
      holds it, and nothing else. */
  lemma {:induction false} PngFilesCount(names: seq<string>, f: string)
    ensures multiset(PngFiles(names))[f] == if IsPng(f) then multiset(names)[f] else 0
    decreases |names|
  {
    if names != [] {
      PngFilesCount(names[1..], f);
      var x, rest := names[0], PngFiles(names[1..]);
      var here := if x == f then 1 else 0;
      assert multiset(names)[f] == here + multiset(names[1..])[f] by {
        assert names == [x] + names[1..];
      }
      if IsPng(x) {
        assert PngFiles(names) == [x] + rest;
        assert multiset(PngFiles(names))[f] == here + multiset(rest)[f];
      } else {
        assert PngFiles(names) == rest;
      }
    }
  }

  /** The filter keeps listing order: filtering a listing split in two
      filters each part. */
  lemma {:induction false} PngFilesAppend(a: seq<string>, b: seq<string>)
    ensures PngFiles(a + b) == PngFiles(a) + PngFiles(b)
    decreases |a|
  {
    if a == [] {
      assert a + b == b;
    } else {
      assert (a + b)[0] == a[0];
      assert (a + b)[1..] == a[1..] + b;
      PngFilesAppend(a[1..], b);
    }
  }

  /** `x.split('_')[0]`: the text before the first underscore. */
  function BeforeUnderscore(s: string): (r: string)
    ensures |r| <= |s| && r == s[..|r|]
    ensures '_' !in r
    ensures |r| < |s| ==> s[|r|] == '_'
  {
    if s == [] || s[0] == '_' then [] else [s[0]] + BeforeUnderscore(s[1..])
  }

  /** The sort key: the integer before the first `_`, or 0 when that text is
      empty or not all digits. */
  function PrefixKey(name: string): nat {
    var p := BeforeUnderscore(name);
    if p != [] && AllDigits(p) then DigitsValue(p) else 0
  }

  /** A name whose first character is not a digit sorts with key 0. */
  lemma {:induction false} PrefixKeyNonNumeric(name: string)
    requires name == [] || !IsDigit(name[0])
    ensures PrefixKey(name) == 0
  {
    var p := BeforeUnderscore(name);
    if p != [] {
      assert p[0] == name[0];
    }
  }

  /** A digit run up to the first `_` is read back as its value. */
  lemma {:induction false} PrefixKeyOfDigits(digits: string, rest: string)
    requires digits != [] && AllDigits(digits)
    ensures PrefixKey(digits + "_" + rest) == DigitsValue(digits)
  {
    BeforeUnderscoreOf(digits, rest);
  }

  lemma {:induction false} BeforeUnderscoreOf(head: string, rest: string)
    requires '_' !in head
    ensures BeforeUnderscore(head + "_" + rest) == head
    decreases |head|
  {
    if head == [] {
      assert ("" + "_" + rest)[0] == '_';
    } else {
      assert head[0] in head;
      assert (head + "_" + rest)[1..] == head[1..] + "_" + rest;
      assert forall c | c in head[1..] :: c in head;
      BeforeUnderscoreOf(head[1..], rest);
    }
  }

  // ---------------------------------------------------------------------
  // `sorted(..., key=...)`: a stable sort
  // ---------------------------------------------------------------------

  /** Put `x` before the first entry whose key is not smaller. */
  function Insert(x: string, s: seq<string>, key: string -> nat): (r: seq<string>)
    ensures |r| == |s| + 1
  {
    if s == [] || key(x) <= key(s[0]) then [x] + s
    else [s[0]] + Insert(x, s[1..], key)
  }

  /** `sorted(s, key=key)`: the entries in key order, equal keys in their
      original order. */
  function SortBy(s: seq<string>, key: string -> nat): (r: seq<string>)
    ensures |r| == |s|
  {
    if s == [] then [] else Insert(s[0], SortBy(s[1..], key), key)
  }

  predicate Sorted(s: seq<string>, key: string -> nat) {
    forall i, j | 0 <= i < j < |s| :: key(s[i]) <= key(s[j])
  }

  /** The entries of `s` whose key is `k`, in order. */
  function WithKey(s: seq<string>, key: string -> nat, k: nat): seq<string> {
    if s == [] then []
    else if key(s[0]) == k then [s[0]] + WithKey(s[1..], key, k)
    else WithKey(s[1..], key, k)
  }

  lemma {:induction false} InsertPermutes(x: string, s: seq<string>, key: string -> nat)
    ensures multiset(Insert(x, s, key)) == multiset(s) + multiset{x}
    decreases |s|
  {
    if s == [] || key(x) <= key(s[0]) {
    } else {
      InsertPermutes(x, s[1..], key);
      assert s == [s[0]] + s[1..];
    }
  }

  lemma {:induction false} InsertSorted(x: string, s: seq<string>, key: string -> nat)
    requires Sorted(s, key)
    ensures Sorted(Insert(x, s, key), key)
    decreases |s|
  {
    if s == [] || key(x) <= key(s[0]) {
    } else {
      InsertSorted(x, s[1..], key);
      InsertPermutes(x, s[1..], key);
      var t := Insert(x, s[1..], key);
      forall m | 0 <= m < |t|
        ensures key(s[0]) <= key(t[m])
      {
        assert t[m] in multiset(t);
        if t[m] != x {
          assert t[m] in multiset(s[1..]);
          var j :| 0 <= j < |s[1..]| && s[1..][j] == t[m];
          assert s[j + 1] == t[m];
        }
      }
      assert Insert(x, s, key) == [s[0]] + t;
    }
  }

  lemma {:induction false} InsertWithKey(x: string, s: seq<string>, key: string -> nat, k: nat)
    ensures WithKey(Insert(x, s, key), key, k) == if key(x) == k then [x] + WithKey(s, key, k) else WithKey(s, key, k)
    decreases |s|
  {
    if s == [] || key(x) <= key(s[0]) {
      assert ([x] + s)[1..] == s;
    } else {
      InsertWithKey(x, s[1..], key, k);
      assert ([s[0]] + Insert(x, s[1..], key))[1..] == Insert(x, s[1..], key);
    }
  }

  /** The sort is a permutation of its input. */
  lemma {:induction false} SortByPermutes(s: seq<string>, key: string -> nat)
    ensures multiset(SortBy(s, key)) == multiset(s)
    decreases |s|
  {
    if s != [] {
      SortByPermutes(s[1..], key);
      InsertPermutes(s[0], SortBy(s[1..], key), key);
      assert s == [s[0]] + s[1..];
    }
  }

  /** The order is non-decreasing in the key. */
  lemma {:induction false} SortBySorted(s: seq<string>, key: string -> nat)
    ensures Sorted(SortBy(s, key), key)
    decreases |s|
  {
    if s != [] {
      SortBySorted(s[1..], key);
      InsertSorted(s[0], SortBy(s[1..], key), key);
    }
  }

  /** The sort is stable: the entries sharing a key keep their order. */
  lemma {:induction false} SortByStable(s: seq<string>, key: string -> nat, k: nat)
    ensures WithKey(SortBy(s, key), key, k) == WithKey(s, key, k)
    decreases |s|
  {
    if s != [] {
      SortByStable(s[1..], key, k);
      InsertWithKey(s[0], SortBy(s[1..], key), key, k);
    }
  }

  // ---------------------------------------------------------------------
  // `process_screenshots_folder`
  // ---------------------------------------------------------------------

  /** The files the driver processes, in processing order. */
  function Screenshots(names: seq<string>): seq<string> {
    SortBy(PngFiles(names), PrefixKey)
  }

  /** One record per file, in order; `ocrOf` gives each file's OCR outcome. */
  function RecordsOf(files: seq<string>, ocrOf: string -> Ocr): (r: seq<Outcome>)
    ensures |r| == |files|
  {
    if files == [] then []
    else RecordsOf(files[..|files| - 1], ocrOf) + [Extract(files[|files| - 1], ocrOf(files[|files| - 1]))]
  }

  /** `process_screenshots_folder` over the directory listing `names`. */
  method ProcessScreenshotsFolder(names: seq<string>, ocrOf: string -> Ocr) returns (events: seq<Outcome>)
    ensures events == RecordsOf(Screenshots(names), ocrOf)
  {
    var files := SortBy(PngFiles(names), PrefixKey);
    events := [];
    if files == [] {
      return;
    }
    for i := 0 to |files|
      invariant events == RecordsOf(files[..i], ocrOf)
    {
      var e := ExtractEventDetails(files[i], ocrOf(files[i]));
      assert files[..i + 1][..i] == files[..i];
      events := events + [e];
    }
    assert files[..|files|] == files;
  }

  /** The `source_image` of either kind of record. */
  function SourceImage(o: Outcome): Option<string> {
    match o
    case Extracted(d) => d.sourceImage
    case Failed(_, _, image) => Some(image)
  }

  /** The `event_name` of either kind of record. */
  function EventName(o: Outcome): Option<string> {
    match o
    case Extracted(d) => d.eventName
    case Failed(name, _, _) => Some(name)
  }

  /** A file's event name is never empty, so the sentinel never replaces it. */
  lemma {:induction false} EventNameNonEmpty(file: string)
    requires file != []
    ensures EventNameOf(file) != []
  {
    assert Stem(file) != [];
    ReplaceChar(Stem(file), '_', ' ');
    assert "_" == ['_'] && " " == [' '];
  }

  /** The record of one file names the file and its stem, and is degraded
      exactly when the OCR raised. */
  lemma {:induction false} RecordOfFile(file: string, ocr: Ocr)
    requires file != []
    ensures SourceImage(Extract(file, ocr)) == Some(file)
    ensures EventName(Extract(file, ocr)) == Some(EventNameOf(file))
    ensures Extract(file, ocr).Failed? <==> ocr.Raised?
  {
    EventNameNonEmpty(file);
    if ocr.Recognised? {
      var lines := Lines(ocr.text);
      FinishedFileFields(file, lines, Readings(lines));
    }
  }

  lemma {:induction false} RecordsOfFiles(files: seq<string>, ocrOf: string -> Ocr, k: nat)
    requires k < |files|
    ensures RecordsOf(files, ocrOf)[k] == Extract(files[k], ocrOf(files[k]))
    decreases |files|
  {
    if k < |files| - 1 {
      RecordsOfFiles(files[..|files| - 1], ocrOf, k);
    }
  }

  /** One record per `.png` entry, in key order: the record's image and name
      come from its file, and it is degraded exactly when the OCR raised. */
  lemma {:induction false} RecordsPerFile(names: seq<string>, ocrOf: string -> Ocr)
    ensures var files := Screenshots(names); var r := RecordsOf(files, ocrOf);
      && |r| == |PngFiles(names)|
      && multiset(files) == multiset(PngFiles(names))
      && (forall f {:trigger multiset(files)[f]} :: multiset(files)[f] == if IsPng(f) then multiset(names)[f] else 0)
      && Sorted(files, PrefixKey)
      && (forall key: nat {:trigger WithKey(files, PrefixKey, key)} ::
            WithKey(files, PrefixKey, key) == WithKey(PngFiles(names), PrefixKey, key))
      && forall k | 0 <= k < |r| ::
           && IsPng(files[k])
           && SourceImage(r[k]) == Some(files[k])
           && EventName(r[k]) == Some(EventNameOf(files[k]))
           && (r[k].Failed? <==> ocrOf(files[k]).Raised?)
  {
    var files := Screenshots(names);
    var r := RecordsOf(files, ocrOf);
    SortBySorted(PngFiles(names), PrefixKey);
    SortByPermutes(PngFiles(names), PrefixKey);
    forall f
      ensures multiset(files)[f] == if IsPng(f) then multiset(names)[f] else 0
    {
      PngFilesCount(names, f);
    }
    forall key: nat
      ensures WithKey(files, PrefixKey, key) == WithKey(PngFiles(names), PrefixKey, key)
    {
      SortByStable(PngFiles(names), PrefixKey, key);
    }
    forall k | 0 <= k < |r|
      ensures IsPng(files[k])
      ensures SourceImage(r[k]) == Some(files[k])
      ensures EventName(r[k]) == Some(EventNameOf(files[k]))
      ensures r[k].Failed? <==> ocrOf(files[k]).Raised?
    {
      var f := files[k];
      assert f in multiset(PngFiles(names));
      assert f in PngFiles(names);
      assert |Lower(f)| == |f| >= 4;
      RecordsOfFiles(files, ocrOf, k);
      RecordOfFile(f, ocrOf(f));
    }
  }
}
