/**
  The OCR-text field extractor (`extract_event_details` in 03_ss_to_json.py).
  The OCR call is replaced by its outcome: the recognised text, or the
  message of the exception it raised. From the text on, everything is
  modelled: line normalisation, the single forward classification pass,
  the seats-status scan, the cleanup of noisy fields and the `"-"` fill.
*/
module Extractor {
  import opened Wrappers
  import opened Text
  import opened Patterns

  // ---------------------------------------------------------------------
  // The details record
  // ---------------------------------------------------------------------

  /** The keys of the details dict, in the order the dict is built. */
  datatype Key = EventName | DateRange | EventEndDate | EventTime | Duration | AgeLimit
               | Language | Venue | Price | SeatsStatus | SourceImage

  const AllKeys: seq<Key> :=
    [EventName, DateRange, EventEndDate, EventTime, Duration, AgeLimit,
     Language, Venue, Price, SeatsStatus, SourceImage]

  /** The fields the classifier claims from OCR lines. */
  const Claimable: set<Key> := {DateRange, EventTime, Duration, AgeLimit, Language, Venue, Price}

  /** The claimed fields that no later line may rewrite (venue may be re-cleaned). */
  const Sticky: set<Key> := {DateRange, EventTime, Duration, AgeLimit, Language, Price}

  /** The details dict: every key holds `None` or a string. */
  datatype Details = Details(
    eventName: Option<string>,
    dateRange: Option<string>,
    eventEndDate: Option<string>,
    eventTime: Option<string>,
    duration: Option<string>,
    ageLimit: Option<string>,
    language: Option<string>,
    venue: Option<string>,
    price: Option<string>,
    seatsStatus: Option<string>,
    sourceImage: Option<string>)

  /** `details[k]`. */
  function Get(d: Details, k: Key): Option<string> {
    match k
    case EventName => d.eventName
    case DateRange => d.dateRange
    case EventEndDate => d.eventEndDate
    case EventTime => d.eventTime
    case Duration => d.duration
    case AgeLimit => d.ageLimit
    case Language => d.language
    case Venue => d.venue
    case Price => d.price
    case SeatsStatus => d.seatsStatus
    case SourceImage => d.sourceImage
  }

  /** `details[k] = v`. */
  function Put(d: Details, k: Key, v: Option<string>): (r: Details)
    ensures Get(r, k) == v
    ensures forall k' | k' != k :: Get(r, k') == Get(d, k')
  {
    match k
    case EventName => d.(eventName := v)
    case DateRange => d.(dateRange := v)
    case EventEndDate => d.(eventEndDate := v)
    case EventTime => d.(eventTime := v)
    case Duration => d.(duration := v)
    case AgeLimit => d.(ageLimit := v)
    case Language => d.(language := v)
    case Venue => d.(venue := v)
    case Price => d.(price := v)
    case SeatsStatus => d.(seatsStatus := v)
    case SourceImage => d.(sourceImage := v)
  }

  /** Two records that agree on every key are the same record. */
  lemma {:induction false} DetailsEqual(a: Details, b: Details)
    requires forall k :: Get(a, k) == Get(b, k)
    ensures a == b
  {
    assert Get(a, EventName) == Get(b, EventName) && Get(a, DateRange) == Get(b, DateRange);
    assert Get(a, EventEndDate) == Get(b, EventEndDate) && Get(a, EventTime) == Get(b, EventTime);
    assert Get(a, Duration) == Get(b, Duration) && Get(a, AgeLimit) == Get(b, AgeLimit);
    assert Get(a, Language) == Get(b, Language) && Get(a, Venue) == Get(b, Venue);
    assert Get(a, Price) == Get(b, Price) && Get(a, SeatsStatus) == Get(b, SeatsStatus);
    assert Get(a, SourceImage) == Get(b, SourceImage);
  }

  /** Python truthiness of a dict value: present and not the empty string. */
  predicate Truthy(v: Option<string>) {
    v.Some? && v.value != ""
  }

  /** The step moved key `k` from unset (falsy) to set: `k` was claimed. */
  predicate Claims(d: Details, r: Details, k: Key) {
    !Truthy(Get(d, k)) && Truthy(Get(r, k))
  }

  // ---------------------------------------------------------------------
  // File names
  // ---------------------------------------------------------------------

  /** `name.rfind('.')`, or -1. */
  function LastDot(name: string): (i: int)
    ensures -1 <= i < |name|
    ensures i >= 0 ==> name[i] == '.'
    ensures forall k | i < k < |name| :: name[k] != '.'
  {
    if |name| == 0 then -1
    else if name[|name| - 1] == '.' then |name| - 1
    else LastDot(name[..|name| - 1])
  }

  /** `Path(name).stem`: the name without its last suffix (a leading dot
      or a trailing dot does not start a suffix). */
  function Stem(name: string): string {
    var i := LastDot(name);
    if 0 < i < |name| - 1 then name[..i] else name
  }

  /** `Path(name).stem.replace('_', ' ')`: the event name taken from a file name. */
  function EventNameOf(file: string): string {
    Replace(Stem(file), "_", " ")
  }

  /** The dict as built before any line is read. */
  function Initial(file: string): (d: Details)
    ensures Consistent(d)
  {
    Details(Some(EventNameOf(file)), None, None, None, None, None, None, None, None, None, Some(file))
  }

  // ---------------------------------------------------------------------
  // Line normalisation
  // ---------------------------------------------------------------------

  /** The stripped pieces that are not empty, in order. */
  function NonBlank(pieces: seq<string>): (r: seq<string>)
    requires forall k | 0 <= k < |pieces| :: '\n' !in pieces[k]
    ensures forall k | 0 <= k < |r| :: IsLine(r[k])
  {
    if |pieces| == 0 then []
    else
      var rest := NonBlank(pieces[1..]);
      var s := Strip(pieces[0]);
      assert '\n' !in s by { StripSubstring(pieces[0]); }
      if s != [] then [s] + rest else rest
  }

  lemma {:induction false} StripSubstring(s: string)
    ensures forall c | c in Strip(s) :: c in s
  {
    var a := SkipSpaces(s, 0);
    var b := TrimEnd(s, |s|);
    if a < b {
      assert forall k | 0 <= k < b - a :: Strip(s)[k] == s[a + k];
    }
  }

  /** A normalised line: not empty, no surrounding whitespace, no newline. */
  predicate IsLine(s: string) {
    s != [] && !IsSpace(s[0]) && !IsSpace(s[|s| - 1]) && '\n' !in s
  }

  /** The line list of the OCR text: split on newlines, strip, drop empties. */
  function Lines(text: string): (r: seq<string>)
    ensures forall k | 0 <= k < |r| :: IsLine(r[k])
  {
    NonBlank(SplitLines(text))
  }

  /** Normalising text that was written as normalised lines gives them back. */
  lemma {:induction false} LinesOfJoin(ls: seq<string>)
    requires |ls| > 0 && forall k | 0 <= k < |ls| :: IsLine(ls[k])
    ensures Lines(JoinLines(ls)) == ls
  {
    SplitJoin(ls);
    NonBlankOfLines(ls);
  }

  lemma {:induction false} NonBlankOfLines(ls: seq<string>)
    requires forall k | 0 <= k < |ls| :: IsLine(ls[k])
    ensures forall k | 0 <= k < |ls| :: '\n' !in ls[k]
    ensures NonBlank(ls) == ls
  {
    if |ls| > 0 {
      StripUnchanged(ls[0]);
      NonBlankOfLines(ls[1..]);
      assert ls == [ls[0]] + ls[1..];
    }
  }

  /** Empty OCR text has no lines. */
  lemma {:induction false} NoLinesInEmptyText()
    ensures Lines("") == []
  {
    assert SplitLines("") == [""];
    assert Strip("") == [];
  }

  // ---------------------------------------------------------------------
  // The classifier's tests
  // ---------------------------------------------------------------------

  const Languages: seq<string> := ["Hindi", "English", "Tamil", "Telugu", "Kannada", "Malayalam"]
  const VenueWords: seq<string> := ["arena", "stadium", "center", "centre", "hall", "theatre", "club", "venue"]

  /** `any(w in s for w in words)`. */
  predicate AnyIn(s: string, words: seq<string>) {
    exists w | w in words :: Contains(s, w)
  }

  /** The stored price `f"{value} {suffix}".strip()`. */
  function PriceText(m: PriceMatch): string {
    Strip(m.amount + " " + m.suffix)
  }

  /** The price branch accepts the match: the captured value is a digit
      string and is at least 50, or a suffix word follows it. */
  predicate Plausible(m: PriceMatch) {
    |m.amount| > 0 && AllDigits(m.amount) && (DigitsValue(m.amount) >= 50 || m.suffix != "")
  }

  /** A stored price: 2 to 6 digits, then nothing, ` onwards` or ` only`;
      without a suffix word the number is at least 50. */
  predicate PlausiblePrice(p: string) {
    exists n: nat | 2 <= n <= 6 && n <= |p| ::
      AllDigits(p[..n]) && p[n..] in {"", " onwards", " only"} && (DigitsValue(p[..n]) >= 50 || p[n..] != "")
  }

  lemma {:induction false} PriceTextPlausible(m: PriceMatch)
    requires 2 <= |m.amount| <= 6 && AllDigits(m.amount) && m.suffix in {"", "onwards", "only"}
    requires Plausible(m)
    ensures PlausiblePrice(PriceText(m))
  {
    var n := |m.amount|;
    var p := PriceText(m);
    if m.suffix == "" {
      StripTrailingBlank(m.amount);
      assert m.amount + " " + m.suffix == m.amount + " ";
      assert p == m.amount;
      assert p[n..] == "";
    } else {
      var t := m.amount + " " + m.suffix;
      assert t[0] == m.amount[0];
      assert t[|t| - 1] == m.suffix[|m.suffix| - 1];
      StripUnchanged(t);
      assert p[n..] == " " + m.suffix;
      assert m.suffix == "onwards" ==> p[n..] == " onwards";
      assert m.suffix == "only" ==> p[n..] == " only";
    }
    assert p[..n] == m.amount;
    assert AllDigits(p[..n]) && p[n..] in {"", " onwards", " only"} && (DigitsValue(p[..n]) >= 50 || p[n..] != "");
  }

  /** The characters the venue cleaning strips from the right. */
  const VenueTrail: set<char> := {',', ';', ':', '-'}

  /** Venue artefact cleanup: drop `<digits`, strip, then drop trailing `,;:-`. */
  function CleanVenue(v: string): string {
    RStripChars(Strip(DropTags(v, 0)), VenueTrail)
  }

  /** Dates are date matches, and an end date comes only with a start date. */
  predicate DatesOk(start: Option<string>, end: Option<string>) {
    && (start.Some? ==> EndsWithYear(start.value))
    && (end.Some? ==> EndsWithYear(end.value) && start.Some?)
  }

  /** A language value names one of the languages. */
  predicate LanguageOk(language: Option<string>) {
    language.Some? ==> AnyIn(language.value, Languages)
  }

  /** A venue is set only after the language. */
  predicate VenueOk(venue: Option<string>, language: Option<string>) {
    Truthy(venue) ==> language.Some?
  }

  /** A duration value holds a digit. */
  predicate DurationOk(duration: Option<string>) {
    duration.Some? ==> HasDigit(duration.value)
  }

  /** A price value is plausible. */
  predicate PriceOk(price: Option<string>) {
    price.Some? ==> PlausiblePrice(price.value)
  }

  /** What every record built by the pass satisfies. */
  predicate Consistent(d: Details) {
    && DatesOk(d.dateRange, d.eventEndDate)
    && VenueOk(d.venue, d.language)
    && LanguageOk(d.language)
    && DurationOk(d.duration)
    && PriceOk(d.price)
  }

  // ---------------------------------------------------------------------
  // One line of the pass
  // ---------------------------------------------------------------------

  /** What one line says, as the classifier's tests see it. */
  datatype Reading = Reading(
    dates: seq<string>,          // every date match, in order
    time: Option<string>,        // the first time match
    durationWords: bool,         // "hour" or "min", and a digit
    ageWords: bool,              // "age limit" or "yrs"
    languageName: bool,          // one of the language names (case-sensitive)
    venueHint: bool,             // a colon, or a venue word
    guard: bool,                 // a colon and the time-guard pattern
    price: Option<PriceMatch>)   // the price match after the stray-2 substitution

  /** What holds of every reading of a line. */
  predicate Sound(rd: Reading, line: string) {
    && (forall k | 0 <= k < |rd.dates| :: EndsWithYear(rd.dates[k]))
    && (rd.durationWords ==> HasDigit(line))
    && (rd.languageName ==> AnyIn(line, Languages))
    && (rd.guard ==> rd.time.Some?)
    && (rd.price.Some? ==> 2 <= |rd.price.value.amount| <= 6 && AllDigits(rd.price.value.amount)
                           && rd.price.value.suffix in {"", "onwards", "only"})
  }

  /** The tests of the classifier on one line. */
  function Read(line: string): (rd: Reading)
    ensures Sound(rd, line)
  {
    var low := Lower(line);
    var t := TimeSearch(line, 0);
    var clean := DropTwos(line, 0);
    var price := PriceSearch(clean, 0);
    var guard := Contains(line, ":") && GuardSearch(line, 0);
    assert guard ==> t.Some? by {
      if t.None? {
        NoTimeNoGuard(line, 0);
      }
    }
    PriceSearchShape(clean);
    Reading(
      DateFindAll(line, 0),
      if t.Some? then Some(line[t.value.0..t.value.1]) else None,
      (Contains(low, "hour") || Contains(low, "min")) && HasDigit(line),
      Contains(low, "age limit") || Contains(low, "yrs"),
      AnyIn(line, Languages),
      Contains(line, ":") || AnyIn(low, VenueWords),
      guard,
      price)
  }

  lemma {:induction false} PriceSearchShape(t: string)
    ensures var m := PriceSearch(t, 0);
      m.Some? ==> 2 <= |m.value.amount| <= 6 && AllDigits(m.value.amount) && m.value.suffix in {"", "onwards", "only"}
  {
    var m := PriceSearch(t, 0);
    if m.Some? {
      var x := PriceSearchAt(t, 0);
    }
  }

  /** What a line with reading `rd` does to the record, tests in their fixed
      order: date, time, duration, age limit, language, venue; otherwise the
      venue is re-cleaned, the time guard may skip the line, and price is
      tried. `next` is the following line, if any. */
  function Apply(rd: Reading, line: string, next: Option<string>, d: Details): Details
  {
    if |rd.dates| > 0 && !Truthy(d.dateRange) then
      var r := d.(dateRange := Some(rd.dates[0]));
      if |rd.dates| > 1 then r.(eventEndDate := Some(rd.dates[1])) else r
    else if rd.time.Some? && !Truthy(d.eventTime) then
      d.(eventTime := rd.time)
    else if rd.durationWords && !Truthy(d.duration) then
      d.(duration := Some(line))
    else if rd.ageWords && !Truthy(d.ageLimit) then
      d.(ageLimit := Some(line))
    else if !Truthy(d.language) && rd.languageName then
      d.(language := Some(line))
    else if d.language.Some? && !Truthy(d.venue) && rd.venueHint then
      d.(venue := Some(VenueText(line, next)))
    else Unclaimed(rd, d)
  }

  /** The venue a claiming line gives: joined with the next line, if any,
      when it ends with a colon. */
  function VenueText(line: string, next: Option<string>): string {
    if EndsWith(line, ":") && next.Some? then Strip(line + " " + next.value) else line
  }

  /** A line that no earlier test claimed: a set venue is re-cleaned, the
      time guard may skip the line, and otherwise price is tried. */
  function Unclaimed(rd: Reading, d: Details): Details {
    var e := if Truthy(d.venue) then d.(venue := Some(CleanVenue(d.venue.value))) else d;
    if e.eventTime.None? && rd.guard then e
    else if rd.price.Some? && !Truthy(e.price) && Plausible(rd.price.value) then
      e.(price := Some(PriceText(rd.price.value)))
    else e
  }

  /** Only classified fields change; the end date is written only with the
      start date, from the second date match; a venue is claimed only once
      language is set, and is otherwise only re-cleaned; a price is claimed
      only when plausible. */
  lemma {:induction false} ApplyWrites(rd: Reading, line: string, next: Option<string>, d: Details)
    ensures var r := Apply(rd, line, next, d);
      && r.eventName == d.eventName && r.seatsStatus == d.seatsStatus && r.sourceImage == d.sourceImage
      && (r.eventEndDate != d.eventEndDate ==>
            !Truthy(d.dateRange) && |rd.dates| > 1 && r.dateRange == Some(rd.dates[0]) && r.eventEndDate == Some(rd.dates[1]))
      && (r.venue != d.venue ==>
            (!Truthy(d.venue) && d.language.Some?) || (Truthy(d.venue) && r.venue == Some(CleanVenue(d.venue.value))))
      && (r.price != d.price ==>
            !Truthy(d.price) && rd.price.Some? && Plausible(rd.price.value) && r.price == Some(PriceText(rd.price.value)))
  {
  }

  /** A line claims at most one field. */
  lemma {:induction false} ApplyClaimsOne(rd: Reading, line: string, next: Option<string>, d: Details, k1: Key, k2: Key)
    requires k1 in Claimable && k2 in Claimable
    requires Claims(d, Apply(rd, line, next, d), k1) && Claims(d, Apply(rd, line, next, d), k2)
    ensures k1 == k2
  {
    var k := ApplyClaimed(rd, line, next, d);
    assert k1 == k && k2 == k;
  }

  /** The one claimable key a line may claim: every other claimable key
      keeps its value. */
  lemma {:induction false} ApplyClaimed(rd: Reading, line: string, next: Option<string>, d: Details) returns (k: Key)
    ensures forall k' | k' in Claimable && k' != k :: !Claims(d, Apply(rd, line, next, d), k')
  {
    var r := Apply(rd, line, next, d);
    k := if |rd.dates| > 0 && !Truthy(d.dateRange) then DateRange
      else if rd.time.Some? && !Truthy(d.eventTime) then EventTime
      else if rd.durationWords && !Truthy(d.duration) then Duration
      else if rd.ageWords && !Truthy(d.ageLimit) then AgeLimit
      else if !Truthy(d.language) && rd.languageName then Language
      else if d.language.Some? && !Truthy(d.venue) && rd.venueHint then Venue
      else Price;
    forall k' | k' in Claimable && k' != k
      ensures !Claims(d, r, k')
    {
      match k'
      case DateRange =>
      case EventTime =>
      case Duration =>
      case AgeLimit =>
      case Language =>
      case Venue =>
      case Price =>
    }
  }

  /** A set field other than venue is never rewritten. */
  lemma {:induction false} ApplyKeeps(rd: Reading, line: string, next: Option<string>, d: Details, k: Key)
    requires k in Sticky && Truthy(Get(d, k))
    ensures Get(Apply(rd, line, next, d), k) == Get(d, k)
  {
    if k == DateRange || k == EventTime || k == Duration {
      ApplyKeepsEarly(rd, line, next, d, k);
    } else {
      ApplyKeepsLate(rd, line, next, d, k);
    }
  }

  lemma {:induction false} ApplyKeepsEarly(rd: Reading, line: string, next: Option<string>, d: Details, k: Key)
    requires (k == DateRange || k == EventTime || k == Duration) && Truthy(Get(d, k))
    ensures Get(Apply(rd, line, next, d), k) == Get(d, k)
  {
    ApplyWrites(rd, line, next, d);
    if k == DateRange {
    } else if k == EventTime {
    } else {
    }
  }

  lemma {:induction false} ApplyKeepsLate(rd: Reading, line: string, next: Option<string>, d: Details, k: Key)
    requires (k == AgeLimit || k == Language || k == Price) && Truthy(Get(d, k))
    ensures Get(Apply(rd, line, next, d), k) == Get(d, k)
  {
    ApplyWrites(rd, line, next, d);
    if k == AgeLimit {
    } else if k == Language {
    } else {
    }
  }

  /** A sound reading keeps the record consistent. */
  lemma {:induction false} ApplyConsistent(rd: Reading, line: string, next: Option<string>, d: Details)
    requires Sound(rd, line) && Consistent(d)
    ensures Consistent(Apply(rd, line, next, d))
  {
    if |rd.dates| > 0 && !Truthy(d.dateRange) {
      assert EndsWithYear(rd.dates[0]);
      if |rd.dates| > 1 {
        assert EndsWithYear(rd.dates[1]);
      }
    } else if rd.time.Some? && !Truthy(d.eventTime) {
    } else if rd.durationWords && !Truthy(d.duration) {
    } else if rd.ageWords && !Truthy(d.ageLimit) {
    } else if !Truthy(d.language) && rd.languageName {
    } else if d.language.Some? && !Truthy(d.venue) && rd.venueHint {
    } else {
      UnclaimedConsistent(rd, line, d);
    }
  }

  lemma {:induction false} UnclaimedConsistent(rd: Reading, line: string, d: Details)
    requires Sound(rd, line) && Consistent(d)
    ensures Consistent(Unclaimed(rd, d))
  {
    if rd.price.Some? && Plausible(rd.price.value) {
      PriceTextPlausible(rd.price.value);
    }
  }

  /** The line after line `i`, if any. */
  function Next(lines: seq<string>, i: nat): Option<string> {
    if i + 1 < |lines| then Some(lines[i + 1]) else None
  }

  /** The time guard never decides anything: when it would skip a line, the
      line has already been claimed as the date or the time, because every
      guard match is a time match. */
  lemma {:induction false} TimeGuardNeverFires(rd: Reading, line: string, next: Option<string>, d: Details)
    requires Sound(rd, line) && d.eventTime.None? && rd.guard
    ensures var r := Apply(rd, line, next, d);
      Claims(d, r, DateRange) || r.eventTime == rd.time
  {
  }

  /** A venue that is unset or empty, once language is set, goes to the next
      line that hints at a venue and that no earlier test claims; so a venue
      that the cleanup emptied is claimed again by a later line. */
  lemma {:induction false} VenueReclaim(rd: Reading, line: string, next: Option<string>, d: Details)
    requires !Truthy(d.venue) && d.language.Some? && rd.venueHint
    requires |rd.dates| == 0 || Truthy(d.dateRange)
    requires rd.time.None? || Truthy(d.eventTime)
    requires !rd.durationWords || Truthy(d.duration)
    requires !rd.ageWords || Truthy(d.ageLimit)
    requires !rd.languageName || Truthy(d.language)
    ensures Apply(rd, line, next, d).venue == Some(VenueText(line, next))
  {
  }

  /** The cleanup empties a venue made only of trailing marks, such as `":-"`. */
  lemma {:induction false} VenueEmptied(rd: Reading, d: Details)
    requires d.venue.Some? && d.venue.value != []
    requires forall k | 0 <= k < |d.venue.value| :: d.venue.value[k] in VenueTrail
    ensures Unclaimed(rd, d).venue == Some("")
  {
    var v := d.venue.value;
    assert NoTag(v);
    DropTagsFree(v, 0);
    assert v[0..] == v;
    StripUnchanged(v);
  }

  /** One iteration of the `for i, line in enumerate(lines)` loop, with
      `continue` as an early return. */
  method ClassifyLine(lines: seq<string>, i: nat, d: Details) returns (r: Details)
    requires i < |lines|
    ensures r == Apply(Read(lines[i]), lines[i], Next(lines, i), d)
  {
    var line := lines[i];
    var lineLower := Lower(line);
    ghost var rd := Read(line);
    r := d;

    var dateMatches := DateFindAll(line, 0);
    assert rd.dates == dateMatches;
    if |dateMatches| > 0 && !Truthy(r.dateRange) {
      r := r.(dateRange := Some(dateMatches[0]));
      if |dateMatches| > 1 {
        r := r.(eventEndDate := Some(dateMatches[1]));
      }
      return;
    }

    var timeMatch := TimeSearch(line, 0);
    assert rd.time.Some? <==> timeMatch.Some?;
    if timeMatch.Some? && !Truthy(r.eventTime) {
      r := r.(eventTime := Some(line[timeMatch.value.0..timeMatch.value.1]));
      return;
    }

    assert rd.durationWords == ((Contains(lineLower, "hour") || Contains(lineLower, "min")) && HasDigit(line));
    if (Contains(lineLower, "hour") || Contains(lineLower, "min")) && HasDigit(line) && !Truthy(r.duration) {
      r := r.(duration := Some(line));
      return;
    }

    assert rd.ageWords == (Contains(lineLower, "age limit") || Contains(lineLower, "yrs"));
    if (Contains(lineLower, "age limit") || Contains(lineLower, "yrs")) && !Truthy(r.ageLimit) {
      r := r.(ageLimit := Some(line));
      return;
    }

    assert rd.languageName == AnyIn(line, Languages);
    if !Truthy(r.language) && AnyIn(line, Languages) {
      r := r.(language := Some(line));
      return;
    }

    if r.language.Some? && !Truthy(r.venue) {
      assert rd.venueHint == (Contains(line, ":") || AnyIn(lineLower, VenueWords));
      if Contains(line, ":") || AnyIn(lineLower, VenueWords) {
        r := ClaimVenue(lines, i, r);
        return;
      }
    }
    r := ClassifyUnclaimed(line, r);
  }

  /** The venue claim of line `i`. */
  method ClaimVenue(lines: seq<string>, i: nat, d: Details) returns (r: Details)
    requires i < |lines|
    ensures r == d.(venue := Some(VenueText(lines[i], Next(lines, i))))
  {
    var line := lines[i];
    if EndsWith(line, ":") && i + 1 < |lines| {
      r := d.(venue := Some(Strip(line + " " + lines[i + 1])));
    } else {
      r := d.(venue := Some(line));
    }
  }

  /** The rest of the loop body, reached when no test above claimed the line. */
  method ClassifyUnclaimed(line: string, d: Details) returns (r: Details)
    ensures r == Unclaimed(Read(line), d)
  {
    r := d;
    if Truthy(r.venue) {
      r := r.(venue := Some(CleanVenue(r.venue.value)));
    }

    if r.eventTime.None? && Contains(line, ":") && GuardSearch(line, 0) {
      return;
    }

    var cleanLine := DropTwos(line, 0);
    var priceMatch := PriceSearch(cleanLine, 0);
    if priceMatch.Some? && !Truthy(r.price) {
      if Plausible(priceMatch.value) {
        r := r.(price := Some(PriceText(priceMatch.value)));
      }
      return;
    }
  }

  // ---------------------------------------------------------------------
  // The whole pass
  // ---------------------------------------------------------------------

  /** The readings of the lines, one per line. */
  function Readings(lines: seq<string>): (rds: seq<Reading>)
    ensures |rds| == |lines|
    ensures forall k | 0 <= k < |lines| :: Sound(rds[k], lines[k])
  {
    seq(|lines|, k requires 0 <= k < |lines| => Read(lines[k]))
  }

  /** The record after the first `n` lines, whose readings are `rds`, have
      been classified. */
  function Run(lines: seq<string>, rds: seq<Reading>, n: nat, d0: Details): Details
    requires |rds| == |lines| && n <= |lines|
  {
    if n == 0 then d0 else Apply(rds[n - 1], lines[n - 1], Next(lines, n - 1), Run(lines, rds, n - 1, d0))
  }

  /** `for i, line in enumerate(lines): ...` */
  method ClassifyLines(lines: seq<string>, d0: Details) returns (d: Details)
    ensures d == Run(lines, Readings(lines), |lines|, d0)
  {
    ghost var rds := Readings(lines);
    d := d0;
    for i := 0 to |lines|
      invariant d == Run(lines, rds, i, d0)
    {
      d := ClassifyLine(lines, i, d);
    }
  }

  /** Sound readings of every line. */
  predicate AllSound(lines: seq<string>, rds: seq<Reading>) {
    |rds| == |lines| && forall k | 0 <= k < |lines| :: Sound(rds[k], lines[k])
  }

  /** Every record the pass builds from a consistent start is consistent. */
  lemma {:induction false} RunConsistent(lines: seq<string>, rds: seq<Reading>, n: nat, d0: Details)
    requires AllSound(lines, rds) && n <= |lines| && Consistent(d0)
    ensures Consistent(Run(lines, rds, n, d0))
  {
    if n > 0 {
      RunConsistent(lines, rds, n - 1, d0);
      ApplyConsistent(rds[n - 1], lines[n - 1], Next(lines, n - 1), Run(lines, rds, n - 1, d0));
    }
  }

  /** Once a sticky field is set, no later line changes it. */
  lemma {:induction false} RunKeeps(lines: seq<string>, rds: seq<Reading>, j: nat, n: nat, d0: Details, k: Key)
    requires |rds| == |lines| && j <= n <= |lines| && k in Sticky
    requires Truthy(Get(Run(lines, rds, j, d0), k))
    ensures Get(Run(lines, rds, n, d0), k) == Get(Run(lines, rds, j, d0), k)
  {
    if n > j {
      RunKeeps(lines, rds, j, n - 1, d0, k);
      ApplyKeeps(rds[n - 1], lines[n - 1], Next(lines, n - 1), Run(lines, rds, n - 1, d0), k);
    }
  }

  /** The pass never touches the name, the image or the seats status. */
  lemma {:induction false} RunKeepsFileFields(lines: seq<string>, rds: seq<Reading>, n: nat, d0: Details)
    requires |rds| == |lines| && n <= |lines|
    ensures Run(lines, rds, n, d0).eventName == d0.eventName
    ensures Run(lines, rds, n, d0).sourceImage == d0.sourceImage
    ensures Run(lines, rds, n, d0).seatsStatus == d0.seatsStatus
  {
    if n > 0 {
      RunKeepsFileFields(lines, rds, n - 1, d0);
      ApplyWrites(rds[n - 1], lines[n - 1], Next(lines, n - 1), Run(lines, rds, n - 1, d0));
    }
  }

  // ---------------------------------------------------------------------
  // Seats status
  // ---------------------------------------------------------------------

  /** The status one line names, by the fixed priority
      Available > Fast Filling > Sold Out. */
  function LineStatus(line: string): (r: Option<string>)
    ensures r.Some? ==> r.value in {"Available", "Fast Filling", "Sold Out"}
  {
    var low := Lower(line);
    if Contains(low, "available") then Some("Available")
    else if Contains(low, "fast filling") || Contains(low, "filling fast") then Some("Fast Filling")
    else if Contains(low, "sold out") then Some("Sold Out")
    else if Contains(low, "full") && Contains(low, "house") then Some("Sold Out")
    else None
  }

  /** The first `Some` that `f` gives on the entries of `s`, in order. */
  function FirstOf<T, U>(f: T -> Option<U>, s: seq<T>): Option<U> {
    if |s| == 0 then None
    else if f(s[0]).Some? then f(s[0])
    else FirstOf(f, s[1..])
  }

  lemma {:induction false} FirstOfNone<T, U>(f: T -> Option<U>, s: seq<T>)
    ensures FirstOf(f, s).None? <==> forall j | 0 <= j < |s| :: f(s[j]).None?
  {
    if |s| > 0 {
      FirstOfNone(f, s[1..]);
      assert forall j | 1 <= j < |s| :: s[1..][j - 1] == s[j];
    }
  }

  lemma {:induction false} FirstOfAt<T, U>(f: T -> Option<U>, s: seq<T>, i: nat)
    requires i <= |s|
    requires forall j | 0 <= j < i :: f(s[j]).None?
    ensures i < |s| && f(s[i]).Some? ==> FirstOf(f, s) == f(s[i])
    ensures i == |s| ==> FirstOf(f, s).None?
    decreases i
  {
    if i > 0 {
      assert f(s[0]).None?;
      assert forall j | 0 <= j < i - 1 :: s[1..][j] == s[j + 1];
      FirstOfAt(f, s[1..], i - 1);
      if i < |s| {
        assert s[1..][i - 1] == s[i];
      }
    }
  }

  lemma {:induction false} FirstOfWitness<T, U>(f: T -> Option<U>, s: seq<T>) returns (i: nat)
    requires FirstOf(f, s).Some?
    ensures i < |s| && FirstOf(f, s) == f(s[i])
  {
    if f(s[0]).Some? {
      i := 0;
    } else {
      var k := FirstOfWitness(f, s[1..]);
      i := k + 1;
    }
  }

  /** The status of the first line that names one. */
  function FirstStatus(lines: seq<string>): Option<string> {
    FirstOf(LineStatus, lines)
  }

  /** No status is found only when no line names one. */
  lemma {:induction false} FirstStatusNone(lines: seq<string>)
    ensures FirstStatus(lines).None? <==> forall j | 0 <= j < |lines| :: LineStatus(lines[j]).None?
  {
    FirstOfNone(LineStatus, lines);
  }

  /** The `for line in lines: ... break` scan. */
  method ScanSeats(lines: seq<string>, current: Option<string>) returns (status: Option<string>)
    ensures current.None? ==> status == FirstStatus(lines)
    ensures current.Some? ==> status == current
  {
    status := current;
    var i := 0;
    while i < |lines|
      invariant 0 <= i <= |lines|
      invariant current.Some? ==> status == current
      invariant current.None? ==> status.None? && forall j | 0 <= j < i :: LineStatus(lines[j]).None?
    {
      var lineLower := Lower(lines[i]);
      if Contains(lineLower, "available") && status.None? {
        status := Some("Available");
        break;
      } else if (Contains(lineLower, "fast filling") || Contains(lineLower, "filling fast")) && status.None? {
        status := Some("Fast Filling");
        break;
      } else if Contains(lineLower, "sold out") && status.None? {
        status := Some("Sold Out");
        break;
      } else if Contains(lineLower, "full") && Contains(lineLower, "house") && status.None? {
        status := Some("Sold Out");
        break;
      }
      if current.None? {
        NoStatusYet(lines, i);
      }
      i := i + 1;
    }
    if current.None? {
      FirstStatusAt(lines, i);
    }
  }

  lemma {:induction false} NoStatusYet(lines: seq<string>, i: nat)
    requires i < |lines|
    requires forall j | 0 <= j < i :: LineStatus(lines[j]).None?
    requires var low := Lower(lines[i]);
      && !Contains(low, "available")
      && !(Contains(low, "fast filling") || Contains(low, "filling fast"))
      && !Contains(low, "sold out")
      && !(Contains(low, "full") && Contains(low, "house"))
    ensures forall j | 0 <= j < i + 1 :: LineStatus(lines[j]).None?
  {
  }

  /** FirstStatus is decided by the first line that names a status. */
  lemma {:induction false} FirstStatusAt(lines: seq<string>, i: nat)
    requires i <= |lines|
    requires forall j | 0 <= j < i :: LineStatus(lines[j]).None?
    ensures i < |lines| && LineStatus(lines[i]).Some? ==> FirstStatus(lines) == LineStatus(lines[i])
    ensures i == |lines| ==> FirstStatus(lines).None?
  {
    FirstOfAt(LineStatus, lines, i);
  }

  // ---------------------------------------------------------------------
  // Cleanup of noisy fields
  // ---------------------------------------------------------------------

  /** The age limit keeps only its leftmost `<digits> yrs [+]` match, without
      spaces, and is unset when there is no match. */
  function CleanAge(a: string): (r: Option<string>)
    ensures r.None? <==> AgeSearch(a, 0).None?
    ensures r.Some? ==> var m := AgeSearch(a, 0).value; r.value == Replace(a[m.0..m.1], " ", "")
    ensures r.Some? ==> |r.value| > 0 && IsDigit(r.value[0]) && ' ' !in r.value
  {
    match AgeSearch(a, 0)
    case Some((s, e)) =>
      var t := a[s..e];
      DeleteChar(t, ' ');
      KeepsFirstDigit(t);
      Some(Replace(t, " ", ""))
    case None => None
  }

  lemma {:induction false} KeepsFirstDigit(t: string)
    requires |t| > 0 && IsDigit(t[0])
    ensures |Replace(t, " ", "")| > 0 && Replace(t, " ", "")[0] == t[0]
  {
    assert !StartsWith(t, " ");
  }

  /** The index of the first digit of `s`, or `|s|`. */
  function FirstDigit(s: string): (i: nat)
    ensures i <= |s|
    ensures forall k | 0 <= k < i :: !IsDigit(s[k])
    ensures i < |s| ==> IsDigit(s[i])
  {
    if |s| == 0 || IsDigit(s[0]) then 0 else 1 + FirstDigit(s[1..])
  }

  /** The duration loses everything before its first digit. */
  function CleanDuration(s: string): (r: string)
    ensures HasDigit(s) ==> |r| > 0 && IsDigit(r[0])
  {
    s[FirstDigit(s)..]
  }

  /** The language loses every `By` and its surrounding whitespace. */
  function CleanLanguage(s: string): string {
    Strip(Replace(s, "By", ""))
  }

  /** The price gets the rupee prefix unless it already has a currency marker. */
  function CleanPrice(s: string): string {
    if StartsWith(s, "\U{20B9}") || StartsWith(s, "Rs") then s else Strip("\U{20B9} " + s)
  }

  /** The cleanup step, field by field as the source applies it. */
  function Cleaned(d: Details): (r: Details)
    ensures r.(ageLimit := d.ageLimit, duration := d.duration, language := d.language, price := d.price) == d
    ensures Truthy(r.ageLimit) ==> ' ' !in r.ageLimit.value && IsDigit(r.ageLimit.value[0])
  {
    d.(
      ageLimit := if Truthy(d.ageLimit) then CleanAge(d.ageLimit.value) else d.ageLimit,
      duration := if Truthy(d.duration) then Some(CleanDuration(d.duration.value)) else d.duration,
      language := if Truthy(d.language) then Some(CleanLanguage(d.language.value)) else d.language,
      price := if Truthy(d.price) then Some(CleanPrice(d.price.value)) else d.price)
  }

  // ---------------------------------------------------------------------
  // Sentinel fill
  // ---------------------------------------------------------------------

  /** A falsy value becomes the sentinel `"-"`. */
  function Fill(v: Option<string>): (r: Option<string>)
    ensures Truthy(r)
    ensures Truthy(v) ==> r == v
    ensures !Truthy(v) ==> r == Some("-")
  {
    if Truthy(v) then v else Some("-")
  }

  /** Every field filled. */
  function Filled(d: Details): (r: Details)
    ensures forall k :: Get(r, k) == Fill(Get(d, k))
  {
    Details(Fill(d.eventName), Fill(d.dateRange), Fill(d.eventEndDate), Fill(d.eventTime),
            Fill(d.duration), Fill(d.ageLimit), Fill(d.language), Fill(d.venue),
            Fill(d.price), Fill(d.seatsStatus), Fill(d.sourceImage))
  }

  lemma {:induction false} AllKeysComplete(k: Key)
    ensures k in AllKeys
  {
  }

  /** `for key in details: if not details[key]: details[key] = "-"` */
  method FillSentinels(d: Details) returns (r: Details)
    ensures forall k :: Truthy(Get(r, k))
    ensures r == Filled(d)
  {
    r := d;
    for j := 0 to |AllKeys|
      invariant forall k :: Get(r, k) == if k in AllKeys[..j] then Fill(Get(d, k)) else Get(d, k)
    {
      var k := AllKeys[j];
      assert AllKeys[..j + 1] == AllKeys[..j] + [k];
      if !Truthy(Get(r, k)) {
        r := Put(r, k, Some("-"));
      }
    }
    assert AllKeys[..|AllKeys|] == AllKeys;
    forall k ensures Get(r, k) == Get(Filled(d), k) {
      AllKeysComplete(k);
    }
    DetailsEqual(r, Filled(d));
  }

  // ---------------------------------------------------------------------
  // extract_event_details
  // ---------------------------------------------------------------------

  /** The outcome of the OCR call: the recognised text, or the message of
      the exception that the image opening, cropping or OCR raised. */
  datatype Ocr = Recognised(text: string) | Raised(message: string)

  /** A full record, or the degraded `{event_name, error, source_image}` one. */
  datatype Outcome =
    | Extracted(details: Details)
    | Failed(eventName: string, error: string, sourceImage: string)

  /** The record the pass, scan, cleanup and fill produce for OCR text. */
  function ExtractText(file: string, text: string): Details {
    var lines := Lines(text);
    Finish(file, lines, Readings(lines))
  }

  /** The pass over `lines` with readings `rds`, then the scan, cleanup and fill. */
  function Finish(file: string, lines: seq<string>, rds: seq<Reading>): Details
    requires |rds| == |lines|
  {
    var classified := Run(lines, rds, |lines|, Initial(file));
    Filled(Cleaned(classified.(seatsStatus := FirstStatus(lines))))
  }

  function Extract(file: string, ocr: Ocr): Outcome {
    match ocr
    case Recognised(text) => Extracted(ExtractText(file, text))
    case Raised(message) => Failed(EventNameOf(file), message, file)
  }

  /** `extract_event_details` for the image file `file` whose OCR gave `ocr`. */
  method ExtractEventDetails(file: string, ocr: Ocr) returns (r: Outcome)
    ensures r == Extract(file, ocr)
    ensures r.Extracted? ==> forall k :: Truthy(Get(r.details, k))
  {
    if ocr.Raised? {
      return Failed(EventNameOf(file), ocr.message, file);
    }
    var details := Initial(file);
    var lines := Lines(ocr.text);
    details := ClassifyLines(lines, details);
    RunKeepsFileFields(lines, Readings(lines), |lines|, Initial(file));
    var status := ScanSeats(lines, details.seatsStatus);
    details := details.(seatsStatus := status);
    details := Cleaned(details);
    details := FillSentinels(details);
    return Extracted(details);
  }

  // ---------------------------------------------------------------------
  // Venue cleanup
  // ---------------------------------------------------------------------

  /** The cleaned venue has no `<digit` left, no leading whitespace and no
      trailing `,;:-`. */
  lemma {:induction false} CleanVenueShape(v: string)
    ensures var c := CleanVenue(v);
      && NoTag(c)
      && (c != [] ==> !IsSpace(c[0]) && c[|c| - 1] !in VenueTrail)
  {
    var t := DropTags(v, 0);
    DropTagsNoTag(v, 0);
    var a := SkipSpaces(t, 0);
    var b := TrimEnd(t, |t|);
    var st := Strip(t);
    if a < b {
      NoTagSlice(t, a, b);
    }
    var c := CleanVenue(v);
    NoTagSlice(st, 0, |c|);
    assert c == st[..|c|];
    if c != [] {
      assert c[0] == st[0];
    }
  }

  /** Cleaning a cleaned venue changes nothing, provided the first cleaning
      did not leave trailing whitespace. */
  lemma {:induction false} CleanVenueIdempotent(v: string)
    requires CleanVenue(v) == [] || !IsSpace(CleanVenue(v)[|CleanVenue(v)| - 1])
    ensures CleanVenue(CleanVenue(v)) == CleanVenue(v)
  {
    var c := CleanVenue(v);
    CleanVenueShape(v);
    DropTagsFree(c, 0);
    assert c[0..] == c;
    StripUnchanged(c);
  }

  /** A venue without `<`, without whitespace at either end, and not ending
      in one of the characters the cleaning strips from the right. */
  predicate BareVenue(w: string) {
    && w != [] && '<' !in w
    && !IsSpace(w[0]) && !IsSpace(w[|w| - 1])
    && w[|w| - 1] !in VenueTrail
  }

  /** Trailing whitespace left by the first cleaning makes the next line's
      cleaning shorten the venue again: a venue that ends in `" ,"` loses
      the comma on one line and the blank on the next. */
  lemma {:induction false} CleanVenueNotIdempotent(w: string)
    requires BareVenue(w)
    ensures CleanVenue(w + " ,") == w + " "
    ensures CleanVenue(CleanVenue(w + " ,")) == w != CleanVenue(w + " ,")
  {
    CleanVenueFirstPass(w);
    CleanVenueSecondPass(w);
  }

  lemma {:induction false} CleanVenueFirstPass(w: string)
    requires BareVenue(w)
    ensures CleanVenue(w + " ,") == w + " "
  {
    var v := w + " ,";
    assert '<' !in v;
    CleanVenueOfTagFree(v);
    FirstPassStrip(w);
    FirstPassTrail(w);
  }

  lemma {:induction false} FirstPassStrip(w: string)
    requires BareVenue(w)
    ensures Strip(w + " ,") == w + " ,"
  {
    StripNoBlankEnds(w + " ,");
  }

  lemma {:induction false} FirstPassTrail(w: string)
    ensures RStripChars(w + " ,", VenueTrail) == w + " "
  {
    var u := w + " ";
    assert ',' in VenueTrail && ' ' !in VenueTrail;
    RStripDrops(u, ',', VenueTrail);
    RStripStops(u, VenueTrail);
    assert u + [','] == w + " ,";
  }

  lemma {:induction false} CleanVenueSecondPass(w: string)
    requires BareVenue(w)
    ensures CleanVenue(w + " ") == w
  {
    var v := w + " ";
    assert '<' !in v;
    CleanVenueOfTagFree(v);
    StripTrailingBlank(w);
  }

  /** With no `<digit` in it, the venue is only stripped. */
  lemma {:induction false} CleanVenueOfTagFree(v: string)
    requires '<' !in v
    ensures CleanVenue(v) == RStripChars(Strip(v), VenueTrail)
  {
    assert NoTag(v);
    DropTagsFree(v, 0);
    assert v[0..] == v;
  }

  lemma {:induction false} StripNoBlankEnds(s: string)
    requires s != [] && !IsSpace(s[0]) && !IsSpace(s[|s| - 1])
    ensures Strip(s) == s
  {
    StripUnchanged(s);
  }

  // ---------------------------------------------------------------------
  // What the finished record holds
  // ---------------------------------------------------------------------

  predicate StartsWithDigit(s: string) {
    |s| > 0 && IsDigit(s[0])
  }

  /** A language name survives the removal of `By` and the strip. */
  lemma {:induction false} LanguageNameSurvives(s: string, w: string)
    requires w in Languages && Contains(s, w)
    ensures Contains(CleanLanguage(s), w)
  {
    var i := ContainsFind(s, w);
    LanguageShape(w);
    assert "By"[1..] == "y";
    DeleteKeeps(s, "By", w, i);
    var t := Replace(s, "By", "");
    var j := ContainsFind(t, w);
    StripKeeps(t, w, j);
  }

  /** The language names the cleaning must not cut into: no `B`, no leading
      `y`, no whitespace at either end. */
  lemma {:induction false} LanguageShape(w: string)
    requires w in Languages
    ensures |w| >= 5 && 'B' !in w && w[0] != 'y'
    ensures !IsSpace(w[0]) && !IsSpace(w[|w| - 1])
  {
  }

  /** A value that names a language is at least as long as the name. */
  lemma {:induction false} AnyInLength(s: string)
    requires AnyIn(s, Languages)
    ensures |s| >= 5
  {
    var w :| w in Languages && Contains(s, w);
    var i := ContainsFind(s, w);
  }

  lemma {:induction false} CleanLanguageKeepsName(s: string)
    requires AnyIn(s, Languages)
    ensures AnyIn(CleanLanguage(s), Languages)
  {
    var w :| w in Languages && Contains(s, w);
    LanguageNameSurvives(s, w);
  }

  /** A plausible price starts with a digit and does not end in whitespace. */
  lemma {:induction false} PlausiblePriceEnds(p: string)
    requires PlausiblePrice(p)
    ensures StartsWithDigit(p) && !IsSpace(p[|p| - 1])
  {
    var n: nat :| 2 <= n <= 6 && n <= |p| && AllDigits(p[..n]) && p[n..] in {"", " onwards", " only"}
      && (DigitsValue(p[..n]) >= 50 || p[n..] != "");
    assert p[0] == p[..n][0];
    if p[n..] == "" {
      assert p[|p| - 1] == p[..n][n - 1];
    } else {
      assert p[|p| - 1] == p[n..][|p| - n - 1];
    }
  }

  /** The rupee prefix, as the cleanup writes it. */
  const Rupee: string := "\U{20B9} "

  lemma {:induction false} CleanPricePrefixes(p: string)
    requires PlausiblePrice(p)
    ensures CleanPrice(p) == Rupee + p
  {
    PlausiblePriceEnds(p);
    assert !StartsWith(p, "\U{20B9}") && !StartsWith(p, "Rs");
    var t := Rupee + p;
    assert t[0] == '\U{20B9}' && t[|t| - 1] == p[|p| - 1];
    StripUnchanged(t);
  }

  /** The name and image come from the file name; the seats status is one
      of the three statuses or the sentinel. */
  lemma {:induction false} FinishedFileFields(file: string, lines: seq<string>, rds: seq<Reading>)
    requires |rds| == |lines|
    ensures var r := Finish(file, lines, rds);
      && r.eventName == Fill(Some(EventNameOf(file)))
      && r.sourceImage == Fill(Some(file))
      && r.seatsStatus.Some? && r.seatsStatus.value in {"Available", "Fast Filling", "Sold Out", "-"}
  {
    var d0 := Initial(file);
    var pre := Run(lines, rds, |lines|, d0);
    RunKeepsFileFields(lines, rds, |lines|, d0);
    var s := FirstStatus(lines);
    FirstStatusIn(lines);
    var c := Cleaned(pre.(seatsStatus := s));
    assert c.eventName == pre.eventName && c.sourceImage == pre.sourceImage && c.seatsStatus == s;
  }

  /** The status the scan finds is one of the three. */
  lemma {:induction false} FirstStatusIn(lines: seq<string>)
    ensures var r := FirstStatus(lines); r.Some? ==> r.value in {"Available", "Fast Filling", "Sold Out"}
  {
    if FirstStatus(lines).Some? {
      var i := FirstOfWitness(LineStatus, lines);
    }
  }

  /** An end date is present only with a start date, and both are dates. */
  lemma {:induction false} FinishedDates(file: string, lines: seq<string>, rds: seq<Reading>)
    requires AllSound(lines, rds)
    ensures var r := Finish(file, lines, rds);
      r.eventEndDate != Some("-") ==>
        r.dateRange.Some? && EndsWithYear(r.dateRange.value) && r.eventEndDate.Some? && EndsWithYear(r.eventEndDate.value)
  {
    var d0 := Initial(file);
    var pre := Run(lines, rds, |lines|, d0);
    RunConsistent(lines, rds, |lines|, d0);
    var c := Cleaned(pre.(seatsStatus := FirstStatus(lines)));
    var r := Filled(c);
    assert Get(r, DateRange) == Fill(c.dateRange);
    assert Get(r, EventEndDate) == Fill(c.eventEndDate);
  }

  /** The duration is the sentinel or starts with its number. */
  lemma {:induction false} FinishedDuration(file: string, lines: seq<string>, rds: seq<Reading>)
    requires AllSound(lines, rds)
    ensures var r := Finish(file, lines, rds);
      r.duration == Some("-") || (r.duration.Some? && StartsWithDigit(r.duration.value))
  {
    var d0 := Initial(file);
    var pre := Run(lines, rds, |lines|, d0);
    RunConsistent(lines, rds, |lines|, d0);
    var c := Cleaned(pre.(seatsStatus := FirstStatus(lines)));
    var r := Filled(c);
    assert Get(r, Duration) == Fill(c.duration);
  }

  /** The language is the sentinel, or the line the pass stored with every
      `By` removed and the result stripped. */
  lemma {:induction false} FinishedLanguage(file: string, lines: seq<string>, rds: seq<Reading>)
    requires |rds| == |lines|
    ensures var r := Finish(file, lines, rds);
      var stored := Run(lines, rds, |lines|, Initial(file)).language;
      r.language == Some("-") || (Truthy(stored) && r.language == Some(CleanLanguage(stored.value)))
  {
    var d0 := Initial(file);
    var pre := Run(lines, rds, |lines|, d0);
    var c := Cleaned(pre.(seatsStatus := FirstStatus(lines)));
    var r := Filled(c);
    assert Get(r, Language) == Fill(c.language);
  }

  /** The age limit is the sentinel, or the cleaned age match of the line the
      pass stored, which starts with a digit and holds no space. */
  lemma {:induction false} FinishedAge(file: string, lines: seq<string>, rds: seq<Reading>)
    requires |rds| == |lines|
    ensures var r := Finish(file, lines, rds);
      r.ageLimit == Some("-") || (r.ageLimit.Some? && StartsWithDigit(r.ageLimit.value) && ' ' !in r.ageLimit.value)
    ensures var r := Finish(file, lines, rds);
      var stored := Run(lines, rds, |lines|, Initial(file)).ageLimit;
      r.ageLimit == Some("-") || (Truthy(stored) && r.ageLimit == CleanAge(stored.value))
  {
    var d0 := Initial(file);
    var pre := Run(lines, rds, |lines|, d0);
    var c := Cleaned(pre.(seatsStatus := FirstStatus(lines)));
    var r := Filled(c);
    assert Get(r, AgeLimit) == Fill(c.ageLimit);
  }

  /** The price is the sentinel or the rupee prefix before a plausible price. */
  lemma {:induction false} FinishedPrice(file: string, lines: seq<string>, rds: seq<Reading>)
    requires AllSound(lines, rds)
    ensures var r := Finish(file, lines, rds);
      r.price == Some("-") || (r.price.Some? && StartsWith(r.price.value, Rupee) && PlausiblePrice(r.price.value[|Rupee|..]))
  {
    var d0 := Initial(file);
    var pre := Run(lines, rds, |lines|, d0);
    RunConsistent(lines, rds, |lines|, d0);
    var c := Cleaned(pre.(seatsStatus := FirstStatus(lines)));
    var r := Filled(c);
    assert Get(r, Price) == Fill(c.price);
    if pre.price.Some? {
      var p := pre.price.value;
      CleanPricePrefixes(p);
      PlausiblePriceEnds(p);
      assert c.price == Some(Rupee + p);
      assert (Rupee + p)[|Rupee|..] == p;
    }
  }

  /** A venue is present only with a language that still names a language. */
  lemma {:induction false} FinishedVenue(file: string, lines: seq<string>, rds: seq<Reading>)
    requires AllSound(lines, rds)
    ensures var r := Finish(file, lines, rds);
      r.venue != Some("-") ==> r.language.Some? && AnyIn(r.language.value, Languages)
  {
    var d0 := Initial(file);
    var pre := Run(lines, rds, |lines|, d0);
    RunConsistent(lines, rds, |lines|, d0);
    var c := Cleaned(pre.(seatsStatus := FirstStatus(lines)));
    var r := Filled(c);
    assert Get(r, Venue) == Fill(c.venue);
    assert Get(r, Language) == Fill(c.language);
    if Truthy(pre.venue) {
      var l := pre.language.value;
      AnyInLength(l);
      CleanLanguageKeepsName(l);
      AnyInLength(CleanLanguage(l));
    }
  }

  /** What every record extracted from OCR text holds. */
  lemma {:induction false} ExtractedRecord(file: string, text: string)
    ensures var r := ExtractText(file, text);
      && r.eventName == Fill(Some(EventNameOf(file)))
      && r.sourceImage == Fill(Some(file))
      && r.seatsStatus.Some? && r.seatsStatus.value in {"Available", "Fast Filling", "Sold Out", "-"}
      && (r.eventEndDate != Some("-") ==>
            r.dateRange.Some? && EndsWithYear(r.dateRange.value) && r.eventEndDate.Some? && EndsWithYear(r.eventEndDate.value))
      && (r.duration == Some("-") || (r.duration.Some? && StartsWithDigit(r.duration.value)))
      && (r.ageLimit == Some("-") || (r.ageLimit.Some? && StartsWithDigit(r.ageLimit.value) && ' ' !in r.ageLimit.value))
      && (r.price == Some("-") || (r.price.Some? && StartsWith(r.price.value, Rupee) && PlausiblePrice(r.price.value[|Rupee|..])))
      && (r.venue != Some("-") ==> r.language.Some? && AnyIn(r.language.value, Languages))
      && var lines := Lines(text);
         var stored := Run(lines, Readings(lines), |lines|, Initial(file)).language;
         r.language == Some("-") || (Truthy(stored) && r.language == Some(CleanLanguage(stored.value)))
  {
    var lines := Lines(text);
    var rds := Readings(lines);
    FinishedFileFields(file, lines, rds);
    FinishedDates(file, lines, rds);
    FinishedDuration(file, lines, rds);
    FinishedAge(file, lines, rds);
    FinishedLanguage(file, lines, rds);
    FinishedPrice(file, lines, rds);
    FinishedVenue(file, lines, rds);
  }

  /** Text with no lines gives the sentinel for every field the text would fill. */
  lemma {:induction false} EmptyTextGivesSentinels(file: string)
    ensures var r := ExtractText(file, "");
      forall k | k !in {EventName, SourceImage} :: Get(r, k) == Some("-")
  {
    NoLinesInEmptyText();
    assert Readings([]) == [];
    assert Cleaned(Initial(file).(seatsStatus := FirstStatus([]))) == Initial(file);
  }
}

