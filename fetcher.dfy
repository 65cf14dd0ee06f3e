/** The pure parts of 01_url_fetcher.py around the browser: the status
    keyword flags, the card filter, the URL-keyed loading and comparison of
    two event files, and the text report. */
module Fetcher {
  import opened Wrappers
  import opened Text

  // ---------------------------------------------------------------------
  // `check_event_status`
  // ---------------------------------------------------------------------

  const FastFillingWords: seq<string> := ["fast filling", "filling fast", "almost full", "limited seats"]
  const SoldOutWords: seq<string> := ["sold out", "housefull", "no seats"]

  datatype Status = Status(isFastFilling: bool, isSoldOut: bool)

  /** `any(w in text for w in words)`, tried in list order. */
  function AnyContains(text: string, words: seq<string>): bool {
    if words == [] then false
    else Contains(text, words[0]) || AnyContains(text, words[1..])
  }

  lemma {:induction false} AnyContainsIff(text: string, words: seq<string>)
    ensures AnyContains(text, words) <==> exists k | 0 <= k < |words| :: Contains(text, words[k])
    decreases |words|
  {
    if words != [] {
      AnyContainsIff(text, words[1..]);
      if Contains(text, words[0]) {
        assert Contains(text, words[0]);
      } else {
        assert forall k | 1 <= k < |words| :: words[k] == words[1..][k - 1];
      }
    }
  }

  /** Both flags from the lower-cased status text. */
  function CheckEventStatus(text: string): Status {
    var low := Lower(text);
    Status(AnyContains(low, FastFillingWords), AnyContains(low, SoldOutWords))
  }

  /** A flag is raised exactly when the lower-cased text contains one of its
      keywords. */
  lemma {:induction false} CheckEventStatusIff(text: string)
    ensures CheckEventStatus(text).isFastFilling <==>
      exists k | 0 <= k < |FastFillingWords| :: Contains(Lower(text), FastFillingWords[k])
    ensures CheckEventStatus(text).isSoldOut <==>
      exists k | 0 <= k < |SoldOutWords| :: Contains(Lower(text), SoldOutWords[k])
  {
    AnyContainsIff(Lower(text), FastFillingWords);
    AnyContainsIff(Lower(text), SoldOutWords);
  }

  // ---------------------------------------------------------------------
  // Events and cards
  // ---------------------------------------------------------------------

  /** A scraped or loaded event; a field that is absent is `None`. */
  datatype Event = Event(
    name: Option<string>,
    url: Option<string>,
    venue: Option<string>,
    date: Option<string>,
    price: Option<string>,
    status: Option<string>,
    isFastFilling: Option<bool>,
    isSoldOut: Option<bool>)

  /** What the page offers for one card: the text of each element found. */
  datatype Card = Card(
    title: Option<string>,
    href: Option<string>,
    venue: Option<string>,
    date: Option<string>,
    price: Option<string>,
    status: Option<string>)

  /** `card.get_attribute("href") or "N/A"`. */
  function HrefUrl(c: Card): string {
    if c.href.Some? && c.href.value != "" then c.href.value else "N/A"
  }

  function StripOpt(v: Option<string>): (r: Option<string>)
    ensures r.Some? <==> v.Some?
  {
    if v.Some? then Some(Strip(v.value)) else None
  }

  /** The event a kept card becomes (the clock fields are not modelled). */
  function EventOf(c: Card): (e: Event)
    requires c.title.Some?
  {
    var flags := if c.status.Some? then Some(CheckEventStatus(Strip(c.status.value))) else None;
    Event(Some(Strip(c.title.value)), Some(HrefUrl(c)),
      StripOpt(c.venue), StripOpt(c.date), StripOpt(c.price), StripOpt(c.status),
      if flags.Some? then Some(flags.value.isFastFilling) else None,
      if flags.Some? then Some(flags.value.isSoldOut) else None)
  }

  /** A card is kept when it has a title, a URL, and a URL not seen before. */
  predicate Keeps(c: Card, seen: set<string>) {
    c.title.Some? && HrefUrl(c) != "N/A" && HrefUrl(c) !in seen
  }

  /** The URLs of `cards`. */
  function CardUrls(cards: seq<Card>): set<string> {
    if cards == [] then {} else CardUrls(cards[..|cards| - 1]) + {HrefUrl(cards[|cards| - 1])}
  }

  /** The cards the loop keeps, in card order. */
  function Kept(cards: seq<Card>): (r: seq<Card>)
    ensures |r| <= |cards|
    ensures forall k | 0 <= k < |r| :: r[k].title.Some?
  {
    if cards == [] then []
    else
      var prev := Kept(cards[..|cards| - 1]);
      var c := cards[|cards| - 1];
      if Keeps(c, CardUrls(prev)) then prev + [c] else prev
  }

  /** The events of kept cards. */
  function EventsOf(cards: seq<Card>): (r: seq<Event>)
    requires forall k | 0 <= k < |cards| :: cards[k].title.Some?
    ensures |r| == |cards|
  {
    if cards == [] then []
    else EventsOf(cards[..|cards| - 1]) + [EventOf(cards[|cards| - 1])]
  }

  /** The events the card loop collects from `cards`. */
  function Scrape(cards: seq<Card>): seq<Event> {
    EventsOf(Kept(cards))
  }

  /** The card loop of `scrape_events`, over the cards of every selector in turn. */
  method FilterCards(cards: seq<Card>) returns (events: seq<Event>)
    ensures events == Scrape(cards)
  {
    events := [];
    var seen: set<string> := {};
    ghost var kept: seq<Card> := [];
    for i := 0 to |cards|
      invariant kept == Kept(cards[..i])
      invariant events == EventsOf(kept)
      invariant seen == CardUrls(kept)
    {
      events, seen, kept := FilterCard(cards, i, events, seen, kept);
    }
    assert cards[..|cards|] == cards;
  }

  /** The loop body for card `i`: a card without a title or URL, or with a
      URL already seen, is skipped; any other is kept, and its URL is seen. */
  method FilterCard(cards: seq<Card>, i: nat, events: seq<Event>, seen: set<string>, ghost kept: seq<Card>)
    returns (events': seq<Event>, seen': set<string>, ghost kept': seq<Card>)
    requires i < |cards| && kept == Kept(cards[..i]) && events == EventsOf(kept) && seen == CardUrls(kept)
    ensures kept' == Kept(cards[..i + 1]) && events' == EventsOf(kept') && seen' == CardUrls(kept')
  {
    var c := cards[i];
    var url := HrefUrl(c);
    if c.title.None? || url == "N/A" || url in seen {
      DropStep(cards, i, kept);
      events', seen', kept' := events, seen, kept;
    } else {
      var e := BuildEvent(c);
      KeepStep(cards, i, kept, events, e);
      events', seen', kept' := events + [e], seen + {url}, kept + [c];
    }
  }

  /** A card without a title or URL, or with a URL already seen, is dropped. */
  lemma {:induction false} DropStep(cards: seq<Card>, i: nat, kept: seq<Card>)
    requires i < |cards| && kept == Kept(cards[..i])
    requires !Keeps(cards[i], CardUrls(kept))
    ensures Kept(cards[..i + 1]) == kept
  {
    assert cards[..i + 1][..i] == cards[..i];
  }

  /** Keeping a card adds it, its event and its URL. */
  lemma {:induction false} KeepStep(cards: seq<Card>, i: nat, kept: seq<Card>, events: seq<Event>, e: Event)
    requires i < |cards| && kept == Kept(cards[..i]) && events == EventsOf(kept)
    requires Keeps(cards[i], CardUrls(kept)) && e == EventOf(cards[i])
    ensures Kept(cards[..i + 1]) == kept + [cards[i]]
    ensures EventsOf(kept + [cards[i]]) == events + [e]
    ensures CardUrls(kept + [cards[i]]) == CardUrls(kept) + {HrefUrl(cards[i])}
  {
    KeptStep(cards, i, kept);
    AddCard(kept, cards[i]);
  }

  lemma {:induction false} KeptStep(cards: seq<Card>, i: nat, kept: seq<Card>)
    requires i < |cards| && kept == Kept(cards[..i])
    requires Keeps(cards[i], CardUrls(kept))
    ensures Kept(cards[..i + 1]) == kept + [cards[i]]
  {
    assert cards[..i + 1][..i] == cards[..i];
  }

  /** A card added at the end adds its event and its URL. */
  lemma {:induction false} AddCard(kept: seq<Card>, c: Card)
    requires c.title.Some? && forall k | 0 <= k < |kept| :: kept[k].title.Some?
    ensures EventsOf(kept + [c]) == EventsOf(kept) + [EventOf(c)]
    ensures CardUrls(kept + [c]) == CardUrls(kept) + {HrefUrl(c)}
  {
    assert (kept + [c])[..|kept|] == kept;
  }

  /** The body of the card loop once a card is kept: the title, the URL, and
      each detail element that is present, stripped; the status also sets
      both flags. */
  method BuildEvent(c: Card) returns (e: Event)
    requires c.title.Some?
    ensures e == EventOf(c)
  {
    e := Event(Some(Strip(c.title.value)), Some(HrefUrl(c)), None, None, None, None, None, None);
    if c.venue.Some? {
      e := e.(venue := Some(Strip(c.venue.value)));
    }
    if c.date.Some? {
      e := e.(date := Some(Strip(c.date.value)));
    }
    if c.price.Some? {
      e := e.(price := Some(Strip(c.price.value)));
    }
    if c.status.Some? {
      var text := Strip(c.status.value);
      var flags := CheckEventStatus(text);
      e := e.(status := Some(text), isFastFilling := Some(flags.isFastFilling), isSoldOut := Some(flags.isSoldOut));
    }
  }

  lemma {:induction false} CardUrlsHas(cards: seq<Card>, k: nat)
    requires k < |cards|
    ensures HrefUrl(cards[k]) in CardUrls(cards)
    decreases |cards|
  {
    var n := |cards| - 1;
    if k < n {
      CardUrlsHas(cards[..n], k);
      assert cards[..n][k] == cards[k];
    }
  }

  /** No two kept cards share a URL, and none has the `N/A` URL. */
  lemma {:induction false} KeptDistinct(cards: seq<Card>)
    ensures forall k | 0 <= k < |Kept(cards)| :: HrefUrl(Kept(cards)[k]) != "N/A"
    ensures forall i, j | 0 <= i < j < |Kept(cards)| :: HrefUrl(Kept(cards)[i]) != HrefUrl(Kept(cards)[j])
    decreases |cards|
  {
    if cards != [] {
      var n := |cards| - 1;
      var prev := Kept(cards[..n]);
      KeptDistinct(cards[..n]);
      if Keeps(cards[n], CardUrls(prev)) {
        var r := prev + [cards[n]];
        forall i, j | 0 <= i < j < |r|
          ensures HrefUrl(r[i]) != HrefUrl(r[j])
        {
          if j == |prev| {
            CardUrlsHas(prev, i);
          }
        }
      }
    }
  }

  /** The kept cards are a subsequence of the input: `idx` gives the position
      of each kept card, in increasing order, and each is the first card with
      a title and its URL (the URL is marked seen before any later card). */
  lemma {:induction false} KeptOrigins(cards: seq<Card>) returns (idx: seq<nat>)
    ensures |idx| == |Kept(cards)|
    ensures forall k | 0 <= k < |idx| :: idx[k] < |cards| && Kept(cards)[k] == cards[idx[k]]
    ensures forall i, j | 0 <= i < j < |idx| :: idx[i] < idx[j]
    ensures forall m, j | 0 <= m < |idx| && 0 <= j < idx[m] ::
      !(cards[j].title.Some? && HrefUrl(cards[j]) == HrefUrl(cards[idx[m]]))
    decreases |cards|
  {
    if cards == [] {
      idx := [];
    } else {
      var n := |cards| - 1;
      var before := KeptOrigins(cards[..n]);
      OriginsWithin(cards, before);
      FirstWithin(cards, cards[..n], before);
      if Keeps(cards[n], CardUrls(Kept(cards[..n]))) {
        idx := before + [n];
        assert Kept(cards) == Kept(cards[..n]) + [cards[n]];
        OriginsAppend(cards, Kept(cards[..n]), before);
        forall m, j | 0 <= m < |idx| && 0 <= j < idx[m]
          ensures !(cards[j].title.Some? && HrefUrl(cards[j]) == HrefUrl(cards[idx[m]]))
        {
          if m < |before| {
            assert idx[m] == before[m];
          } else if cards[j].title.Some? && HrefUrl(cards[j]) != "N/A" {
            assert cards[..n][j] == cards[j];
            KeptComplete(cards[..n], j);
          }
        }
      } else {
        idx := before;
        assert Kept(cards) == Kept(cards[..n]);
      }
    }
  }

  /** Positions in a prefix are positions in the whole. */
  lemma {:induction false} OriginsWithin(cards: seq<Card>, before: seq<nat>)
    requires |cards| > 0 && |before| == |Kept(cards[..|cards| - 1])|
    requires forall k | 0 <= k < |before| ::
      before[k] < |cards| - 1 && Kept(cards[..|cards| - 1])[k] == cards[..|cards| - 1][before[k]]
    ensures forall k | 0 <= k < |before| ::
      before[k] < |cards| - 1 && Kept(cards[..|cards| - 1])[k] == cards[before[k]]
  {
  }

  /** First occurrences in a prefix are first occurrences in the whole. */
  lemma {:induction false} FirstWithin(cards: seq<Card>, prefix: seq<Card>, before: seq<nat>)
    requires |cards| > 0 && prefix == cards[..|cards| - 1]
    requires forall k | 0 <= k < |before| :: before[k] < |prefix|
    requires forall m, j | 0 <= m < |before| && 0 <= j < before[m] ::
      !(prefix[j].title.Some? && HrefUrl(prefix[j]) == HrefUrl(prefix[before[m]]))
    ensures forall m, j | 0 <= m < |before| && 0 <= j < before[m] ::
      !(cards[j].title.Some? && HrefUrl(cards[j]) == HrefUrl(cards[before[m]]))
  {
    forall m, j | 0 <= m < |before| && 0 <= j < before[m]
      ensures !(cards[j].title.Some? && HrefUrl(cards[j]) == HrefUrl(cards[before[m]]))
    {
      assert prefix[j] == cards[j] && prefix[before[m]] == cards[before[m]];
    }
  }

  /** The last card kept comes after the earlier ones. */
  lemma {:induction false} OriginsAppend(cards: seq<Card>, prev: seq<Card>, before: seq<nat>)
    requires |cards| > 0 && |before| == |prev|
    requires forall k | 0 <= k < |before| :: before[k] < |cards| - 1 && prev[k] == cards[before[k]]
    requires forall i, j | 0 <= i < j < |before| :: before[i] < before[j]
    ensures var idx := before + [|cards| - 1];
      var r := prev + [cards[|cards| - 1]];
      (forall k | 0 <= k < |idx| :: idx[k] < |cards| && r[k] == cards[idx[k]])
      && forall i, j | 0 <= i < j < |idx| :: idx[i] < idx[j]
  {
    var idx := before + [|cards| - 1];
    var r := prev + [cards[|cards| - 1]];
    forall k | 0 <= k < |idx|
      ensures idx[k] < |cards| && r[k] == cards[idx[k]]
    {
      if k < |before| {
        assert idx[k] == before[k] && r[k] == prev[k];
      }
    }
  }

  /** Every card with a title and a URL is represented by its URL. */
  lemma {:induction false} KeptComplete(cards: seq<Card>, k: nat)
    requires k < |cards| && cards[k].title.Some? && HrefUrl(cards[k]) != "N/A"
    ensures HrefUrl(cards[k]) in CardUrls(Kept(cards))
    decreases |cards|
  {
    var n := |cards| - 1;
    if k < n {
      KeptComplete(cards[..n], k);
      assert cards[..n][k] == cards[k];
    }
  }

  /** Each event is the event of the kept card at the same position, and
      carries that card's URL. */
  lemma {:induction false} EventsOfCards(cards: seq<Card>, k: nat)
    requires forall m | 0 <= m < |cards| :: cards[m].title.Some?
    requires k < |cards|
    ensures EventsOf(cards)[k] == EventOf(cards[k])
    ensures EventsOf(cards)[k].url == Some(HrefUrl(cards[k]))
    decreases |cards|
  {
    var n := |cards| - 1;
    if k < n {
      EventsOfCards(cards[..n], k);
      assert cards[..n][k] == cards[k];
    }
  }

  /** The collected events have pairwise distinct URLs. */
  lemma {:induction false} ScrapeDistinct(cards: seq<Card>)
    ensures forall i, j | 0 <= i < j < |Scrape(cards)| :: Scrape(cards)[i].url != Scrape(cards)[j].url
  {
    var kept := Kept(cards);
    KeptDistinct(cards);
    forall i, j | 0 <= i < j < |kept|
      ensures EventsOf(kept)[i].url != EventsOf(kept)[j].url
    {
      EventsOfCards(kept, i);
      EventsOfCards(kept, j);
    }
  }

  // ---------------------------------------------------------------------
  // `load_events` and `compare_events`
  // ---------------------------------------------------------------------

  /** An event file as the loader finds it: missing, present but not valid
      JSON, or decoded. A file that is not valid UTF-8 raises an error that
      `load_events` does not catch, and is not represented. */
  datatype StoredFile = Missing | Undecodable | Decoded(events: seq<Event>)

  /** The dict `{event['url']: event}`: its keys in insertion order and its
      entries. */
  datatype Table = Table(urls: seq<string>, byUrl: map<string, Event>)

  predicate Distinct(s: seq<string>) {
    forall i, j | 0 <= i < j < |s| :: s[i] != s[j]
  }

  predicate Valid(t: Table) {
    Distinct(t.urls) && t.byUrl.Keys == set u | u in t.urls
  }

  /** The dict comprehension: a later event with the same URL replaces the
      earlier one in place; an event without a URL raises `KeyError`. */
  function Index(events: seq<Event>): (r: Result<Table>)
    ensures r.Success? ==> Valid(r.value)
  {
    if events == [] then Success(Table([], map[]))
    else
      var e := events[|events| - 1];
      match Index(events[..|events| - 1])
      case Failure(err) => Failure(err)
      case Success(t) =>
        if e.url.None? then Failure("KeyError: 'url'")
        else
          var u := e.url.value;
          Success(Table(if u in t.byUrl then t.urls else t.urls + [u], t.byUrl[u := e]))
  }

  /** Loading fails exactly when some event has no URL. */
  lemma {:induction false} IndexFails(events: seq<Event>)
    ensures Index(events).Failure? <==> exists k | 0 <= k < |events| :: events[k].url.None?
    decreases |events|
  {
    if events != [] {
      var n := |events| - 1;
      IndexFails(events[..n]);
      assert forall k | 0 <= k < n :: events[..n][k] == events[k];
    }
  }

  /** One step of the comprehension: the last event's entry is set. */
  lemma {:induction false} IndexStep(events: seq<Event>)
    requires events != [] && Index(events).Success?
    ensures var n := |events| - 1;
      && Index(events[..n]).Success?
      && events[n].url.Some?
      && Index(events).value.byUrl == Index(events[..n]).value.byUrl[events[n].url.value := events[n]]
  {
  }

  /** Every URL is a key. */
  lemma {:induction false} IndexKeys(events: seq<Event>)
    requires Index(events).Success?
    ensures forall k | 0 <= k < |events| :: events[k].url.Some? && events[k].url.value in Index(events).value.byUrl
    decreases |events|
  {
    if events != [] {
      var n := |events| - 1;
      IndexStep(events);
      IndexKeys(events[..n]);
      assert forall k | 0 <= k < n :: events[..n][k] == events[k];
    }
  }

  /** A later event with the same URL wins: each key holds the last event
      with that URL. */
  lemma {:induction false} IndexLastWins(events: seq<Event>, u: string) returns (k: nat)
    requires Index(events).Success? && u in Index(events).value.byUrl
    ensures k < |events| && events[k].url == Some(u)
    ensures Index(events).value.byUrl[u] == events[k]
    ensures forall m | k < m < |events| :: events[m].url != Some(u)
    decreases |events|
  {
    var n := |events| - 1;
    IndexStep(events);
    if events[n].url == Some(u) {
      k := n;
    } else {
      var front := events[..n];
      k := IndexLastWins(front, u);
      assert events[k] == front[k];
      NoLaterUrl(events, front, k, u);
    }
  }

  lemma {:induction false} NoLaterUrl(events: seq<Event>, front: seq<Event>, k: nat, u: string)
    requires events != [] && front == events[..|events| - 1] && k < |front|
    requires forall m | k < m < |front| :: front[m].url != Some(u)
    requires events[|events| - 1].url != Some(u)
    ensures forall m | k < m < |events| :: events[m].url != Some(u)
  {
    forall m | k < m < |events|
      ensures events[m].url != Some(u)
    {
      if m < |front| {
        assert events[m] == front[m];
      }
    }
  }

  function LoadEvents(f: StoredFile): Result<Table> {
    match f
    case Missing => Success(Table([], map[]))
    case Undecodable => Success(Table([], map[]))
    case Decoded(events) => Index(events)
  }

  /** A missing or undecodable file loads as an empty table; a decoded one
      fails exactly when some event has no URL, and otherwise holds every URL. */
  lemma {:induction false} LoadEventsCases(f: StoredFile)
    ensures !f.Decoded? ==> LoadEvents(f) == Success(Table([], map[]))
    ensures f.Decoded? ==> (LoadEvents(f).Failure? <==> exists k | 0 <= k < |f.events| :: f.events[k].url.None?)
    ensures LoadEvents(f).Success? ==> Valid(LoadEvents(f).value)
    ensures f.Decoded? && LoadEvents(f).Success? ==>
      forall k | 0 <= k < |f.events| :: f.events[k].url.Some? && f.events[k].url.value in LoadEvents(f).value.byUrl
  {
    if f.Decoded? {
      IndexFails(f.events);
      if Index(f.events).Success? {
        IndexKeys(f.events);
      }
    }
  }

  datatype Stats = Stats(added: nat, removed: nat, totalOld: nat, totalNew: nat)
  datatype Comparison = Comparison(added: seq<Event>, removed: seq<Event>, stats: Stats)

  /** The entries of `urls`, in order. */
  function Lookup(urls: seq<string>, m: map<string, Event>): (r: seq<Event>)
    requires forall k | 0 <= k < |urls| :: urls[k] in m
    ensures |r| == |urls|
    ensures forall k | 0 <= k < |urls| :: r[k] == m[urls[k]]
  {
    if urls == [] then [] else [m[urls[0]]] + Lookup(urls[1..], m)
  }

  /** The old URLs missing from the new table, in the old table's key order. */
  function Gone(olds: seq<string>, newer: map<string, Event>): (r: seq<string>)
    ensures forall u :: u in r <==> u in olds && u !in newer
  {
    if olds == [] then []
    else if olds[0] in newer then Gone(olds[1..], newer)
    else [olds[0]] + Gone(olds[1..], newer)
  }

  /** `added` is `list(new.values())`; `removed` follows the old key order. */
  function Compare(before: Table, after: Table): (c: Comparison)
    requires Valid(before) && Valid(after)
  {
    var gone := Gone(before.urls, after.byUrl);
    Comparison(Lookup(after.urls, after.byUrl), Lookup(gone, before.byUrl),
      Stats(|after.byUrl|, |before.byUrl.Keys - after.byUrl.Keys|, |before.byUrl|, |after.byUrl|))
  }

  /** `compare_events`: a `KeyError` from either load propagates. */
  function CompareEvents(oldFile: StoredFile, newFile: StoredFile): Result<Comparison> {
    match LoadEvents(oldFile)
    case Failure(e) => Failure(e)
    case Success(o) =>
      match LoadEvents(newFile)
      case Failure(e) => Failure(e)
      case Success(n) => Success(Compare(o, n))
  }

  lemma {:induction false} DistinctCard(s: seq<string>)
    requires Distinct(s)
    ensures |set u | u in s| == |s|
    decreases |s|
  {
    if s != [] {
      DistinctCard(s[1..]);
      assert (set u | u in s) == (set u | u in s[1..]) + {s[0]};
      assert s[0] !in s[1..];
    }
  }

  lemma {:induction false} GoneDistinct(olds: seq<string>, newer: map<string, Event>)
    requires Distinct(olds)
    ensures Distinct(Gone(olds, newer))
    decreases |olds|
  {
    if olds != [] {
      GoneDistinct(olds[1..], newer);
    }
  }

  lemma {:induction false} KeysCard(t: Table)
    requires Valid(t)
    ensures |t.byUrl| == |t.urls|
  {
    DistinctCard(t.urls);
    assert |t.byUrl| == |t.byUrl.Keys|;
  }

  lemma {:induction false} GoneCard(before: Table, after: Table)
    requires Valid(before) && Valid(after)
    ensures |before.byUrl.Keys - after.byUrl.Keys| == |Gone(before.urls, after.byUrl)|
  {
    var gone := Gone(before.urls, after.byUrl);
    GoneDistinct(before.urls, after.byUrl);
    DistinctCard(gone);
    assert before.byUrl.Keys - after.byUrl.Keys == set u | u in gone;
  }

  /** The counts agree with the lists: every new event counts as added, and
      `removed` counts the old URLs absent from the new file. */
  lemma {:induction false} CompareCounts(before: Table, after: Table)
    requires Valid(before) && Valid(after)
    ensures var c := Compare(before, after);
      && c.stats.added == c.stats.totalNew == |c.added|
      && c.stats.removed == |c.removed|
      && c.stats.totalOld == |before.urls|
  {
    KeysCard(before);
    KeysCard(after);
    GoneCard(before, after);
  }

  /** `removed` holds exactly the old events whose URL the new file lacks. */
  lemma {:induction false} CompareRemoved(before: Table, after: Table)
    requires Valid(before) && Valid(after)
    ensures forall e :: e in Compare(before, after).removed <==>
      exists u | u in before.byUrl && u !in after.byUrl :: e == before.byUrl[u]
  {
    var gone := Gone(before.urls, after.byUrl);
    var removed := Lookup(gone, before.byUrl);
    forall e | e in removed
      ensures exists u | u in before.byUrl && u !in after.byUrl :: e == before.byUrl[u]
    {
      var k :| 0 <= k < |removed| && removed[k] == e;
      assert gone[k] in gone;
    }
    forall u | u in before.byUrl && u !in after.byUrl
      ensures before.byUrl[u] in removed
    {
      assert u in gone;
      var k :| 0 <= k < |gone| && gone[k] == u;
      assert removed[k] == before.byUrl[u];
    }
  }

  /** `added` holds every new event, whether or not the old file had it. */
  lemma {:induction false} CompareAdded(before: Table, after: Table)
    requires Valid(before) && Valid(after)
    ensures forall e :: e in Compare(before, after).added <==> exists u | u in after.byUrl :: e == after.byUrl[u]
  {
    var added := Lookup(after.urls, after.byUrl);
    forall e | e in added
      ensures exists u | u in after.byUrl :: e == after.byUrl[u]
    {
      var k :| 0 <= k < |added| && added[k] == e;
      assert after.urls[k] in after.urls;
    }
    forall u | u in after.byUrl
      ensures after.byUrl[u] in added
    {
      assert u in set v | v in after.urls;
      var k :| 0 <= k < |after.urls| && after.urls[k] == u;
      assert added[k] == after.byUrl[u];
    }
  }

  // ---------------------------------------------------------------------
  // `generate_report_content`
  // ---------------------------------------------------------------------

  /** `event.get('name', 'Untitled Event')`. */
  function NameOr(e: Event): string {
    if e.name.Some? then e.name.value else "Untitled Event"
  }

  /** `event.get('url', 'N/A')`. */
  function UrlOr(e: Event): string {
    if e.url.Some? then e.url.value else "N/A"
  }

  /** `event.get(flag, False)` for a boolean flag. */
  function Flag(b: Option<bool>): bool {
    b == Some(true)
  }

  function Header(s: Stats, now: string): seq<string> {
    ["\n=== Event Comparison Results ===",
     "Old file: " + NatToString(s.totalOld) + " events",
     "New file: " + NatToString(s.totalNew) + " events",
     "Comparison time: " + now + "\n",
     "Newly added events (" + NatToString(s.added) + "):"]
  }

  /** The flag lines of an added event. */
  const FastFillingLine: string := "  (Fast Filling!)"
  const SoldOutLine: string := "  (SOLD OUT!)"

  /** The lines of one added event. */
  function AddedEntry(e: Event): seq<string> {
    ["- " + NameOr(e), "  URL: " + UrlOr(e)]
    + (if Flag(e.isFastFilling) then [FastFillingLine] else [])
    + (if Flag(e.isSoldOut) then [SoldOutLine] else [])
  }

  function AddedLines(events: seq<Event>): seq<string> {
    if events == [] then [] else AddedLines(events[..|events| - 1]) + AddedEntry(events[|events| - 1])
  }

  function RemovedLines(events: seq<Event>): seq<string> {
    if events == [] then []
    else RemovedLines(events[..|events| - 1]) + ["- " + NameOr(events[|events| - 1]), "  URL: " + UrlOr(events[|events| - 1])]
  }

  /** The summary entry of the `i`-th added event (counting from 1). */
  function SummaryEntry(i: nat, e: Event): seq<string> {
    [SummaryHeading(i, e)] + SummaryDetails(e)
  }

  /** The first line of a summary entry: its number and the event's name. */
  function SummaryHeading(i: nat, e: Event): string {
    "\n" + NatToString(i) + ". " + NameOr(e)
  }

  const FastFillingStatus: string := "   Status: FAST FILLING!"
  const SoldOutStatus: string := "   Status: SOLD OUT!"

  /** The indented lines under a summary heading. */
  function SummaryDetails(e: Event): seq<string> {
    ["   Venue: " + (if e.venue.Some? then e.venue.value else "N/A"),
     "   Date: " + (if e.date.Some? then e.date.value else "N/A"),
     "   URL: " + UrlOr(e)]
    + (if e.price.Some? && e.price.value != "" then ["   Price: " + e.price.value] else [])
    + (if Flag(e.isFastFilling) then [FastFillingStatus] else [])
    + (if Flag(e.isSoldOut) then [SoldOutStatus] else [])
  }

  /** The summary entries of `events`, numbered from 1. */
  function SummaryEntries(events: seq<Event>): seq<string> {
    if events == [] then []
    else SummaryEntries(events[..|events| - 1]) + SummaryEntry(|events|, events[|events| - 1])
  }

  function Min(a: nat, b: nat): nat {
    if a <= b then a else b
  }

  function Summary(added: seq<Event>): seq<string> {
    if added == [] then []
    else [SummaryTitle] + SummaryEntries(added[..Min(10, |added|)])
  }

  const SummaryTitle: string := "\n=== New Events Summary ==="

  function RemovedTitle(s: Stats): string {
    "\nRemoved events (" + NatToString(s.removed) + "):"
  }

  /** The report lines; `now` is the comparison time as formatted text. */
  function ReportLines(c: Comparison, now: string): seq<string> {
    ReportTop(c, now) + Summary(c.added)
  }

  /** Everything before the summary block. */
  function ReportTop(c: Comparison, now: string): seq<string> {
    Header(c.stats, now) + AddedLines(c.added) + [RemovedTitle(c.stats)] + RemovedLines(c.removed)
  }

  /** The lines `generate_report_content` appends for one added event. */
  method AddedEntryLines(e: Event) returns (entry: seq<string>)
    ensures entry == AddedEntry(e)
  {
    entry := ["- " + NameOr(e), "  URL: " + UrlOr(e)];
    if Flag(e.isFastFilling) {
      entry := entry + [FastFillingLine];
    }
    if Flag(e.isSoldOut) {
      entry := entry + [SoldOutLine];
    }
  }

  /** The loop over the added events. */
  method AppendAdded(start: seq<string>, events: seq<Event>) returns (lines: seq<string>)
    ensures lines == start + AddedLines(events)
  {
    lines := start;
    for i := 0 to |events|
      invariant lines == start + AddedLines(events[..i])
    {
      var entry := AddedEntryLines(events[i]);
      AddedStep(start, events, i, lines, entry);
      lines := lines + entry;
    }
    assert events[..|events|] == events;
  }

  lemma {:induction false} AddedStep(start: seq<string>, events: seq<Event>, i: nat, lines: seq<string>, entry: seq<string>)
    requires i < |events|
    requires lines == start + AddedLines(events[..i])
    requires entry == AddedEntry(events[i])
    ensures lines + entry == start + AddedLines(events[..i + 1])
  {
    assert events[..i + 1][..i] == events[..i];
    assert AddedLines(events[..i + 1]) == AddedLines(events[..i]) + entry;
    AppendAssoc(start, AddedLines(events[..i]), entry);
  }

  /** The loop over the removed events. */
  method AppendRemoved(start: seq<string>, events: seq<Event>) returns (lines: seq<string>)
    ensures lines == start + RemovedLines(events)
  {
    lines := start;
    for i := 0 to |events|
      invariant lines == start + RemovedLines(events[..i])
    {
      var e := events[i];
      assert events[..i + 1][..i] == events[..i];
      lines := lines + ["- " + NameOr(e), "  URL: " + UrlOr(e)];
    }
    assert events[..|events|] == events;
  }

  /** The lines of the `i`-th summary entry. */
  method SummaryEntryLines(i: nat, e: Event) returns (entry: seq<string>)
    ensures entry == SummaryEntry(i, e)
  {
    var details := ["   Venue: " + (if e.venue.Some? then e.venue.value else "N/A"),
      "   Date: " + (if e.date.Some? then e.date.value else "N/A"),
      "   URL: " + UrlOr(e)];
    if e.price.Some? && e.price.value != "" {
      details := details + ["   Price: " + e.price.value];
    }
    if Flag(e.isFastFilling) {
      details := details + [FastFillingStatus];
    }
    if Flag(e.isSoldOut) {
      details := details + [SoldOutStatus];
    }
    entry := ["\n" + NatToString(i) + ". " + NameOr(e)] + details;
  }

  /** The numbered loop over the first added events. */
  method AppendSummary(start: seq<string>, shown: seq<Event>) returns (lines: seq<string>)
    ensures lines == start + SummaryEntries(shown)
  {
    lines := start;
    for i := 0 to |shown|
      invariant lines == start + SummaryEntries(shown[..i])
    {
      var entry := SummaryEntryLines(i + 1, shown[i]);
      SummaryStep(start, shown, i, lines, entry);
      lines := lines + entry;
    }
    assert shown[..|shown|] == shown;
  }

  lemma {:induction false} SummaryStep(start: seq<string>, shown: seq<Event>, i: nat, lines: seq<string>, entry: seq<string>)
    requires i < |shown|
    requires lines == start + SummaryEntries(shown[..i])
    requires entry == SummaryEntry(i + 1, shown[i])
    ensures lines + entry == start + SummaryEntries(shown[..i + 1])
  {
    assert shown[..i + 1][..i] == shown[..i];
    assert SummaryEntries(shown[..i + 1]) == SummaryEntries(shown[..i]) + entry;
    AppendAssoc(start, SummaryEntries(shown[..i]), entry);
  }

  lemma {:induction false} AppendAssoc<T>(a: seq<T>, b: seq<T>, c: seq<T>)
    ensures (a + b) + c == a + (b + c)
  {
  }

  /** `generate_report_content`, with the clock reading passed in as `now`. */
  method GenerateReportContent(c: Comparison, now: string) returns (report: string)
    ensures report == JoinLines(ReportLines(c, now))
  {
    var lines := Header(c.stats, now);
    lines := AppendAdded(lines, c.added);
    lines := lines + [RemovedTitle(c.stats)];
    lines := AppendRemoved(lines, c.removed);
    ghost var top := lines;
    assert top == ReportTop(c, now);
    if c.added != [] {
      lines := AppendSummary(lines + [SummaryTitle], c.added[..Min(10, |c.added|)]);
      AppendAssoc(top, [SummaryTitle], SummaryEntries(c.added[..Min(10, |c.added|)]));
    } else {
      assert Summary(c.added) == [];
      assert lines == top + [];
    }
    report := JoinLines(lines);
  }

  // ---------------------------------------------------------------------
  // What the report promises
  // ---------------------------------------------------------------------

  /** An added entry is its name line, then its URL line, then a flag line exactly for each flag set. */
  lemma {:induction false} AddedEntryFlags(e: Event)
    ensures AddedEntry(e)[..2] == ["- " + NameOr(e), "  URL: " + UrlOr(e)]
    ensures FastFillingLine in AddedEntry(e) <==> Flag(e.isFastFilling)
    ensures SoldOutLine in AddedEntry(e) <==> Flag(e.isSoldOut)
  {
    var head := ["- " + NameOr(e), "  URL: " + UrlOr(e)];
    assert head[0][0] == '-' && head[1][2] == 'U';
    assert FastFillingLine[0] == ' ' && FastFillingLine[2] == '(' && SoldOutLine[0] == ' ' && SoldOutLine[2] == '(';
    assert FastFillingLine[3] != SoldOutLine[3];
    assert FastFillingLine !in head && SoldOutLine !in head;
  }

  /** A summary entry shows a status line exactly for each flag set. */
  lemma {:induction false} SummaryEntryFlags(i: nat, e: Event)
    ensures FastFillingStatus in SummaryEntry(i, e) <==> Flag(e.isFastFilling)
    ensures SoldOutStatus in SummaryEntry(i, e) <==> Flag(e.isSoldOut)
  {
    var head := [SummaryHeading(i, e),
      "   Venue: " + (if e.venue.Some? then e.venue.value else "N/A"),
      "   Date: " + (if e.date.Some? then e.date.value else "N/A"),
      "   URL: " + UrlOr(e)];
    assert head[0][0] == '\n' && head[1][3] == 'V' && head[2][3] == 'D' && head[3][3] == 'U';
    assert FastFillingStatus[3] == 'S' && SoldOutStatus[3] == 'S' && FastFillingStatus[11] != SoldOutStatus[11];
    assert FastFillingStatus !in head && SoldOutStatus !in head;
    if e.price.Some? && e.price.value != "" {
      var price := "   Price: " + e.price.value;
      assert price[3] == 'P';
      assert FastFillingStatus != price && SoldOutStatus != price;
    }
  }

  /** The lines of `ls` that start with a newline: the title and the first line of each entry of a summary. */
  function Openers(ls: seq<string>): seq<string> {
    if ls == [] then []
    else Openers(ls[..|ls| - 1]) + (if ls[|ls| - 1] != [] && ls[|ls| - 1][0] == '\n' then [ls[|ls| - 1]] else [])
  }

  lemma {:induction false} OpenersAppend(a: seq<string>, b: seq<string>)
    ensures Openers(a + b) == Openers(a) + Openers(b)
    decreases |b|
  {
    if b != [] {
      var n := |b| - 1;
      assert (a + b)[..|a + b| - 1] == a + b[..n];
      OpenersAppend(a, b[..n]);
    } else {
      assert a + b == a;
    }
  }

  lemma {:induction false} OpenersOne(x: string)
    requires x != [] && x[0] == '\n'
    ensures Openers([x]) == [x]
  {
    assert [x][..0] == [];
  }

  /** Lines that start with a space contribute no opener. */
  lemma {:induction false} QuietOpeners(ls: seq<string>)
    requires forall k | 0 <= k < |ls| :: ls[k] != [] && ls[k][0] == ' '
    ensures Openers(ls) == []
    decreases |ls|
  {
    if ls != [] {
      QuietOpeners(ls[..|ls| - 1]);
    }
  }

  /** Every detail line of a summary entry is indented. */
  lemma {:induction false} DetailsIndented(e: Event)
    ensures Openers(SummaryDetails(e)) == []
  {
    var d := SummaryDetails(e);
    forall k | 0 <= k < |d|
      ensures d[k] != [] && d[k][0] == ' '
    {
    }
    QuietOpeners(d);
  }

  /** The summary headings, numbered from 1. */
  function Numbered(shown: seq<Event>): (r: seq<string>)
    ensures |r| == |shown|
  {
    seq(|shown|, k requires 0 <= k < |shown| => SummaryHeading(k + 1, shown[k]))
  }

  /** Only the heading of a summary entry starts with a newline. */
  lemma {:induction false} EntryOpeners(i: nat, e: Event)
    ensures Openers(SummaryEntry(i, e)) == [SummaryHeading(i, e)]
  {
    var h := SummaryHeading(i, e);
    assert h[0] == '\n';
    OpenersAppend([h], SummaryDetails(e));
    OpenersOne(h);
    DetailsIndented(e);
  }

  /** The summary entries open with their headings numbered 1, 2, ... in event order. */
  lemma {:induction false} EntriesOpeners(shown: seq<Event>)
    ensures Openers(SummaryEntries(shown)) == Numbered(shown)
    decreases |shown|
  {
    if shown != [] {
      var n := |shown| - 1;
      var front, entry := SummaryEntries(shown[..n]), SummaryEntry(|shown|, shown[n]);
      assert SummaryEntries(shown) == front + entry;
      EntriesOpeners(shown[..n]);
      OpenersAppend(front, entry);
      EntryOpeners(|shown|, shown[n]);
      NumberedStep(shown);
    }
  }

  lemma {:induction false} NumberedStep(shown: seq<Event>)
    requires shown != []
    ensures var n := |shown| - 1; Numbered(shown) == Numbered(shown[..n]) + [SummaryHeading(n + 1, shown[n])]
  {
    var n := |shown| - 1;
    var r := Numbered(shown[..n]) + [SummaryHeading(n + 1, shown[n])];
    forall k | 0 <= k < |shown|
      ensures Numbered(shown)[k] == r[k]
    {
      if k < n {
        assert shown[..n][k] == shown[k];
      }
    }
  }

  /**
   * The summary block is present exactly when some event was added; it holds at most ten
   * entries, the first added events in order, numbered from 1.
   */
  lemma {:induction false} SummaryOpeners(added: seq<Event>)
    ensures Summary(added) == [] <==> added == []
    ensures added != [] ==> Openers(Summary(added)) == [SummaryTitle] + Numbered(added[..Min(10, |added|)])
    ensures |Numbered(added[..Min(10, |added|)])| <= 10
  {
    if added != [] {
      var shown := added[..Min(10, |added|)];
      assert Summary(added) == [SummaryTitle] + SummaryEntries(shown);
      OpenersAppend([SummaryTitle], SummaryEntries(shown));
      assert SummaryTitle[0] == '\n';
      OpenersOne(SummaryTitle);
      EntriesOpeners(shown);
    }
  }
}
