# Event screenshots to records: a verified model

The repository is a three-step pipeline for an events site:

1. `01_url_fetcher.py` scrapes the event cards of a listing page. It keeps one event per URL and flags "fast filling" and "sold out" from the card's status text. It compares today's events with yesterday's file and writes a text report whose first section lists the newly added events.
2. `02_url_to_ss.py` reads the "Newly added events" section of that report. It pairs each event name with its URL and takes one screenshot per pair, with up to three attempts each, into `NN_<clean name>.png`.
3. `03_ss_to_json.py` visits the `.png` files in the order of their number and runs OCR on the right half of each image. It classifies the OCR lines into the fields of one event record (date, time, duration, age limit, language, venue, price, seats status), cleans the noisy fields and fills every empty field with `"-"`.

This project models the deterministic core of the three steps in Dafny and proves what each step promises. It also proves what holds across the steps:

- the report written by step 1 and read back in text mode is parsed by step 2 into the added events' names and URLs, in order;
- the file numbers written by step 2 are read back by step 3's sort key, so step 3 visits the screenshots that were taken in capture order.

## Modules

| file | module | models |
|---|---|---|
| `wrappers.dfy` | `Wrappers` | `Option`, `Result` |
| `text.dfy` | `Text` | the `str` operations the scripts use, over `seq<char>`, and the universal newlines of a text-mode read |
| `patterns.dfy` | `Patterns` | hand-written recognisers for each regular expression of `03_ss_to_json.py` |
| `extractor.dfy` | `Extractor` | `extract_event_details` |
| `batch.dfy` | `Batch` | `process_screenshots_folder` |
| `fetcher.dfy` | `Fetcher` | `check_event_status`, the card filter, `load_events`, `compare_events`, `generate_report_content` |
| `capture.dfy` | `Capture` | section parsing, file names, `process_with_retry` and the capture loop of `process_event_urls_from_file` |
| `roundtrip.dfy` | `RoundTrip` | report → section → names and URLs → file names → sort keys |

Modelling choices:

- **Details record.** The dict is a datatype `Details` of `Option<string>` fields, and Python truthiness (`not details[k]`) is `!Truthy` (None or `""`).
- **Extraction loop.** One iteration of the classification loop is the method `ClassifyLine`, specified by the step function `Apply` on the line's `Reading`. `Reading` holds the results of the line's tests. The loop itself is `ClassifyLines`, specified by the fold `Run`.
- **Other loops.** The seats scan, the sentinel fill, the batch loop, the card filter, the report builder, the retry loop and the capture loop are each a method with a loop. Each is proved equal to a function, and the properties are proved about that function. The exception is the retry loop, whose contract states its properties directly.
- **Regular expressions.** Each regular expression is written out as a recogniser at one position (`DateAt`, `TimeAt`, `PriceAt`, `AgeAt`, `UrlAt`, `NameAt`). A search is the leftmost position where the recogniser succeeds. `findall` repeats the search after the end of the previous match. Greedy and lazy quantifiers follow Python's backtracking order.
- **`str.find` and sections.** `Capture.FindFrom` models `str.find`, with -1 for "not found". The DOTALL section pattern of `02_url_to_ss.py` is the text between the first `Newly added events (`, the first `):` after it and the first `Removed events` after that.

## Where the code and its description differ

The model follows the code:

- **Date range.** `date_range` keeps a leading weekday when the line has one (`"Sat 12 Jul 2025"`), because the capture of 03_ss_to_json.py:44 includes it.
- **Venue cleanup.** The cleanup of 03_ss_to_json.py:85-86 never runs on the line that claims the venue, because that line `continue`s. It runs once on each later line that reaches it. It is not idempotent: `Extractor.CleanVenueNotIdempotent` proves that `"w ,"` becomes `"w "` on one application and `"w"` on the next, for every word `w` without blanks or `<`. So the stored venue depends on how many later lines reach line 85.
- **Price format.** The price is `"₹ <digits>[ onwards| only]"`, built from the capture of 03_ss_to_json.py:96 alone. There are no thousands separators, no decimals (they are dropped) and no capitalised suffix.
- **Not in the code.** There is no sorting by cleaned event name and no dated historical copy of the output.

## Model

| member | source | states |
|---|---|---|
| Text.Lower | 03_ss_to_json.py:40 | `lower()` keeps the length and lower-cases each character |
| Text.Strip | 03_ss_to_json.py:37 | `strip()` leaves no leading or trailing whitespace and never lengthens the text |
| Text.StripEmpty | 03_ss_to_json.py:37 | a line strips to `""` exactly when it is all whitespace, which is the blank-line filter |
| Text.SplitLines | 03_ss_to_json.py:37 | `split('\n')` gives at least one piece, and no piece holds a newline |
| Text.JoinSplit | 03_ss_to_json.py:37 | joining the pieces of `split('\n')` with newlines gives back the text |
| Text.SplitJoin | 01_url_fetcher.py:304 | splitting the `"\n".join` of newline-free lines gives back those lines |
| Text.RStripChars | 03_ss_to_json.py:86 | `rstrip(',;:-')` keeps a prefix that does not end in the set and removes only characters of the set |
| Text.ReplaceChar | 03_ss_to_json.py:23 | `replace('_', ' ')` keeps the length and maps each `_` to a space and every other character to itself |
| Text.DeleteChar | 03_ss_to_json.py:128 | `replace(' ', '')` removes every space and keeps every other character as often as it occurs |
| Text.DeleteKeeps | 03_ss_to_json.py:136 | deleting a word `p` keeps a text `w` present when no occurrence of `p` can overlap `w` |
| Text.NatToStringValue | 01_url_fetcher.py:276 | the decimal text of a count reads back as the count |
| Text.UniversalNewlines | 02_url_to_ss.py:108-109 | a file read in text mode holds no carriage return and is never longer than what was written |
| Text.NewlinesKept | 02_url_to_ss.py:108-109 | text without a carriage return reads back as written, whatever follows it |
| Text.ReturnEndsLine | 02_url_to_ss.py:108-109 | a carriage return not followed by a newline reads back as a line break |
| Patterns.DigitRun | 03_ss_to_json.py:44 | `\d{1,n}` taken greedily: the longest run of digits up to the bound |
| Patterns.DateFindAll | 03_ss_to_json.py:43-46 | every date that `findall` returns ends with a four-digit year |
| Patterns.ClockAt | 03_ss_to_json.py:55 | a `\d{1,2}:\d{2}` match starts and ends with a digit |
| Patterns.TimeSearch | 03_ss_to_json.py:55 | `re.search` gives the leftmost position where the time pattern matches, and none when it matches nowhere |
| Patterns.GuardImpliesTime | 03_ss_to_json.py:89 | wherever the guard pattern `\b\d{1,2}:\d{2}\b` matches, the time pattern of line 55 matches too |
| Patterns.NoTimeNoGuard | 03_ss_to_json.py:89-90 | a line on which the time search fails has no guard match anywhere |
| Patterns.DropTwos | 03_ss_to_json.py:93 | the substitution that drops a stray `2` before a digit run never lengthens the line |
| Patterns.SuffixAfter | 03_ss_to_json.py:96 | the optional suffix group is `""`, `onwards` or `only` |
| Patterns.PriceAt | 03_ss_to_json.py:96 | a price match captures 2 to 6 digits and one of the three suffixes |
| Patterns.PriceSearchAt | 03_ss_to_json.py:95-98 | the price search returns the match at the leftmost position where the pattern matches |
| Patterns.PriceSearchNone | 03_ss_to_json.py:95-98 | no match from the price search means the pattern matches at no position |
| Patterns.AgeSearch | 03_ss_to_json.py:126 | the age search returns the leftmost match, which starts with a digit, and none when the pattern matches nowhere |
| Patterns.AgeAtParts | 03_ss_to_json.py:126 | an age match is a digit run, blanks, `yrs` in any case (with U+017F for `s`), blanks, and a `+` exactly when one follows |
| Patterns.AgeAtOfParts | 03_ss_to_json.py:126 | conversely, the age pattern matches wherever digits, blanks and `yrs` are present |
| Patterns.DropTagsNoTag | 03_ss_to_json.py:86 | after `re.sub(r'<\d+', '', v)` no `<` followed by a digit is left |
| Patterns.DropTagsFree | 03_ss_to_json.py:86 | a venue without `<digit` passes the substitution unchanged |
| Extractor.Put | 03_ss_to_json.py:48 | `details[k] = v` sets key `k` and leaves every other key as it was |
| Extractor.LastDot | 03_ss_to_json.py:23 | the position of the last `.` in a file name, or -1 (for `Path.stem`) |
| Extractor.Initial | 03_ss_to_json.py:22-35 | the fresh dict satisfies the record invariant `Consistent` |
| Extractor.Lines | 03_ss_to_json.py:37 | every normalised line is stripped and non-empty |
| Extractor.LinesOfJoin | 03_ss_to_json.py:37 | lines that are already stripped and non-empty come back unchanged and in order |
| Extractor.NoLinesInEmptyText | 03_ss_to_json.py:37 | empty OCR text has no lines |
| Extractor.Read | 03_ss_to_json.py:40-98 | each test of a line agrees with the line: dates end in a year, the duration test implies a digit, the language test implies a language name, the guard implies a time match, and a price capture has 2-6 digits and a known suffix |
| Extractor.PriceTextPlausible | 03_ss_to_json.py:104-105 | a stored price is `<2-6 digits>[ onwards\| only]`, with value ≥ 50 or a suffix |
| Extractor.ApplyWrites | 03_ss_to_json.py:47-106 | one line never changes `event_name`, `seats_status` or `source_image`; `event_end_date` changes only with `date_range`, from a second date match; venue changes only by a claim (language set, venue unset) or by the cleanup; price changes only from unset to a plausible match |
| Extractor.ApplyClaimsOne | 03_ss_to_json.py:47-84 | a line claims at most one field |
| Extractor.ApplyClaimed | 03_ss_to_json.py:47-106 | all fields but one are left unclaimed by a line |
| Extractor.ApplyKeeps | 03_ss_to_json.py:47-100 | once set, `date_range`, `event_time`, `duration`, `age_limit`, `language` and `price` are not reassigned by a line |
| Extractor.ApplyConsistent | 03_ss_to_json.py:39-106 | one line keeps the record invariant: dates end in a year and an end date comes only with a start date; venue only after language; language names a language; duration holds a digit; price is plausible |
| Extractor.UnclaimedConsistent | 03_ss_to_json.py:85-106 | the venue cleanup, the time guard and the price branch keep the record invariant |
| Extractor.TimeGuardNeverFires | 03_ss_to_json.py:89-90 | whenever the guard would skip a line with `event_time` unset, that line was already claimed as a date or as the time |
| Extractor.VenueReclaim | 03_ss_to_json.py:77-84 | an unset or empty venue, once language is set, is claimed by a venue-hinting line that no earlier test claims |
| Extractor.VenueEmptied | 03_ss_to_json.py:85-86 | the cleanup empties a venue made only of `,;:-` marks, so that `VenueReclaim` applies to a later line |
| Extractor.ClassifyLine | 03_ss_to_json.py:39-106 | one iteration of the loop computes `Apply` on the line's reading and the next line |
| Extractor.ClaimVenue | 03_ss_to_json.py:80-84 | a venue claim joins a line ending in `:` with the next line, when there is one, and takes the line alone otherwise |
| Extractor.ClassifyUnclaimed | 03_ss_to_json.py:85-106 | the tail of the loop body computes `Unclaimed` on the line's reading |
| Extractor.Readings | 03_ss_to_json.py:39-40 | one reading per line, each agreeing with its line |
| Extractor.ClassifyLines | 03_ss_to_json.py:39-106 | the loop computes the fold `Run` of the line step over all lines, in order |
| Extractor.RunConsistent | 03_ss_to_json.py:39-106 | the record invariant holds after any number of lines |
| Extractor.RunKeeps | 03_ss_to_json.py:47-100 | a sticky field set by line `j` keeps that value through every later line |
| Extractor.RunKeepsFileFields | 03_ss_to_json.py:23-34 | the pass never changes `event_name`, `source_image` or `seats_status` |
| Extractor.LineStatus | 03_ss_to_json.py:111-121 | a line's status is `Available`, `Fast Filling` or `Sold Out`, with the keywords tried in that order |
| Extractor.FirstStatusNone | 03_ss_to_json.py:109-122 | no status is found exactly when no line holds a status keyword |
| Extractor.FirstStatusAt | 03_ss_to_json.py:109-122 | the first line with a keyword decides the status |
| Extractor.ScanSeats | 03_ss_to_json.py:109-122 | the scan gives the status of the first line with a keyword when the status is unset, and changes nothing otherwise |
| Extractor.FirstStatusIn | 03_ss_to_json.py:111-121 | a found status is `Available`, `Fast Filling` or `Sold Out` |
| Extractor.CleanAge | 03_ss_to_json.py:125-130 | the age limit becomes its leftmost age match with every space deleted, or unset when there is no match; a kept value starts with a digit and holds no space |
| Extractor.FirstDigit | 03_ss_to_json.py:133 | the position of the first digit; nothing before it is a digit |
| Extractor.CleanDuration | 03_ss_to_json.py:132-133 | a duration holding a digit starts with a digit once its non-digit prefix is removed |
| Extractor.Cleaned | 03_ss_to_json.py:124-139 | the cleanup touches only age limit, duration, language and price; a kept age limit starts with a digit and has no space |
| Extractor.Fill | 03_ss_to_json.py:141-143 | an empty or missing value becomes `"-"`, any other value is kept |
| Extractor.Filled | 03_ss_to_json.py:141-143 | every key gets `Fill` of its value |
| Extractor.AllKeysComplete | 03_ss_to_json.py:22-35 | the key list of the sentinel loop covers every field |
| Extractor.FillSentinels | 03_ss_to_json.py:141-143 | after the loop no field is missing or empty, and each field is `Fill` of its old value |
| Extractor.ExtractEventDetails | 03_ss_to_json.py:8-153 | the function computes `Extract` (an error record when OCR raised), and a record built without error has no missing or empty field |
| Extractor.CleanVenueShape | 03_ss_to_json.py:86 | a cleaned venue has no `<digit`, no leading blank and no trailing `,;:-` |
| Extractor.CleanVenueIdempotent | 03_ss_to_json.py:86 | cleaning twice equals cleaning once when the first result does not end in a blank |
| Extractor.CleanVenueNotIdempotent | 03_ss_to_json.py:85-86 | `"w ,"` cleans to `"w "` and then to `"w"`, so a second cleanup can change the venue |
| Extractor.LanguageNameSurvives | 03_ss_to_json.py:136 | removing `By` and stripping keeps each language name that the line holds |
| Extractor.CleanLanguageKeepsName | 03_ss_to_json.py:136 | a cleaned language value still names a language |
| Extractor.PlausiblePriceEnds | 03_ss_to_json.py:105 | a stored price starts with a digit and does not end in a blank |
| Extractor.CleanPricePrefixes | 03_ss_to_json.py:138-139 | a stored price gains the `"₹ "` prefix |
| Extractor.FinishedFileFields | 03_ss_to_json.py:23-34 | the final record's `event_name` and `source_image` come from the file name, and `seats_status` is one of the three statuses or `"-"` |
| Extractor.FinishedDates | 03_ss_to_json.py:47-50 | a final end date other than `"-"` comes with a start date, and both end in a year |
| Extractor.FinishedDuration | 03_ss_to_json.py:132-133 | a final duration is `"-"` or starts with a digit |
| Extractor.FinishedAge | 03_ss_to_json.py:125-130 | a final age limit is `"-"`, or `CleanAge` of the stored age line, which starts with a digit and holds no space |
| Extractor.FinishedLanguage | 03_ss_to_json.py:135-136 | a final language is `"-"`, or the stored language line with every `By` removed and then stripped |
| Extractor.FinishedPrice | 03_ss_to_json.py:138-139 | a final price is `"-"` or `"₹ "` followed by a plausible price |
| Extractor.FinishedVenue | 03_ss_to_json.py:77 | a final venue other than `"-"` comes with a language that names a language |
| Extractor.ExtractedRecord | 03_ss_to_json.py:8-145 | all of the above, the cleaned language included, for the record built from any OCR text |
| Extractor.EmptyTextGivesSentinels | 03_ss_to_json.py:141-143 | empty OCR text gives `"-"` for every field except `event_name` and `source_image` |
| Batch.PngFiles | 03_ss_to_json.py:160 | the kept names are exactly the listing entries whose lower-cased name ends in `.png` |
| Batch.PngFilesCount | 03_ss_to_json.py:160 | the filter keeps each `.png` entry exactly as often as the listing holds it, and drops every other entry |
| Batch.PngFilesAppend | 03_ss_to_json.py:160 | the filter keeps listing order: filtering two listings one after the other is filtering each |
| Batch.BeforeUnderscore | 03_ss_to_json.py:161 | `split('_')[0]` is the prefix before the first underscore |
| Batch.PrefixKeyNonNumeric | 03_ss_to_json.py:161 | a name that does not start with a digit sorts with key 0 |
| Batch.PrefixKeyOfDigits | 03_ss_to_json.py:161 | a digit run before the first `_` sorts by its value |
| Batch.SortByPermutes | 03_ss_to_json.py:159-162 | sorting keeps exactly the same files |
| Batch.SortBySorted | 03_ss_to_json.py:159-162 | the files come out in non-decreasing key order |
| Batch.SortByStable | 03_ss_to_json.py:159-162 | files with equal keys keep their listing order, as Python's sort is stable |
| Batch.RecordsOf | 03_ss_to_json.py:170-175 | one record per file |
| Batch.ProcessScreenshotsFolder | 03_ss_to_json.py:155-177 | the loop yields one record per `.png` file of the listing, visited in sort order |
| Batch.RecordOfFile | 03_ss_to_json.py:147-153 | a record names its file and its file's stem, and is degraded exactly when OCR raised |
| Batch.RecordsPerFile | 03_ss_to_json.py:155-177 | exactly one record per `.png` entry of the listing (each as often as the listing holds it), in key order, with equal keys in listing order; each record's image and name come from its own file, and a failure yields a degraded record while the run goes on |
| Fetcher.CheckEventStatusIff | 01_url_fetcher.py:57-62 | `is_fast_filling` holds exactly when the lower-cased text contains one of its four phrases; `is_sold_out` holds exactly when it contains one of its three |
| Fetcher.Kept | 01_url_fetcher.py:172-179 | the kept cards are no more than the cards, and each has a title |
| Fetcher.FilterCard | 01_url_fetcher.py:173-202 | one iteration of the card loop extends the kept cards, the events and the seen URLs consistently |
| Fetcher.FilterCards | 01_url_fetcher.py:172-202 | the card loop yields the events of the kept cards |
| Fetcher.BuildEvent | 01_url_fetcher.py:181-200 | the event of a card: stripped texts, its URL, and the status flags when a status element exists |
| Fetcher.KeptDistinct | 01_url_fetcher.py:175-179 | kept cards have a URL other than `N/A`, and their URLs are pairwise distinct |
| Fetcher.KeptOrigins | 01_url_fetcher.py:172-202 | the kept cards appear in card order, and each is the first card with a title and its URL |
| Fetcher.KeptComplete | 01_url_fetcher.py:177-179 | the URL of every card with a title and a URL is among the kept URLs |
| Fetcher.EventsOfCards | 01_url_fetcher.py:181-183 | the `k`-th event is built from the `k`-th kept card and carries its URL |
| Fetcher.ScrapeDistinct | 01_url_fetcher.py:175-202 | the scraped events have pairwise distinct URLs |
| Fetcher.Index | 01_url_fetcher.py:242 | a built dict lists each of its keys exactly once |
| Fetcher.IndexFails | 01_url_fetcher.py:242 | building the dict fails (`KeyError`) exactly when some event has no URL |
| Fetcher.IndexKeys | 01_url_fetcher.py:242 | every event's URL is a key |
| Fetcher.IndexLastWins | 01_url_fetcher.py:242 | each key holds the last event with that URL |
| Fetcher.LoadEventsCases | 01_url_fetcher.py:238-247 | a missing or undecodable file loads as an empty dict; a decoded one fails exactly when some event has no URL, and otherwise holds every URL |
| Fetcher.Lookup | 01_url_fetcher.py:257-258 | the values of the given keys, in order |
| Fetcher.Gone | 01_url_fetcher.py:258 | the old URLs that are not new URLs |
| Fetcher.CompareCounts | 01_url_fetcher.py:256-265 | `stats.added == stats.total_new == len(added)`, `stats.removed == len(removed)`, and `total_old` counts the old events |
| Fetcher.CompareRemoved | 01_url_fetcher.py:258 | `removed` is exactly the old events whose URL is missing from the new file |
| Fetcher.CompareAdded | 01_url_fetcher.py:257 | `added` is every new event, seen before or not |
| Fetcher.AddedEntryLines | 01_url_fetcher.py:278-283 | the lines appended for one added event |
| Fetcher.AppendAdded | 01_url_fetcher.py:277-283 | the added-events loop appends the entries of all added events, in order |
| Fetcher.AppendRemoved | 01_url_fetcher.py:286-288 | the removed-events loop appends a name line and a URL line per removed event |
| Fetcher.SummaryEntryLines | 01_url_fetcher.py:293-302 | the lines appended for one summary entry |
| Fetcher.AppendSummary | 01_url_fetcher.py:292-302 | the summary loop appends the numbered entries, in order |
| Fetcher.GenerateReportContent | 01_url_fetcher.py:267-304 | the report is the newline-join of header, added entries, removed title, removed entries and summary |
| Fetcher.AddedEntryFlags | 01_url_fetcher.py:278-283 | an added entry is `- <name>` followed by `  URL: <url>`, and carries a flag line exactly for each flag that is set |
| Fetcher.SummaryEntryFlags | 01_url_fetcher.py:299-302 | a summary entry carries a status line exactly for each flag that is set |
| Fetcher.EntriesOpeners | 01_url_fetcher.py:292-293 | the summary entries open with the headings `\n1. <name>`, `\n2. <name>`, … in event order |
| Fetcher.SummaryOpeners | 01_url_fetcher.py:290-293 | the summary block exists exactly when some event was added, and holds the first at most ten added events, numbered from 1 |
| Capture.FindFromSpec | 02_url_to_ss.py:114-115 | `find` returns the first occurrence at or after the start, or -1 when there is none |
| Capture.BetweenParts | 02_url_to_ss.py:114-115 | a found section lies between the first header, the first `):` after it and the first `Removed events` after that |
| Capture.BetweenOf | 02_url_to_ss.py:114-115 | conversely, those three first occurrences give the section |
| Capture.BetweenShape | 02_url_to_ss.py:114-115 | the section holds no `Removed events` and is followed by it in the report |
| Capture.NonSpaceEnd | 02_url_to_ss.py:121 | `[^\s]+` takes the longest run of non-blanks |
| Capture.UrlAt | 02_url_to_ss.py:121 | a URL match lies after its `URL:` tag and is non-empty |
| Capture.UrlsShape | 02_url_to_ss.py:121 | every URL found starts with `https://`, is longer than that prefix and holds no whitespace |
| Capture.NameAt | 02_url_to_ss.py:122 | a name match lies after its `- ` marker and ends before the end of the whole match |
| Capture.NamesShape | 02_url_to_ss.py:122 | no name found holds a newline |
| Capture.DropUnsafe | 02_url_to_ss.py:130 | the characters `\ / * ? : " < > \|` are removed and all others kept in order |
| Capture.DropUnsafeSafe | 02_url_to_ss.py:130 | a name without unsafe characters is unchanged |
| Capture.Sanitize | 02_url_to_ss.py:130 | the clean name holds exactly the stripped name's safe characters, so none of the unsafe ones |
| Capture.Pad2 | 02_url_to_ss.py:131 | `f"{i:02d}"` has at least two digits |
| Capture.Pad2Value | 02_url_to_ss.py:131 | the padded index reads back as the index |
| Capture.ShotName | 02_url_to_ss.py:131 | every screenshot name ends in `.png` |
| Capture.PlanStops | 02_url_to_ss.py:114-126 | the script returns before any capture exactly when the report is missing, the section is missing, or the section holds no URL |
| Capture.PlanPairs | 02_url_to_ss.py:121-129 | otherwise the jobs pair the section's names and URLs, and every URL is an https URL |
| Capture.JobsPairs | 02_url_to_ss.py:129-131 | there are min(#names, #URLs) pairs; pair `k` takes the `k`-th URL and writes `NN_<clean name>.png` numbered `k + 1`, with no unsafe character in the name |
| Capture.ProcessWithRetry | 02_url_to_ss.py:86-96 | at most `max_attempts` attempts; it stops at the first success and returns True exactly when some attempt succeeds, and every earlier attempt failed |
| Capture.CaptureAll | 02_url_to_ss.py:128-146 | one outcome per pair, each that of three retried attempts; `success_count` counts the successes and never exceeds the number of pairs |
| Capture.ProcessEventUrls | 02_url_to_ss.py:98-146 | captures run exactly when the plan has jobs; the outcomes and `success_count` are those of the capture loop |
| RoundTrip.UrlMatch | 02_url_to_ss.py:121 | the URL pattern reads the URL of an `  URL: <url>` line that the report wrote |
| RoundTrip.NameMatch | 02_url_to_ss.py:122 | the name pattern reads the name of a `- <name>` line followed by a URL line |
| RoundTrip.UrlsBlock | 02_url_to_ss.py:121 | one added-event block of the report yields exactly its URL |
| RoundTrip.NamesBlock | 02_url_to_ss.py:122 | one added-event block of the report yields exactly its name |
| RoundTrip.ScanBlocks | 02_url_to_ss.py:121-122 | scanning the blocks of the added events yields their URLs and their names, in order |
| RoundTrip.NoEndInBlocks | 02_url_to_ss.py:114 | the blocks never contain `Removed events`, so the section cannot end early |
| RoundTrip.LinedEntry | 01_url_fetcher.py:278-283 | the joined lines of one added event are its block of text |
| RoundTrip.LinedAdded | 01_url_fetcher.py:277-283 | the joined lines of all added events are their blocks, in order |
| RoundTrip.ReportText | 01_url_fetcher.py:271-304 | the report text is the header, then the added blocks, then the `Removed events` title, then the rest |
| RoundTrip.SectionIn | 02_url_to_ss.py:114-115 | the section pattern, applied to a text laid out as the report is, yields the added blocks and a blank line |
| RoundTrip.SectionReadBack | 02_url_to_ss.py:108-115 | a text laid out as a report, with no carriage return before the `Removed events` title, reads back unchanged up to that title in text mode, so its section is the added blocks |
| RoundTrip.ReportSection | 02_url_to_ss.py:108-115 | the section of any report, read back in text mode, is the blocks of its added events, when their names and URLs can be read back |
| RoundTrip.ReportRoundTrip | 02_url_to_ss.py:108-122 | parsing any report read back in text mode yields the added events' URLs and names, in order, when every URL is an https URL without whitespace and no name holds a newline, a carriage return, `URL:` or `Removed events` |
| RoundTrip.PlanOfEvents | 02_url_to_ss.py:121-131 | a section that reads back events `es` plans one job per event, numbered from 1, or none when `es` is empty |
| RoundTrip.ReportPlan | 02_url_to_ss.py:108-131 | the capture plan of any report read back in text mode: nothing when no event was added, otherwise one screenshot per added event, in order |
| RoundTrip.ShotNameKey | 03_ss_to_json.py:161 | the sort key of the file written for pair `i` is `i` |
| RoundTrip.PngName | 03_ss_to_json.py:160 | a screenshot name passes the `.png` filter |
| RoundTrip.SortedUnique | 03_ss_to_json.py:159-162 | a sorted permutation of a sequence whose keys rise strictly is that sequence |
| RoundTrip.ShotsKeyed | 03_ss_to_json.py:160-161 | every screenshot name of a capture run passes the `.png` filter and sorts with its pair number |
| RoundTrip.PresentCount | 03_ss_to_json.py:159-162 | of a run's screenshots, those a folder holds each occur exactly once in the kept subsequence |
| RoundTrip.PresentPermutes | 03_ss_to_json.py:159-162 | a listing holding some of a run's screenshots is a permutation of those screenshots taken in capture order |
| RoundTrip.PresentRising | 03_ss_to_json.py:159-162 | the screenshots a folder holds, taken in capture order, still have strictly rising sort keys |
| RoundTrip.ShotsInOrder | 03_ss_to_json.py:159-162 | whatever the listing order, a folder holding any of the screenshots of one capture run (a failed capture leaves no file) is visited in the order they were taken; when every capture succeeded, that is the whole run |

## Left out

- **OCR and images.** `Image.open`, the crop and `pytesseract.image_to_string` (03_ss_to_json.py:11-20) are foreign calls. Their outcome is an input: the recognised text, or the message of a raised exception.
- **Browser automation.** The Playwright sessions, scrolling, popups and screenshots (01_url_fetcher.py:67-221; 02_url_to_ss.py:8-84) are not modelled.
- **Card reads.** A card is the text of the elements found on it. The exceptions inside the card loop (01_url_fetcher.py:203-205) are not modelled.
- **Screenshot attempts.** One screenshot attempt is the input `succeeds(i, k)`.
- Capture.ProcessWithRetry: every attempt is modelled as returning True or False, but an attempt can also raise. If the browser launch at 02_url_to_ss.py:18 raises, the `finally` at 02_url_to_ss.py:83-84 closes an unbound `browser`. The resulting `UnboundLocalError` escapes `process_with_retry`, which has no `try`, so "True exactly when some attempt succeeds" holds only for attempts that return.
- Capture.CaptureAll: "one outcome per pair" and the final success count hold only when no attempt raises. A raising attempt ends the whole run (the loop at 02_url_to_ss.py:128-146 has no `try`), with no further retry or count.
- **Asynchrony and delays.** `async`/`await`, the random retry and pacing delays and the sleeps are left out. The retry loop runs sequentially.
- **Files and folders.** Files and directory listings are inputs:
  - a report is `Option<string>` (`None` when the file is missing), holding the text a text-mode read returns; `Text.UniversalNewlines` models that read, which turns `\r\n` and a lone `\r` into `\n`;
  - an event file is `Missing`, `Undecodable` (not valid JSON) or its events;
  - a folder is its listing.

  A file that is not valid UTF-8 raises `UnicodeDecodeError`, which neither script catches (01_url_fetcher.py:239-247; 02_url_to_ss.py:107-112), so it ends the run. The model does not represent that case. Writing JSON, events and reports, the screenshot folder cleanup (02_url_to_ss.py:99-105) and printing are left out.
- **Clock.** The wall-clock fields `timestamp` and `scraped_at` (01_url_fetcher.py:184-185) are left out, and so are the date helpers. The comparison time on 01_url_fetcher.py:274 is the parameter `now`. The round-trip lemmas require that `now` holds no `(` and no carriage return, which the `%Y-%m-%d %H:%M:%S` format never produces.
- **Other scripts.** `04_json_to_excel.py`, `05_upload_to_sheets.py` and `master_script.py` are not part of this model.
- RoundTrip.ReportRoundTrip: does not cover an added event whose name holds a carriage return. The report is read back in text mode (02_url_to_ss.py:108), which turns that `\r` into a line break, so the name line is cut short and the event is not read back as written.
- RoundTrip.ReportSection: the same hypothesis, no carriage return in any added name, for the same reason.
- RoundTrip.ReportPlan: the same hypothesis, no carriage return in any added name, for the same reason.
- Fetcher.CompareRemoved: states which events are removed but not their order. The order of `removed` follows Python's set iteration order, which depends on string hashing. The model lists them in the old file's key order.
- **Non-ASCII characters.** `lower()` is modelled on ASCII letters only; every keyword the scripts test is ASCII. `\d`, `str.isdigit` and `int(...)` are modelled on ASCII digits, and `\b` on ASCII letters, digits and `_`. Python also accepts other Unicode digits and letters there. Some characters pass `isdigit()` but not `int()`, such as the superscript `²`: a `.png` file whose name starts with one makes the sort key at 03_ss_to_json.py:161 raise `ValueError`, which ends `process_screenshots_folder`. The model does not represent that crash; its sort key treats every non-ASCII character as a non-digit. `\s` and `strip()` use Python's full whitespace set.
- **JSON values.** A loaded event's fields are strings or booleans, or absent. JSON values of other types, and the truthiness of non-boolean flags, are not modelled.
- **Exceptions.** A raised exception becomes a `Failure` or an error record that carries its message. The exception class and the exact text are not modelled beyond that.
- **Paths.** `Path(dir) / name` joins with `/`, as on POSIX. `Path.stem` follows the rule in `Extractor.Stem`.
