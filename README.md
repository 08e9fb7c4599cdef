# art-exhibits, modelled in Dafny

art-exhibits collects current gallery exhibitions and keeps them in a JSON
cache. It merges a hand-entered list into that cache and mirrors the
exhibitions into a Google Calendar as all-day events. This project models the
logic of that pipeline and proves properties of it:

- `Exhibitions` (`exhibitions.dfy`): the eleven-field `Exhibition` record, its
  `to_dict`/`from_dict` round trip, and the title-and-gallery key, compared
  without letter case. Deduplication keeps the first exhibition with each key.
  The cache file is a class whose `Save` overwrites it. `GetExhibitions` is the
  dedup loop of `get_exhibitions`, which writes the cache only when something
  is left.
- `DateRangeParser` (`date_range.dfy`): `parse_date_range`. Each of its three
  regular expressions is matched by hand with Python's leftmost, greedy,
  backtracking semantics. The month table is scanned in dictionary order. The
  locals `start_date`/`end_date` survive from one pattern to the next, as they
  do in Python. `DateRangeExamples` (`date_range_examples.dfy`) evaluates the
  parser on concrete inputs.
- `Dates` (`dates.dfy`): proleptic Gregorian dates in `datetime`'s range. It
  gives day numbers (`toordinal`), the day after a date (`+ timedelta(days=1)`),
  and the `%Y-%m-%d` spelling with `fromisoformat` for it, proved to be inverses.
- `CalendarSync` (`calendar_sync.dfy`): the event body built for an
  exhibition, and the calendar service as a class. The service holds a map from
  event id to event, a counter for fresh ids and a log of requests. Each list,
  insert or delete may be refused (`HttpError`). The module also holds the
  summary-keyed index of listed events, the create-or-skip sync loop, the
  best-effort cleanup loop, and the day windows they list.
- `ManualExhibitions` (`manual_exhibitions.dfy`): the ten hand-entered
  exhibitions, verbatim. `add_manual_exhibitions` appends each one whose key is
  not cached yet, then saves the list.
- `Text` (`text.dfy`) and `Wrappers` (`wrappers.dfy`): ASCII character classes,
  `str.lower()`, substring search, `int()` and zero-padded formatting;
  `Option` and `Result`.

## Model

| member | source | states |
|---|---|---|
| Exhibitions.ToDict | art-exhibits/fetch_exhibitions.py:43-44 | the dictionary's keys are exactly the eleven field names, and it holds the title and gallery under their own names |
| Exhibitions.FromDict | art-exhibits/fetch_exhibitions.py:46-48 | construction succeeds exactly when the keys are the eleven field names; a key that is not a field is an unexpected-keyword error; otherwise a proper subset of the fields is a missing-argument error |
| Exhibitions.FromDictOfToDict | art-exhibits/fetch_exhibitions.py:43-48 | `from_dict(e.to_dict()) == e` for every record |
| Exhibitions.ToDictOfFromDict | art-exhibits/fetch_exhibitions.py:43-48 | every dictionary `from_dict` accepts is the `to_dict` of the record it builds |
| Exhibitions.KeyIgnoresCase | art-exhibits/fetch_exhibitions.py:265 | records that differ only in the letter case of title and gallery have the same key |
| Exhibitions.AddIfNewKeys | art-exhibits/fetch_exhibitions.py:264-268 | one dedup step adds the element's key to the key set and keeps keys pairwise distinct |
| Exhibitions.FirstOccurrences | art-exhibits/fetch_exhibitions.py:261-268 | the deduplicated list has pairwise distinct keys, the same key set as the input, and is no longer than the input |
| Exhibitions.FirstOccurrencesEmpty | art-exhibits/fetch_exhibitions.py:261-268 | the deduplicated list is empty exactly when the fetched list is |
| Exhibitions.FirstOccurrencesIsSubsequence | art-exhibits/fetch_exhibitions.py:261-268 | the deduplicated list keeps fetched elements in fetched order |
| Exhibitions.FirstOccurrencesKeepsFirst | art-exhibits/fetch_exhibitions.py:261-268 | every kept element is the first fetched element with its key |
| Exhibitions.DistinctIsFixed | art-exhibits/fetch_exhibitions.py:261-268 | a list whose keys are already distinct is left unchanged |
| Exhibitions.FirstOccurrencesIdempotent | art-exhibits/fetch_exhibitions.py:261-268 | deduplicating twice is deduplicating once |
| Exhibitions.FirstOccurrencesOfKnownSuffix | art-exhibits/fetch_exhibitions.py:261-268 | appending exhibitions whose keys were all seen already does not change the deduplicated list |
| Exhibitions.FirstOccurrencesOfDoubled | art-exhibits/fetch_exhibitions.py:261-268 | the same list fetched twice deduplicates to the list deduplicated once |
| Exhibitions.ToDicts | art-exhibits/fetch_exhibitions.py:237 | the saved list holds one dictionary per exhibition, in order |
| Exhibitions.FromDicts | art-exhibits/fetch_exhibitions.py:226 | loading succeeds exactly when every saved dictionary is accepted, and then gives one record per dictionary |
| Exhibitions.FromDictsOfToDicts | art-exhibits/fetch_exhibitions.py:220-237 | loading the dictionaries a save wrote gives back the saved list |
| Exhibitions.CacheStore.Load | art-exhibits/fetch_exhibitions.py:220-229 | a missing file or a record that fails to load gives `[]`; otherwise the loaded records |
| Exhibitions.CacheStore.Save | art-exhibits/fetch_exhibitions.py:232-239 | the file holds the list's dictionaries, and loading it gives back the list |
| Exhibitions.GetExhibitions | art-exhibits/fetch_exhibitions.py:261-276 | the result is the first-occurrence deduplication of the fetched list; the cache is overwritten with it when it is non-empty and left alone when it is empty |
| Text.LowerIdempotent | art-exhibits/fetch_exhibitions.py:140 | lower-casing twice is lower-casing once |
| Text.ContainsFromMeansOccurs | art-exhibits/fetch_exhibitions.py:154 | the substring test succeeds exactly when the name occurs at some position |
| Text.ZeroPadValue | art-exhibits/fetch_exhibitions.py:156 | `int()` of the zero-padded spelling of `n` is `n` |
| DateRangeParser.RunEndIsMaximal | art-exhibits/fetch_exhibitions.py:125-129 | a greedy `\w+`, `\d+` or `\s*` run stops exactly at the first character outside its class |
| DateRangeParser.LastFourDigitsBelow | art-exhibits/fetch_exhibitions.py:125-127 | backtracking finds the last position below the run's end where `\d{4}` matches, or reports that there is none |
| DateRangeParser.GroupThenYear | art-exhibits/fetch_exhibitions.py:125-127 | a matched group ends inside its greedy run and is followed by four digits that form the year |
| DateRangeParser.MatchAt | art-exhibits/fetch_exhibitions.py:123-130 | the first two patterns yield three groups, the last of them four digits; the third pattern yields four groups |
| DateRangeParser.Search | art-exhibits/fetch_exhibitions.py:143 | `re.search` reports the leftmost match position and that match's groups, and no match where none exists |
| DateRangeParser.SearchFindsFirst | art-exhibits/fetch_exhibitions.py:143 | a match at `i` with none before it is what the search reports |
| DateRangeParser.FirstMonthEntry | art-exhibits/fetch_exhibitions.py:153-157 | the month loop stops at the first table entry, in dictionary order, whose name occurs in the side, and finds none when no name occurs |
| DateRangeParser.MonthOf | art-exhibits/fetch_exhibitions.py:132-138 | a month is found exactly when some month name occurs in the side, and it lies in 1..12 |
| DateRangeParser.FirstDigitRun | art-exhibits/fetch_exhibitions.py:155 | the day text is a non-empty run of digits |
| DateRangeParser.ParseIsCaseInsensitive | art-exhibits/fetch_exhibitions.py:140 | the parse of a string equals the parse of its lower-cased form |
| DateRangeParser.ParsedDatesPlausible | art-exhibits/fetch_exhibitions.py:142-172 | every returned date has a month in 1..12 and a year below 10000; days are not checked |
| DateRangeParser.FullDatesNeverReturns | art-exhibits/fetch_exhibitions.py:129-147 | the four-group third pattern never reaches the `len(groups) == 3` branch, so it never yields a range |
| DateRangeParser.NoThreeGroupMatchNoRange | art-exhibits/fetch_exhibitions.py:142-172 | when neither of the first two patterns matches the lower-cased text, both parsers return no range |
| DateRangeParser.MatchNeedsDash | art-exhibits/fetch_exhibitions.py:125-127 | a match of either three-group pattern contains a hyphen or an en dash |
| DateRangeParser.NoDashNoRange | art-exhibits/fetch_exhibitions.py:123-172 | text without a hyphen or an en dash gives no range |
| DateRangeParser.FormatYmdIsIso | art-exhibits/fetch_exhibitions.py:156-163 | with a year of four or more digits the formatted date is the ISO spelling: ten characters with dashes at 4 and 7 below year 10000, read back by `fromisoformat` whenever it is a real day |
| DateRangeParser.RangeOfFields | art-exhibits/fetch_exhibitions.py:153-166 | the returned strings are the formatted start and end dates |
| DateRangeParser.FieldsOfLowered | art-exhibits/fetch_exhibitions.py:140-143 | only the lower-cased text reaches the patterns |
| DateRangeParser.FreshAgreesWithAsWritten | art-exhibits/fetch_exhibitions.py:142-170 | whenever the parser with fresh bindings finds a range, the parser as written returns the same range |
| DateRangeParser.FreshRangeSingleYear | art-exhibits/fetch_exhibitions.py:147-166 | with fresh bindings per pattern, both dates carry the one captured year |
| DateRangeExamples.ExampleMonthFirst | art-exhibits/fetch_exhibitions.py:124-125 | "January 15 - April 4, 2026" parses to 2026-01-15 and 2026-04-04 |
| DateRangeExamples.ExampleDayFirst | art-exhibits/fetch_exhibitions.py:126-127 | "15 Jan - 4 Apr 2026" parses to 2026-01-15 and 2026-04-04 |
| DateRangeExamples.ExampleDayNotValidated | art-exhibits/fetch_exhibitions.py:155-156 | "February 31 - March 2, 2026" parses to 2026-02-31: the day is not checked against the month |
| DateRangeExamples.StaleBindingCounterexample | art-exhibits/fetch_exhibitions.py:153-166 | an input whose first pattern fails after binding `end_date` returns an end date from another match, earlier than the start date; the fresh-binding parser returns nothing for it |
| DateRangeExamples.ExampleFullDatesUnparsed | art-exhibits/fetch_exhibitions.py:128-129 | "Jan 15, 2026 - Apr 4, 2026", the third pattern's own example, gives no range |
| DateRangeExamples.ExampleNotADate | art-exhibits/fetch_exhibitions.py:172 | "not a date" gives no range |
| DateRangeExamples.ExampleShortYear | art-exhibits/fetch_exhibitions.py:150-156 | year 999, from a year group "0999", is written with three digits, which `fromisoformat` refuses |
| DateRangeExamples.ExampleLongDay | art-exhibits/fetch_exhibitions.py:155-156 | a three-digit day run such as 123 is written with three digits, which `fromisoformat` refuses |
| Dates.DaysInMonth | art-exhibits/calendar_sync.py:129 | month lengths are 28 to 31 days, with 29 exactly for February of a leap year |
| Dates.MonthsFillYear | art-exhibits/calendar_sync.py:129 | the months of a year add up to its length |
| Dates.YearFollows | art-exhibits/calendar_sync.py:129 | each year's day numbers start where the previous year's end |
| Dates.NextDay | art-exhibits/calendar_sync.py:129 | the next day is a valid date, and there is none exactly after 9999-12-31, where Python raises `OverflowError` |
| Dates.NextDayIsOneLater | art-exhibits/calendar_sync.py:128-129 | the next day's day number is one more, across month and year ends |
| Dates.DayNumberMonotone | art-exhibits/calendar_sync.py:187-189 | calendar order and day-number order agree |
| Dates.LastDayIsMaxDate | art-exhibits/calendar_sync.py:189 | 9999-12-31, the last date `datetime` represents, has day number 3652059 |
| Dates.DayNumberInRange | art-exhibits/calendar_sync.py:189 | every representable date has a day number from 1 to that of 9999-12-31 |
| Dates.ParseIso | art-exhibits/calendar_sync.py:129 | every date `fromisoformat` accepts is a valid date |
| Dates.ParseFormatRoundTrip | art-exhibits/calendar_sync.py:129-140 | parsing the `%Y-%m-%d` spelling of a valid date gives the date back |
| Dates.FormatParseRoundTrip | art-exhibits/calendar_sync.py:129-140 | formatting an accepted string gives back that string, so only the canonical spelling is accepted |
| CalendarSync.DisplayTitleSameArtist | art-exhibits/calendar_sync.py:152-157 | for one artist, two display titles are equal exactly when the titles are |
| CalendarSync.DisplayTitleCollides | art-exhibits/calendar_sync.py:152-157 | across artists the display title is not a key: an artist name containing ": " collides with another pair |
| CalendarSync.CreateEventBody | art-exhibits/calendar_sync.py:109-144 | a malformed end date raises `ValueError` and 9999-12-31 raises `OverflowError`; otherwise the summary is the display title and the start date is the exhibition's own start date |
| CalendarSync.EventEndIsNextDay | art-exhibits/calendar_sync.py:128-142 | the body's end date parses, and its day number is one more than the exhibition's last day |
| CalendarSync.EventBodyExists | art-exhibits/calendar_sync.py:109-144 | every accepted end date before 9999-12-31 gives a body |
| CalendarSync.EndAfter20260228 | art-exhibits/calendar_sync.py:128-140 | an exhibition ending 2026-02-28 gets an end date of 2026-03-01 |
| CalendarSync.EndAfter20261231 | art-exhibits/calendar_sync.py:128-140 | an exhibition ending 2026-12-31 gets an end date of 2027-01-01 |
| CalendarSync.EndAfter20280228 | art-exhibits/calendar_sync.py:128-140 | an exhibition ending 2028-02-28, in a leap year, gets an end date of 2028-02-29 |
| CalendarSync.SyncWindow | art-exhibits/calendar_sync.py:187-189 | the sync window contains today and spans 365 days |
| CalendarSync.CleanupWindow | art-exhibits/calendar_sync.py:211-213 | the cleanup window ends at the cutoff `days_past` days ago and spans 365 days |
| CalendarSync.CleanupSparesToday | art-exhibits/calendar_sync.py:211-213 | with at least one day past, today is outside the cleanup window |
| CalendarSync.CleanupBeforeSync | art-exhibits/calendar_sync.py:187-211 | with no negative days past, the cleanup and sync windows share no day |
| CalendarSync.CleanupTargetsStartBeforeCutoff | art-exhibits/calendar_sync.py:209-213 | an event the cleanup window lists began before the cutoff, so never today when `days_past >= 1` |
| CalendarSync.CalendarService.ListEvents | art-exhibits/calendar_sync.py:91-99 | the listing leaves the events unchanged and logs the request; it is refused with `HttpError`, or returns at most 100 distinct stored events that overlap the window |
| CalendarSync.CalendarService.Insert | art-exhibits/calendar_sync.py:162-165 | the insert is logged; it stores the body under a fresh id, or is refused with `HttpError` and changes nothing |
| CalendarSync.CalendarService.Delete | art-exhibits/calendar_sync.py:217-220 | the delete is logged; on success the stored event with that id is removed, otherwise nothing changes |
| CalendarSync.IndexBySummaryKeys | art-exhibits/calendar_sync.py:101-102 | the index's keys are exactly the summaries of the listed events |
| CalendarSync.IndexBySummaryLastWins | art-exhibits/calendar_sync.py:102 | under each summary the index holds the last listed event with that summary |
| CalendarSync.IndexedAreListed | art-exhibits/calendar_sync.py:102 | every indexed event is one of the listed events |
| CalendarSync.GetExistingEvents | art-exhibits/calendar_sync.py:86-106 | one list request is sent and no event changes; a refusal gives the empty map, an answer (a possible listing of the calendar as it was) gives that answer indexed by summary |
| CalendarSync.InsertRequestsCount | art-exhibits/calendar_sync.py:155-201 | one insert is sent per exhibition whose display title was not listed, counted per exhibition |
| CalendarSync.SameTitleInsertedTwice | art-exhibits/calendar_sync.py:191-201 | two exhibitions sharing a new display title both get an insert, because the map is not updated during the sync |
| CalendarSync.SyncExhibition | art-exhibits/calendar_sync.py:147-172 | a listed display title gives `False` and sends nothing; a body error propagates and sends nothing; otherwise one insert is sent, and the result is `True` exactly when it stored a new event, which is then the exhibition's body under the fresh id, every other event staying as it was |
| CalendarSync.SyncStep | art-exhibits/calendar_sync.py:197-201 | one loop turn carries the counters, the request log and the calendar's contents forward, or stops with the body error of that exhibition |
| CalendarSync.SyncTracking | art-exhibits/calendar_sync.py:198 | syncing one exhibition keeps every earlier event unchanged, and any event it adds holds that exhibition's body; on a body error every new event so far came from an earlier exhibition |
| CalendarSync.NewEventsStep | art-exhibits/calendar_sync.py:197-201 | after one more exhibition the earlier events are kept and every new event was created for one of the exhibitions synced so far |
| CalendarSync.NewEventsFromGrows | art-exhibits/calendar_sync.py:197-201 | events created for the first exhibitions were created for the whole list |
| CalendarSync.SyncEach | art-exhibits/calendar_sync.py:194-204 | the loop completes exactly when every exhibition is present or has a body; the two counts add up to the number of exhibitions; skipped counts at least the present ones; the calendar grows by the created count; the log holds one insert per exhibition not present; otherwise it stops at the first failing exhibition with its error; either way every stored event is kept unchanged, and every new event holds the body of an exhibition whose display title was not listed |
| CalendarSync.SyncAllExhibitions | art-exhibits/calendar_sync.py:175-204 | a window past 9999-12-31 raises `OverflowError` before any request; otherwise one listing of the sync window, whose answer (or the empty map on a refusal) is the map every exhibition is checked against, then the loop with the results of `SyncEach` |
| CalendarSync.TargetsAreListed | art-exhibits/calendar_sync.py:213-216 | every id the cleanup visits is a stored event that overlaps the listed window |
| CalendarSync.DeleteStep | art-exhibits/calendar_sync.py:216-225 | one delete is sent, and the count grows by one exactly when the event was removed |
| CalendarSync.DeleteEach | art-exhibits/calendar_sync.py:215-225 | one delete is sent per indexed event; the removed ids are among them; the count is the number of removed events; nothing else changes |
| CalendarSync.DeletePastEvents | art-exhibits/calendar_sync.py:207-230 | `days_past` defaults to 30; a `timedelta` beyond 999999999 days or a window outside 0001-01-01..9999-12-31 raises `OverflowError` before any request; otherwise one listing of the cleanup window, whose answer (or the empty map on a refusal) is indexed by summary, then one delete per distinct listed summary; each removed event was stored and overlapped the window, the count is the number removed and at most the number of distinct summaries, and no new id is used |
| ManualExhibitions.LateAtNightEntry | art-exhibits/manual_exhibitions.py:24-36 | the first entry is keyed and runs from 2026-01-15 to 2026-04-04 |
| ManualExhibitions.FeedbackLoopEntry | art-exhibits/manual_exhibitions.py:37-49 | the second entry is keyed and runs from 2026-01-15 to 2026-02-28 |
| ManualExhibitions.GridsEntry | art-exhibits/manual_exhibitions.py:50-62 | the third entry is keyed and runs from 2026-01-15 to 2026-02-21 |
| ManualExhibitions.SoloExhibitionEntry | art-exhibits/manual_exhibitions.py:63-75 | the fourth entry is keyed, with its start and end dates |
| ManualExhibitions.DelayedGravityEntry | art-exhibits/manual_exhibitions.py:76-88 | the fifth entry is keyed, with its start and end dates |
| ManualExhibitions.AMomentInTimeEntry | art-exhibits/manual_exhibitions.py:89-101 | the sixth entry is keyed, with its start and end dates |
| ManualExhibitions.ThoughtInMaterialEntry | art-exhibits/manual_exhibitions.py:102-114 | the seventh entry is keyed, with its start and end dates |
| ManualExhibitions.WorksFromThe1960sEntry | art-exhibits/manual_exhibitions.py:115-127 | the eighth entry is keyed, with its start and end dates |
| ManualExhibitions.BetweenTheClockAndTheBedEntry | art-exhibits/manual_exhibitions.py:128-140 | the ninth entry is keyed, with its start and end dates |
| ManualExhibitions.GatheringWoolEntry | art-exhibits/manual_exhibitions.py:141-153 | the tenth entry is keyed, with its start and end dates |
| ManualExhibitions.SameKeySameFinals | art-exhibits/manual_exhibitions.py:168 | entries with equal keys end with the same lower-cased characters |
| ManualExhibitions.AppendApart | art-exhibits/manual_exhibitions.py:23-154 | appending an entry whose final characters are new keeps the keys distinct |
| ManualExhibitions.ManualFirstHalf | art-exhibits/manual_exhibitions.py:23-88 | the first five entries have distinct keys and ordered ISO dates |
| ManualExhibitions.ManualSecondHalf | art-exhibits/manual_exhibitions.py:89-154 | all ten entries have distinct keys and ordered ISO dates |
| ManualExhibitions.ManualExhibitionsList | art-exhibits/manual_exhibitions.py:23-154 | there are ten manual entries with pairwise distinct keys, each opening no later than it closes |
| ManualExhibitions.MergeOnlyAppends | art-exhibits/manual_exhibitions.py:162-172 | the cached list is kept unchanged as a prefix, and at most the additions are appended |
| ManualExhibitions.MergeKeySet | art-exhibits/manual_exhibitions.py:163-171 | the merged keys are the cached keys plus the added keys |
| ManualExhibitions.MergeKeepsDistinct | art-exhibits/manual_exhibitions.py:163-171 | a cache with distinct keys stays distinct after the merge |
| ManualExhibitions.MergeStep | art-exhibits/manual_exhibitions.py:168-172 | one turn appends the entry exactly when its key is new to the list built so far |
| ManualExhibitions.MergeOfKnownKeys | art-exhibits/manual_exhibitions.py:163-171 | when every added key is already cached, the merge changes nothing |
| ManualExhibitions.MergeIdempotent | art-exhibits/manual_exhibitions.py:159-179 | running the merge a second time adds nothing |
| ManualExhibitions.MergeIsFirstOccurrences | art-exhibits/manual_exhibitions.py:159-179 | on a cache with distinct keys, the merge equals the first-occurrence dedup of cache followed by additions |
| ManualExhibitions.MergeIntoEmpty | art-exhibits/manual_exhibitions.py:162-172 | into an empty cache, distinct additions are all added in order |
| ManualExhibitions.AddManualExhibitions | art-exhibits/manual_exhibitions.py:159-179 | the saved file holds the merge of the loaded cache with the ten entries; `added` is how far the list grew; an empty cache receives exactly the ten entries |

## Left out

- Network fetching is not modelled: the DuckDuckGo search, the GalleriesNow
  and gallery-website scrapers and their HTML parsing. `GetExhibitions` takes
  the combined fetched list as a parameter.
- OAuth credentials, building the calendar client, logging, `print`, directory
  creation, `argparse`, `main.py` and `config.py` are not modelled. The
  calendar id is implicit in the single `CalendarService` object.
- The clock is not modelled: `datetime.now()` becomes a `today` day number.
  Its time of day is dropped, so the windows' range checks look at dates only.
  The `%Y-%m-%dT00:00:00Z` bounds become half-open day windows `[lo, hi)`.
  Time zones are not modelled: the `America/New_York` zone is carried in each
  body but has no meaning in the model.
- Google Calendar's server side is abstracted. A listing is any at most 100
  distinct stored events overlapping the window, in no particular order.
  Paging, `singleEvents`, the `startTime` ordering and events created outside
  this program are not modelled.
- `CalendarSync.GetExistingEvents`: a listed event without a `summary` field
  raises `KeyError` in the source. The model gives every event a summary.
- Character handling is ASCII only: `\w`, `\d`, `\s` and `str.lower()` are
  not modelled for other Unicode letters, digits, spaces or case mappings.
- `Dates.ParseIso` accepts only the `YYYY-MM-DD` form. The other forms
  `datetime.fromisoformat` accepts (times, offsets, `YYYYMMDD`, week dates)
  are not modelled.
- `Dates.FormatIso` writes every year with four digits, zero-padded below
  1000. Whether `strftime('%Y')` pads such years depends on the Python
  version and the C library; the model fixes the padded form.
- JSON is modelled as records of string fields. Non-string values are not
  modelled: `from_dict` passes them to the constructor unchecked, so they load
  and fail only later, for example at `.lower()`. A file that is not a list of
  objects and invalid JSON stand for the `except` branch of
  `load_cached_exhibitions`, which yields `[]`.
- `ManualExhibitions.ManualExhibitionsList`: it does not state that the list
  equals the ten constants field by field. Each entry's contract exposes only
  its key's final characters and its dates, because a proof obligation
  mentioning all ten verbatim entries at once is too large for the verifier.
  The constants themselves are copied verbatim.
- `ManualExhibitions.SoloExhibitionEntry` and the other entry methods do not
  state the title, artist, gallery or URLs. Those are the verbatim constants
  the methods return.
- `ManualExhibitions.AddManualExhibitions`: the messages it prints are left
  out. `added` is the count it reports.
- `CalendarSync.DeletePastEvents`: a `days_past` that is not an integer is
  not modelled; the parameter is an `int`.
- `CalendarSync.SyncEach`: the skipped count is not stated exactly. It is the
  present exhibitions plus the inserts the service refused, and the
  nondeterministic service leaves the refused inserts open.

## Findings

| source | as written | input that shows it | evidently intended | confidence | as-written member | corrected member |
|---|---|---|---|---|---|---|
| art-exhibits/fetch_exhibitions.py:153-166 | `start_date`/`end_date` are locals of the function. A pattern that raises after binding one of them leaves it bound, and a later pattern that binds only the other returns the pair from two different matches. | `parse_date_range("x 1-apr 2 2026 3 may-4 x 2027")` gives `("2027-05-03", "2026-04-02")`: the start comes after the end and the years differ | each pattern starts with both dates unbound, so a result comes from one match and carries one year; this input yields `(None, None)` | not executed | DateRangeParser.ParseDateFields, DateRangeExamples.StaleBindingCounterexample | DateRangeParser.ParseDateFieldsFresh, DateRangeParser.FreshRangeSingleYear |
