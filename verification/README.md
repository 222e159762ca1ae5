# stock_backend decision rules in Dafny

`stock_backend.py` is a Flask backend for an Indian equities tracker. Most of it
fetches data from BSE and NSE (the two Indian exchanges) and reshapes it. This
project models the small, deterministic decision rules inside that code, with
every HTTP reply, clock reading and date-parser result passed in as a value.
It then proves what the code promises about them:

- **Temporal matcher** (`TemporalMatcher`): `best_year` and `best_quarter` of
  `deepdive_fetch`. They score candidate filings `{title, date}` against an
  Indian fiscal year (April to March, named after the year it ends in) or a
  `QnFYyy` quarter, then pick the first top-scoring candidate above a threshold.
- **Fiscal-quarter labelling** (`FiscalCalendar`): the rule mapping a filing
  month and year to (quarter, fiscal year), in the four places it is copied with
  four label formats.
- **Announcements** (`Announcements`): the `get_announcements` endpoint.
  - `parse_items`, including the BSE company check that evicts a wrong scrip code.
  - The per-symbol provider cascade driven by the `got` flag, with the NSE 48-hour window.
  - The newest-first sort with one record per (symbol, title[:50], date[:10]) key.
  - The stale-result cache `_ann_cache`, keyed by the set of symbols.
  - The 60-record response limit.
- **Concall lists** (`Concalls`): the URL-only de-duplication of the two concall
  endpoints, and the quarter relabelling "Q1 FY25" → "Q1 2025".
- **Filing lists** (`Filings`):
  - BSE document links, `bse_att_url` and its inlined copy: a news-id page first, else an attachment under AttachLive or AttachHis by age.
  - The NSE annual-report and keyword-filtered announcement lists.
  - The first-non-empty provider order per document category.
- **BSE scrip codes** (`ScripCodes`): the process-wide `_BSE_CODE_CACHE` and the
  six-strategy `resolve_bse_code` cascade, with write-back and eviction.
- **NSE session** (`NseSession`): the 300-second refresh rule of `get_nse_session`.
- **Proxies** (`Proxies`): `make_proxies`.

The code keeps some state in mutable globals: `_BSE_CODE_CACHE`, `_ann_cache`
and `_ann_cache_time`, `_nse_session` and `_nse_session_time`. Each becomes a
class whose methods update its fields. Each method is proved against a function
of the old state. The loops of the source (the scoring loops, the seen-set
de-duplications, the list builders, the per-symbol loop, the lookup cascade)
are methods with loop invariants. Each loop is proved equal to a reference
function, and the properties are proved about those functions. `Lists` holds
the generic pieces:

- a stable descending sort (Python's `list.sort(key=..., reverse=True)`);
- keep-first-per-key;
- filtering and mapping.

`Text` holds the string operations Python supplies: `lower`, `upper`, `in` on
strings, `strip`, `str(int)`, `[-2:]` and `int()`.

## Model

| member | source | states |
|---|---|---|
| TemporalMatcher.PatternMax | stock_backend.py:1515-1518 | the running maximum over the patterns is at least the weight of every pattern found and equals the weight of one found, or 0 when none is found |
| TemporalMatcher.BestPatternWeight | stock_backend.py:1515-1518 | the loop over the patterns computes that maximum weight |
| TemporalMatcher.ScoreYearCandidate | stock_backend.py:1512-1524 | the per-document loop body computes the year score |
| TemporalMatcher.BestYear | stock_backend.py:1491-1534 | `best_year` as written: empty list gives nothing, else the pick of the sorted scores against threshold 2 |
| TemporalMatcher.YearScoreByPriority | stock_backend.py:1502-1523 | the year score is a priority list: 10 for `{y-1}-{yy}` or `{y-1}-{y}`, else 9 for `{yy-1}-{yy}`, else 8 for `fy{yy}`/`fy {yy}`, else 7 for `fy{y}` (all in lower(title+' '+date)), else 3 for the year in the title, else 2 for the year in the date, else 0 |
| TemporalMatcher.PatternsByPriority | stock_backend.py:1502-1509 | the maximum over the six weighted patterns reads as the same priority list |
| TemporalMatcher.YearScoreAtMostTen | stock_backend.py:1502-1523 | a year score lies between 0 and 10 |
| TemporalMatcher.PickBestIsFirstTop | stock_backend.py:1527-1534 | sorting on the negated score and taking the head picks the first candidate with the top score, and there is a pick exactly when some candidate reaches the threshold |
| TemporalMatcher.PickBestOfScored | stock_backend.py:1527-1534 | the same, stated over the documents and their scores |
| TemporalMatcher.IsFirstTopOfScores | stock_backend.py:1527-1528 | the first maximum of the scored pairs is the first top score of the score list |
| TemporalMatcher.MatchYearFirstBest | stock_backend.py:1491-1534 | `best_year` returns nothing on an empty list, returns a document exactly when one scores at least 2, and then the first one with the highest score |
| TemporalMatcher.TopYearScoreWins | stock_backend.py:1527-1532 | the first document scoring 10 is the answer |
| TemporalMatcher.FirstTopAtBound | stock_backend.py:1527-1528 | the first top score equals the first occurrence of the largest possible score |
| TemporalMatcher.RangeScoresTen | stock_backend.py:1503 | a text holding `{y-1}-{yy}` scores 10 |
| TemporalMatcher.AnnualReportScore | stock_backend.py:1503 | "Annual Report 2024-25" scores 10 for 2025 |
| TemporalMatcher.AnnualReportExample | stock_backend.py:1491-1534 | between "Annual Report 2024-25" and "Annual Report 2023-24", year 2025 picks the first |
| TemporalMatcher.UnmarkedYear | stock_backend.py:1519-1534 | a document whose title and date hold no digit scores 0 for every year and is never picked |
| TemporalMatcher.SingleYearCandidateBelow | stock_backend.py:1531-1534 | a lone candidate scoring below 2 gives nothing |
| TemporalMatcher.QuarterScore | stock_backend.py:1563-1583 | a quarter score lies between 0 and 24 |
| TemporalMatcher.ScoreQuarterCandidate | stock_backend.py:1561-1585 | the per-document loop body (combo loop with `break`, the `if/elif` chains, the month `any`) computes the quarter score |
| TemporalMatcher.ScoreQuarterCandidates | stock_backend.py:1560-1586 | the scoring loop builds the scored list, in document order |
| TemporalMatcher.BestQuarter | stock_backend.py:1540-1595 | `best_quarter` as written: empty list gives nothing, else the pick of the sorted scores against threshold 5 |
| TemporalMatcher.MatchQuarterFirstBest | stock_backend.py:1540-1595 | `best_quarter` returns nothing on an empty list, returns a document exactly when one scores at least 5, and then the first one with the highest score |
| TemporalMatcher.ComboImpliesTokens | stock_backend.py:1565-1577 | a combined `qNfyYY` form also earns the quarter-token and FY signals, so the score is at least 19 |
| TemporalMatcher.CombosHoldParts | stock_backend.py:1566-1567 | every combined form contains the quarter token and `fyYY` or `fy YY` |
| TemporalMatcher.Q3FY26Terms | stock_backend.py:1544-1558 | "Q3FY26" reads as token "q3", suffix "26", FY 2026, calendar year 2025 and October to December |
| TemporalMatcher.Q3And26Terms | stock_backend.py:1546-1558 | the terms built from "Q3" and "26" |
| TemporalMatcher.MonthsOfQ3 | stock_backend.py:1555 | Q3 is October to December |
| TemporalMatcher.TranscriptScore | stock_backend.py:1565-1570 | "Q3FY26 Earnings Call Transcript" scores at least 10 for Q3FY26 |
| TemporalMatcher.TranscriptExample | stock_backend.py:1540-1595 | that title alone is picked for "Q3FY26" |
| TemporalMatcher.SingleQuarterCandidate | stock_backend.py:1592-1593 | a lone candidate scoring at least 5 is picked |
| TemporalMatcher.SingleQuarterCandidateBelow | stock_backend.py:1592-1595 | a lone candidate scoring below 5 gives nothing |
| TemporalMatcher.QueryShapeOf | stock_backend.py:1544-1558 | a query starting with Q yields a token starting with "q", a fiscal year starting with "2", a calendar year ending in a digit and month names that hold a month letter |
| TemporalMatcher.UnmarkedQuarter | stock_backend.py:1560-1595 | a document whose title and date hold no digit and none of the letters q, f, m, l, j, g, c scores 0 for every "Q…" query and is never picked |
| TemporalMatcher.UnmarkedScore | stock_backend.py:1563-1583 | none of the four signals fires on such a document, for any query of the shape a "Q…" query produces |
| TemporalMatcher.MatchTextAvoids | stock_backend.py:1514 | a character other than a space that the title and date lack, in either case, is not in the lower-cased matched text |
| FiscalCalendar.FiscalQuarterOfCalendar | stock_backend.py:1955-1968 | months 4-6 are Q1, 7-9 Q2, 10-12 Q3, 1-3 Q4, and the fiscal year is the calendar year plus one from April on, else the calendar year |
| FiscalCalendar.QuarterMonths | stock_backend.py:1553-1556 | a quarter's months are exactly the three-month calendar block Q4 = Jan-Mar, Q1 = Apr-Jun, Q2 = Jul-Sep, Q3 = Oct-Dec |
| FiscalCalendar.QuarterName | stock_backend.py:1961-1968 | a quarter name is "Q" followed by a digit 1 to 4 |
| FiscalCalendar.QuarterNameAgrees | stock_backend.py:1961-1968 | the name of a month's quarter reads back as the reference quarter |
| FiscalCalendar.LabelsReadBack | stock_backend.py:1955-1969 | each label format ("Q3FY26", "Q3 2026", "Q3FY26" again, "Q3 FY26") reads back as the reference (quarter, fiscal year), the two-digit formats modulo 100 |
| FiscalCalendar.CopiesAgree | stock_backend.py:2733-2741 | the transcript, BSE-fallback, NSE-fallback and concall-list copies agree on quarter and fiscal year for every filing date |
| FiscalCalendar.ReadLabelOf | stock_backend.py:1969 | a label built as quarter name, separator and digits reads back as that quarter and number |
| Text.LastTwoOfNatToString | stock_backend.py:1969 | `str(fy)[-2:]` is two digits worth `fy mod 100` |
| Text.Lower | stock_backend.py:1514 | `lower()` maps each character and keeps the length |
| Text.Strip | stock_backend.py:1033-1036 | `strip()` is the slice of the input between a leading and a trailing run of whitespace, and it neither starts nor ends with whitespace |
| Text.StripUnspaced | stock_backend.py:1033-1036 | a string with no whitespace at either end is its own strip |
| Announcements.BseAnnouncement | stock_backend.py:1032-1069 | a BSE record has a non-empty title, exchange BSE and the asked symbol, and no attachment link exactly when both news id and attachment are blank |
| Announcements.NseAnnouncement | stock_backend.py:1051-1069 | an NSE record has a non-empty title, exchange NSE and the asked symbol, and no attachment link exactly when the file is blank |
| Announcements.WrongCompanyByPrefix | stock_backend.py:1043-1047 | the company check fails exactly when the de-spaced upper-case company name lacks the symbol's first four letters |
| Announcements.ParseBseItems | stock_backend.py:1029-1070 | the BSE parse loop returns the mapped records, or none when the company check fails; the scrip cache loses the symbol exactly then |
| Announcements.ParseNseItems | stock_backend.py:1029-1070 | the NSE parse loop maps every item to its record |
| Announcements.BseParsedRecords | stock_backend.py:1062-1069 | parsed BSE records are BSE records of the symbol |
| Announcements.NseFallbackRecent | stock_backend.py:1211-1249 | the NSE fallback yields only NSE records of the symbol no older than 54 hours, and yields none exactly when no reply has an item in the window |
| Announcements.WindowRecordsRecent | stock_backend.py:1237-1242 | the records of a window are not older than its cutoff |
| Announcements.NseFallbackLoop | stock_backend.py:1213-1249 | the loop over the two NSE URLs stops at the first reply with items in the window |
| Announcements.FetchSymbolFirstProvider | stock_backend.py:1148-1249 | all of a symbol's records carry the symbol and come from one exchange; NSE only when both BSE lists gave nothing or there is no code; an Msource code is one no other symbol has; after an eviction the records are those the same fetch gives with no AnnGetData reply at all |
| Announcements.FetchSymbolAnnouncements | stock_backend.py:1143-1249 | the per-symbol cascade returns that symbol's records and Msource code and evicts the scrip code exactly on a failed company check |
| Announcements.GatherOnlyEvicts | stock_backend.py:1142-1252 | the per-symbol loop only ever removes entries from the scrip-code cache, never changes one |
| Announcements.FetchAll | stock_backend.py:1140-1252 | the per-symbol loop accumulates records, `bse_codes` and the scrip cache as the reference fold |
| Announcements.DedupedTidy | stock_backend.py:1255-1261 | the sorted, de-duplicated list is newest first, has no two records with one key, loses no key, and is no longer than the input |
| Announcements.SameKeyCollapses | stock_backend.py:1256-1261 | of two records with one key only the newer is kept |
| Announcements.DifferentKeysKept | stock_backend.py:1256-1261 | two records with different keys are both kept, even when they share a link |
| Announcements.ServedEmptyIff | stock_backend.py:1271-1278 | the served list is empty exactly when nothing was found and nothing was cached for the symbol set; otherwise it is this request's list, or the cached one |
| Announcements.RememberKeepsTidy | stock_backend.py:1271-1278 | caching a tidy list keeps every cached list tidy and non-empty |
| Announcements.AnnouncementCache.constructor | stock_backend.py:270-271 | the caches start empty |
| Announcements.AnnouncementCache.Remember | stock_backend.py:1271-1278 | a non-empty list is stored with its time; an empty one leaves the cache alone and serves what was cached |
| Announcements.GetAnnouncements | stock_backend.py:956-1280 | no symbols give an empty response and leave the codes and the cache entries and times as they were; otherwise the response is at most 60 records, newest first with distinct keys, taken from the fold, de-duplicated and served through the cache, and the cache stores the de-duplicated list with the current time under the symbol set exactly when that list is non-empty |
| Announcements.SavedThenServed | stock_backend.py:1271-1278 | once a non-empty list is saved for a symbol set, a later request for that set that finds nothing is served it, and other sets are served what they were before |
| Lists.SortDesc | stock_backend.py:1255 | the sort keeps the records: same length, same multiset |
| Lists.SortDescSorted | stock_backend.py:1255 | the sort leaves the list non-increasing in the key |
| Lists.SortDescStable | stock_backend.py:1255 | records with equal keys keep their relative order |
| Lists.SortDescHead | stock_backend.py:1527-1528 | the head of the sorted list is the first element with the largest key |
| Lists.FirstPerKeyPositions | stock_backend.py:1256-1261 | the de-duplicated list is exactly the elements that are the first of their key, in order |
| Lists.FirstPerKeyUnique | stock_backend.py:1256-1261 | no two kept elements share a key |
| Lists.FirstPerKeyKeys | stock_backend.py:1256-1261 | every key of the input is kept |
| Lists.FirstPerKeySorted | stock_backend.py:1256-1261 | keep-first-per-key keeps a sorted list sorted |
| Lists.KeepFirstPerKey | stock_backend.py:1256-1261 | the seen-set loop computes keep-first-per-key |
| Lists.KeepFirstPerKeyIf | stock_backend.py:2819-2825 | the seen-set loop with a skip condition computes keep-first-per-key over the kept elements, then maps them |
| Lists.TruncateKeeps | stock_backend.py:1280 | `[:60]` gives at most 60 records and keeps the order and the distinct keys |
| Lists.MapFixedPerKey | stock_backend.py:1977-1992 | a map that fixes every element fixes the first-per-key list |
| Lists.FilterKeysOf | stock_backend.py:1980 | skipping exactly the elements with one key removes exactly that key |
| Concalls.DedupByUrl | stock_backend.py:2819-2825 | the concall-list loop drops entries without a URL and keeps the first entry per URL, in order |
| Concalls.UrlDedupedIsFirstPerUrl | stock_backend.py:1977-1992 | the URL de-duplication keeps exactly the entries with a URL that no earlier entry has |
| Concalls.UrlDedupedShape | stock_backend.py:1977-1992 | kept URLs are non-empty and distinct, and every non-empty input URL is kept |
| Concalls.DedupAndRelabel | stock_backend.py:1976-1992 | the transcript loop, as written, de-duplicates by URL and relabels each kept quarter with the `\s+` pattern |
| Concalls.DedupAndRelabelFixed | stock_backend.py:1976-1992 | the same loop with the corrected `\s*` pattern |
| Concalls.UnspacedLabelsKept | stock_backend.py:1969-1992 | as written, the loop changes no label of a list whose labels hold no whitespace: it is the URL de-duplication alone |
| Concalls.TranscriptEntryRelabelledFixed | stock_backend.py:1969-1992 | a transcript entry is left as it is by the loop as written, and gets the BSE fallback's "Q3 2026" label from the corrected one |
| Concalls.YearLabel | stock_backend.py:1988-1991 | the relabelled form "Q1 2025" has seven characters and no "F", so it never matches the pattern again |
| Concalls.RelabelIdempotent | stock_backend.py:1983-1991 | relabelling a relabelled quarter changes nothing |
| Concalls.SpacedLabelRelabelled | stock_backend.py:1983-1991 | "Q1 FY25" becomes "Q1 2025" |
| Concalls.UnspacedNeverMatches | stock_backend.py:1986 | the pattern as written, with a required space, never fires on a label with no whitespace before "FY" |
| Concalls.TranscriptLabelUnchanged | stock_backend.py:1983-1991 | the relabelling as written leaves every transcript label ("Q3FY26") unchanged |
| Concalls.TranscriptLabelRelabelledFixed | stock_backend.py:1983-1991 | with the space optional, a transcript label for a fiscal year 2000-2099 becomes the "Q3 2026" label the BSE fallback writes |
| Filings.BseAttUrlCases | stock_backend.py:1005-1027 | a news id gives the `ann.html?newsid=` page; else an attachment gives AttachLive exactly when a date parsed and is at most 30 days old, else AttachHis; with neither the URL is empty |
| Filings.NseDocUrl | stock_backend.py:1058-1059 | a non-empty attachment gives a non-empty link |
| Filings.BseFilingDocShape | stock_backend.py:1365-1397 | an item becomes a document exactly when it has a news id or an attachment; the link agrees with `bse_att_url` and is non-empty; alternative links exist exactly when both are present |
| Filings.BseFilingDocsShape | stock_backend.py:1342-1400 | one document per usable item, in reply order, each a BSE document with a non-empty link |
| Filings.BseFilings | stock_backend.py:1342-1400 | the reply loop builds that list, and nothing for a failed reply |
| Filings.NseAnnualReports | stock_backend.py:1448-1464 | the reply loop builds the annual-report list |
| Filings.NseAnnualReportLinks | stock_backend.py:1448-1464 | one report per item with an attachment, in order, each an NSE document with a non-empty link |
| Filings.NseAnnouncements | stock_backend.py:1467-1485 | the reply loop builds the keyword-filtered list |
| Filings.NseAnnouncementFilter | stock_backend.py:1477-1483 | exactly the items with an attachment whose lower-case text holds a keyword are kept, in order, each with a non-empty link |
| Filings.FirstNonEmptyIsFirst | stock_backend.py:1606-1611 | the fallback result is empty exactly when every provider list is, and otherwise the first non-empty one |
| Filings.FirstNonEmptyOfTwo | stock_backend.py:1679-1683 | two providers: the second is asked only when the first gives nothing |
| Filings.FirstNonEmptyOfThree | stock_backend.py:1642-1650 | three providers, tried in order |
| Filings.CollectDocs | stock_backend.py:1604-1611 | each source type's document list is the first non-empty provider list in the source's order |
| Filings.ProviderListLinks | stock_backend.py:1604-1683 | every document of every provider list has a non-empty link |
| ScripCodes.ListingCode | stock_backend.py:100-107 | the fetchComp row scan finds a code exactly when some row lists the symbol, and the code is that row's |
| ScripCodes.ScanListings | stock_backend.py:100-107 | the row loop computes it |
| ScripCodes.StrategyCode | stock_backend.py:145-158 | getScripHeaderData yields no code exactly when the header is blank or "0", and the header otherwise |
| ScripCodes.Lookup | stock_backend.py:57-196 | a lookup never reports a cache hit, and a found code is non-empty and is the one its strategy yields |
| ScripCodes.ResolveCode | stock_backend.py:53-56 | a cached symbol resolves to its cached code; an uncached one never reports a cache hit |
| ScripCodes.LookupIsFirstSuccess | stock_backend.py:57-196 | the first strategy in order with a non-empty code wins, and nothing is found exactly when all fail |
| ScripCodes.FoundAtFirstNonEmpty | stock_backend.py:57-196 | the strategy at the first non-empty position is the one found |
| ScripCodes.NotFoundWhenAllEmpty | stock_backend.py:195-196 | nothing is found exactly when every strategy gives nothing |
| ScripCodes.RunLookups | stock_backend.py:57-196 | the cascade as written computes the lookup |
| ScripCodes.ScripCodeCache.constructor | stock_backend.py:34-44 | the cache starts with the nine seeded codes |
| ScripCodes.ScripCodeCache.Resolve | stock_backend.py:46-196 | `resolve_bse_code` returns the resolved code and updates the cache as the reference function says |
| ScripCodes.ScripCodeCache.Evict | stock_backend.py:1049 | the mismatch eviction removes exactly that symbol |
| ScripCodes.CachedNeedsNoLookup | stock_backend.py:53-56 | a cached symbol resolves to its code whatever the lookups say, and the cache is unchanged |
| ScripCodes.EmptyCodeIffNotFound | stock_backend.py:195-196 | the returned code is empty exactly when nothing was found |
| ScripCodes.HeaderZeroRejected | stock_backend.py:153 | a "0" from getScripHeaderData is never accepted |
| ScripCodes.CacheOnlyAddsBase | stock_backend.py:106 | a resolution only ever adds the asked symbol to the cache |
| ScripCodes.SecondResolveHitsCache | stock_backend.py:78 | after a code found by strategies 2-6 the next resolution is a cache hit; after the package path it runs the cascade again |
| ScripCodes.SeededSymbolResolves | stock_backend.py:39 | ENTERO resolves to 544122 from the seeded cache |
| NseSession.Step | stock_backend.py:273-295 | after a call a session exists, and at most one new session was made |
| NseSession.FirstCallRefreshes | stock_backend.py:279 | the first call creates a session |
| NseSession.ForcedCallRefreshes | stock_backend.py:279 | a forced call always creates a new session |
| NseSession.UnforcedReuseIff | stock_backend.py:278-279 | an unforced call reuses the session exactly when it is at most 300 seconds old |
| NseSession.StaleStaysStale | stock_backend.py:278-279 | a session due for refresh stays due later |
| NseSession.ReusedWithinWindow | stock_backend.py:278-295 | unforced calls within 300 seconds of the refresh all reuse the session |
| NseSession.GenerationBound | stock_backend.py:273-295 | n calls make at most n new sessions |
| NseSession.SessionHolder.constructor | stock_backend.py:265-267 | there is no session at first |
| NseSession.SessionHolder.Get | stock_backend.py:273-295 | `get_nse_session` updates the holder as the reference step and returns the current session |
| Proxies.MakeProxies | stock_backend.py:322-330 | proxies exist exactly when host and port are both non-empty; http and https share the URL built from them, which has a scheme |
| Proxies.ProxyUrlHasScheme | stock_backend.py:325-328 | the proxy URL always starts with http:// or https:// |
| Proxies.ProxyUrlParts | stock_backend.py:325-328 | the URL is "http://" (only when the host has no scheme), the host, ":" and the port |
| Proxies.NoDoubleScheme | stock_backend.py:325-326 | a host that has a scheme is used as given |

## Findings

| source | as written | input that shows it | evidently intended | confidence | as-written member | corrected member |
|---|---|---|---|---|---|---|
| stock_backend.py:1983-1991 | the relabel pattern `Q(\d)\s+FY(\d{2})` needs at least one whitespace character before "FY" | every transcript label that the same function writes at 1969, e.g. "Q3FY26", is left unchanged | `\s*`, so that "Q3FY26" becomes "Q3 2026", the form the BSE fallback writes at 2741 | not executed | Concalls.TranscriptLabelUnchanged (on Concalls.RelabelQuarter, used by Concalls.DedupAndRelabel) | Concalls.TranscriptLabelRelabelledFixed and Concalls.TranscriptEntryRelabelledFixed (on Concalls.RelabelQuarterFixed, used by Concalls.DedupAndRelabelFixed) |

`Concalls.DedupAndRelabel` models the loop as written; `Concalls.DedupAndRelabelFixed` is the same loop with the corrected relabelling.

## Notes

- In `best_quarter`, the calendar-year signal `cal_yr` is always FY − 1, whatever the quarter. For Q4 (January to March) the quarter's months fall in the FY's own calendar year, so that signal then points at the previous year. The model keeps the source's rule.
- In the `parse_items` company check, the second test (the whole symbol in the company name) is implied by the first (its first four letters). `Announcements.WrongCompanyByPrefix` states this.
- A code found by the bse package path (stock_backend.py:68-80) is returned without being cached. `ScripCodes.SecondResolveHitsCache` states this.

## Left out

- HTTP requests, headers, cookies and JSON decoding. Each provider reply is an input: `None` for a failed request, else the parsed item list.
- The clock (`time.time()`, `datetime.now()`, `date.today()`) and `parse_date`. A parsed date is an `Option<int>` timestamp and a filing's age is an `Option<int>` number of days, both inputs. Python's float timestamps are whole seconds here.
- Threads and `_nse_session_lock`. The session holder is modelled for sequential callers.
- The NSE session object itself (cookies, the warm-up request). A session is a generation number.
- Playwright, PDF extraction, the AI client, authentication, watchlist, portfolio and price endpoints, which are I/O or foreign services.
- Step 1 of `get_announcements` (stock_backend.py:1072-1131), which resolves `bse_codes` from the cache, the package and `resolve_bse_code`. `bse_codes` is an input of `Announcements.GetAnnouncements`.
- The retry with a forced session refresh after an empty NSE body (stock_backend.py:1219-1223). The reply after the retry is the input.
- The `del a['date_ts']` pass (stock_backend.py:1267-1268), which only hides a field from the JSON.
- `deepdive_fetch`'s text formatting and its fallback URL choice (stock_backend.py:1612-1720), which only build display strings.
- The deepdive per-request NSE session (stock_backend.py:1404-1416) and `nse_get`'s URL loop (stock_backend.py:1418-1445). Their reply is an input of the NSE list builders.
- `quarter_from_title` (stock_backend.py:2126-2138) and `extract_year` (stock_backend.py:1907-1917), which are regex heuristics. An undated concall keeps the label it has.
- The concall `transcripts[:8]` cut (stock_backend.py:1974) and the `nse_fetch` transcript filter before it. The dedup models the list it is given.
- Lists.SortDesc: the in-place sorts (`list.sort`) are modelled on values, as a stable insertion sort with the same order and tie-breaks; the in-place update is not modelled.
- Concalls.DedupAndRelabel: the source writes the new quarter into the shared dict (`d['quarter'] = ...`); the model returns updated copies, so aliasing of those dicts is not modelled.
- Text.Lower: Python's `lower()` and `upper()` are modelled for ASCII letters only. Other characters are unchanged.
- Text.Strip: whitespace is the set for which `str.isspace()` holds, which is also what regex `\s` matches; regex `\d` is modelled as the ASCII digits only.
- TemporalMatcher.BestYear: the requested year is modelled as an integer or the decimal string of one. A float such as 2025.0, a padded string such as " 2025" or a boolean, which `int()` accepts and `str()` turns into other patterns, is not modelled: such a year is an error here.
- Announcements.BseAnnouncement: the parsed date of an item is an input and is taken to be `parse_date` of the item's raw date. The model does not force it to be absent when that raw date is blank (where `parse_date` gives `None` and `date_ts` is 0). The same holds for Announcements.NseAnnouncement.
- Text.ParseInt: `int()` reads ASCII digits with an optional sign and surrounding whitespace; underscores and non-ASCII digits are not accepted.
