# SentiBassin history ledger, translations and history panel, in Dafny

This project models the decision logic of the SentiBassin fish-farm dashboard
("bassin" = pool). It covers three source files:

- `lib/bassin-history.ts`: `BassinHistoryService`, a per-pool history ledger.
  It is kept in browser storage under the key `bassin-history-<id>` and holds
  a newest-first list of readings capped at 1000 by `addEntry`. It can be read
  with an optional limit, cleared, summarised by `getHistoryStats`, filled with
  generated demo data by `generateDummyData` (with its four-level water-quality
  classifier), and exported as CSV.
- `lib/i18n.ts`: `getTranslation`, which falls back from the requested
  language to English and then to the key, and `formatTimeAgo`, which buckets
  a minute difference into just-now, minutes, hours or days.
- `components/history-sidebar.tsx`: the history panel's non-visual logic. It
  covers the inclusive date-range filter, the statistics card, the two badge
  colour tables, the 50-row display cap and the CSV text of an export.

Files and modules:

| file | module | models |
|---|---|---|
| `wrappers.dfy` | `Wrappers` | `Option`, `Min`, `Max` |
| `seqs.dfy` | `Seqs` | multiset and prefix facts about sequences of any element type |
| `text.dfy` | `Text` | decimal text of integers (template literals), ASCII `toLowerCase`, `join`/`split` on one character |
| `i18n.dfy` | `I18n` | `lib/i18n.ts` |
| `bassin_history.dfy` | `BassinHistory` | `lib/bassin-history.ts`; the storage is the class `HistoryStore` |
| `history_csv.dfy` | `HistoryCsv` | the CSV text shared by `exportToCsv` and `exportFilteredData` |
| `history_sidebar.dfy` | `HistorySidebar` | `components/history-sidebar.tsx`; the React state is the class `HistoryView` |

Modelling choices:

- Browser storage is the field `HistoryStore.slots: map<string, Slot>`. A slot
  either holds a parsed history (`Stored`) or text that does not parse as
  JSON (`Corrupt`); both a missing slot and a corrupt one read as `[]`.
- Timestamps are integer milliseconds, the instants the ISO strings denote.
- Measurements are `real`, and averages are exact real quotients.
- `Date.now()` and `Math.random()` are method parameters. The draws of
  `generateDummyData` are a sequence of `Draw` values with every component in
  [0, 1), and they are scaled exactly as the source scales them.
- Cell formatting (`toFixed`, `toLocaleDateString`, `toLocaleTimeString`,
  `toISOString`) is the abstract `Formats` value.
- The sidebar's date fields are `DateInput` values: `Blank`, `Unparsable`, or
  `Day(midnight)` with the day's first instant. The to-bound is midnight plus
  23:59:59.

Behaviour of the code that the model keeps:

- The 1000-entry cap holds only after `addEntry`. `generateDummyData(id, n)`
  stores all `n` entries, even when `n` is more than 1000.
- The CSV header line is not quoted, and only the data cells are.
- Cells are quoted without escaping. A cell that holds `","` reads back as two
  cells, which `UnescapedQuotesAreAmbiguous` exhibits.
- `getStatusColor` lists "warning" but not "fair". The status "fair" of a
  generated entry would therefore be painted gray, which `ColourTables` states.
  The panel uses this table only for pool statuses.

## Model

| member | source | states |
|---|---|---|
| `Text.NatToStringRoundTrip` | lib/i18n.ts:487-489 | the decimal text a count is printed with reads back as that count |
| `Text.SplitJoin` | components/history-sidebar.tsx:140 | splitting a joined list on its separator returns the list when no part contains the separator |
| `Text.LeadingDigitsOfConcat` | lib/i18n.ts:487-489 | a digit string followed by a suffix that does not start with a digit is read back whole |
| `I18n.GetTranslation` | lib/i18n.ts:477-479 | the requested language's string if non-empty, else the English string if non-empty, else the key |
| `I18n.TranslationNeverBlank` | lib/i18n.ts:477-479 | the result is one of the three candidates and is empty only for an empty key |
| `I18n.MissingFallsBackToEnglish` | lib/i18n.ts:477-479 | a language without a key shows exactly what English shows |
| `I18n.DiffInMinutes` | lib/i18n.ts:484 | the floor of the millisecond difference in minutes: `d*60000 <= now-time < (d+1)*60000`, negative for the future |
| `I18n.Bucket` | lib/i18n.ts:486-489 | exactly one of just-now (d<1), minutes (1..59, count d), hours (60..1439, count floor(d/60) in 1..23) or days (d>=1440, count floor(d/1440) >= 1) holds for every integer |
| `I18n.FutureIsJustNow` | lib/i18n.ts:484-486 | any instant less than a minute old or in the future shows the justNow text |
| `I18n.FormatTimeAgoReadsBack` | lib/i18n.ts:487-489 | with the shipped tables, a non-just-now text is the decimal count of its bucket followed by that bucket's suffix, and the count reads back from the front |
| `I18n.Examples` | lib/i18n.ts:206-209 | sample outputs with the shipped English and French strings ("59m ago", "2h", "2d ago", "Just now" for 0 and -5) |
| `BassinHistory.Classify` | lib/bassin-history.ts:99-106 | a reading earns grade g or better exactly when it lies within g's band (Fair: temp<=25, 6.8<=pH<=8.2, DO>=6, NH3<=1.5; Good: temp<=23, 7.0<=pH<=8.0, DO>=7, NH3<=1.0; Excellent: temp<=21, 7.0<=pH<=8.0, DO>=8, NH3<=0.5) |
| `BassinHistory.ClassifyMonotone` | lib/bassin-history.ts:99-106 | a warmer, more ammonia-laden or less oxygenated reading with the same pH never grades better |
| `BassinHistory.StatusNames` | lib/bassin-history.ts:127 | the status is the lower-case grade name: excellent, good, fair, poor |
| `BassinHistory.DummyAlerts` | lib/bassin-history.ts:128-133 | generated alert counts lie in [1,4] for Poor, [0,1] for Fair and are 0 for Good or Excellent |
| `BassinHistory.Scale` | lib/bassin-history.ts:83-96 | generated temperature, DO, pH and ammonia lie in [18,26), [5,9), [6.5,8.5) and [0.1,2.1) |
| `BassinHistory.DummyEntry` | lib/bassin-history.ts:108-135 | entry i has id `<id>-dummy-<i>`, a timestamp i hours before now, the classifier's grade, the lower-case status and an alert count in its grade's band |
| `BassinHistory.DummyHistory` | lib/bassin-history.ts:76-80 | `count` entries (none for a negative count) with ids by index, strictly decreasing timestamps and banded alert counts |
| `BassinHistory.BuildDummyEntries` | lib/bassin-history.ts:77-138 | the loop pushes exactly the generated history, entry `i` at position `i` |
| `BassinHistory.StorageKey` | lib/bassin-history.ts:39-41 | the key is the prefix `bassin-history-` followed by the pool id |
| `BassinHistory.StorageKeyInjective` | lib/bassin-history.ts:39-41 | different pools never share a storage slot |
| `BassinHistory.Load` | lib/bassin-history.ts:64-73 | a missing or unparsable slot reads as `[]`, a stored one as its history |
| `BassinHistory.Take` | lib/bassin-history.ts:69 | a prefix of the history: whole for no limit or 0, `min(limit, n)` entries for a positive limit, `max(n+limit, 0)` for a negative one |
| `BassinHistory.Prepend` | lib/bassin-history.ts:51-52 | the new entry is first, the old ones follow in order, and the length is `min(n+1, 1000)` |
| `BassinHistory.PrependEvictsOldest` | lib/bassin-history.ts:52 | inserting into a full ledger drops exactly the last (oldest) entry |
| `BassinHistory.AddAllKeepsNewest` | lib/bassin-history.ts:51-52 | any run of at least one insertion, into any ledger (even one over the cap), leaves the newest 1000 of all entries, newest first; no insertions leave a ledger within the cap as it is |
| `BassinHistory.AddAllBounded` | lib/bassin-history.ts:52 | after at least one insertion no ledger holds more than 1000 entries, and a ledger within the cap stays within it |
| `BassinHistory.MeanBetween` | lib/bassin-history.ts:245-260 | every average lies between the least and greatest value of its field |
| `BassinHistory.SumPermutation` | lib/bassin-history.ts:246-259 | field sums do not depend on the order the history is stored in |
| `BassinHistory.InsertSorted` | lib/bassin-history.ts:243 | inserting an entry after every entry that is not later keeps a history in ascending timestamp order |
| `BassinHistory.SortByTimeSorted` | lib/bassin-history.ts:243 | the stats sort yields a permutation of the history in ascending timestamp order |
| `BassinHistory.HistoryStats` | lib/bassin-history.ts:232-269 | totalEntries is the length; the range is the earliest and latest timestamp; each of the 14 averages is the field sum over all entries divided by the length; an empty history gives 0, no range and no averages |
| `BassinHistory.StatsOrderIndependent` | lib/bassin-history.ts:243-269 | the same entries stored in another order give the same statistics |
| `BassinHistory.NewEntry` | lib/bassin-history.ts:44-49 | the new entry carries the pool, the caller's data, the timestamp of the `new Date()` reading and the id `<id>-<ms>` of the separate `Date.now()` reading |
| `BassinHistory.HistoryStore.constructor` | lib/bassin-history.ts:273 | the service works over the storage as it already stands: every pool's history is what its slot holds |
| `BassinHistory.HistoryStore.GetHistory` | lib/bassin-history.ts:59-74 | a prefix of the pool's stored history, `[]` when nothing is stored, the whole of it without a limit, `min(limit, n)` entries for a positive limit |
| `BassinHistory.HistoryStore.GetHistoryStats` | lib/bassin-history.ts:232-241 | the statistics of the pool's whole history; the empty statistics for a pool without history |
| `BassinHistory.HistoryStore.AddEntry` | lib/bassin-history.ts:43-57 | the pool's slot becomes the capped prepend of the new entry to its old history; every other pool's history is unchanged |
| `BassinHistory.HistoryStore.ClearHistory` | lib/bassin-history.ts:226-230 | only the pool's slot is removed; its history is then `[]` and its stats are `{0, no range, {}}`; other pools are unchanged |
| `BassinHistory.HistoryStore.GenerateDummyData` | lib/bassin-history.ts:76-144 | the loop builds the generated entries in order and overwrites the pool's slot with them; other pools are unchanged |
| `HistoryCsv.Cells` | lib/bassin-history.ts:179-203 | 21 cells in header order, with formatting precision 2/3/0 as in the source, the quality, status and alert count as text, and the notes or "" |
| `HistoryCsv.Quote` | components/history-sidebar.tsx:140 | a cell is wrapped in one pair of double quotes, its text unchanged between them |
| `HistoryCsv.CsvLines` | components/history-sidebar.tsx:140 | with no newline inside a cell, the export splits into the header line and one data line per row, in row order |
| `HistoryCsv.DataLineCells` | components/history-sidebar.tsx:113-140 | with no comma inside a cell, a data line splits into exactly 21 quoted cells, one per header |
| `HistoryCsv.UnescapedQuotesAreAmbiguous` | components/history-sidebar.tsx:140 | a cell containing `","` produces the same line as two cells |
| `HistoryCsv.ExportToCsv` | lib/bassin-history.ts:146-207 | nothing for a pool without history, otherwise the CSV text of its whole history |
| `HistorySidebar.KeepInRange` | components/history-sidebar.tsx:74-77 | every entry occurrence inside the closed range is kept, every other is dropped, and order is kept |
| `HistorySidebar.FilterByDate` | components/history-sidebar.tsx:65-80 | the history unchanged when either date is empty or there is no history; otherwise every occurrence of an entry with `from <= t <= to + 23:59:59` kept as many times as the history holds it, all others dropped, in order; nothing for an unparsable date |
| `HistorySidebar.CalculateStats` | components/history-sidebar.tsx:185-186 | no statistics exactly when there are no rows |
| `HistorySidebar.CalculateStatsAgrees` | components/history-sidebar.tsx:188-193 | the card's averages equal the service's averages over the same rows, and lie within the rows' range |
| `HistorySidebar.AlertTotalBounds` | components/history-sidebar.tsx:191 | the alert total of rows with counts in [0,k] lies in [0, k·rows] |
| `HistorySidebar.DummyAlertTotal` | components/history-sidebar.tsx:52-54 | the total over generated history is between 0 and 4 per entry |
| `HistorySidebar.StatusColor` | components/history-sidebar.tsx:155-168 | gray exactly for statuses other than excellent, good, warning and poor |
| `HistorySidebar.WaterQualityColor` | components/history-sidebar.tsx:170-183 | gray exactly for qualities other than Excellent, Good, Fair and Poor |
| `HistorySidebar.ColourTables` | components/history-sidebar.tsx:155-183 | both tables agree on the generated grades except Fair, whose status "fair" is gray while its quality is yellow |
| `HistorySidebar.DisplayedRows` | components/history-sidebar.tsx:350 | the drawn rows are the first `min(50, n)` filtered rows |
| `HistorySidebar.OverflowNoteIffHidden` | components/history-sidebar.tsx:401-407 | the overflow note appears exactly when some filtered rows are not drawn, that is when there are more than 50 |
| `HistorySidebar.HistoryView.constructor` | components/history-sidebar.tsx:28-34 | the initial state: no pool, empty dates, empty lists, filter consistent |
| `HistorySidebar.UtcMidnight` | components/history-sidebar.tsx:40-41 | the first instant of the UTC day that `toISOString().split("T")[0]` names: a multiple of a day at most one day before the instant |
| `HistorySidebar.DefaultRangeIsLastWeek` | components/history-sidebar.tsx:37-42 | the default from-day is exactly seven UTC days before today's UTC day; under UTC the range reaches from seven days back to the last second of today |
| `HistorySidebar.HistoryView.SetDefaultDates` | components/history-sidebar.tsx:37-43 | from one clock reading, the from-date becomes the UTC day a week back and the to-date today's UTC day read in local time; the filter is re-run |
| `HistorySidebar.HistoryView.SetFromDate` | components/history-sidebar.tsx:263 | a new from-date, with the filter re-run over the unchanged history |
| `HistorySidebar.HistoryView.SetToDate` | components/history-sidebar.tsx:275 | a new to-date, with the filter re-run over the unchanged history |
| `HistorySidebar.HistoryView.SelectBassin` | components/history-sidebar.tsx:46-62 | loads the pool's whole history; an empty one is first replaced by 100 generated entries; the empty choice clears the list; the filter is re-run |
| `HistorySidebar.HistoryView.ExportFilteredData` | components/history-sidebar.tsx:82-140 | nothing without a selected pool or without rows, otherwise the CSV text of the pool's history filtered by the current dates |

## Left out

- Browser I/O: `localStorage` is an in-memory map, and the `typeof window` guards are dropped.
- JSON: serialisation and parsing are not modelled. A slot that fails to parse is the abstract `Corrupt`.
- File download: the Blob, `URL.createObjectURL`, `document` and file-name steps of both exports are left out, as is the `alert` of an empty `exportToCsv`.
- Number and date formatting: `toFixed`, `toLocale*` and `toISOString` are abstract in `Formats`.
- Dates: `new Date(...)` parsing of typed date fields is abstract. The caller gives each day's midnight; in the source the from-date parses as UTC and the to-date as local time. The mount effect's dates carry one fixed local offset (`localOffsetMs`).
- `HistorySidebar.FilterByDate`: the to-bound is the to-day's midnight plus 23:59:59, which assumes a 24-hour local day. On a 23- or 25-hour daylight-saving day, `new Date(toDate + "T23:59:59")` lands an hour away from that bound.
- Floating point: averages are exact reals, and no IEEE rounding is claimed.
- Only the four relative-time keys of each shipped table are written out in `I18n.Shipped`. `GetTranslation` works over any table.
- `formatTimeAgo`'s parse of its timestamp string is left out: `FormatTimeAgoAt` takes both instants in milliseconds.
- React: rendering, the sheet, the loading flag and the language context are left out. Effects are modelled as the setter methods that trigger them.
- `BassinHistory.HistoryStore.GenerateDummyData`: one clock reading `now` is used for all entries. The source reads `Date.now()` again on each iteration.
- Draws: the order in which `Math.random()` values are consumed is not modelled. Each entry has its own draws.
- `BassinHistory.HistoryStats`: the date range is given as the two instants, not as their `toLocaleDateString` text. The empty `{start: "", end: ""}` is `NoRange`.
- `BassinHistory.NewEntry`: entry ids come from the millisecond clock and may collide. Uniqueness is not claimed.
- `BassinHistory.HistoryStore.GenerateDummyData`: the default `count = 50` is not modelled; every call takes an explicit count, as the panel's call does.
- The live monitoring page `app/bassin/[id]/page.tsx` is out of scope.
- Non-integer JavaScript numbers used as `limit` or `count` (fractions, `NaN`) are not modelled.
- The rest of the repository is out of scope: route handlers, the Supabase wrappers, the API client, authentication and layout.
