# Assessment dashboard: cache, filters and paging

This project models the core of a small assessment dashboard. A FastAPI backend serves two tables
(assessments and responses) and a React frontend shows them. The model covers:

- **The Nikeeta lookup view.** It shows a paged list of unassigned responses between two dates.
  Each load first reads a time-limited `localStorage` cache keyed by the query:
  - a fresh entry answers the load without a request;
  - an expired entry is removed;
  - a successful answer is written back.

  Once idle, the view prefetches the next page after a short delay. The module is `NikeetaLookup`,
  built on `CacheKey` (the storage key), `CacheStore` (the storage) and `CacheLogic` (the expiry
  policy, including the stand-alone cache test).
- **The backend.** The list normalisation and column filters of `apply_filters`, the `/pending`
  selection, and the `/nikeeta-lookup` endpoint with its unassigned mask, date bounds and
  pagination. The module is `Backend`.
- **The three list pages.** Each page builds its drop-down options from the loaded rows
  (`FilterOptions`), posts the current selection, and shows errors. The modules are
  `Assessments`, `PendingAssessments` and `AssessmentsResponse`.
- **The shared filter panel** (`Filters`).
- **The base-URL selection** (`Config`).

Outside effects are passed in as parameters:

- **The network.** A function from request to outcome (`Fetch`: a body or an `HttpError`). A
  method that may send a request returns what it sent (`sent`), so "no request was made" can be
  stated.
- **The clock.** An integer number of milliseconds.
- **Storage.** The `LocalStorage` class, whose slots are `Blank` (an empty string), `Corrupt` (text
  that `JSON.parse` rejects) or `Stamped(timestamp, data)`. A quota failure on write is the
  `writeRejected` flag.
- **The prefetch timer.** The `prefetchArmed` field. Every handler that changes what the prefetch
  effect depends on clears it, as React's cleanup does.
- **pandas' `to_datetime`.** A `Parser` from a value to a timestamp, or to nothing where it
  raises. A failed coercion gives NaT, which fails every comparison.

Shared JSON values, rows, HTTP errors and the lookup request are in `Api`.

Two behaviours of the code worth knowing:

- **Corrupt cache entries.** A cache entry that cannot be parsed is not evicted. The read throws,
  the view catches the exception and fetches, and only a successful write replaces the entry.
- **Empty dates.** An empty date input is sent and keyed as `null`, so `""` and an absent date
  share a cache key.

## Model

| member | source | states |
|---|---|---|
| Api.OrEmpty | frontend/src/pages/Assessments.jsx:23 | `res.data \|\| []`: a missing or falsy row list reads as no rows. The three page fetches state their new data through it. |
| Api.Decimal | frontend/src/pages/NikeetaLookup.jsx:90 | The status code is printed as decimal digits, with no leading zero unless it is 0. |
| Api.DecimalRoundTrip | frontend/src/pages/NikeetaLookup.jsx:90 | Reading the printed digits back gives the status code, so distinct codes print differently. |
| Api.ErrorText | frontend/src/pages/NikeetaLookup.jsx:90 | The error text starts with the message. It equals the message exactly when no response arrived; otherwise " (status)" follows. |
| CacheKey.QueryFor | frontend/src/pages/NikeetaLookup.jsx:35-40 | The query sends the page as given, page_size 50, and each date as null exactly when its input is empty. |
| CacheKey.ParamString | frontend/src/pages/NikeetaLookup.jsx:35-40 | The JSON text of the query; DecodeEncode parses it back to the same query. |
| CacheKey.Key | frontend/src/pages/NikeetaLookup.jsx:44 | The storage key is the cache prefix followed by the query's JSON text. |
| CacheKey.OrNull | frontend/src/pages/NikeetaLookup.jsx:36-37 | `value \|\| null`: null exactly for the empty string, and the text itself otherwise. |
| CacheKey.DecodeEncode | frontend/src/pages/NikeetaLookup.jsx:35-40 | Parsing the JSON parameter text gives back the four-field query it was written from. |
| CacheKey.KeyInjective | frontend/src/pages/NikeetaLookup.jsx:44 | Two queries share a storage key if and only if start date, end date, page and page size all agree. |
| CacheKey.NextPageKeyDiffers | frontend/src/pages/NikeetaLookup.jsx:137-145 | The prefetch key of page+1 differs from the key of the page on screen. |
| CacheKey.EmptyDateIsNull | frontend/src/pages/NikeetaLookup.jsx:36-37 | An empty start-date input and an absent start date give the same key. |
| CacheStore.LocalStorage.constructor | frontend/test_cache_logic.js:2 | A new store is empty. |
| CacheStore.LocalStorage.GetItem | frontend/test_cache_logic.js:4 | `getItem(k) \|\| null`: a result exactly when the slot is present and not empty, and then the slot's content. |
| CacheStore.LocalStorage.SetItem | frontend/test_cache_logic.js:5 | Only slot `key` changes, to the new entry. |
| CacheStore.LocalStorage.RemoveItem | frontend/test_cache_logic.js:6 | Only slot `key` is removed. |
| CacheStore.LocalStorage.Clear | frontend/test_cache_logic.js:7 | Every slot is removed. |
| CacheLogic.Lookup | frontend/test_cache_logic.js:15-28 | A read answers Expired exactly for a stored entry aged 72 h or more, and then only that slot is removed; every other read leaves the store as it was. A hit is a stored, fresh entry's data. |
| CacheLogic.GetCachedData | frontend/test_cache_logic.js:15-28 | The answer and the new store are those of the policy `Lookup` on the old store; the lemmas below give `Lookup`'s meaning. |
| CacheLogic.AbsentIsMiss | frontend/test_cache_logic.js:16-17 | An absent or empty slot is a miss, and the store is unchanged. |
| CacheLogic.FreshIsHit | frontend/test_cache_logic.js:19-23 | A stored entry is a hit with its data if and only if its age is below 72 hours; a hit leaves the store unchanged. |
| CacheLogic.ExpiredIsEvicted | frontend/test_cache_logic.js:24-27 | An entry aged 72 hours or more reads as expired, and exactly its slot is removed. A second read at the same time is a plain miss. |
| CacheLogic.CorruptIsKept | frontend/src/pages/NikeetaLookup.jsx:43-65 | An unparseable entry makes the read fail, and the entry stays in place. |
| CacheLogic.LookupTouchesOnlyItsSlot | frontend/test_cache_logic.js:16-27 | After a read, every other slot is present and equal exactly as before. |
| CacheLogic.WriteThenRead | frontend/test_cache_logic.js:37-48 | Data written at time t reads back unchanged while now - t < 72 h; from then on it reads as expired and is evicted. |
| CacheLogic.RetentionBoundary | frontend/test_cache_logic.js:50-66 | Reads at +1 s, at 72 h - 1 h and at 72 h - 1 ms hit; reads at exactly 72 h and at 72 h + 1 s are expired. |
| CacheLogic.RunTests | frontend/test_cache_logic.js:30-75 | The five scenarios of the cache test give hit, hit, expired, then miss. |
| NikeetaLookup.Normalize | frontend/src/pages/NikeetaLookup.jsx:72 | `res.data.data \|\| []` and `res.data.total \|\| 0`: a missing field gives the empty list or 0, and a present one is kept. |
| NikeetaLookup.TotalPages | frontend/src/pages/NikeetaLookup.jsx:128 | `Math.ceil(total / 50)`: the least n with (n-1)*50 < total <= n*50. |
| NikeetaLookup.LookupView.constructor | frontend/src/pages/NikeetaLookup.jsx:14-27 | Initial state: no rows, total 0, loading, no error, no start date, end date today, page 1, no prefetch pending. |
| NikeetaLookup.LookupView.FetchData | frontend/src/pages/NikeetaLookup.jsx:29-98 | See the FetchData note below. |
| NikeetaLookup.LookupView.PrefetchEffect | frontend/src/pages/NikeetaLookup.jsx:133-168 | A prefetch is armed exactly when not loading and page < totalPages. |
| NikeetaLookup.LookupView.PrefetchTimerFires | frontend/src/pages/NikeetaLookup.jsx:136-163 | See the PrefetchTimerFires note below. |
| NikeetaLookup.LookupView.HandleDateChange | frontend/src/pages/NikeetaLookup.jsx:100-106 | The named date takes the new value, the other date is kept, the page resets to 1, and the pending prefetch is cancelled. |
| NikeetaLookup.LookupView.SetPresetRange | frontend/src/pages/NikeetaLookup.jsx:108-118 | When not loading, the given range is set and the page resets to 1. While loading the button is disabled and nothing changes. |
| NikeetaLookup.LookupView.HandleClearFilters | frontend/src/pages/NikeetaLookup.jsx:120-126 | When not loading: no start date, today as end date, and page 1. While loading, nothing changes. |
| NikeetaLookup.LookupView.PreviousPage | frontend/src/pages/NikeetaLookup.jsx:278-280 | The page stays at least 1. It goes down by one only when the pager is shown and the page is not 1. A page change cancels the pending prefetch; otherwise the prefetch flag is unchanged. |
| NikeetaLookup.LookupView.NextPage | frontend/src/pages/NikeetaLookup.jsx:286-288 | The page goes up by one, never past totalPages, only when the pager is shown and page < totalPages. Otherwise it is unchanged. A page change cancels the pending prefetch; otherwise the prefetch flag is unchanged. |
| NikeetaLookup.LoadTwice | frontend/src/pages/NikeetaLookup.jsx:43-87 | Two loads of the same page within 72 h send one request; the second load shows the rows the first one fetched. |
| NikeetaLookup.LoadFirstPage | frontend/src/pages/NikeetaLookup.jsx:29-98 | Loading page 1 of 120 rows sends that query, caches exactly its answer, and arms the prefetch. |
| NikeetaLookup.PrefetchAndAdvance | frontend/src/pages/NikeetaLookup.jsx:136-168 | With the prefetch armed and page 2 not cached, the timer requests and caches page 2 with the same dates, and "Next" moves to page 2. |
| NikeetaLookup.PrefetchThenNext | frontend/src/pages/NikeetaLookup.jsx:132-168 | After the prefetch of page 2, moving to page 2 is served from the cache with no request. |
| Backend.Clean | backend/app.py:101 | The kept values are a subsequence of the input, order preserved. They are exactly the input values other than "" and None. |
| Backend.NormalizeList | backend/app.py:95-101 | None gives []. A scalar is wrapped in a list before cleaning, and a list is cleaned. No result holds "" or None. |
| Backend.CleanAppend | backend/app.py:101 | Cleaning distributes over concatenation, so order is preserved. |
| Backend.CoerceCell | backend/app.py:88 | Every cell becomes a timestamp. A timestamp stays as it is, readable text becomes the instant it denotes, and None or unreadable text becomes NaT. |
| Backend.CoerceRow | backend/app.py:88 | A converted record has the same fields; the converted field holds its cell's conversion and every other field is unchanged. |
| Backend.CoerceColumn | backend/app.py:86-90 | Record count and fields are kept; in every record the column holds its cell's conversion and every other cell is unchanged. |
| Backend.LoadDates | backend/app.py:86-90 | Columns, record count and each record's fields are kept. A cell of a date column the table has is replaced by its conversion; every other cell is unchanged. |
| Backend.CoerceKeepsOtherCells | backend/app.py:88 | Coercing one column changes no other column. |
| Backend.CoerceIdempotent | backend/app.py:191 | Re-coercing an already coerced column, as the lookup endpoint does, changes nothing. |
| Backend.Keep | backend/app.py:115-121 | A boolean mask keeps a subsequence of the records, order preserved. |
| Backend.KeepSingle | backend/app.py:115-121 | A single record is kept exactly when it passes every test. |
| Backend.KeepAppend | backend/app.py:115-121 | The mask works record by record: masking a concatenation concatenates the masked parts. |
| Backend.KeepCount | backend/app.py:115-121 | A passing record is kept as many times as the frame holds it, and a failing one never. |
| Backend.Passes | backend/app.py:112-121 | One boolean mask on one record. Its meaning per test is given by DateRangeInclusive, DateExactMatch, ValueInList, MatchesUnassigned and PendingResponses. |
| Backend.KeepMember | backend/app.py:115-121 | A record survives the mask exactly when it was in the frame and passes every test. |
| Backend.PassesAllConcat | backend/app.py:106-121 | Passing all of two test lists is passing each list. |
| Backend.KeepKeep | backend/app.py:105-122 | Filtering in two rounds equals filtering once by all the tests together, which is how the loop's reassignments compose. |
| Backend.KeepNone | backend/app.py:105 | With no tests, every record is kept, as the frame's copy is. |
| Backend.DateTest | backend/app.py:111-119 | A date test succeeds only for a column the frame has, and then yields a test. |
| Backend.Compile | backend/app.py:106-121 | An item is skipped exactly when its cleaned list is empty. A test is produced only for an existing column. A missing non-date column raises KeyError. |
| Backend.Outcomes | backend/app.py:106-107 | There is one compiled outcome per filter item. |
| Backend.CompileAll | backend/app.py:106-121 | The tests of all items in order, or the first item's error. CompileAllMeaning gives its meaning. |
| Backend.GatherSucceeds | backend/app.py:106-121 | Filtering succeeds if and only if every item compiles. |
| Backend.GatherFirstFault | backend/app.py:106-121 | A raised error is that of the first failing item; every earlier item succeeded. |
| Backend.GatherConjunction | backend/app.py:106-121 | A record passes the gathered tests exactly when every item admits it. |
| Backend.GatherStep | backend/app.py:106-121 | One more item either raises its own error or appends its test. |
| Backend.GatherStops | backend/app.py:106-121 | Once an item has raised, later items do not change the outcome. |
| Backend.CompileAllMeaning | backend/app.py:104-122 | Success if and only if every item compiles; a failure is some item's error; on success the filters are the conjunction of the items. |
| Backend.FilterFrameRows | backend/app.py:104-122 | The filtered rows are an order-preserving subsequence of the input. Columns are kept, and a record survives exactly when every item admits it. |
| Backend.FilterFrame | backend/app.py:104-122 | `apply_filters` succeeds exactly when every item compiles, with the first item's error otherwise. On success the columns are kept and the records are a subsequence of the input. |
| Backend.ApplyFilters | backend/app.py:104-122 | The loop over the items computes `FilterFrame`, whose meaning `FilterFrameRows` and `CompileAllMeaning` give. |
| Backend.ExtraDatesIgnored | backend/app.py:112-116 | With two or more dates, values after the second do not matter. |
| Backend.DateRangeInclusive | backend/app.py:112-116 | A date range keeps exactly the records whose date lies in [start, end], both ends included. NaT is never kept. |
| Backend.DateExactMatch | backend/app.py:95-119 | Any filter value whose normalised list is one date (a scalar, a one-element list, or a list with blanks) keeps exactly the records whose date equals it. |
| Backend.OneDateAndBlank | backend/app.py:95-101 | A date posted together with an empty input normalises to that one date, so it takes the one-date branch. |
| Backend.ValueInList | backend/app.py:95-121 | For any posted form, scalar or list, whose cleaned list is non-empty, a record on another column is kept exactly when its value is in that list; for a list, exactly when it is one of the posted values other than "" and None. |
| Backend.PendingResponses | backend/app.py:167-175 | See the PendingResponses note below. |
| Backend.NextDay | backend/app.py:204 | `end + 1 day` adds 86 400 000 ms, and NaT stays NaT. |
| Backend.Clamp | backend/app.py:211 | The clamped index is within the length and is unchanged when already in range. |
| Backend.PySlice | backend/app.py:211 | A Python slice holds only elements of the sequence. |
| Backend.Paginate | backend/app.py:207-211 | A page holds at most page_size records, all of them from the rows; PageWindow gives the exact window. |
| Backend.NikeetaLookup | backend/app.py:178-220 | The step-by-step endpoint computes `LookupResult`, whose meaning the lemmas below give. |
| Backend.NarrowByDates | backend/app.py:193-204 | The start-date step, then the end-date step. An unreadable given date raises as `DateBounds` does; otherwise the result is the records the bounds admit, in order. |
| Backend.SliceBounded | backend/app.py:208-211 | A page slice holds at most page_size records. |
| Backend.PageWindow | backend/app.py:207-211 | For page >= 1, the page is exactly the records from (page-1)*size to page*size, clipped to the table. |
| Backend.NonPositivePageWindow | backend/app.py:207-211 | Page 0 or page size 0 gives no records. A negative page gives Python's negative-index window: it ends -page*size records before the end of the table and is cut at the first record. |
| Backend.DateBounds | backend/app.py:193-204 | The start bound, then the end bound, each only when its date is given. BoundsMeaning states what they admit. |
| Backend.Respond | backend/app.py:207-220 | The response: the page cut from the matches, the count of all matches, and the echoed page and size. LookupResult, LookupAnswer and PageWindow state its properties. |
| Backend.LookupMatches | backend/app.py:184-204 | A missing `task_status` column raises KeyError. Otherwise only an unreadable given date can raise, and only when the table has the email column. Without dates, the lookup always succeeds. |
| Backend.LookupResult | backend/app.py:178-220 | The lookup succeeds exactly when its matching does, with the same error otherwise. `total` counts all matches, and `data` is the requested page of those same matches. |
| Backend.MatchesUnassigned | backend/app.py:184-185 | Every match has an empty or null status, and there are no more matches than records. |
| Backend.LookupAnswer | backend/app.py:207-220 | See the LookupAnswer note below. |
| Backend.LookupWithinDates | backend/app.py:193-204 | See the LookupWithinDates note below. |
| Backend.BoundsMeaning | backend/app.py:195-204 | The compiled date bounds admit a record exactly when its email date is within the given dates (`InDates`). |
| Backend.CoercedMember | backend/app.py:191 | A converted table holds exactly the conversions of the table's records. |
| Backend.CoerceKeepsUnassigned | backend/app.py:184-191 | Converting the email date does not change whether a record is unassigned. |
| Backend.KeepCoerceCommute | backend/app.py:184-191 | Converting the email column after the unassigned mask gives the same records as converting first and masking after. |
| Backend.LookupOneMask | backend/app.py:184-204 | With an email column, the matches are one mask over the converted table: unassigned, then the date bounds. |
| Backend.LookupMatchesExactly | backend/app.py:184-204 | See the LookupMatchesExactly note below. |
| Backend.LookupCounts | backend/app.py:184-207 | A converted record occurs among the matches, which `total` counts, as often as in the converted table when it is unassigned and within the dates, and never otherwise. |
| Backend.NaTOnlyWithoutDates | backend/app.py:193-204 | An unassigned record whose email date is unreadable is matched exactly when neither date is given. |
| Backend.NoDatesKeepsEveryUnassigned | backend/app.py:184-204 | Without dates, every unassigned record is matched, with its email date converted when the column exists, for any page. |
| Backend.DefaultLookup | backend/app.py:129-133 | Without dates, with page 1 and size 50, the answer is the first 50 unassigned records and their count. |
| FilterOptions.Distinct | frontend/src/pages/Assessments.jsx:34-36 | `Array.from(new Set(...))`: DistinctElements and DistinctFirstSeen state that it keeps each value once, in first-seen order. |
| FilterOptions.Options | frontend/src/pages/Assessments.jsx:26-36 | The options object the nested `forEach` builds. CollectOptions computes it; OptionsCoverKeys, OptionsListValues, OptionsNoDuplicates and OptionsFirstSeen state what it holds. |
| FilterOptions.DistinctElements | frontend/src/pages/Assessments.jsx:30-35 | The array made from the Set holds exactly the added values, each once. |
| FilterOptions.CollectOptions | frontend/src/pages/Assessments.jsx:27-36 | The nested loops build exactly `Options(rows)`: one list per field name, holding that field's distinct values. |
| FilterOptions.AddRow | frontend/src/pages/Assessments.jsx:29-32 | Adding one row's fields turns the options of the rows seen so far into those of the rows plus that row. |
| FilterOptions.AddRowDescribes | frontend/src/pages/PendingAssessments.jsx:26-31 | A field's list grows by the row's value only when it is new and not a skipped null; other fields keep their lists. |
| FilterOptions.ColumnMembers | frontend/src/pages/PendingAssessments.jsx:26-30 | A value is collected for a field exactly when some row has it under that field, and it is not a skipped null. |
| FilterOptions.OptionsCoverKeys | frontend/src/pages/Assessments.jsx:28-30 | There is a list for a field name if and only if some row has that field, even when all its values are skipped. |
| FilterOptions.OptionsListValues | frontend/src/pages/PendingAssessments.jsx:26-30 | A field's list holds exactly the values the field takes in some row. The pages that skip nulls never list null. |
| FilterOptions.OptionsNoDuplicates | frontend/src/pages/Assessments.jsx:30-36 | No option list holds a value twice. |
| FilterOptions.DistinctFirstSeen | frontend/src/pages/Assessments.jsx:35 | `Array.from(new Set(vs))` lists values in the order of their first occurrence in `vs`. |
| FilterOptions.OptionsFirstSeen | frontend/src/pages/Assessments.jsx:28-36 | Each option list is in the order its values first occur down the rows. |
| Filters.FilterState.constructor | frontend/src/pages/Assessments.jsx:9 | A page starts with no filters. |
| Filters.IsDate | frontend/src/components/Filters.jsx:37 | The two fields shown as date inputs; IsDateAgreesWithBackend ties them to the backend's date columns. |
| Filters.IsDateAgreesWithBackend | frontend/src/components/Filters.jsx:37 | The panel's date fields are exactly the backend's date columns. |
| Filters.FilterPanel.constructor | frontend/src/components/Filters.jsx:4 | The panel starts with no stored date ranges. |
| Filters.FilterPanel.HandleSelect | frontend/src/components/Filters.jsx:6-8 | The field's filter becomes [value], or [] for the empty "Choose" value. Every other field is unchanged. |
| Filters.FilterPanel.HandleDateChange | frontend/src/components/Filters.jsx:10-20 | See the HandleDateChange note below. |
| Filters.DateFilterShape | frontend/src/components/Filters.jsx:15-19 | A date filter is either cleared or a pair of two non-empty dates holding the new value at the edited end. |
| Filters.PickRange | frontend/src/components/Filters.jsx:10-20 | On a fresh panel, picking a start filters nothing yet; picking an end then gives the full range. |
| Filters.Upper | frontend/src/components/Filters.jsx:35 | Each lower-case ASCII letter becomes the upper-case letter at the same place in the alphabet; every other character is kept. |
| Filters.Label | frontend/src/components/Filters.jsx:35 | The label has the key's length, with each `_` replaced by a space and then upper-cased. |
| Filters.LabelShape | frontend/src/components/Filters.jsx:35 | A label has no `_` and no lower-case letter. Its spaces are exactly the key's underscores and spaces. |
| Filters.LabelIdempotent | frontend/src/components/Filters.jsx:35 | Labelling a label changes nothing. |
| Assessments.AssessmentsPage.constructor | frontend/src/pages/Assessments.jsx:8-13 | Initial state: no rows, no options, loading, no error. |
| Assessments.AssessmentsPage.FetchAssessments | frontend/src/pages/Assessments.jsx:17-45 | On success: the rows are `res.data \|\| []`, the error is cleared, and the options are `Options` of the rows with nulls kept. On failure: the error text is set and rows and options are kept. Loading always ends. |
| Assessments.AssessmentsPage.ApplyFilters | frontend/src/pages/Assessments.jsx:50-59 | The current filters are posted. Success replaces the rows with `res.data \|\| []`, and a failure leaves them unchanged. |
| AssessmentsResponse.ResponsesPage.constructor | frontend/src/pages/AssessmentsResponse.jsx:8-12 | Initial state: no rows, no options, loading, no error. |
| AssessmentsResponse.ResponsesPage.FetchResponses | frontend/src/pages/AssessmentsResponse.jsx:15-43 | As for the assessments page, except that the options skip nulls. |
| AssessmentsResponse.ResponsesPage.ApplyFilters | frontend/src/pages/AssessmentsResponse.jsx:48-57 | The current filters are posted. Success replaces the rows, and a failure leaves them unchanged. |
| PendingAssessments.PendingPage.constructor | frontend/src/pages/PendingAssessments.jsx:8-12 | Initial state: no rows, no options, loading, no error. |
| PendingAssessments.PendingPage.FetchPending | frontend/src/pages/PendingAssessments.jsx:15-45 | The mount posts an empty selection. Success sets the rows, clears the error and builds options without nulls; failure sets the error text. Loading always ends. |
| PendingAssessments.PendingPage.ApplyFilters | frontend/src/pages/PendingAssessments.jsx:50-59 | The current filters are posted to the same endpoint. Success replaces the rows, and a failure leaves them unchanged. |
| PendingAssessments.ApplyBeforeChoosing | frontend/src/pages/PendingAssessments.jsx:15-59 | Applying before any choice posts the same empty selection as the mount and shows the same rows. |
| Config.ConfiguredBase | frontend/src/config.js:3-7 | The result is set if and only if one of the four variables is set; it is the first set one, or else the last operand. |
| Config.ApiBase | frontend/src/config.js:3-10 | The base is the first set variable with its trailing slashes removed, or `http://localhost:8000` when none is set, and never ends in `/`. |
| Config.WarnsOfFallback | frontend/src/config.js:12-16 | The development build warns exactly when none of the four variables is set. |
| Config.StripTrailingSlashes | frontend/src/config.js:10 | The result is a prefix of the input, does not end in `/`, and only slashes were removed. |
| Config.StripUnique | frontend/src/config.js:10 | Those three properties determine the result, so only the maximal trailing run of slashes goes. |
| Config.StripIdempotent | frontend/src/config.js:10 | Normalising twice is normalising once. |
| Config.StripIgnoresAddedSlashes | frontend/src/config.js:10 | Extra trailing slashes in the variable do not change the base. |
| Config.UnsetUsesFallback | frontend/src/config.js:9-10 | With no variable set, the base is `http://localhost:8000`. |
| Config.WarningMeansFallback | frontend/src/config.js:12-16 | The development warning appears only when the fallback base is in use. |
| Config.ConfiguredIsUsed | frontend/src/config.js:3-10 | A set `VITE_API_BASE` is used, minus trailing slashes, and the base never ends in `/`. |

Notes on the longer contracts:

- **NikeetaLookup.LookupView.FetchData.** The contract is stated through the cache policy
  `Lookup`. A fresh hit shows the cached rows and total, sends nothing, and leaves storage as it
  was. Otherwise the query for the current dates and page is sent:
  - on success, the normalised rows and total are shown, and storage is the policy's result
    (the expired entry removed) with the new stamped entry written, unless the write is
    rejected;
  - on failure, rows and total are kept, the error text is set, and storage is the policy's
    result.

  Loading always ends, and any pending prefetch is cleared.
- **NikeetaLookup.LookupView.PrefetchTimerFires.** If no prefetch is armed, or the next page's
  slot is present (even if expired), nothing is sent and storage is unchanged. Otherwise the
  query for page+1 with the same dates is sent. Its answer is stored with the current timestamp
  on success, and a failure changes nothing.
- **Backend.PendingResponses.** A missing `task_status` column raises, and otherwise a missing
  `feedback` column raises. Otherwise the result equals filtering the pending records: null
  status or null feedback, and status not "completed". The rows are an order-preserving
  subsequence, and a record is in them exactly when it is pending and every filter admits it.
- **Backend.LookupAnswer.** Every returned record is unassigned. At most page_size records are
  returned. `total` counts all matches before slicing and is at most the table size. `page` and
  `page_size` are echoed back.
- **Backend.LookupWithinDates.** Every returned record has a real timestamp. It is at or after the
  start date when one is given, and at or before the end date plus one day when one is given.
- **Backend.LookupMatchesExactly.** This is the converse of LookupWithinDates. Without an email
  column, a record is matched exactly when it is an unassigned record of the table. With one, a
  record is matched exactly when it is the conversion of an unassigned record of the table and its
  email date passes each given bound: not before the start date, and not after the day that follows
  the end date. A bound that is not given filters nothing, NaT dates included.
- **Filters.FilterPanel.HandleDateChange.** The stored pair starts as ["", ""] when the field has
  none. Only the edited end changes. The field's filter becomes the pair exactly when both ends
  are non-empty, and [] otherwise. Nothing else changes.

## Left out

- I/O and the services behind it are parameters and not modelled:
  - the HTTP transport (axios) and the FastAPI routing;
  - `load_data` and its database query (only its date coercion is modelled, as `LoadDates`);
  - the `astype(object)`/`to_dict` conversion of frames to JSON records.
- Python's raising `pd.to_datetime` is a `Parser` parameter. Timezones, and date strings without
  a time, are not modelled.
- `Date.now()`, `new Date().toISOString()` and the day arithmetic of the preset buttons are not
  modelled; the dates and times are passed in.
- Asynchrony is not modelled. Each effect runs to completion when called. The model leaves out:
  - interleaving of in-flight requests;
  - a stale response landing after the dates or page changed;
  - the 1500 ms prefetch delay, beyond the armed flag.
- The React render cycle and the ordering of effects are not modelled. `PrefetchEffect` is
  called explicitly after the state it depends on changes.
- Rendering is not modelled: tables, CSS, the debug panels, the "Page x of y" text, and the
  pending page's `Total:` counter (it displays `data.length`).
- `console` logging and timing are not modelled. The `ENV.DEV` warning appears only as the
  predicate `WarnsOfFallback`.
- Record values are whole numbers, strings or null. Floating-point numbers, booleans, nested
  JSON and `undefined` are not modelled. The null guard of two pages therefore tests only for
  null.
- A `res.data` that is neither missing nor an array is not modelled.
- The key order of the `options` object is not modelled. The model keeps options as a map and
  proves the order of the values inside each list.
- JavaScript numbers are modelled as unbounded integers. `page` and `total` are doubles in the view, and `JSON.stringify` prints values from 1e21 up in exponent form. Integers above 2^53 merge. The view never reaches such pages, so key injectivity is stated for unbounded integers.
- Filters.Upper: upper-cases ASCII letters only. `toUpperCase` on other alphabets (for example
  "ß" to "SS") is not modelled.
- Pydantic request validation is not modelled. The lookup request arrives already typed, with
  the defaults 1 and 50.
- Cache entries are modelled by what a read yields, not by their JSON text. `Corrupt` stands for
  text `JSON.parse` rejects. A stored entry that parses but lacks `timestamp` or `data` is not
  modelled.
- CacheLogic.GetCachedData: a corrupt slot makes the function in the cache test throw. The model
  returns `ParseError` instead, which the lookup view treats as its `catch` does.
