# AlphaVantage incremental loader — a Dafny model

This project models the AlphaVantage loader helper `scripts/utils/alphav_functions.py` and
proves properties of the model. The helper has four jobs:

- It classifies a decoded AlphaVantage response as a time series, a commodity series or an
  unrecognised payload.
- It filters the series against a stored watermark date and sorts it by date.
- It parses each entry into the tuple of the matching table.
- It inserts the rows with INSERT OR IGNORE, then moves the watermark of
  (source type, symbol, market, interval) to the date of the last row.

## Modules

- `Dates` (dates.dfy): Python's `<` on `str`, which is lexicographic by code point, with its
  order laws.
- `Json` (json.dfy): decoded JSON values and the dict lookups the helper makes. A dict is an
  association list in insertion order, and a lookup takes the first entry with the key.
- `Strings` (strings.dfy): the Python `str` operations the helper applies to text: `in`,
  `strip` and `replace`.
- `Parsers` (parsers.dfy): `parse_stocks_row`, `parse_fx_row`, `parse_crypto_row`,
  `parse_commodity_row` with `_safe_float`, and `extract_date`. Python's `float()` and `int()`
  on a `str` are abstract parameters (`Numeric`). Each is a partial parse, and a refusal is
  the ValueError.
- `Incremental` (incremental.dfy): `filter_and_sort`. The comprehension stops at its first
  exception. `sorted` is a stable insertion sort on the date.
- `Normalize` (normalize.dfy): the classification part of `fetch_alpha_vantage`, and the
  `api_last_refresh` lookup.
- `Store` (store.dfy): the database.
  - It is a class `Store` whose fields are the metadata map, the four data tables, and the
    commodity lookup map.
  - Each method is proved against a pure transition on the value `StoreState`:
    `get_metadata`, `insert_*_rows`, `upsert_commodity_lookup` and `upsert_metadata`.
- `Loader` (loader.dfy): `alphav_loader` as a method on a `Store`.
  - It is proved to leave the store as the pure function `LoadEffect` says.
  - It returns the result `LoadEffect` says: either the parsed rows or the exception.
  - The lemmas about `LoadEffect` state what a load does to the database.

Exceptions raised by the helper's own Python code are values of `Faults.Fault`; the
exceptions sqlite3 can raise are listed under "## Left out":

| Fault | Python exception |
|---|---|
| `TypeError` | TypeError |
| `KeyError(k)` | KeyError |
| `AttributeError` | AttributeError |
| `ConversionError` | ValueError raised by `float()` or `int()` |
| `InvalidSourceType(s)` | the ValueError for an unknown source type |

A write committed before an exception stays in the database.

The loader's modelled outcome ends in one of two ways:

- an exception, described by a `Fault`, after any writes committed before it;
- the rows it parsed. `alphav_loader` itself returns None; the model returns the parsed rows
  so that their dates can be stated.

## Model

| member | source | states |
|---|---|---|
| Dates.LtTransitive | scripts/utils/alphav_functions.py:205-208 | str `<` on dates is transitive, so sorting by it is well defined |
| Dates.LtTrichotomous | scripts/utils/alphav_functions.py:205-208 | any two dates are equal or one is smaller: `date > max_data_date` and the sort key totally order the dates |
| Json.FirstKeyContaining | scripts/utils/alphav_functions.py:51 | `next(k for k in data if sub in k)` returns the first key containing the substring, and None exactly when no key contains it |
| Strings.StripIsInnerText | scripts/utils/alphav_functions.py:114 | `strip` returns the text between the leading and the trailing white space; what it drops is white space, and what it keeps starts and ends with a non-space |
| Strings.StripIgnoresPadding | scripts/utils/alphav_functions.py:114 | white space padding on either side does not change the result of `strip` |
| Strings.RemoveChar | scripts/utils/alphav_functions.py:119 | `replace(c, "")` leaves no `c` and keeps every other character as often as before |
| Parsers.SafeFloat | scripts/utils/alphav_functions.py:111-123 | `_safe_float`; no contract of its own: SafeFloatIgnoresPadding, PlaceholdersReadAsMissing, SafeFloatReadsCleanText and SeparatorIsIgnored state what it reads |
| Parsers.ExtractDate | scripts/utils/alphav_functions.py:224-228 | `extract_date`; no contract of its own: Loader.ExtractDateOfParsedRow and Loader.ParsedRowDates state that it finds the date each parser wrote |
| Parsers.Truncate | scripts/utils/alphav_functions.py:81 | `int()` of a float rounds toward zero |
| Parsers.Prices | scripts/utils/alphav_functions.py:77-80 | the four price columns succeed iff every price key is present and `float()` accepts it; a non-dict raises TypeError and a missing "1. open" raises KeyError |
| Parsers.ParseStocksRow | scripts/utils/alphav_functions.py:73-82 | the row is (symbol, date, open, high, low, close, int volume), built iff the prices parse and `int()` accepts the volume; the errors otherwise |
| Parsers.ParseFxRow | scripts/utils/alphav_functions.py:85-94 | the row is (from, to, date, open, high, low, close), built iff the prices parse |
| Parsers.ParseCryptoRow | scripts/utils/alphav_functions.py:97-107 | the row is (code, fiat, date, open, high, low, close, float volume), built iff the prices parse and `float()` accepts the volume |
| Parsers.ParseCommodityRow | scripts/utils/alphav_functions.py:110-129 | the row is (id, date, `_safe_float(value)`); it fails only when `values` is not a dict, whatever the value holds |
| Parsers.SafeFloatIgnoresPadding | scripts/utils/alphav_functions.py:111-123 | `_safe_float` gives the same result with or without white space around its text |
| Parsers.PlaceholdersReadAsMissing | scripts/utils/alphav_functions.py:111-117 | each placeholder ("", ".", "-", "—", "N/A", "na", "None"), padded or not, reads as None whatever `float()` would do |
| Parsers.SafeFloatReadsCleanText | scripts/utils/alphav_functions.py:118-123 | other text reaches `float()` stripped, with no comma and no space and every other character kept |
| Parsers.SeparatorIsIgnored | scripts/utils/alphav_functions.py:118-123 | a thousands separator anywhere in the number does not change the value read |
| Incremental.Keep | scripts/utils/alphav_functions.py:205 | the filter condition `full_load or date > max_data_date`; no contract of its own: SelectEntriesFull, SelectEntriesIncremental and SelectEntriesWithoutWatermark state it |
| Incremental.ItemDate | scripts/utils/alphav_functions.py:213-215 | `item["date"]` of a list item; no contract of its own: SelectItemsOutcome states when it raises |
| Incremental.SelectEntries | scripts/utils/alphav_functions.py:202-206 | the dict comprehension; no contract of its own: SelectEntriesFull, SelectEntriesIncremental and SelectEntriesWithoutWatermark state it against After |
| Incremental.SelectItems | scripts/utils/alphav_functions.py:212-216 | the list comprehension; no contract of its own: SelectItemsOutcome, SelectItemsFull and SelectItemsIncremental state it against After |
| Incremental.SortByDate | scripts/utils/alphav_functions.py:208 | `sorted(rows, key=lambda x: x[0])`; no contract of its own: SortByDatePermutes, SortByDateSorted and SortByDateStable state it |
| Incremental.FilterAndSort | scripts/utils/alphav_functions.py:196-218 | `filter_and_sort`; no contract of its own: FilterAndSortOutcome, FullLoadKeepsEverything, IncrementalKeepsNewer, LastIsNewest and NothingAfterNewest state it |
| Incremental.SortByDatePermutes | scripts/utils/alphav_functions.py:208 | sorting neither loses nor duplicates a pair |
| Incremental.SortByDateSorted | scripts/utils/alphav_functions.py:208 | the sorted pairs are in ascending date order |
| Incremental.SortByDateStable | scripts/utils/alphav_functions.py:208 | pairs with equal dates keep their input order (Python's sort is stable) |
| Incremental.SelectEntriesFull | scripts/utils/alphav_functions.py:202-206 | on a full load the dict comprehension keeps every entry, in order |
| Incremental.SelectEntriesIncremental | scripts/utils/alphav_functions.py:202-206 | on an incremental load it keeps exactly the entries dated after the watermark, in order |
| Incremental.SelectEntriesWithoutWatermark | scripts/utils/alphav_functions.py:205 | an incremental filter without a watermark raises on any non-empty dict |
| Incremental.SelectItemsOutcome | scripts/utils/alphav_functions.py:212-216 | the list comprehension succeeds iff every item is a dict with a str "date" and the comparison is never made against None |
| Incremental.SelectItemsFull | scripts/utils/alphav_functions.py:212-216 | on a full load every item comes back as (item["date"], item) |
| Incremental.SelectItemsIncremental | scripts/utils/alphav_functions.py:212-216 | on an incremental load exactly the items dated after the watermark come back |
| Incremental.FilterAndSortOutcome | scripts/utils/alphav_functions.py:196-218 | `filter_and_sort` succeeds iff the series is iterable and the comparison is never made against None |
| Incremental.FullLoadKeepsEverything | scripts/utils/alphav_functions.py:196-218 | a full load returns a permutation of the series, sorted, with equal dates in input order |
| Incremental.IncrementalKeepsNewer | scripts/utils/alphav_functions.py:196-218 | an incremental load returns exactly the entries newer than the watermark, each as often as it occurs, sorted, equal dates in input order |
| Incremental.LastIsNewest | scripts/utils/alphav_functions.py:196-218 | the last pair returned has the greatest date of the whole series, and in incremental mode that date is after the watermark |
| Incremental.NothingAfterNewest | scripts/utils/alphav_functions.py:196-218 | with the newest date of the series as the watermark, an incremental filter returns nothing |
| Normalize.CommodityMeta | scripts/utils/alphav_functions.py:57-61 | the `{name, interval, unit}` metadata of a commodity body; no contract of its own: CommodityResponse and CommodityMetaHasNoRefresh state it |
| Normalize.ClassifyResponse | scripts/utils/alphav_functions.py:48-66 | classification fails exactly on a body that is not a dict, with AttributeError |
| Normalize.TimeSeriesResponse | scripts/utils/alphav_functions.py:49-53 | with a key containing "Time Series", the result is ("Meta Data" or {}, the value under the first such key) |
| Normalize.CommodityResponse | scripts/utils/alphav_functions.py:56-63 | otherwise, with both "data" and "name" present, the result is ({name, interval, unit}, data) |
| Normalize.UnrecognisedResponseHasNoRows | scripts/utils/alphav_functions.py:65-66 | any other body gives an empty series, and filtering it yields no rows in either mode |
| Normalize.LastRefreshed | scripts/utils/alphav_functions.py:278-281 | the refresh lookup fails exactly when the metadata is not a dict; otherwise it is the value of the first key containing \"Last Refreshed\", or None when no key contains it |
| Normalize.CommodityMetaHasNoRefresh | scripts/utils/alphav_functions.py:57-61 | the commodity metadata has no "Last Refreshed" key, so its refresh stamp is None |
| Store.Upsert | scripts/utils/alphav_functions.py:184-187 | after an upsert the key maps to the new value and every other key is unchanged |
| Store.UpsertIdempotent | scripts/utils/alphav_functions.py:242-246 | repeating an upsert with the same values gives the same mapping |
| Store.InsertOrIgnore | scripts/utils/alphav_functions.py:136-139 | `executemany` of INSERT OR IGNORE; no contract of its own: the InsertOrIgnore* lemmas below state it |
| Store.InsertOrIgnoreKeepsExisting | scripts/utils/alphav_functions.py:142-148 | INSERT OR IGNORE never changes a stored row |
| Store.InsertOrIgnoreStoresEveryKey | scripts/utils/alphav_functions.py:136-139 | after `executemany` every row of the batch has its key in the table |
| Store.InsertOrIgnoreFirstWins | scripts/utils/alphav_functions.py:136-139 | a new key gets the first row of the batch with that key |
| Store.InsertOrIgnorePreservesValid | scripts/utils/alphav_functions.py:136-139 | every row stays filed under its own primary key |
| Store.InsertOrIgnoreIdempotent | scripts/utils/alphav_functions.py:136-139 | inserting the same batch twice stores it once |
| Store.InsertRowsIntoExtends | scripts/utils/alphav_functions.py:136-175 | an insert into one table keeps every stored row of every table and every watermark |
| Store.UpsertMetadataInExtends | scripts/utils/alphav_functions.py:235-249 | a watermark upsert keeps every data row and every other watermark |
| Store.Store.Open | scripts/utils/alphav_functions.py:257 | a connection sees the database as it is |
| Store.Store.GetMetadata | scripts/utils/alphav_functions.py:23-35 | returns the stored `max_data_date` of the key, or None when the key was never loaded |
| Store.Store.InsertRows | scripts/utils/alphav_functions.py:136-139 | the table becomes the INSERT OR IGNORE of the batch, row by row; nothing else changes |
| Store.Store.InsertStocksRows | scripts/utils/alphav_functions.py:142-148 | inserts into the stocks table only |
| Store.Store.InsertFxRows | scripts/utils/alphav_functions.py:151-157 | inserts into the FX table only |
| Store.Store.InsertCryptoRows | scripts/utils/alphav_functions.py:160-166 | inserts into the crypto table only |
| Store.Store.InsertCommoditiesRows | scripts/utils/alphav_functions.py:169-175 | inserts into the commodity table only |
| Store.Store.UpsertCommodityLookup | scripts/utils/alphav_functions.py:178-189 | the lookup row of the id becomes (name, interval, unit); nothing else changes |
| Store.Store.UpsertMetadata | scripts/utils/alphav_functions.py:235-249 | the watermark row of the key becomes (date, refresh stamp); nothing else changes |
| Loader.ParseSourceType | scripts/utils/alphav_functions.py:285-312 | dispatch succeeds exactly on "stocks", "fx", "crypto" and "commodity" |
| Loader.ExtractDateOfParsedRow | scripts/utils/alphav_functions.py:224-228 | `extract_date` finds in each parsed row the date its parser wrote |
| Loader.CollectOutcome | scripts/utils/alphav_functions.py:319-322 | the row comprehension succeeds iff every pair parses (the first raising pair aborts it) |
| Loader.CollectInOrder | scripts/utils/alphav_functions.py:319-322 | a successful comprehension holds exactly one row per pair, row i being the parse of pair i |
| Loader.ParsedRowDates | scripts/utils/alphav_functions.py:319-322 | row i carries the date of pair i where `extract_date` reads it |
| Loader.ResolveMode | scripts/utils/alphav_functions.py:264-269 | a full load happens exactly on a history sweep or a missing watermark; a sweep drops the watermark |
| Loader.ModeNeverComparesWithNone | scripts/utils/alphav_functions.py:264-269 | with the mode the loader picks, filtering fails only on a series it cannot iterate, never on a comparison with None |
| Loader.Fetch | scripts/utils/alphav_functions.py:276-281 | the metadata of a classified response is a dict |
| Loader.LookupStepTouchesOnlyLookup | scripts/utils/alphav_functions.py:297-308 | the commodity branch writes only the lookup table, and the other branches write nothing |
| Loader.NewRows | scripts/utils/alphav_functions.py:317-322 | one row per filtered pair, carrying that pair's date |
| Loader.StoreNewRows | scripts/utils/alphav_functions.py:329-349 | rows go to the table of the source type, then the watermark becomes the last row's date; with no rows, nothing is written |
| Loader.Settle | scripts/utils/alphav_functions.py:329-349 | steps 5 and 6 of the loader; no contract of its own: Loader.StoreNewRows is proved against it, and SettleRecordsLastDate, SettleIdempotent and SettleKeepsLookup state it |
| Loader.LoadEffect | scripts/utils/alphav_functions.py:256-355 | one call of `alphav_loader` on a database state; no contract of its own: Loader.AlphavLoader is proved against it, and the lemmas below state it |
| Loader.AlphavLoader | scripts/utils/alphav_functions.py:256-355 | the database afterwards and the outcome are exactly those of `LoadEffect` |
| Loader.NoRowsNoWrites | scripts/utils/alphav_functions.py:324-351 | a load that parsed no rows or raised changes no data table and no watermark; only a commodity load may have upserted its lookup row |
| Loader.UnknownSourceTypeWritesNothing | scripts/utils/alphav_functions.py:310-312 | an unknown source type leaves the database unchanged; once the body was classified and its refresh stamp read, the load raises the ValueError (`InvalidSourceType`), and a body that fails earlier raises that earlier exception |
| Loader.CommodityLoadUpsertsLookup | scripts/utils/alphav_functions.py:297-308 | every commodity load whose response was classified sets the lookup row of its symbol to the response's (name, interval, unit), whether rows follow or parsing raises, and changes no other lookup row |
| Loader.ErrorPayloadClearsLookup | scripts/utils/alphav_functions.py:297-308 | a commodity load of an error or rate-limit payload (no series, no commodity data, no "Meta Data"), which classification turns into empty metadata at lines 49 and 66, overwrites the symbol's lookup row with (None, None, None), returns no rows and writes nothing else |
| Loader.SettleKeepsLookup | scripts/utils/alphav_functions.py:329-349 | storing rows and their watermark leaves the lookup table alone |
| Loader.SettleRecordsLastDate | scripts/utils/alphav_functions.py:333-348 | after rows were stored, the watermark row is (date of the last row, refresh stamp) |
| Loader.LoadKeepsStoredRows | scripts/utils/alphav_functions.py:329-349 | a load keeps every stored row and every other combination's watermark, and keeps rows filed under their keys |
| Loader.LoadStoresEveryRow | scripts/utils/alphav_functions.py:329-331 | afterwards every returned row has its key in the table of its source type |
| Loader.LoadedRowsFollowFilter | scripts/utils/alphav_functions.py:317-322 | the returned rows are the filtered pairs in order, row i dated as pair i |
| Loader.LoadAdvancesWatermark | scripts/utils/alphav_functions.py:329-349 | after a load with rows, the watermark is the date of the last row. That date occurs in the series and no date of the series is later. On an incremental load it is strictly after the old watermark |
| Loader.FullLoadReturnsEveryEntry | scripts/utils/alphav_functions.py:264-322 | a full load returns one row per series entry: every date of the series is a row's date and every row's date is one of the series, in ascending order |
| Loader.RowsOfNewerPairs | scripts/utils/alphav_functions.py:196-218 | rows carrying the dates an incremental filter kept are dated after the watermark, ascending, one for every newer date of the series |
| Loader.RowsOfAllPairs | scripts/utils/alphav_functions.py:196-218 | rows carrying the dates a full load kept number one per series entry, every series date is a row's date and every row's date is a series date, ascending |
| Loader.IncrementalLoadReturnsNewer | scripts/utils/alphav_functions.py:264-322 | an incremental load returns rows dated after the watermark, in ascending order, and one for every newer date of the series |
| Loader.SettleIdempotent | scripts/utils/alphav_functions.py:329-349 | storing the same rows and watermark twice stores them once |
| Loader.ReloadIsIdempotent | scripts/utils/alphav_functions.py:256-355 | the same load run twice leaves the database as the first run left it; in incremental mode the second run returns no rows once the first returned some |

## Left out

- The HTTP request in `fetch_alpha_vantage` (lines 43-46) is left out. The decoded body is an input of the classifier and of the loader.
- Loading `.env` and the API-key check at import time (lines 10-16) are configuration I/O and are left out.
- The SQLite mechanics are replaced by maps: connect, PRAGMA, cursors, SQL text, commit and close. The primary keys of the data tables are not part of the source, so each table carries its key columns as a parameter.
- `update_date = CURRENT_TIMESTAMP` in `upsert_metadata` is a clock reading and is not modelled.
- The debug `print` calls and the `time.sleep(15)` throttle (line 355) are left out.
- `float()` and `int()` on text are abstract partial parses (`Parsers.Numeric`). Their IEEE floating-point behaviour is not modelled. A JSON number is a `real`.
- Incremental.ItemDate: in the model, a list item whose "date" is not a `str` raises TypeError in both modes. Python raises only when such a date is compared: in incremental mode, or when the sort compares it with a `str`. A full load of a list whose dates are all non-strings of one comparable type is therefore not modelled.
- Loader.AlphavLoader: the default arguments (`market="USD"`, `interval="daily"`, `history_sweep=False`) are left to the caller, and `alphav_params` is replaced by the decoded response.
- Loader.ReloadIsIdempotent: "the second run yields zero new rows" holds in incremental mode. After a history sweep, the second run parses the same rows again, and INSERT OR IGNORE absorbs them.
- The driver scripts that call `alphav_loader` with constant lists are not part of this model. The same holds for the CoinGecko and Investing.com scripts.
- sqlite3 binds only scalar parameters, and an INTEGER only within 64 bits. The model stores any JSON value and any integer. The cases it does not capture:
  - A stocks volume outside the 64-bit range makes `executemany` raise OverflowError. The uncommitted batch is then lost when the connection closes.
  - An `api_last_refresh`, name, interval or unit that is a JSON array or object makes the upsert raise ProgrammingError.
- Loader.LoadAdvancesWatermark: matches Python only when `api_last_refresh` is a scalar. For a JSON array or object, Python's watermark upsert raises after the rows were committed, and the watermark stays where it was. The model writes the watermark in that case too.
- Loader.AlphavLoader: the sqlite3 binding errors above are not among its modelled outcomes. For such inputs it returns the rows where Python raises.
- Json.Value: a decoded object may repeat a key, and lookups then take the first entry. Python's `json.loads` never builds such a dict: the last value wins, at the first key's position. Lemmas ranging over objects therefore also cover values Python never produces. Over the objects Python does produce, the model and Python agree.
