# Jakarta stock-ticker poller, modelled in Dafny

The poller runs forever against the Asia/Jakarta clock. Inside the trading
window (09:00 to 16:00 local time) it runs a cycle, then pauses five
minutes, and repeats, so cycles start five minutes plus one cycle's duration
apart. Outside the window it sleeps until 09:10: the same morning before 09:00,
the next calendar morning from 16:00 on (weekends and holidays are not
skipped).

A cycle does two things:

- It asks a quote provider about 22 Indonesian stocks and the IHSG index.
- It writes four lists of rows to a hosted database: `stocks`,
  `stock_details`, `index_prices` and `index_price_history`.

A stock's detail row comes from `parse_stock_info`. That function turns the
provider's untyped attribute bag into a row with a fixed set of columns,
through `safe_convert`.

The first three tables are written by `bulk_upsert`, which works in three
steps:

1. one select of the keys that already exist;
2. one update per batch row whose key already exists;
3. one batched insert of the new rows.

The history table is only ever inserted into.

The model has seven modules, one per file:

| file | module | what it holds |
|---|---|---|
| `values.dfy` | `PyValues` | Python values, floats and dictionaries |
| `scheduler.dfy` | `Scheduler` | the trading window and the sleeps |
| `normalizer.dfy` | `Normalizer` | `safe_convert` and `parse_stock_info` |
| `store.dfy` | `Store` | the database, and `bulk_upsert` as a class `Database` with imperative methods |
| `cycle.dfy` | `Cycle` | the symbol tables and `collect_all_data` (a loop, proved against a function) |
| `sync.dfy` | `Sync` | `perform_bulk_updates` |
| `main_loop.dfy` | `MainLoop` | one iteration of the main loop |

The database is modelled as follows:

- It is an in-memory map from table name to rows.
- It keeps a log of every call issued to it.
- It has a fixed set of call positions at which a call raises.
- A call that raises is logged but has no effect (see "## Left out").
- The predicate `Store.Ran` ties a planned sequence of calls to the log, the
  final content and the success flag. Everything after the first raising
  call is lost. Nothing before it is rolled back.

## Model

| member | source | states |
|---|---|---|
| `Scheduler.Advance` | main.py:24 | adding a timedelta moves the instant along the time line by exactly that amount |
| `Scheduler.IsWithinTradingHours` | main.py:17-18 | the window test holds exactly from 09:00:00.000000 up to, but not including, 16:00:00.000000 local time |
| `Scheduler.SleepUntilNextActiveWindow` | main.py:20-33 | 0 inside the window; before 09:00 a positive sleep ending at 09:10 the same day; from 16:00 on, a positive sleep ending at 09:10 the next day |
| `Scheduler.Step` | main.py:367-382 | a cycle runs exactly when 9 <= hour < 16, followed by a 5-minute pause; otherwise a sleep of more than 0 and less than one day |
| `Scheduler.DormantWakesInWindow` | main.py:20-33 | a dormant sleep ends at 09:10:00 exactly, inside the trading window, on the same day before 09:00 and on the next day from 16:00 on |
| `Scheduler.DormantSkipsOnlyTheOpeningMinutes` | main.py:20-33 | every instant slept through is outside the trading window, or in the first ten minutes of the window it wakes in |
| `Normalizer.Truncate` | main.py:78 | `int()` of a finite float truncates toward zero |
| `Normalizer.DecimalDigits` | main.py:82 | `str()` of a natural number is decimal digits, without a leading zero, that denote the number |
| `Normalizer.StrOf` | main.py:82 | `str(v)`: a string is itself; an int is an optional minus sign (present exactly for a negative int) and digits that `int()` reads back as the same int; a bool is "True" or "False" by its value |
| `Normalizer.Truthy` | main.py:84 | `bool(v)`: None and "" are false; a string is true exactly when non-empty, an int when non-zero, a float when it is not 0.0 (NaN is true) |
| `Normalizer.SafeConvertAsWritten` | main.py:72-88 | as written, with `float()` of an int taken as exact, the conversion escapes with OverflowError exactly for an int target and a non-missing value whose `float()` is infinite |
| `Normalizer.SafeConvert` | main.py:72-88 | None for None or ""; the result is None or of the target type; None for a non-numeric value under int or float; under float, a numeric value converts to `float(v)`, and to None where `float()` fails; under int, a finite `float(v)` is truncated toward zero; under str and bool, a non-missing value converts to `str(v)` and `bool(v)` |
| `Normalizer.SafeConvertAgreesWhereWrittenReturns` | main.py:76-88 | wherever the code as written returns, the corrected conversion gives the same value; where it raises, the corrected one gives None |
| `Normalizer.IntTruncatesThroughFloat` | main.py:77-80 | the int target is the float target truncated toward zero, and None where that is None, NaN or infinite |
| `Normalizer.ConvertRoundTrips` | main.py:77-82 | an int converts to itself under int and to its float under float; a non-empty string converts to itself under str |
| `Normalizer.OverflowEscapesAsWritten` | main.py:78-88 | +inf and -inf as floats, and a string that parses to +inf, make the int conversion as written raise; the corrected one gives None for each |
| `Normalizer.Lookup` | main.py:97-213 | the schema entry that fills a column is one of the schema's entries, with that column name |
| `Normalizer.CurrentPrice` | main.py:93-95 | current_price is None or a string |
| `Normalizer.CurrentPriceFallback` | main.py:93-95 | current_price is `str(currentPrice)` when that is present and non-empty, else `str(regularMarketPrice)` when that is, else None |
| `Normalizer.ParseWith` | main.py:97-213 | one column per schema entry holding the converted value of its source key, plus current_price and updated_at |
| `Normalizer.ParseStockInfo` | main.py:90-213 | the row has exactly the fixed columns; each column is the converted value of its provider key; current_price follows the fallback; updated_at is the clock reading |
| `Normalizer.ParseStockInfoShape` | main.py:97-213 | any two inputs give the same columns; a column whose key is absent is None; every column is None or of its declared type |
| `Normalizer.ParseStockInfoAsWritten` | main.py:90-213 | as written, parsing raises exactly when one of its conversions overflows; otherwise the row it builds, column by column from the conversions as written, is the corrected row |
| `Normalizer.WrittenRowIsCorrected` | main.py:93-212 | where no conversion raises, the dict literal built from the conversions as written equals the corrected row |
| `Store.ApplyOp` | main.py:264 | a call changes only the table it addresses |
| `Store.Partition` | main.py:258-259 | the update list holds exactly the batch rows whose key exists; the insert list holds exactly the others |
| `Store.PartitionSplits` | main.py:258-259 | together, the update list and the insert list are the batch rearranged: nothing lost, nothing duplicated |
| `Store.PartitionKeepsOrder` | main.py:258-259 | both lists keep batch order |
| `Store.UpdateOps` | main.py:262-264 | one update call per row to update |
| `Store.UpsertPlan` | main.py:245-268 | an empty batch issues no call; otherwise the first call is the select of the batch's keys |
| `Store.UpsertCallsShape` | main.py:254-268 | one select first, then the updates in batch order, then at most one insert, which is last and present exactly when a row is new |
| `Store.UpsertPlanAddresses` | main.py:245-268 | every call of a bulk upsert addresses its own table |
| `Store.Upserted` | main.py:245-268 | the reference effect of a bulk upsert: as many rows as before, followed by at most one new row per batch row, each taken from the batch (what becomes of each existing row: `Store.UpsertKeepsOtherRows`, `Store.UpsertUpdatesInPlace`) |
| `Store.UpsertEffect` | main.py:245-268 | a bulk upsert that went through leaves its table as `Upserted` describes and every other table unchanged |
| `Store.UpsertUpdatesInPlace` | main.py:258-264 | with distinct batch keys, an existing row whose key a batch row has keeps its position and becomes that row merged with the batch row |
| `Store.PatchRowUntouched` | main.py:262-264 | a row that no update's key matches is not changed |
| `Store.PatchRowKeepsKey` | main.py:262-264 | updates never change a row's key column |
| `Store.UpsertKeepsOtherRows` | main.py:245-268 | rows whose key is not in the batch keep their place and content; no row is removed |
| `Store.UpsertCoversBatch` | main.py:245-268 | after the upsert, every non-None key of the batch is in the table |
| `Store.PatchRowByUnique` | main.py:262-264 | with distinct keys, an existing row becomes the row merged with its one matching batch row |
| `Store.InsertedKeyIsNew` | main.py:254-259 | given the table's keys are present and distinct, a row the upsert inserts has a key that no existing row of the table has |
| `Store.UpsertKeepsKeysDistinct` | main.py:245-268 | a table with at most one row per key, upserted with a batch that repeats no key, still has at most one row per key |
| `Store.UpsertIdempotent` | main.py:245-268 | re-running a batch with distinct keys finds every key present, so it inserts nothing and leaves the table unchanged |
| `Store.RanStops` | main.py:362-364 | once a call raises, no later call of the plan is issued |
| `Store.RanThen` | main.py:342-358 | running one plan and then another is running their concatenation |
| `Store.Database.constructor` | main.py:70 | a fresh client holds the given content and an empty log |
| `Store.Database.Execute` | main.py:264 | one call is issued and logged; it raises, without effect, exactly at a fault position |
| `Store.Database.SelectExisting` | main.py:254-255 | the select returns the set of batch keys present in the table |
| `Store.Database.UpdateEach` | main.py:262-264 | the update loop issues the update calls in order until one raises |
| `Store.Database.BulkUpsert` | main.py:245-268 | bulk_upsert issues exactly the calls of `UpsertPlan`, in order, stopping at the first that raises |
| `Cycle.Put` | main.py:42-66 | re-assigning a key already in the dict keeps its length |
| `Cycle.PutNew` | main.py:42-66 | a new key is appended at the end of the dict |
| `Cycle.PutPresent` | main.py:42-66 | re-assigning an existing pair leaves the dict unchanged |
| `Cycle.DictOfDistinct` | main.py:42-66 | a literal without repeated keys evaluates to itself |
| `Cycle.DictOfRepeat` | main.py:42-66 | a pair repeated later in a literal leaves the dict as if listed once |
| `Cycle.EffectiveStockSymbols` | main.py:42-66 | the 23-entry literal, with "ASII.JK" twice, evaluates to the 22 distinct pairs iterated |
| `Cycle.SymbolsDistinct` | main.py:38-66 | the mappings have 22 stocks and one index, with no repeated ticker or symbol |
| `Cycle.FetchMetadata` | main.py:215-233 | None exactly when the provider raised; the price is the last one-minute close, None when there is none; name and sector default to "Unknown" only when absent; previous_close is the float conversion; the info bag is passed on |
| `Cycle.QuoteOf` | main.py:280-287 | a symbol is kept exactly when fetching raised no exception and found a price |
| `Cycle.Quotes` | main.py:280-287 | the kept quotes are exactly those of the priced symbols, at most one per pair; one per symbol when the pairs are distinct (`Cycle.QuotesDistinct`) |
| `Cycle.QuotesAppend` | main.py:280 | walking two runs of symbols one after the other gives their quotes in the same order |
| `Cycle.StockRow` | main.py:290-296 | a stocks row has the five columns, keyed by the canonical symbol, with the fetched price |
| `Cycle.DetailRow` | main.py:298-301 | a detail row has the parsed columns plus stock_symbol, which is the canonical symbol |
| `Cycle.IndexRow` | main.py:316-322 | an index row has the five columns; last_price is the fetched price and updated_at the cycle timestamp |
| `Cycle.HistoryRow` | main.py:325-329 | a history row has symbol, price and the cycle timestamp |
| `Cycle.CollectAligned` | main.py:270-334 | the i-th detail row belongs to the i-th stock row; the i-th history row belongs to the i-th index row, at its price; all index and history rows carry the one cycle timestamp |
| `Cycle.CollectKeyed` | main.py:270-334 | in the corrected batch (`CollectFrom`), with distinct symbols, the stock, detail and index lists have distinct non-None keys and hold a row for exactly the priced symbols |
| `Cycle.QuotesDistinct` | main.py:280-287 | distinct pairs give quotes with distinct symbols |
| `Cycle.DetailRowsAsWritten` | main.py:298-303 | as written, the detail rows are at most one per quote (the dropped rows are stated by the next three lemmas) |
| `Cycle.DetailRowsAsWrittenFrom` | main.py:298-303 | as written, every detail row carries the symbol of a stock whose parse did not raise |
| `Cycle.OverflowingStockHasNoDetailRow` | main.py:298-303 | as written, with distinct symbols, a stock whose parse raises has no detail row carrying its symbol |
| `Cycle.CollectDropsOverflowingDetail` | main.py:280-303 | as written, over distinct pairs, a priced stock whose parse overflows has a stock row and no detail row (Findings) |
| `Cycle.OverflowingQuoteKeys` | main.py:290-303 | as written, over quotes with distinct symbols, a quote whose parse overflows has a stock row and no detail row |
| `Cycle.DetailRowsAgreeWithoutOverflow` | main.py:298-303 | where no parse raises, the detail rows as written are the corrected ones |
| `Cycle.DetailsMisalignedAsWritten` | main.py:290-303 | as written, over the first two configured pairs, an infinite marketCap for ADRO.JK leaves two stock rows and one detail row; the first detail row is ASII's |
| `Cycle.EmptyInfoParses` | main.py:90-213 | an empty info bag parses without raising |
| `Cycle.MarketCapOverflows` | main.py:121 | an infinite marketCap makes the parse as written raise |
| `Cycle.CollectFromAsWritten` | main.py:270-334 | collect_all_data as written: there are never more detail rows than stock rows; its other properties are stated by `Cycle.CollectAsWrittenSharesRows`, `Cycle.DetailRowsAsWrittenFrom`, `Cycle.CollectDropsOverflowingDetail` and `Cycle.CollectAgreesWithoutOverflow` |
| `Cycle.CollectAsWrittenSharesRows` | main.py:270-334 | as written, the stock, index and history lists are those of the corrected batch; only the detail rows can differ |
| `Cycle.CollectAgreesWithoutOverflow` | main.py:270-334 | when no stock's info makes the parse raise, the batch as written is the corrected one |
| `Cycle.Collected` | main.py:270-334 | the reference result of collect_all_data (corrected detail rows): the detail rows' stock_symbol keys are the stock rows' symbols in order; the history rows' symbols and prices are the index rows' symbols and last prices in order; every history row has the cycle timestamp |
| `Cycle.CollectAllData` | main.py:270-334 | the two loops build exactly the batch `Collected` describes (its detail rows come from the corrected parse, see Findings) |
| `Cycle.CollectStocks` | main.py:280-304 | the stock loop appends, in order, a stock row and a detail row for exactly the priced stocks (the detail row from the corrected parse, see Findings) |
| `Cycle.CollectIndices` | main.py:307-332 | the index loop appends, in order, an index row and a history row for exactly the priced indices |
| `Cycle.QuotesStep` | main.py:280-287 | one more symbol adds its quote at the end when it is priced, and nothing otherwise |
| `Cycle.RowsKeyed` | main.py:290-329 | every row carries the key its table is upserted by |
| `Cycle.NoQuotes` | main.py:283-285 | when no symbol has a price, no row is built |
| `Sync.CollectedKeyed` | main.py:340-352 | every collected row has the key column that `bulk_upsert` reads with `row[key]` |
| `Sync.CyclePlan` | main.py:340-358 | the reference call sequence of a cycle: no call at all exactly when all four lists are empty; when there are history rows, the last call inserts all of them |
| `Sync.PerformBulkUpdates` | main.py:336-364 | the calls issued are the cycle plan for the collected batch, in order; the result is false exactly when a call raised, and the writes before it stay (the batch holds the corrected detail rows, see Findings) |
| `Sync.WriteBatch` | main.py:342-360 | the four guarded writes issue exactly the cycle plan |
| `Sync.WriteDetailsOnward` | main.py:347-360 | the writes from stock_details on issue exactly their part of the plan |
| `Sync.WriteIndexOnward` | main.py:351-360 | the writes from index_prices on issue exactly their part of the plan |
| `Sync.OrderedAppend` | main.py:342-358 | appending a plan of later tables to one of earlier tables keeps the write order |
| `Sync.CycleWriteOrder` | main.py:342-358 | the calls visit stocks, stock_details, index_prices, index_price_history, in that order |
| `Sync.DetailsOnwardInOrder` | main.py:347-358 | the calls from stock_details on are in order and never address stocks |
| `Sync.IndexOnwardInOrder` | main.py:351-358 | the calls from index_prices on are in order and address neither stocks nor stock_details |
| `Sync.CycleTables` | main.py:342-358 | only the four tables are addressed; history gets one insert of all its rows; an empty list issues no call for its table |
| `Sync.CycleEffect` | main.py:342-360 | a cycle that went through upserts the three tables, appends the history rows, and leaves every other table unchanged |
| `Sync.DetailsOnwardEffect` | main.py:347-360 | the writes from stock_details on leave stocks unchanged |
| `Sync.IndexOnwardEffect` | main.py:351-360 | the writes from index_prices on leave stocks and stock_details unchanged |
| `Sync.FailureKeepsStocksWrites` | main.py:338-364 | no rollback: when a call after the stocks upsert raises, the stocks table keeps the whole upsert |
| `Sync.FailurePastStocks` | main.py:338-364 | a failure outside the stocks table comes after the whole stocks upsert |
| `Sync.RepeatedCycleOnlyGrowsHistory` | main.py:342-358 | re-running a batch with distinct keys changes none of the upserted tables; only the history grows again |
| `Sync.CollectedKeysDistinct` | main.py:270-334 | the stock, detail and index lists of a cycle have distinct keys |
| `Sync.CycleKeepsOneRowPerKey` | main.py:336-364 | a cycle that went through keeps stocks, stock_details and index_prices at one row per key, given they started that way |
| `Sync.SilentProviderWritesNothing` | main.py:343-358 | when no ticker gets a price, the cycle issues no database call |
| `MainLoop.Iterate` | main.py:367-382 | a cycle runs exactly inside the window, issues the cycle plan and pauses five minutes; outside the window nothing is written and the pause is the sleep until the next window (the cycle writes the corrected detail rows, see Findings) |

## Left out

Outside the model:

- **Quote provider.** The network call is a parameter, `provider`. It maps a
  ticker to an exception or to the day's closes and info bag.
- **Hosted database.** It is the in-memory `Store.Database`:
  - an update merges the patch into each row whose key equals the value, and
    a None never matches;
  - a raising call is a position in the call log;
  - which calls fail (network or server errors) is the parameter `faults`.
- **Wall clock.** The clock readings are parameters: `now` for the loop, and
  `stamp` and `detailStamp` for the timestamps written. Each detail row reads
  its own clock when its info is parsed; `detailStamp` maps the symbol to that
  reading.
- **Time zone.** It is taken as fixed (Asia/Jakarta has no daylight saving).
- **Sleep.** `time.sleep` is the returned duration.
- **Endless loop.** `while True` is one iteration, `MainLoop.Iterate`.
- **Float text.** Parsing a float from text and formatting one as text are
  uninterpreted (the parameter `FloatText`). IEEE rounding is not modelled.
  Finite floats are reals.
- **Side effects.** Console output, the dotenv and environment-variable
  configuration, the printing of the database key, and client construction
  have no effect on the model.
- **Exception messages.** An exception is only its effect on control flow.

Weaker or missing pieces:

- `calculate_change` (main.py:235-243): never called. Its change columns
  are generated by the database.
- `Normalizer.SafeConvertAsWritten`: `float()` of an int is taken as exact,
  in it and in `Normalizer.SafeConvert`, `Normalizer.ConvertRoundTrips` and
  `Cycle.FetchMetadata`. An int above 2^53 is not rounded, and an int past
  the double range does not raise OverflowError. In Python the latter
  escapes under the float target (main.py:80) as under the int target
  (main.py:78), and from `fetch_metadata` (main.py:225).
- `Store.Database.Execute`: a call that raises has no effect. A write the
  server applied before the client raised (a timeout, say) is not modelled.
- `Normalizer.SafeConvert`: the `else: return value` branch for other target
  types is not modelled. Every call site passes int, float, str or bool.
- `Normalizer.SafeConvert`: only `OverflowError` is treated as escaping.
  `MemoryError` and other exceptions from `str()` or `bool()` of an exotic
  object are not modelled. `Other` values carry their `str()` and `bool()`
  results. `str()` of an int with more than 4300 digits, which recent
  Python versions refuse with a ValueError (so `safe_convert` gives None), is
  rendered as its digits; an attribute bag decoded from JSON cannot hold such
  an int, since the decoder has the same limit.
- `Store.Database.BulkUpsert`: requires every row to carry the key column.
  The `KeyError` that `row[key]` would raise is not modelled. Every batch a
  cycle builds carries the key (`Sync.CollectedKeyed`).
- `Cycle.CollectStocks`: builds its detail rows with the corrected
  `Normalizer.ParseStockInfo`. An overflowing attribute gives None in its
  column, where the code as written drops the detail row
  (`Cycle.DetailRowsAsWritten`). The two agree whenever no parse overflows
  (`Cycle.CollectAgreesWithoutOverflow`).
- `Cycle.CollectAllData`: uses the corrected detail rows, as
  `Cycle.CollectStocks` does.
- `Sync.PerformBulkUpdates`: writes the corrected detail rows, as
  `Cycle.CollectStocks` builds them.
- `MainLoop.Iterate`: its cycle writes the corrected detail rows, as
  `Cycle.CollectStocks` builds them.
- Per-table failure isolation is not what the code does. One `try` surrounds
  all four writes (main.py:338, main.py:362). The first raising call ends the
  cycle, and the earlier writes stay. The model follows the code.

## Findings

| source | as written | input that shows it | evidently intended | confidence | as-written member | corrected member |
|---|---|---|---|---|---|---|
| main.py:78 | `int(float(value))` raises `OverflowError` on an infinite float, which `except (ValueError, TypeError)` does not catch, so `safe_convert` raises instead of returning None | `safe_convert(float("inf"), int)`, or `safe_convert("inf", int)` | None, as the docstring promises for a failed conversion | not executed | `Normalizer.SafeConvertAsWritten` | `Normalizer.SafeConvert` |
| main.py:290-303 | the stock row is appended before `parse_stock_info` runs; when the parse raises, the per-symbol handler catches it, so that stock has a stock row and no detail row, and the two lists no longer line up | over the first two configured pairs, ADRO.JK info holding `marketCap = inf`: two stock rows (ADRO, ASII), one detail row (ASII) | one detail row per stock row, `None` in the overflowing column | not executed | `Cycle.DetailsMisalignedAsWritten` | `Cycle.CollectAligned` |
