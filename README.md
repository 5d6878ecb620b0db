# Stock screening scripts — a Dafny model

This project models the data-handling core of a small collection of Python
stock-screening scripts. Each script fetches symbol lists and per-symbol
fundamentals from public finance services, shapes them into records, keeps
them in CSV files and filters them. The model covers five parts.

- **The resumable collector** (`Collector`, dataGetter/dataGetter.py). A
  `StockScreener` object owns an append-only store of records and a set of
  processed symbols, which it rebuilds from the store at start-up. A run
  fetches the listing once and visits every symbol not yet processed. For
  each success it appends one record, then marks the symbol. A failed symbol
  stays eligible for the next run, and an interrupt keeps everything done so
  far.
- **The dashboard row filter** (`TableView`, table_view.py). It is a
  conjunctive mask made of three required minima and five optional bounds.
  An optional bound applies only when it is given and positive.
- **The high-dividend scanner** (`HighDividend`, finance.py). It builds a
  sorted, duplicate-free symbol list from two sources, with a fixed fallback
  list of eight symbols. It shapes each quote into a record with defaults,
  decides the criteria (US company, at least 25 years old, a dividend yield
  of at least 8 %), and writes all records to one file and the matching ones
  to a second file.
- **The source comparison** (`SymbolSources`, symbol_getter.py). It reads
  five listing sources into one set each, takes their union, and writes one
  row of 0/1 membership flags per symbol, in ascending order.
- **The archived picker** (`StockFinder`, Archive/stock_finder.py). It
  filters records by three thresholds, sorts them by dividend yield from the
  highest down, and projects them onto thirteen columns.

The models share two modules. `Collections` holds `Option` and an
order-preserving `Filter`, which stands for list comprehensions and
dataframe masks. `StringOrder` holds the code-point order that Python's
`sorted` uses on strings, and `SortedFromSet`, which is `sorted(list(s))`.

Every network fetch is an input to the model:

- a listing source is `None` when reading it raised before any symbol was
  taken, and otherwise the symbols taken from it. For the directory files
  that is the whole `Symbol` column. For the screener API and the index
  components, which `set.update` consumes one entry at a time, it is every
  symbol before the entry that raised, if one did;
- a per-symbol quote lookup is a function from symbol to `Option`, whose
  success value also carries the clock reading the record is stamped with.

Each CSV file is its parsed rows. The two files the collector and the
scanner write to in place are classes whose fields the methods update.

## Model

| member | source | states |
|---|---|---|
| Collector.StoreFile.constructor | dataGetter/dataGetter.py:22 | The store as found on disk: whether it exists, and its parsed data rows. |
| Collector.StoreFile.CreateWithHeader | dataGetter/dataGetter.py:23-25 | Creating the file leaves a present store with no data rows, only the header. |
| Collector.StoreFile.Append | dataGetter/dataGetter.py:66-70 | Appending adds exactly one row at the end and changes nothing else. |
| Collector.StockScreener.constructor | dataGetter/dataGetter.py:14-19 | After construction the store exists and the processed set equals the set of symbols in its rows. An existing store is kept as it is. A fresh store has no rows, so the processed set is empty. |
| Collector.StockScreener.InitializeFile | dataGetter/dataGetter.py:21-25 | A missing store is created empty. An existing store is left untouched. |
| Collector.StockScreener.LoadProcessedSymbols | dataGetter/dataGetter.py:27-32 | When the store exists, the processed set becomes exactly the set of its rows' symbols. Otherwise the set is unchanged. |
| Collector.WorkList | dataGetter/dataGetter.py:42-43 | Defines the work list: the listing filtered by `NotIn(processed)`, or `[]` for a failed listing. Its properties are stated by `Collector.WorkListSpec`. |
| Collector.NotIn | dataGetter/dataGetter.py:43 | Defines the comprehension's condition `s not in processed_symbols`. |
| Collector.ShapeRecord | dataGetter/dataGetter.py:53-64 | Defines the `stock_data` record with its defaults; stated by `Collector.DividendYieldPercent` and `Collector.EmptyInfoDefaults`. |
| Collector.Collected | dataGetter/dataGetter.py:85-87 | Defines the records a run appends over a stretch of work, in order; used by `Collector.StockScreener.Run`'s contract. |
| Collector.Succeeded | dataGetter/dataGetter.py:85-87 | Defines the entries of a stretch of work whose lookup succeeds. |
| Collector.StockScreener.GetSymbols | dataGetter/dataGetter.py:34-46 | Returns the work list. It is `[]` when the listing failed. Otherwise it holds exactly the listed symbols that are not processed, in listing order, and never a processed one. |
| Collector.WorkListSpec | dataGetter/dataGetter.py:39-46 | The work list holds no processed symbol. It holds every listed symbol that is not processed, keeps the listing's order, and is empty when the listing failed. A duplicate-free listing gives a duplicate-free work list. |
| Collector.StockScreener.ProcessStock | dataGetter/dataGetter.py:48-78 | On success it appends exactly the shaped record, adds the symbol to the processed set and returns true. On failure it changes neither and returns false. The store/processed-set invariant is preserved either way. |
| Collector.StockScreener.Run | dataGetter/dataGetter.py:80-90 | An interrupted or completed run processes a prefix of the work list. The store gains exactly that prefix's records, in order, and the processed set gains exactly the prefix's successful symbols. The processed set only grows, and the invariant holds at the end. |
| Collector.PrefixStep | dataGetter/dataGetter.py:85-87 | Processing one more work-list entry appends that entry's record if the lookup succeeds. It adds the entry to the succeeded set exactly when the lookup succeeds. |
| Collector.RunStep | dataGetter/dataGetter.py:85-87 | `run`'s loop invariant survives one call of `process_stock`. |
| Collector.SymbolsSnoc | dataGetter/dataGetter.py:66-72 | Appending a record adds exactly its symbol to the store's symbol set, so appending and then marking keeps the invariant. |
| Collector.DividendYieldPercent | dataGetter/dataGetter.py:57 | The stored yield is 0 exactly when the info bag's yield is missing or zero. Otherwise it is the yield times 100. |
| Collector.EmptyInfoDefaults | dataGetter/dataGetter.py:53-60 | An info bag without any of the keys read gives name "", market cap 0, yield 0 and age 0. |
| Collector.EightPercent | dataGetter/dataGetter.py:57 | A yield of 0.08 is stored as 8.0. |
| Collector.CollectedAppend | dataGetter/dataGetter.py:85-87 | The records appended over two consecutive stretches of work are the concatenation of the records of each stretch. |
| Collector.InterruptedRunIsPrefix | dataGetter/dataGetter.py:84-90 | What an interrupted run appended is a prefix of what the uninterrupted run would have appended. |
| Collector.SymbolsOfCollected | dataGetter/dataGetter.py:66-72 | The symbols of the appended records are exactly the work entries whose lookup succeeded. |
| Collector.SymbolsAppend | dataGetter/dataGetter.py:31 | The symbol set of two concatenated stores is the union of their symbol sets. |
| Collector.RetryOnlyFailures | dataGetter/dataGetter.py:72-78 | After a completed run, the next work list is exactly this run's failed entries, in order. |
| Collector.SecondRunAppendsNothing | dataGetter/dataGetter.py:43 | When every lookup of a run succeeds, a second run over the same listing has an empty work list and appends nothing. |
| Collector.CollectedOfFailures | dataGetter/dataGetter.py:76-78 | A stretch of work whose every lookup fails appends nothing. |
| Collector.RetryWithSameOutcomesAppendsNothing | dataGetter/dataGetter.py:43-78 | After a completed run, a retry that meets the same lookup outcomes appends nothing, whatever those outcomes were. |
| Collector.ResumeSkipsStored | dataGetter/dataGetter.py:31-43 | No symbol of a stored row is on the next work list. |
| Collector.CollectedUnique | dataGetter/dataGetter.py:85-87 | A duplicate-free work list appends at most one record per symbol. |
| Collector.RunKeepsSymbolsUnique | dataGetter/dataGetter.py:42-43 | With a duplicate-free listing and a duplicate-free store, any prefix of the run keeps the store at one record per symbol. |
| Collector.DuplicateListingDuplicatesRecord | dataGetter/dataGetter.py:42-43 | A listing that names a symbol twice makes a fresh run store two records for it. |
| Collector.AaplStoredMsftRetried | dataGetter/dataGetter.py:80-90 | Over a fresh store, with "AAPL" succeeding and "MSFT" failing: one record is stored, only "AAPL" is marked, and the next work list is `["MSFT"]`. |
| TableView.Keeps | table_view.py:34-49 | Defines the mask for one row: the three minima, and each optional bound only when it is given and positive. |
| TableView.FilterData | table_view.py:31-51 | The result holds exactly the rows the mask keeps, in their original order, each as often as in the input. |
| TableView.InactiveBoundsImposeNothing | table_view.py:40-49 | An optional bound that is missing, zero or negative gives the same result as leaving the argument out. |
| TableView.KeepsMonotone | table_view.py:34-49 | A row that stricter thresholds keep is also kept by looser ones. |
| TableView.TighteningOnlyDropsRows | table_view.py:34-51 | Raising a minimum, lowering an active maximum or switching a bound on yields a subsequence of the looser result. |
| TableView.RaisingMaximumCanAddRows | table_view.py:40-41 | A row with a price/earnings ratio of 20 is dropped under `max_pe = 15` and kept under `max_pe = 25`. |
| StringOrder.NoLater | finance.py:34 | Defines the code-point lexicographic order of Python strings, a proper prefix first. |
| StringOrder.SortedFromSet | finance.py:34 | The result is strictly ascending and holds exactly the members of the set, each once. |
| HighDividend.FtpSymbols | finance.py:18 | Defines what the FTP directory contributes: its symbols of at most five characters. |
| HighDividend.ApiSymbols | finance.py:30 | Defines what the screener API contributes: the row symbols consumed. |
| HighDividend.SymbolList | finance.py:34-38 | Defines the list `get_nasdaq_symbols` returns: the fallback when no source contributed, and otherwise the union in ascending order, each symbol once. |
| HighDividend.ReadFtpDirectory | finance.py:15-20 | The FTP source contributes its symbols of at most five characters, or nothing when it raised. |
| HighDividend.ReadScreenerApi | finance.py:23-32 | The screener API contributes the row symbols consumed, which after a part-way raise are those before the failing row, or nothing when it raised before any row was read. |
| HighDividend.PartialApiRead | finance.py:30-32 | A read that raised part-way keeps every symbol read before the raise, a subset of what the whole read would give. |
| HighDividend.OneColumn | finance.py:40-44 | The file has a header row and then one single-cell row per value, in order. |
| HighDividend.OneColumnSnoc | finance.py:43-44 | Writing one more symbol appends one row to the written file. |
| HighDividend.GetNasdaqSymbols | finance.py:10-47 | When both sources yield nothing, the result is the eight fallback symbols. Otherwise it is the union of the sources, strictly ascending, each symbol once. `available_symbols.csv` receives exactly the header and that list. |
| HighDividend.FallbackOnlyWithoutSymbols | finance.py:34-38 | With both sources failing the list is the eight fallback symbols. A screener answer with rows makes the list exactly the union of the FTP symbols and those rows. |
| HighDividend.Shape | finance.py:55-111 | Defines the record `get_stock_info` builds with its defaults; stated by `HighDividend.ShapeDefaults`. |
| HighDividend.MatchesCriteria | finance.py:113-117 | Defines the criteria: country "United States", age at least 25, yield at least 8. |
| HighDividend.GetStockInfo | finance.py:49-126 | The result is no record exactly when the lookup fails. The flag is true exactly when there is a record and it meets all three criteria. The record carries the symbol asked for. |
| HighDividend.ShapeDefaults | finance.py:55-66 | Missing name, exchange, country and yield fall back to the symbol, "Unknown", "Unknown" and 0. The yield is stored as a percentage. A missing first-trade date is read as epoch 0. |
| HighDividend.UnknownCountryNeverMatches | finance.py:113-117 | A company whose info bag has no country never matches the criteria. |
| HighDividend.ResultFile.constructor | finance.py:149-152 | A new output file has no data rows. |
| HighDividend.ResultFile.Reset | finance.py:149-152 | Opening for writing leaves only the header. |
| HighDividend.ResultFile.Append | finance.py:159-161 | Appending adds exactly one row at the end. |
| HighDividend.Scanned | finance.py:154-161 | Defines the records the scan writes to `all_stocks.csv` over a list of symbols, in order. |
| HighDividend.Scan | finance.py:128-175 | The scanned symbols are exactly the list `get_nasdaq_symbols` returns: the fallback, or the sources' union in ascending order. `all_stocks.csv` receives the records of the successful lookups, in symbol order. `matching_stocks.csv` receives exactly the records among them that meet the criteria, in the same order. `matches_found` is the number of those records. |
| HighDividend.ScanStep | finance.py:154-168 | One more symbol keeps both file invariants. |
| HighDividend.MatchingWithinAll | finance.py:157-168 | The matching file is an order-preserving subsequence of the all file. A record is in it exactly when it is in the all file and meets the criteria. |
| SymbolSources.ReadDirectoryFile | symbol_getter.py:18-22 | A directory-file source contributes its symbols of at most five characters, or nothing when it raised. |
| SymbolSources.SourceSet | symbol_getter.py:17-60 | Defines the set each source ends up with: nothing for `None`, a directory file's short symbols, or every symbol the API or the index yielded. |
| SymbolSources.ReadSymbolList | symbol_getter.py:25-34 | The API and index sources contribute every symbol consumed, which after a part-way raise are those before the failing entry, or nothing when they raised before any was consumed. |
| SymbolSources.PartialReadIsSubset | symbol_getter.py:31-33 | A read that raised part-way keeps a subset of what the whole read would contribute, and, for the API and the index, every symbol read before the raise. |
| SymbolSources.ReadSources | symbol_getter.py:9-60 | Each of the five sets is what its own source contributes. |
| SymbolSources.SourcesAreIndependent | symbol_getter.py:17-60 | Each source's set depends on that source's fetch alone, and is empty when that fetch is `None`. |
| SymbolSources.DirectoryFilesKeepShortSymbols | symbol_getter.py:20 | A directory file contributes only symbols of at most five characters. |
| SymbolSources.UnionAll | symbol_getter.py:63 | A symbol is in the union exactly when some source's set holds it. |
| SymbolSources.GetSymbolsMultipleSources | symbol_getter.py:8-79 | The header is "Symbol" followed by the five source names in dictionary order. The data rows' symbols are the union, strictly ascending and each once. Each row has one flag per source, 1 exactly when that source holds the symbol. |
| SymbolSources.EveryRowFlagsASource | symbol_getter.py:63-73 | Every data row has at least one flag set. |
| StockFinder.Pick | Archive/stock_finder.py:8-12 | Defines the mask: yield above 5, age at least 25, market cap above one billion; stated by `StockFinder.BoundaryCases`. |
| StockFinder.CellOf | Archive/stock_finder.py:18-25 | Defines the cell of a record in each selected column. |
| StockFinder.Project | Archive/stock_finder.py:18-25 | Defines an output row: the record's cells in the thirteen columns, in order; stated by `StockFinder.ProjectYield`. |
| StockFinder.Insert | Archive/stock_finder.py:15 | Inserting into a yield-descending sequence keeps it yield-descending and adds exactly the one record. |
| StockFinder.SortByYield | Archive/stock_finder.py:15 | The result is ordered by dividend yield from the highest down and is a permutation of the input. |
| StockFinder.FilterStocks | Archive/stock_finder.py:3-25 | The header is the thirteen selected column names. The row count is the number of records the mask keeps. The body is the projection of a yield-descending permutation of exactly those records. |
| StockFinder.OutputShape | Archive/stock_finder.py:15-25 | Every output row has the thirteen cells, and the yield column (the fourth) is non-increasing down the rows. |
| StockFinder.ProjectYield | Archive/stock_finder.py:18-25 | A projected row has thirteen cells, and its fourth cell is the record's dividend yield. |
| StockFinder.OutputRowsArePicks | Archive/stock_finder.py:8-25 | Every output row is the projection of an input record that passes the mask. |
| StockFinder.PicksReachOutput | Archive/stock_finder.py:8-25 | Every input record that passes the mask appears, projected, in the output. |
| StockFinder.BoundaryCases | Archive/stock_finder.py:9-11 | A yield of exactly 5 or a market cap of exactly one billion is dropped. An age of exactly 25 is kept. |

## Left out

- Network access is not modelled: HTTP, FTP, the quote library's `Ticker`/`info`, and HTML parsing. Each fetch is an input: a listing is an `Option` of symbols, a lookup is a function from symbol to `Option`.
- Clocks are not modelled. The day counts divided by 365 (finance.py) or 365.25 (dataGetter/dataGetter.py) need `datetime.now()` and floating point.
  - In the collector, the host supplies the age as part of the info bag.
  - In the scanner, the host's `yearsSince` function converts the first-trade epoch, with a missing epoch read as 0.
  - The ISO timestamp is a string carried by the lookup's success value.
- Durability and timing are not modelled: `flush`/`fsync`, `sleep(1)`, logging and every `print`. The collector keeps the append-before-mark order.
- The interrupt is modelled only as the number of entries the loop completes (`stopAfter`). A `KeyboardInterrupt` arriving inside `process_stock`, between the append and the mark, is not modelled.
- CSV encoding and parsing are not modelled (`DictReader`/`DictWriter`, `cp1252`, `on_bad_lines='skip'`, a truncated last row); rows are taken as already parsed. A symbol cell that pandas reads as NaN, which `str.len() <= 5` drops, is not modelled either.
- A key that is present in the info bag with the value `None` is not distinguished from a missing key. In the source, `info.get(key, default)` then yields `None`, and it may raise later inside the `try`. Either way, that case is one of the lookup's failures or one of its values.
- In the scanner the record keeps the fields it reads: name, exchange, country, age, yield, fetch time, industry, sector, market cap, price, ROE, ROA, debt/equity and current ratio. The other twenty-five `info.get` pass-through fields are not modelled.
- In the dashboard filter, a numeric cell the dataframe reads as NaN is `None`, and every comparison with it is false. The float comparisons themselves are on `real`. A column missing from the file, which would raise `KeyError`, is not modelled.
- The archived picker works on the records the scanner writes, whose cells always hold values because of the defaults. NaN cells and pandas' placement of NaN when sorting are not modelled. The order of equal yields is left open, because `sort_values` does not promise stability.
- The user interface, the loaders in main.py and the TableView class's other methods (`load_data`, `render`, which includes the display rounding), chart_view.py, listGetter/listGetter.py and Archive/import.py are not part of this model.
- Collector.StockScreener.ProcessStock: a failure to open or write the store is caught by the `except Exception` at dataGetter/dataGetter.py:76, so the symbol is not marked and the run continues. The model counts it as one of the lookup's failures. A row written only in part is not modelled.
- HighDividend.GetNasdaqSymbols, HighDividend.Scan and SymbolSources.GetSymbolsMultipleSources: their file writes (finance.py:40, 150, 159 and 166, symbol_getter.py:65) are outside any `try`. An `OSError` there ends the script with the files half written. The model's writes always succeed, so it does not capture that ending.
- Collector.StockScreener.Run: the quote lookup is a function of the symbol alone. Two visits of one symbol in a run, which happen only when the listing repeats it, therefore get the same outcome and the same timestamp. In the source they are two separate fetches and two clock readings (dataGetter/dataGetter.py:50-51, 59), so the first may fail while the second succeeds. `Collector.RetryOnlyFailures` and `Collector.RetryWithSameOutcomesAppendsNothing` rest on the same assumption for the next run: its lookups give this run's outcomes. HighDividend.Scan has the same oracle, but its symbol list never repeats a symbol.

## Notes on the thresholds

The dashboard's mask is a conjunction, so making any bound stricter can
only drop rows (`TableView.TighteningOnlyDropsRows`). Being stricter means
raising a minimum, lowering an active maximum or switching a bound on. For
an upper bound such as `max_pe`, raising it loosens the filter, and
`TableView.RaisingMaximumCanAddRows` gives a row it lets back in.

The collector's store holds one record per symbol only as long as the
listing names each symbol once (`Collector.RunKeepsSymbolsUnique`). The
store does not enforce it, and a repeated listing entry is stored twice when
both lookups succeed (`Collector.DuplicateListingDuplicatesRecord`).
