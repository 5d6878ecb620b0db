/** The high-dividend scanner of finance.py: a symbol list merged from two
    listing sources (sorted, without duplicates, with a fixed fallback), one
    record per symbol shaped from the quote service's info bag together with
    the scanner's criteria (US company, at least 25 years old, dividend yield
    of at least 8 %), and a scan that writes every record to one file and the
    matching ones also to a second file.

    Every fetch is an input. The FTP directory is `None` when reading it
    raised, and otherwise its whole `Symbol` column. The screener API is
    `None` when its request or response raised before any row was read, and
    otherwise the row symbols `set.update` consumed: all of them, or the
    ones before a row that raised, which stay in the set. A lookup is `None`
    when anything inside `get_stock_info`'s `try` block raised. */
module HighDividend {
  import opened Collections
  import StringOrder

  /** `get_nasdaq_symbols`'s fallback list. */
  const BackupSymbols: seq<string> := ["AAPL", "MSFT", "GOOGL", "AMZN", "META", "NVDA", "TSLA", "HTGC"]

  /** What the FTP symbol directory contributes: its symbols of at most five
      characters. */
  function FtpSymbols(ftp: Option<seq<string>>): set<string> {
    if ftp.Some? then set s | s in ftp.value && |s| <= 5 else {}
  }

  /** What the screener API contributes: the symbols of its rows. */
  function ApiSymbols(api: Option<seq<string>>): set<string> {
    if api.Some? then set s | s in api.value else {}
  }

  /** The rows of a one-column CSV file: the header, then one row per value. */
  function OneColumn(header: string, values: seq<string>): (rows: seq<seq<string>>)
    ensures |rows| == |values| + 1 && rows[0] == [header]
    ensures forall i :: 0 <= i < |values| ==> rows[i + 1] == [values[i]]
  {
    [[header]] + seq(|values|, i requires 0 <= i < |values| => [values[i]])
  }

  /** The FTP source's `try` block. */
  method ReadFtpDirectory(ftp: Option<seq<string>>) returns (found: set<string>)
    ensures found == FtpSymbols(ftp)
  {
    found := {};
    match ftp {
      case None =>
      case Some(column) =>
        var short := Filter(column, (s: string) => |s| <= 5);
        found := found + set s | s in short;
    }
  }

  /** The screener API's `try` block. A read that raised part-way has
      already added the symbols before the failing row. */
  method ReadScreenerApi(api: Option<seq<string>>) returns (found: set<string>)
    ensures found == ApiSymbols(api)
  {
    found := {};
    match api {
      case None =>
      case Some(rows) =>
        if rows != [] {
          found := found + set s | s in rows;
        }
    }
  }

  /** The list `get_nasdaq_symbols` returns: the eight fallback symbols when
      neither source contributed anything, and otherwise every contributed
      symbol once, in ascending order. */
  ghost predicate SymbolList(ftp: Option<seq<string>>, api: Option<seq<string>>, symbols: seq<string>) {
    var pool := FtpSymbols(ftp) + ApiSymbols(api);
    && (pool == {} ==> symbols == BackupSymbols)
    && (pool != {} ==>
          && StringOrder.StrictlyAscending(symbols)
          && (forall s :: s in symbols <==> s in pool)
          && |symbols| == |pool|)
  }

  /** `get_nasdaq_symbols`, given what each source yielded. Returns the symbol
      list and the rows written to `available_symbols.csv`. */
  method GetNasdaqSymbols(ftp: Option<seq<string>>, api: Option<seq<string>>)
    returns (symbols: seq<string>, written: seq<seq<string>>)
    ensures SymbolList(ftp, api, symbols)
    ensures written == OneColumn("Symbol", symbols)
  {
    var found := ReadFtpDirectory(ftp);
    var fromApi := ReadScreenerApi(api);
    found := found + fromApi;
    symbols := StringOrder.SortedFromSet(found);
    if symbols == [] {
      symbols := BackupSymbols;
    }
    written := [["Symbol"]];
    for i := 0 to |symbols|
      invariant written == OneColumn("Symbol", symbols[..i])
    {
      OneColumnSnoc("Symbol", symbols, i);
      written := written + [[symbols[i]]];
    }
    assert symbols[..|symbols|] == symbols;
  }

  /** With both sources failing, the scan falls back to the eight fixed
      symbols; a source that yields something replaces them entirely. */
  lemma FallbackOnlyWithoutSymbols(symbols: seq<string>, ftp: Option<seq<string>>, api: Option<seq<string>>)
    requires SymbolList(ftp, api, symbols)
    ensures ftp.None? && api.None? ==> symbols == BackupSymbols
    ensures api.Some? && api.value != [] ==> forall s :: s in symbols <==> s in FtpSymbols(ftp) || s in api.value
  {
    if api.Some? && api.value != [] {
      assert api.value[0] in ApiSymbols(api);
    }
  }

  /** A screener read that raised part-way keeps a subset of what the whole
      read would have contributed, and every symbol read before the raise. */
  lemma PartialApiRead(prefix: seq<string>, rows: seq<string>)
    requires prefix <= rows
    ensures ApiSymbols(Some(prefix)) <= ApiSymbols(Some(rows))
    ensures forall s :: s in prefix ==> s in ApiSymbols(Some(prefix))
  {
    forall s | s in prefix ensures s in rows {
      var i :| 0 <= i < |prefix| && prefix[i] == s;
      assert rows[i] == s;
    }
  }

  lemma OneColumnSnoc(header: string, values: seq<string>, i: nat)
    requires i < |values|
    ensures OneColumn(header, values[..i + 1]) == OneColumn(header, values[..i]) + [[values[i]]]
  {
  }

  /** The keys of the quote service's info bag that the modelled record
      fields read; every one may be missing. */
  datatype Info = Info(
    longName: Option<string>,
    exchange: Option<string>,
    country: Option<string>,
    firstTradeDateEpochUtc: Option<int>,
    dividendYield: Option<real>,
    industry: Option<string>,
    sector: Option<string>,
    marketCap: Option<real>,
    currentPrice: Option<real>,
    returnOnEquity: Option<real>,
    returnOnAssets: Option<real>,
    debtToEquity: Option<real>,
    currentRatio: Option<real>)

  /** A successful lookup: the info bag and the clock reading `Fetch_Time`
      is stamped with. */
  datatype Quote = Quote(info: Info, now: string)

  /** The record `get_stock_info` returns (the modelled subset of its keys). */
  datatype StockInfo = StockInfo(
    symbol: string,
    name: string,
    exchange: string,
    country: string,
    age: real,
    dividendYield: real,
    fetchTime: string,
    industry: string,
    sector: string,
    marketCap: real,
    currentPrice: real,
    roe: real,
    roa: real,
    debtToEquity: real,
    currentRatio: real)

  function TextOr(v: Option<string>, default: string): string {
    if v.Some? then v.value else default
  }

  function NumberOr(v: Option<real>, default: real): real {
    if v.Some? then v.value else default
  }

  /** The dictionary `get_stock_info` builds. `yearsSince` is the host's
      clock-based conversion of a first-trade epoch into an age in years;
      a missing epoch is read as 0. */
  function Shape(symbol: string, q: Quote, yearsSince: int -> real): StockInfo {
    var info := q.info;
    StockInfo(
      symbol,
      TextOr(info.longName, symbol),
      TextOr(info.exchange, "Unknown"),
      TextOr(info.country, "Unknown"),
      yearsSince(if info.firstTradeDateEpochUtc.Some? then info.firstTradeDateEpochUtc.value else 0),
      NumberOr(info.dividendYield, 0.0) * 100.0,
      q.now,
      TextOr(info.industry, ""),
      TextOr(info.sector, ""),
      NumberOr(info.marketCap, 0.0),
      NumberOr(info.currentPrice, 0.0),
      NumberOr(info.returnOnEquity, 0.0),
      NumberOr(info.returnOnAssets, 0.0),
      NumberOr(info.debtToEquity, 0.0),
      NumberOr(info.currentRatio, 0.0))
  }

  /** The scanner's criteria. */
  predicate MatchesCriteria(d: StockInfo) {
    d.country == "United States" && d.age >= 25.0 && d.dividendYield >= 8.0
  }

  /** `get_stock_info`: the record and whether it meets the criteria, or
      `(None, False)` when the lookup raised. */
  function GetStockInfo(symbol: string, lookup: Option<Quote>, yearsSince: int -> real): (r: (Option<StockInfo>, bool))
    ensures r.0.None? <==> lookup.None?
    ensures r.1 <==> r.0.Some? && MatchesCriteria(r.0.value)
    ensures r.0.Some? ==> r.0.value.symbol == symbol
  {
    match lookup
    case None => (None, false)
    case Some(q) =>
      var data := Shape(symbol, q, yearsSince);
      (Some(data), MatchesCriteria(data))
  }

  /** The records written to `all_stocks.csv` when the scan visits `symbols`. */
  function Scanned(symbols: seq<string>, lookup: string -> Option<Quote>, yearsSince: int -> real): seq<StockInfo>
    decreases |symbols|
  {
    if symbols == [] then []
    else
      var last := symbols[|symbols| - 1];
      var info := GetStockInfo(last, lookup(last), yearsSince).0;
      Scanned(symbols[..|symbols| - 1], lookup, yearsSince) + (if info.Some? then [info.value] else [])
  }

  function Matching(): StockInfo -> bool {
    d => MatchesCriteria(d)
  }

  /** A CSV file the scan writes: its data rows (the header is implied). */
  class ResultFile {
    var rows: seq<StockInfo>

    constructor ()
      ensures rows == []
    {
      rows := [];
    }

    /** Open for writing and write the header only. */
    method Reset()
      modifies this
      ensures rows == []
    {
      rows := [];
    }

    method Append(d: StockInfo)
      modifies this
      ensures rows == old(rows) + [d]
    {
      rows := rows + [d];
    }
  }

  /** `main`: fetch the symbol list, reset both files to their header, then
      look every symbol up in order, writing each record to the first file
      and each matching record also to the second. */
  method Scan(
    ftp: Option<seq<string>>, api: Option<seq<string>>,
    lookup: string -> Option<Quote>, yearsSince: int -> real,
    allStocks: ResultFile, matchingStocks: ResultFile)
    returns (symbols: seq<string>, matchesFound: nat)
    requires allStocks != matchingStocks
    modifies allStocks, matchingStocks
    ensures SymbolList(ftp, api, symbols)
    ensures allStocks.rows == Scanned(symbols, lookup, yearsSince)
    ensures matchingStocks.rows == Filter(allStocks.rows, Matching())
    ensures matchesFound == |matchingStocks.rows|
  {
    var written;
    symbols, written := GetNasdaqSymbols(ftp, api);
    matchesFound := 0;
    allStocks.Reset();
    matchingStocks.Reset();
    for i := 0 to |symbols|
      invariant allStocks.rows == Scanned(symbols[..i], lookup, yearsSince)
      invariant matchingStocks.rows == Filter(allStocks.rows, Matching())
      invariant matchesFound == |matchingStocks.rows|
    {
      var symbol := symbols[i];
      var result := GetStockInfo(symbol, lookup(symbol), yearsSince);
      var info, matchesCriteria := result.0, result.1;
      ghost var allBefore, matchingBefore := allStocks.rows, matchingStocks.rows;
      if info.Some? {
        allStocks.Append(info.value);
        if matchesCriteria {
          matchesFound := matchesFound + 1;
          matchingStocks.Append(info.value);
        }
      }
      ScanStep(symbols, i, lookup, yearsSince, allBefore, matchingBefore, allStocks.rows, matchingStocks.rows);
    }
    assert symbols[..|symbols|] == symbols;
  }

  /** One more symbol appends its record, if the lookup succeeded, to the
      all file; the record reaches the matching file exactly when it meets
      the criteria. */
  lemma ScanStep(
    symbols: seq<string>, i: nat, lookup: string -> Option<Quote>, yearsSince: int -> real,
    allBefore: seq<StockInfo>, matchingBefore: seq<StockInfo>,
    allAfter: seq<StockInfo>, matchingAfter: seq<StockInfo>)
    requires i < |symbols|
    requires allBefore == Scanned(symbols[..i], lookup, yearsSince)
    requires matchingBefore == Filter(allBefore, Matching())
    requires var info := GetStockInfo(symbols[i], lookup(symbols[i]), yearsSince).0;
      && allAfter == allBefore + (if info.Some? then [info.value] else [])
      && matchingAfter == matchingBefore + (if info.Some? && MatchesCriteria(info.value) then [info.value] else [])
    ensures allAfter == Scanned(symbols[..i + 1], lookup, yearsSince)
    ensures matchingAfter == Filter(allAfter, Matching())
  {
    assert symbols[..i + 1][..i] == symbols[..i];
    var info := GetStockInfo(symbols[i], lookup(symbols[i]), yearsSince).0;
    if info.Some? {
      FilterAppend(allBefore, [info.value], Matching());
      assert [info.value][1..] == [];
    }
  }

  /** The matching file is an order-preserving subsequence of the all file,
      and holds exactly the records of the all file that meet the criteria. */
  lemma MatchingWithinAll(all: seq<StockInfo>)
    ensures IsSubsequence(Filter(all, Matching()), all)
    ensures forall d :: d in Filter(all, Matching()) <==> d in all && MatchesCriteria(d)
  {
    FilterIsSubsequence(all, Matching());
  }

  /** The record defaults: the name falls back to the symbol, exchange and
      country to "Unknown", the dividend yield to 0, and the yield is
      stored as a percentage. */
  lemma ShapeDefaults(symbol: string, q: Quote, yearsSince: int -> real)
    ensures var d := Shape(symbol, q, yearsSince);
      && (q.info.longName.None? ==> d.name == symbol)
      && (q.info.exchange.None? ==> d.exchange == "Unknown")
      && (q.info.country.None? ==> d.country == "Unknown")
      && (q.info.dividendYield.None? ==> d.dividendYield == 0.0)
      && (q.info.dividendYield.Some? ==> d.dividendYield == 100.0 * q.info.dividendYield.value)
      && (q.info.firstTradeDateEpochUtc.None? ==> d.age == yearsSince(0))
  {
  }

  /** A company without a country in its info bag never matches, whatever its
      age and yield. */
  lemma UnknownCountryNeverMatches(symbol: string, q: Quote, yearsSince: int -> real)
    requires q.info.country.None?
    ensures !GetStockInfo(symbol, Some(q), yearsSince).1
  {
    assert "Unknown" != "United States";
  }
}
