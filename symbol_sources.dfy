/** The source comparison of symbol_getter.py
    (`get_symbols_multiple_sources`): five listing sources are read into one
    set each, their union is taken, and `symbol_sources.csv` gets a header
    naming the sources and, for every symbol of the union in ascending order,
    a row of 0/1 flags saying which sources list it.

    Each fetch is an input. A directory file is `None` when reading it
    raised, and otherwise its whole `Symbol` column. The screener API and the
    index components are `None` when the request raised before `set.update`
    consumed anything, and otherwise the symbols it consumed: all of them,
    or those before an entry that raised, which stay in the set. */
module SymbolSources {
  import opened Collections
  import StringOrder

  /** The keys of `results`, in dictionary order. */
  const SourceNames: seq<string> :=
    ["ftp_nasdaqtrader", "nasdaq_screener_api", "nasdaq_traded_list", "nasdaq_listed_list", "yahoo_nasdaq_tickers"]

  datatype Fetches = Fetches(
    ftpNasdaqtrader: Option<seq<string>>,
    nasdaqScreenerApi: Option<seq<string>>,
    nasdaqTradedList: Option<seq<string>>,
    nasdaqListedList: Option<seq<string>>,
    yahooNasdaqTickers: Option<seq<string>>)

  /** What was fetched for source `k` (0-based, in dictionary order). */
  function Fetched(f: Fetches, k: nat): Option<seq<string>>
    requires k < |SourceNames|
  {
    match k
    case 0 => f.ftpNasdaqtrader
    case 1 => f.nasdaqScreenerApi
    case 2 => f.nasdaqTradedList
    case 3 => f.nasdaqListedList
    case 4 => f.yahooNasdaqTickers
  }

  /** The three directory files keep only symbols of at most five characters. */
  predicate IsDirectoryFile(k: nat) {
    k == 0 || k == 2 || k == 3
  }

  /** The set source `k` ends up with: empty when its fetch raised. */
  function SourceSet(k: nat, fetched: Option<seq<string>>): set<string> {
    match fetched
    case None => {}
    case Some(symbols) =>
      if IsDirectoryFile(k) then set s | s in symbols && |s| <= 5 else set s | s in symbols
  }

  /** `set().union(*sets)` */
  function UnionAll(sets: seq<set<string>>): (u: set<string>)
    ensures forall s {:trigger s in u} :: s in u <==> exists k :: 0 <= k < |sets| && s in sets[k]
  {
    if sets == [] then {}
    else
      var rest := UnionAll(sets[1..]);
      assert forall k :: 1 <= k < |sets| ==> sets[k] == sets[1..][k - 1];
      sets[0] + rest
  }

  /** One data row of `symbol_sources.csv`. */
  datatype Row = Row(symbol: string, flags: seq<int>)

  /** A data row carries one flag per source: 1 when that source lists the
      row's symbol, 0 otherwise. */
  predicate FlagsSources(row: Row, results: seq<set<string>>) {
    && |row.flags| == |results|
    && forall k :: 0 <= k < |results| ==> row.flags[k] == if row.symbol in results[k] then 1 else 0
  }

  /** At least one of the row's flags is set. */
  predicate FlagsSomeSource(row: Row) {
    exists k :: 0 <= k < |row.flags| && row.flags[k] == 1
  }

  /** The `Symbol` column of the data rows. */
  function SymbolColumn(rows: seq<Row>): seq<string> {
    seq(|rows|, i requires 0 <= i < |rows| => rows[i].symbol)
  }

  /** Source `k`'s set depends on source `k`'s fetch alone, and is empty when
      that fetch is `None`: one failing source does not affect the others. */
  lemma SourcesAreIndependent(results: seq<set<string>>, f: Fetches, g: Fetches, k: nat)
    requires |results| == |SourceNames| && forall j :: 0 <= j < |SourceNames| ==> results[j] == SourceSet(j, Fetched(f, j))
    requires k < |SourceNames| && Fetched(f, k) == Fetched(g, k)
    ensures results[k] == SourceSet(k, Fetched(g, k))
    ensures Fetched(f, k).None? ==> results[k] == {}
  {
  }

  /** One directory file's `try` block: its symbols of at most five
      characters, or nothing when reading it raised. */
  method ReadDirectoryFile(fetched: Option<seq<string>>) returns (found: set<string>)
    ensures found == SourceSet(0, fetched)
  {
    found := {};
    match fetched {
      case None =>
      case Some(column) =>
        var short := Filter(column, (s: string) => |s| <= 5);
        found := found + set s | s in short;
    }
  }

  /** The API's and the index's `try` blocks: every symbol consumed, which
      after a part-way raise is those before the failing entry. */
  method ReadSymbolList(fetched: Option<seq<string>>) returns (found: set<string>)
    ensures found == SourceSet(1, fetched)
  {
    found := {};
    match fetched {
      case None =>
      case Some(symbols) =>
        if symbols != [] {
          found := found + set s | s in symbols;
        }
    }
  }

  /** The first half of `get_symbols_multiple_sources`: one `try` block per
      source, each updating only its own set. */
  method ReadSources(f: Fetches) returns (results: seq<set<string>>)
    ensures |results| == |SourceNames|
    ensures forall k :: 0 <= k < |SourceNames| ==> results[k] == SourceSet(k, Fetched(f, k))
  {
    var ftp := ReadDirectoryFile(f.ftpNasdaqtrader);
    var api := ReadSymbolList(f.nasdaqScreenerApi);
    var traded := ReadDirectoryFile(f.nasdaqTradedList);
    var listed := ReadDirectoryFile(f.nasdaqListedList);
    var yahoo := ReadSymbolList(f.yahooNasdaqTickers);
    results := [ftp, api, traded, listed, yahoo];
    SourceSetsMatch(f, results);
  }

  /** `get_symbols_multiple_sources`: the per-source sets (whose sizes are
      printed), the header row and the data rows of `symbol_sources.csv`. */
  method GetSymbolsMultipleSources(f: Fetches)
    returns (results: seq<set<string>>, header: seq<string>, rows: seq<Row>)
    ensures |results| == |SourceNames|
    ensures forall k :: 0 <= k < |SourceNames| ==> results[k] == SourceSet(k, Fetched(f, k))
    ensures header == ["Symbol"] + SourceNames
    ensures StringOrder.StrictlyAscending(SymbolColumn(rows))
    ensures forall s :: s in SymbolColumn(rows) <==> s in UnionAll(results)
    ensures |rows| == |UnionAll(results)|
    ensures forall i :: 0 <= i < |rows| ==> FlagsSources(rows[i], results)
  {
    results := ReadSources(f);
    var allSymbols := UnionAll(results);
    header := ["Symbol"] + SourceNames;
    var ordered := StringOrder.SortedFromSet(allSymbols);
    rows := [];
    for i := 0 to |ordered|
      invariant |rows| == i
      invariant forall j :: 0 <= j < i ==> rows[j].symbol == ordered[j]
      invariant forall j :: 0 <= j < i ==> FlagsSources(rows[j], results)
    {
      var symbol := ordered[i];
      var flags := seq(|results|, k requires 0 <= k < |results| => if symbol in results[k] then 1 else 0);
      rows := rows + [Row(symbol, flags)];
    }
    assert SymbolColumn(rows) == ordered;
  }

  lemma SourceSetsMatch(f: Fetches, results: seq<set<string>>)
    requires |results| == 5
    requires results[0] == SourceSet(0, f.ftpNasdaqtrader)
    requires results[1] == SourceSet(1, f.nasdaqScreenerApi)
    requires results[2] == SourceSet(0, f.nasdaqTradedList)
    requires results[3] == SourceSet(0, f.nasdaqListedList)
    requires results[4] == SourceSet(1, f.yahooNasdaqTickers)
    ensures forall k :: 0 <= k < |SourceNames| ==> results[k] == SourceSet(k, Fetched(f, k))
  {
  }

  /** Every symbol comes from the union, so every row flags at least one
      source. */
  lemma {:induction false} EveryRowFlagsASource(results: seq<set<string>>, rows: seq<Row>)
    requires |results| == |SourceNames|
    requires forall s :: s in SymbolColumn(rows) <==> s in UnionAll(results)
    requires forall i :: 0 <= i < |rows| ==> FlagsSources(rows[i], results)
    ensures forall i :: 0 <= i < |rows| ==> FlagsSomeSource(rows[i])
  {
    forall i | 0 <= i < |rows| ensures FlagsSomeSource(rows[i]) {
      var symbol := rows[i].symbol;
      assert symbol in UnionAll(results) by {
        assert SymbolColumn(rows)[i] == symbol;
      }
      var k :| 0 <= k < |results| && symbol in results[k];
      assert FlagsSources(rows[i], results);
      assert rows[i].flags[k] == 1;
    }
  }

  /** A read that raised part-way keeps a subset of what the whole read
      would have contributed, and every symbol read before the raise. */
  lemma PartialReadIsSubset(k: nat, prefix: seq<string>, all: seq<string>)
    requires prefix <= all
    ensures SourceSet(k, Some(prefix)) <= SourceSet(k, Some(all))
    ensures !IsDirectoryFile(k) ==> forall s :: s in prefix ==> s in SourceSet(k, Some(prefix))
  {
    forall s | s in prefix ensures s in all {
      var i :| 0 <= i < |prefix| && prefix[i] == s;
      assert all[i] == s;
    }
  }

  /** A directory file contributes only symbols of at most five characters. */
  lemma DirectoryFilesKeepShortSymbols(k: nat, fetched: Option<seq<string>>)
    requires IsDirectoryFile(k)
    ensures forall s :: s in SourceSet(k, fetched) ==> |s| <= 5
  {
  }
}
