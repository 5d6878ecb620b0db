/** The incremental, resumable collector of dataGetter/dataGetter.py
    (`StockScreener`): an append-only CSV store of per-symbol records, a set
    of already processed symbols rebuilt from that store at start-up, and a
    run that fetches every listed symbol not yet processed, appending one
    record per success before marking the symbol processed.

    The listing service and the quote service are inputs: the listing is
    `None` when fetching or parsing it raised, and a lookup is `None` when
    anything inside `process_stock`'s `try` block raised. */
module Collector {
  import opened Collections

  /** The keys of the quote service's info bag that the collector reads.
      `firstTradeAge` is present exactly when `firstTradeDateEpochUtc` is, and
      holds the age in years the host derives from it and its clock. */
  datatype Info = Info(
    longName: Option<string>,
    marketCap: Option<real>,
    dividendYield: Option<real>,
    firstTradeAge: Option<real>)

  /** A successful lookup: the info bag and the clock reading it is stamped with. */
  datatype Quote = Quote(info: Info, now: string)

  /** One data row of `all_stocks.csv`. */
  datatype Record = Record(
    symbol: string,
    name: string,
    marketCap: real,
    dividendYield: real,
    ageYears: real,
    timestamp: string)

  /** The header row of the store. */
  const FieldNames: seq<string> := ["symbol", "name", "market_cap", "dividend_yield", "age_years", "timestamp"]

  /** Python truthiness of an optional number: present and non-zero. */
  predicate Truthy(v: Option<real>) {
    v.Some? && v.value != 0.0
  }

  /** The `stock_data` dictionary `process_stock` builds for one symbol. */
  function ShapeRecord(symbol: string, q: Quote): Record {
    var info := q.info;
    Record(
      symbol,
      if info.longName.Some? then info.longName.value else "",
      if info.marketCap.Some? then info.marketCap.value else 0.0,
      if Truthy(info.dividendYield) then info.dividendYield.value * 100.0 else 0.0,
      if info.firstTradeAge.Some? then info.firstTradeAge.value else 0.0,
      q.now)
  }

  /** The symbols of a store's data rows. */
  function Symbols(rows: seq<Record>): set<string> {
    set r | r in rows :: r.symbol
  }

  /** The store holds at most one record per symbol. */
  predicate UniqueSymbols(rows: seq<Record>) {
    forall i, j :: 0 <= i < j < |rows| ==> rows[i].symbol != rows[j].symbol
  }

  /** A sequence in which no element occurs twice. */
  ghost predicate Distinct(s: seq<string>) {
    forall x :: multiset(s)[x] <= 1
  }

  /** What `get_symbols` returns: the listing, in listing order, without the
      processed symbols; nothing at all when the listing could not be had. */
  function WorkList(listing: Option<seq<string>>, processed: set<string>): seq<string> {
    match listing
    case None => []
    case Some(all) => Filter(all, NotIn(processed))
  }

  /** The comprehension's condition `s not in processed`. */
  function NotIn(processed: set<string>): string -> bool {
    s => s !in processed
  }

  /** The entries whose lookup fails. */
  function Failed(lookup: string -> Option<Quote>): string -> bool {
    s => lookup(s).None?
  }

  /** The work list never holds a processed symbol, holds every listed symbol
      that is not processed, keeps the listing's order, and is empty when the
      listing failed. */
  lemma WorkListSpec(listing: Option<seq<string>>, processed: set<string>)
    ensures var r := WorkList(listing, processed);
      && (listing.None? ==> r == [])
      && (forall s :: s in r ==> s !in processed)
      && (listing.Some? ==> forall s :: s in r <==> s in listing.value && s !in processed)
      && (listing.Some? ==> IsSubsequence(r, listing.value))
      && (listing.Some? && Distinct(listing.value) ==> Distinct(r))
  {
    if listing.Some? {
      FilterIsSubsequence(listing.value, NotIn(processed));
    }
  }

  /** The records a run appends while it works through `work`, in order. */
  function Collected(work: seq<string>, lookup: string -> Option<Quote>): seq<Record>
    decreases |work|
  {
    if work == [] then []
    else
      var last := work[|work| - 1];
      Collected(work[..|work| - 1], lookup) +
        (if lookup(last).Some? then [ShapeRecord(last, lookup(last).value)] else [])
  }

  /** The symbols of `work` whose lookup succeeds. */
  function Succeeded(work: seq<string>, lookup: string -> Option<Quote>): set<string> {
    set s | s in work && lookup(s).Some?
  }

  /** The on-disk store `all_stocks.csv`: whether the file exists and, when it
      does, its data rows (the header row is implied). */
  class StoreFile {
    var present: bool
    var rows: seq<Record>

    constructor (present: bool, rows: seq<Record>)
      ensures this.present == present && this.rows == rows
    {
      this.present := present;
      this.rows := rows;
    }

    /** Open for writing and write the header: a file with no data rows. */
    method CreateWithHeader()
      modifies this
      ensures present && rows == []
    {
      present := true;
      rows := [];
    }

    /** Open for appending and write one row (flushed and synced). */
    method Append(r: Record)
      modifies this`rows
      ensures rows == old(rows) + [r]
    {
      rows := rows + [r];
    }
  }

  class StockScreener {
    const outputFile: StoreFile
    var processedSymbols: set<string>

    /** The processed set is exactly the set of symbols in the store. */
    ghost predicate Valid()
      reads this, outputFile
    {
      outputFile.present && processedSymbols == Symbols(outputFile.rows)
    }

    /** `__init__`: create the store if it is absent, then rebuild the
        processed set from it. */
    constructor (file: StoreFile)
      modifies file
      ensures outputFile == file && Valid()
      ensures file.rows == if old(file.present) then old(file.rows) else []
      ensures !old(file.present) ==> processedSymbols == {}
    {
      outputFile := file;
      processedSymbols := {};
      new;
      InitializeFile();
      LoadProcessedSymbols();
    }

    /** `_initialize_file`: a missing store is created holding only its header;
        an existing one is left as it is. */
    method InitializeFile()
      modifies outputFile
      ensures outputFile.present
      ensures outputFile.rows == if old(outputFile.present) then old(outputFile.rows) else []
    {
      if !outputFile.present {
        outputFile.CreateWithHeader();
      }
    }

    /** `_load_processed_symbols`: when the store exists, the processed set
        becomes the set of `symbol` values of its data rows. */
    method LoadProcessedSymbols()
      modifies this`processedSymbols
      ensures processedSymbols == if outputFile.present then Symbols(outputFile.rows) else old(processedSymbols)
    {
      if outputFile.present {
        processedSymbols := set r | r in outputFile.rows :: r.symbol;
      }
    }

    /** `get_symbols`, with the listing service's answer as input. */
    method GetSymbols(listing: Option<seq<string>>) returns (r: seq<string>)
      ensures r == WorkList(listing, processedSymbols)
      ensures listing.None? ==> r == []
      ensures forall s :: s in r ==> s !in processedSymbols
      ensures listing.Some? ==> forall s :: s in r <==> s in listing.value && s !in processedSymbols
      ensures listing.Some? ==> IsSubsequence(r, listing.value)
    {
      WorkListSpec(listing, processedSymbols);
      match listing {
        case None =>
          r := [];
        case Some(all) =>
          r := Filter(all, NotIn(processedSymbols));
      }
    }

    /** `process_stock`, with the outcome of its `try` block as input. On
        success the record is appended first and the symbol marked second. */
    method ProcessStock(symbol: string, lookup: Option<Quote>) returns (ok: bool)
      requires Valid()
      modifies outputFile`rows, this`processedSymbols
      ensures Valid()
      ensures ok == lookup.Some?
      ensures outputFile.rows ==
        old(outputFile.rows) + if ok then [ShapeRecord(symbol, lookup.value)] else []
      ensures processedSymbols ==
        if ok then old(processedSymbols) + {symbol} else old(processedSymbols)
    {
      match lookup {
        case None =>
          ok := false;
        case Some(q) =>
          var stockData := ShapeRecord(symbol, q);
          outputFile.Append(stockData);
          SymbolsSnoc(old(outputFile.rows), stockData);
          processedSymbols := processedSymbols + {symbol};
          ok := true;
      }
    }

    /** `run`: compute the work list once, then process its entries in order.
        `stopAfter` is the number of entries processed before an interrupt
        ends the loop; when it is at least the work list's length the loop
        runs to completion. */
    method Run(listing: Option<seq<string>>, lookup: string -> Option<Quote>, stopAfter: nat)
      requires Valid()
      modifies outputFile`rows, this`processedSymbols
      ensures Valid()
      ensures old(processedSymbols) <= processedSymbols
      ensures
        var work := WorkList(listing, old(processedSymbols));
        var done := work[..if stopAfter < |work| then stopAfter else |work|];
        && outputFile.rows == old(outputFile.rows) + Collected(done, lookup)
        && processedSymbols == old(processedSymbols) + Succeeded(done, lookup)
    {
      var remainingSymbols := GetSymbols(listing);
      ghost var rows0, processed0 := outputFile.rows, processedSymbols;
      var i := 0;
      while i < |remainingSymbols| && i < stopAfter
        invariant Valid()
        invariant 0 <= i <= |remainingSymbols| && i <= stopAfter
        invariant outputFile.rows == rows0 + Collected(remainingSymbols[..i], lookup)
        invariant processedSymbols == processed0 + Succeeded(remainingSymbols[..i], lookup)
      {
        var symbol := remainingSymbols[i];
        ghost var rowsBefore, processedBefore := outputFile.rows, processedSymbols;
        var _ := ProcessStock(symbol, lookup(symbol));
        RunStep(remainingSymbols, i, lookup, rows0, processed0, rowsBefore, processedBefore, outputFile.rows, processedSymbols);
        i := i + 1;
      }
    }
  }

  /** Working through one more entry of `work` appends that entry's record,
      if any, and adds the entry to the succeeded set if its lookup succeeds. */
  lemma PrefixStep(work: seq<string>, i: nat, lookup: string -> Option<Quote>)
    requires i < |work|
    ensures Collected(work[..i + 1], lookup) == Collected(work[..i], lookup) +
      (if lookup(work[i]).Some? then [ShapeRecord(work[i], lookup(work[i]).value)] else [])
    ensures Succeeded(work[..i + 1], lookup) ==
      Succeeded(work[..i], lookup) + (if lookup(work[i]).Some? then {work[i]} else {})
  {
    assert work[..i + 1] == work[..i] + [work[i]];
    assert work[..i + 1][..i] == work[..i];
  }

  /** The loop invariant of `run` survives one call of `process_stock`. */
  lemma RunStep(
    work: seq<string>, i: nat, lookup: string -> Option<Quote>,
    rows0: seq<Record>, processed0: set<string>,
    rowsBefore: seq<Record>, processedBefore: set<string>,
    rowsAfter: seq<Record>, processedAfter: set<string>)
    requires i < |work|
    requires rowsBefore == rows0 + Collected(work[..i], lookup)
    requires processedBefore == processed0 + Succeeded(work[..i], lookup)
    requires rowsAfter ==
      rowsBefore + if lookup(work[i]).Some? then [ShapeRecord(work[i], lookup(work[i]).value)] else []
    requires processedAfter ==
      if lookup(work[i]).Some? then processedBefore + {work[i]} else processedBefore
    ensures rowsAfter == rows0 + Collected(work[..i + 1], lookup)
    ensures processedAfter == processed0 + Succeeded(work[..i + 1], lookup)
  {
    PrefixStep(work, i, lookup);
  }

  lemma SymbolsSnoc(rows: seq<Record>, r: Record)
    ensures Symbols(rows + [r]) == Symbols(rows) + {r.symbol}
  {
    assert forall x :: x in rows + [r] <==> x in rows || x == r;
  }

  /** A record's dividend yield is zero exactly when the info bag's yield is
      missing or zero; otherwise it is the yield as a percentage. */
  lemma DividendYieldPercent(symbol: string, q: Quote)
    ensures var r := ShapeRecord(symbol, q);
      && (r.dividendYield == 0.0 <==> !Truthy(q.info.dividendYield))
      && (Truthy(q.info.dividendYield) ==> r.dividendYield == 100.0 * q.info.dividendYield.value)
  {
  }

  /** An info bag without any of the keys read gives the default record. */
  lemma EmptyInfoDefaults(symbol: string, now: string)
    ensures ShapeRecord(symbol, Quote(Info(None, None, None, None), now)) ==
      Record(symbol, "", 0.0, 0.0, 0.0, now)
  {
  }

  /** A dividend yield of 0.08 is stored as 8.0 (percent). */
  lemma EightPercent(symbol: string, now: string)
    ensures ShapeRecord(symbol, Quote(Info(None, None, Some(0.08), None), now)).dividendYield == 8.0
  {
  }

  lemma {:induction false} CollectedAppend(a: seq<string>, b: seq<string>, lookup: string -> Option<Quote>)
    ensures Collected(a + b, lookup) == Collected(a, lookup) + Collected(b, lookup)
    decreases |b|
  {
    if b == [] {
      assert a + b == a;
    } else {
      var b' := b[..|b| - 1];
      assert (a + b)[..|a + b| - 1] == a + b';
      assert (a + b)[|a + b| - 1] == b[|b| - 1];
      CollectedAppend(a, b', lookup);
    }
  }

  /** Interrupting a run after `k` entries leaves the store holding a prefix
      of what the uninterrupted run would have appended. */
  lemma InterruptedRunIsPrefix(work: seq<string>, k: nat, lookup: string -> Option<Quote>)
    requires k <= |work|
    ensures Collected(work[..k], lookup) <= Collected(work, lookup)
  {
    assert work == work[..k] + work[k..];
    CollectedAppend(work[..k], work[k..], lookup);
  }

  /** The symbols of the appended records are exactly the entries whose
      lookup succeeded, so the processed set keeps tracking the store. */
  lemma {:induction false} SymbolsOfCollected(work: seq<string>, lookup: string -> Option<Quote>)
    ensures Symbols(Collected(work, lookup)) == Succeeded(work, lookup)
    decreases |work|
  {
    if work != [] {
      var w', last := work[..|work| - 1], work[|work| - 1];
      SymbolsOfCollected(w', lookup);
      assert work == w' + [last];
      var tail := if lookup(last).Some? then [ShapeRecord(last, lookup(last).value)] else [];
      SymbolsAppend(Collected(w', lookup), tail);
    }
  }

  lemma SymbolsAppend(a: seq<Record>, b: seq<Record>)
    ensures Symbols(a + b) == Symbols(a) + Symbols(b)
  {
    assert forall x :: x in a + b <==> x in a || x in b;
  }

  /** After a completed run, the next run's work list holds exactly the
      entries of this run's work list whose lookup failed, in order: failed
      symbols stay eligible and nothing stored is fetched again. */
  lemma RetryOnlyFailures(listing: Option<seq<string>>, processed: set<string>, lookup: string -> Option<Quote>)
    ensures var work := WorkList(listing, processed);
      WorkList(listing, processed + Succeeded(work, lookup)) == Filter(work, Failed(lookup))
  {
    var work := WorkList(listing, processed);
    var after := processed + Succeeded(work, lookup);
    if listing.Some? {
      var all := listing.value;
      var both := s => s !in processed && lookup(s).None?;
      WorkListSpec(listing, processed);
      FilterFilter(all, NotIn(processed), Failed(lookup), both);
      forall i | 0 <= i < |all|
        ensures NotIn(after)(all[i]) == both(all[i])
      {
        if all[i] !in processed {
          assert all[i] in work;
        }
      }
      FilterCongruent(all, NotIn(after), both);
    }
  }

  /** Idempotence: when every lookup of a completed run succeeds, a second
      run against the same listing has nothing to do and appends nothing. */
  lemma SecondRunAppendsNothing(listing: Option<seq<string>>, processed: set<string>, lookup: string -> Option<Quote>)
    requires forall s :: s in WorkList(listing, processed) ==> lookup(s).Some?
    ensures var again := WorkList(listing, processed + Succeeded(WorkList(listing, processed), lookup));
      again == [] && Collected(again, lookup) == []
  {
    RetryOnlyFailures(listing, processed, lookup);
    FilterNone(WorkList(listing, processed), Failed(lookup));
  }

  /** A stretch of work whose every lookup fails appends nothing. */
  lemma {:induction false} CollectedOfFailures(work: seq<string>, lookup: string -> Option<Quote>)
    requires forall s :: s in work ==> lookup(s).None?
    ensures Collected(work, lookup) == []
    decreases |work|
  {
    if work != [] {
      var w' := work[..|work| - 1];
      assert work[|work| - 1] in work;
      forall s | s in w' ensures lookup(s).None? {
        assert s in work;
      }
      CollectedOfFailures(w', lookup);
    }
  }

  /** After a completed run, a retry that meets the same lookup outcomes
      appends nothing, whatever those outcomes were: the retry visits only
      the entries that failed, and they fail again. */
  lemma RetryWithSameOutcomesAppendsNothing(listing: Option<seq<string>>, processed: set<string>, lookup: string -> Option<Quote>)
    ensures var work := WorkList(listing, processed);
      Collected(WorkList(listing, processed + Succeeded(work, lookup)), lookup) == []
  {
    var work := WorkList(listing, processed);
    RetryOnlyFailures(listing, processed, lookup);
    var again := Filter(work, Failed(lookup));
    forall s | s in again ensures lookup(s).None? {
      assert Failed(lookup)(s);
    }
    CollectedOfFailures(again, lookup);
  }

  /** Resumption: no symbol of a stored row is on the next work list. */
  lemma ResumeSkipsStored(listing: Option<seq<string>>, rows: seq<Record>)
    ensures forall s, r :: s in WorkList(listing, Symbols(rows)) && r in rows ==> r.symbol != s
  {
    WorkListSpec(listing, Symbols(rows));
  }

  lemma UniqueAppend(a: seq<Record>, b: seq<Record>)
    requires UniqueSymbols(a) && UniqueSymbols(b) && Symbols(a) !! Symbols(b)
    ensures UniqueSymbols(a + b)
  {
    var c := a + b;
    forall i, j | 0 <= i < j < |c| ensures c[i].symbol != c[j].symbol {
      if i < |a| && |a| <= j {
        assert c[i] in a && c[j] in b;
        assert c[i].symbol in Symbols(a) && c[j].symbol in Symbols(b);
      } else if |a| <= i {
        assert c[i] == b[i - |a|] && c[j] == b[j - |a|];
      }
    }
  }

  lemma DistinctSnoc(w: seq<string>, last: string)
    requires Distinct(w + [last])
    ensures Distinct(w) && last !in w
  {
    assert multiset(w + [last]) == multiset(w) + multiset{last};
    assert multiset(w + [last])[last] <= 1;
    forall x ensures multiset(w)[x] <= 1 {
      assert multiset(w + [last])[x] <= 1;
    }
  }

  lemma DistinctPrefix(w: seq<string>, k: nat)
    requires Distinct(w) && k <= |w|
    ensures Distinct(w[..k])
  {
    assert w == w[..k] + w[k..];
    assert multiset(w) == multiset(w[..k]) + multiset(w[k..]);
    forall x ensures multiset(w[..k])[x] <= 1 {
      assert multiset(w)[x] <= 1;
    }
  }

  /** A duplicate-free work list appends at most one record per symbol. */
  lemma {:induction false} CollectedUnique(work: seq<string>, lookup: string -> Option<Quote>)
    requires Distinct(work)
    ensures UniqueSymbols(Collected(work, lookup))
    decreases |work|
  {
    if work != [] {
      var w', last := work[..|work| - 1], work[|work| - 1];
      assert work == w' + [last];
      DistinctSnoc(w', last);
      CollectedUnique(w', lookup);
      SymbolsOfCollected(w', lookup);
      var tail := if lookup(last).Some? then [ShapeRecord(last, lookup(last).value)] else [];
      UniqueAppend(Collected(w', lookup), tail);
    }
  }

  /** The store keeps at most one record per symbol across a run, provided
      the listing names each symbol once (uniqueness is not enforced by the
      store itself, only by the work list's exclusion of processed symbols). */
  lemma RunKeepsSymbolsUnique(listing: seq<string>, rows: seq<Record>, lookup: string -> Option<Quote>, k: nat)
    requires Distinct(listing) && UniqueSymbols(rows)
    requires k <= |WorkList(Some(listing), Symbols(rows))|
    ensures UniqueSymbols(rows + Collected(WorkList(Some(listing), Symbols(rows))[..k], lookup))
  {
    var work := WorkList(Some(listing), Symbols(rows));
    WorkListSpec(Some(listing), Symbols(rows));
    var done := work[..k];
    DistinctPrefix(work, k);
    CollectedUnique(done, lookup);
    SymbolsOfCollected(done, lookup);
    UniqueAppend(rows, Collected(done, lookup));
  }

  /** Without that proviso the store can gain two records for one symbol:
      a listing that names a symbol twice puts it on the work list twice. */
  lemma DuplicateListingDuplicatesRecord(lookup: string -> Option<Quote>)
    requires lookup("HTGC").Some?
    ensures !UniqueSymbols(Collected(WorkList(Some(["HTGC", "HTGC"]), {}), lookup))
  {
    var work := WorkList(Some(["HTGC", "HTGC"]), {});
    assert work == ["HTGC", "HTGC"];
    assert work[..1] == ["HTGC"] && work[..1][..0] == [];
    var r := ShapeRecord("HTGC", lookup("HTGC").value);
    var rows := Collected(work, lookup);
    assert rows == [r, r];
    assert rows[0].symbol == rows[1].symbol;
  }

  /** A run over a fresh store where "AAPL" succeeds and "MSFT" fails stores
      one record, marks only "AAPL" processed, and leaves "MSFT" for the
      next run. */
  lemma AaplStoredMsftRetried(lookup: string -> Option<Quote>)
    requires lookup("AAPL").Some? && lookup("MSFT").None?
    ensures var work := WorkList(Some(["AAPL", "MSFT"]), Symbols([]));
      && Collected(work, lookup) == [ShapeRecord("AAPL", lookup("AAPL").value)]
      && Succeeded(work, lookup) == {"AAPL"}
      && WorkList(Some(["AAPL", "MSFT"]), Succeeded(work, lookup)) == ["MSFT"]
  {
    var listing := ["AAPL", "MSFT"];
    assert Symbols([]) == {};
    var work := WorkList(Some(listing), {});
    assert work == listing;
    assert work[..1] == ["AAPL"] && work[..1][..0] == [];
    assert Succeeded(work, lookup) == {"AAPL"};
    assert listing[1..] == ["MSFT"] && listing[1..][1..] == [];
    assert WorkList(Some(listing), {"AAPL"}) == ["MSFT"];
  }
}
