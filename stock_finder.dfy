/** The archived picker, `filter_stocks` in Archive/stock_finder.py: the
    records of `all_stocks.csv` (as the high-dividend scanner writes them)
    filtered by three thresholds, sorted by dividend yield from highest to
    lowest, and projected onto thirteen columns for `potential_picks.csv`. */
module StockFinder {
  import opened Collections
  import HighDividend

  type StockInfo = HighDividend.StockInfo

  /** The boolean mask: a yield above 5 %, at least 25 years of age and a
      market capitalisation above one billion (both bounds on yield and
      market cap are strict). */
  predicate Pick(d: StockInfo) {
    d.dividendYield > 5.0 && d.age >= 25.0 && d.marketCap > 1000000000.0
  }

  function Picks(): StockInfo -> bool {
    d => Pick(d)
  }

  /** Ordered by dividend yield, highest first (ties in any order). */
  predicate YieldDescending(s: seq<StockInfo>) {
    forall i, j :: 0 <= i < j < |s| ==> s[i].dividendYield >= s[j].dividendYield
  }

  /** Places `d` in front of the first record whose yield is lower. */
  function Insert(d: StockInfo, s: seq<StockInfo>): (r: seq<StockInfo>)
    requires YieldDescending(s)
    ensures YieldDescending(r)
    ensures multiset(r) == multiset(s) + multiset{d}
    ensures |r| == |s| + 1
    ensures r[0] == d || (s != [] && r[0] == s[0])
  {
    if s == [] || s[0].dividendYield <= d.dividendYield then
      ConsDescending(d, s);
      [d] + s
    else
      DescendingTail(s);
      var tail := Insert(d, s[1..]);
      ConsDescending(s[0], tail);
      assert s == [s[0]] + s[1..];
      [s[0]] + tail
  }

  lemma DescendingTail(s: seq<StockInfo>)
    requires YieldDescending(s) && s != []
    ensures YieldDescending(s[1..])
  {
    forall i, j | 0 <= i < j < |s| - 1 ensures s[1..][i].dividendYield >= s[1..][j].dividendYield {
      assert s[1..][i] == s[i + 1] && s[1..][j] == s[j + 1];
    }
  }

  /** A record no lower than the head of a descending sequence can go in
      front of it. */
  lemma ConsDescending(d: StockInfo, s: seq<StockInfo>)
    requires YieldDescending(s)
    requires s != [] ==> s[0].dividendYield <= d.dividendYield
    ensures YieldDescending([d] + s)
  {
    var r := [d] + s;
    forall i, j | 0 <= i < j < |r| ensures r[i].dividendYield >= r[j].dividendYield {
      assert r[j] == s[j - 1];
      if i > 0 {
        assert r[i] == s[i - 1];
      }
    }
  }

  /** `sort_values('Dividend_Yield', ascending=False)`. */
  function SortByYield(s: seq<StockInfo>): (r: seq<StockInfo>)
    ensures YieldDescending(r)
    ensures multiset(r) == multiset(s)
    ensures |r| == |s|
  {
    if s == [] then []
    else
      assert s == [s[0]] + s[1..];
      Insert(s[0], SortByYield(s[1..]))
  }

  /** A cell of the output file. */
  datatype Cell = Text(text: string) | Number(value: real)

  /** The selected columns, in output order. */
  const Columns: seq<string> := [
    "Symbol", "Name", "Exchange", "Dividend_Yield", "Age",
    "Market_Cap", "Industry", "Sector", "Current_Price",
    "ROE", "ROA", "Debt_To_Equity", "Current_Ratio"]

  /** The record's value in the named column (`df[name]`). */
  function CellOf(d: StockInfo, name: string): Cell
    requires name in Columns
  {
    match name
    case "Symbol" => Text(d.symbol)
    case "Name" => Text(d.name)
    case "Exchange" => Text(d.exchange)
    case "Dividend_Yield" => Number(d.dividendYield)
    case "Age" => Number(d.age)
    case "Market_Cap" => Number(d.marketCap)
    case "Industry" => Text(d.industry)
    case "Sector" => Text(d.sector)
    case "Current_Price" => Number(d.currentPrice)
    case "ROE" => Number(d.roe)
    case "ROA" => Number(d.roa)
    case "Debt_To_Equity" => Number(d.debtToEquity)
    case "Current_Ratio" => Number(d.currentRatio)
  }

  /** One output row: the record's cells in the selected columns. */
  function Project(d: StockInfo): seq<Cell> {
    seq(|Columns|, i requires 0 <= i < |Columns| => CellOf(d, Columns[i]))
  }

  function Projected(s: seq<StockInfo>): seq<seq<Cell>> {
    seq(|s|, i requires 0 <= i < |s| => Project(s[i]))
  }

  /** The output file: its header and data rows. */
  datatype Table = Table(header: seq<string>, body: seq<seq<Cell>>)

  /** `filter_stocks`: what `potential_picks.csv` holds. The printed count
      is `|FilterStocks(rows).body|`. */
  function FilterStocks(rows: seq<StockInfo>): (out: Table)
    ensures out.header == Columns
    ensures |out.body| == |Filter(rows, Picks())|
    ensures exists sorted ::
      && YieldDescending(sorted)
      && multiset(sorted) == multiset(Filter(rows, Picks()))
      && out.body == Projected(sorted)
  {
    var sorted := SortByYield(Filter(rows, Picks()));
    Table(Columns, Projected(sorted))
  }

  /** The yield column is the fourth, and it is non-increasing down the
      output rows; every row has exactly the thirteen selected cells. */
  lemma {:induction false} OutputShape(rows: seq<StockInfo>)
    ensures var body := FilterStocks(rows).body;
      && (forall i :: 0 <= i < |body| ==> |body[i]| == |Columns| && body[i][3].Number?)
      && (forall i, j :: 0 <= i < j < |body| ==> body[i][3].value >= body[j][3].value)
  {
    var sorted := SortByYield(Filter(rows, Picks()));
    var body := Projected(sorted);
    forall i | 0 <= i < |body| ensures |body[i]| == |Columns| && body[i][3] == Number(sorted[i].dividendYield) {
      ProjectYield(sorted[i]);
    }
  }

  lemma ProjectYield(d: StockInfo)
    ensures |Project(d)| == |Columns| && Project(d)[3] == Number(d.dividendYield)
  {
    assert Columns[3] == "Dividend_Yield";
  }

  /** Every output row is the projection of an input record that passes the
      mask. */
  lemma {:induction false} OutputRowsArePicks(rows: seq<StockInfo>)
    ensures var body := FilterStocks(rows).body;
      forall i :: 0 <= i < |body| ==> exists d :: d in rows && Pick(d) && body[i] == Project(d)
  {
    var kept := Filter(rows, Picks());
    var sorted := SortByYield(kept);
    var body := Projected(sorted);
    forall i | 0 <= i < |body| ensures exists d :: d in rows && Pick(d) && body[i] == Project(d) {
      var d := sorted[i];
      assert d in kept by {
        assert d in multiset(sorted);
      }
      assert body[i] == Project(d);
    }
  }

  /** Every input record that passes the mask appears, projected, in the
      output. */
  lemma {:induction false} PicksReachOutput(rows: seq<StockInfo>, d: StockInfo)
    requires d in rows && Pick(d)
    ensures Project(d) in FilterStocks(rows).body
  {
    var kept := Filter(rows, Picks());
    var sorted := SortByYield(kept);
    assert d in sorted by {
      assert d in kept;
      assert d in multiset(kept);
    }
    var i :| 0 <= i < |sorted| && sorted[i] == d;
    assert Projected(sorted)[i] == Project(d);
  }

  /** The mask's bounds: a yield of exactly 5 % or a market cap of exactly
      one billion is dropped, an age of exactly 25 is kept. */
  lemma BoundaryCases(d: StockInfo)
    ensures d.dividendYield == 5.0 ==> !Pick(d)
    ensures d.marketCap == 1000000000.0 ==> !Pick(d)
    ensures d.age == 25.0 && d.dividendYield > 5.0 && d.marketCap > 1000000000.0 ==> Pick(d)
  {
  }
}
