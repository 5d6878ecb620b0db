/** The dashboard's row filter, `TableView.filter_data` in table_view.py: a
    conjunctive mask over the rows of the stock table, with three required
    minimum thresholds and five optional bounds that apply only when given
    and positive, followed by selecting the rows the mask keeps. */
module TableView {
  import opened Collections

  /** One row of the stock table. A numeric cell is `None` when the CSV cell
      is empty, which the dataframe reads as NaN: every comparison with it is
      false. */
  datatype Row = Row(
    symbol: string,
    name: string,
    marketCap: Option<real>,
    dividendYield: Option<real>,
    ageYears: Option<real>,
    peRatio: Option<real>,
    debtToEquity: Option<real>,
    payoutRatio: Option<real>,
    totalCash: Option<real>,
    freeCashFlow: Option<real>,
    freeCashFlowYield: Option<real>,
    timestamp: string)

  /** `filter_data`'s arguments: the three minima the dashboard always passes
      (market cap and cash in billions), and the optional bounds, `None` when
      the argument is omitted. */
  datatype Thresholds = Thresholds(
    minAge: real,
    minDividend: real,
    minMarketCap: real,
    maxPe: Option<real>,
    maxDebtEquity: Option<real>,
    maxPayout: Option<real>,
    minCash: Option<real>,
    minFcfYield: Option<real>)

  const Billion: real := 1000000000.0

  /** An optional bound constrains the mask when it `is not None and > 0`. */
  predicate Active(bound: Option<real>) {
    bound.Some? && bound.value > 0.0
  }

  /** `cell >= bound`, false for a missing cell. */
  predicate AtLeast(cell: Option<real>, bound: real) {
    cell.Some? && cell.value >= bound
  }

  /** `cell <= bound`, false for a missing cell. */
  predicate AtMost(cell: Option<real>, bound: real) {
    cell.Some? && cell.value <= bound
  }

  /** The value of `mask` for one row. */
  predicate Keeps(t: Thresholds, row: Row) {
    && AtLeast(row.ageYears, t.minAge)
    && AtLeast(row.dividendYield, t.minDividend)
    && AtLeast(row.marketCap, t.minMarketCap * Billion)
    && (Active(t.maxPe) ==> AtMost(row.peRatio, t.maxPe.value))
    && (Active(t.maxDebtEquity) ==> AtMost(row.debtToEquity, t.maxDebtEquity.value))
    && (Active(t.maxPayout) ==> AtMost(row.payoutRatio, t.maxPayout.value))
    && (Active(t.minCash) ==> AtLeast(row.totalCash, t.minCash.value * Billion))
    && (Active(t.minFcfYield) ==> AtLeast(row.freeCashFlowYield, t.minFcfYield.value))
  }

  function Mask(t: Thresholds): Row -> bool {
    row => Keeps(t, row)
  }

  /** `df[mask].copy()`: the rows the mask keeps, unchanged and in order. */
  function FilterData(rows: seq<Row>, t: Thresholds): (r: seq<Row>)
    ensures forall row :: row in r <==> row in rows && Keeps(t, row)
    ensures forall row :: multiset(r)[row] == if Keeps(t, row) then multiset(rows)[row] else 0
    ensures IsSubsequence(r, rows)
  {
    FilterIsSubsequence(rows, Mask(t));
    Filter(rows, Mask(t))
  }

  /** An optional bound that is not active imposes nothing: the result is
      the same as when the argument is left out. */
  function Omitting(bound: Option<real>): Option<real> {
    if Active(bound) then bound else None
  }

  lemma InactiveBoundsImposeNothing(rows: seq<Row>, t: Thresholds)
    ensures FilterData(rows, t) == FilterData(rows, t.(
      maxPe := Omitting(t.maxPe),
      maxDebtEquity := Omitting(t.maxDebtEquity),
      maxPayout := Omitting(t.maxPayout),
      minCash := Omitting(t.minCash),
      minFcfYield := Omitting(t.minFcfYield)))
  {
    var u := t.(
      maxPe := Omitting(t.maxPe),
      maxDebtEquity := Omitting(t.maxDebtEquity),
      maxPayout := Omitting(t.maxPayout),
      minCash := Omitting(t.minCash),
      minFcfYield := Omitting(t.minFcfYield));
    FilterCongruent(rows, Mask(t), Mask(u));
  }

  /** An optional upper bound `tight` is at least as strict as `loose`: it is
      active whenever `loose` is, and then no larger. */
  predicate UpperNoLooser(tight: Option<real>, loose: Option<real>) {
    Active(loose) ==> Active(tight) && tight.value <= loose.value
  }

  /** An optional lower bound `tight` is at least as strict as `loose`. */
  predicate LowerNoLooser(tight: Option<real>, loose: Option<real>) {
    Active(loose) ==> Active(tight) && tight.value >= loose.value
  }

  /** Every bound of `tight` is at least as strict as that of `loose`:
      minima raised, maxima lowered while staying active, bounds switched on. */
  predicate NoLooser(tight: Thresholds, loose: Thresholds) {
    && tight.minAge >= loose.minAge
    && tight.minDividend >= loose.minDividend
    && tight.minMarketCap >= loose.minMarketCap
    && UpperNoLooser(tight.maxPe, loose.maxPe)
    && UpperNoLooser(tight.maxDebtEquity, loose.maxDebtEquity)
    && UpperNoLooser(tight.maxPayout, loose.maxPayout)
    && LowerNoLooser(tight.minCash, loose.minCash)
    && LowerNoLooser(tight.minFcfYield, loose.minFcfYield)
  }

  /** A row the stricter thresholds keep is kept by the looser ones. */
  lemma KeepsMonotone(tight: Thresholds, loose: Thresholds, row: Row)
    requires NoLooser(tight, loose) && Keeps(tight, row)
    ensures Keeps(loose, row)
  {
    assert tight.minMarketCap * Billion >= loose.minMarketCap * Billion;
    if Active(loose.minCash) {
      assert tight.minCash.value * Billion >= loose.minCash.value * Billion;
    }
  }

  /** Because the mask is a conjunction, tightening any threshold can only
      drop rows: the stricter result is a subsequence of the looser one. */
  lemma TighteningOnlyDropsRows(rows: seq<Row>, tight: Thresholds, loose: Thresholds)
    requires NoLooser(tight, loose)
    ensures IsSubsequence(FilterData(rows, tight), FilterData(rows, loose))
    ensures |FilterData(rows, tight)| <= |FilterData(rows, loose)|
  {
    forall row | Mask(tight)(row) ensures Mask(loose)(row) {
      KeepsMonotone(tight, loose, row);
    }
    FilterMonotone(rows, Mask(tight), Mask(loose));
  }

  /** Raising an active maximum, unlike raising a minimum, can add rows: a
      row with a price/earnings ratio of 20 is dropped under `max_pe = 15`
      and kept under `max_pe = 25`. */
  lemma RaisingMaximumCanAddRows(row: Row, t: Thresholds)
    requires row.peRatio == Some(20.0) && Keeps(t.(maxPe := None), row)
    ensures FilterData([row], t.(maxPe := Some(15.0))) == []
    ensures FilterData([row], t.(maxPe := Some(25.0))) == [row]
  {
    assert [row][1..] == [];
  }
}
