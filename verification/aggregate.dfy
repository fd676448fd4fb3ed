/**
 Partial moving-average aggregates and the field-wise merge of two of them.

 The stream agent receives `StockData` records and keeps `AggregatedData`
 records in its table. Both carry exactly the same twelve fields, so both are
 modelled by the one datatype `Aggregate`; the two names survive as aliases.
 */
module Aggregates {

  /** One partial aggregate: a moving-average bucket for one symbol, instrument
      type and moving-average kind over the window [start, end). The Python
      record's `type` field is called `kind` here and `MA_type` is called `maType`. */
  datatype Aggregate = Aggregate(
    symbol: string,
    kind: string,
    maType: string,
    start: string,
    end: string,
    currentTime: string,
    smaValue: real,
    sumOfVwap: real,
    countOfVwap: int,
    windowDataCount: int,
    realDataCount: int,
    filledDataCount: int
  )

  /** An incoming record on the input topic. */
  type StockData = Aggregate

  /** A record held in the table and published on the output topic. */
  type AggregatedData = Aggregate

  /** The 5-tuple the agent files each record under. */
  datatype Key = Key(symbol: string, kind: string, maType: string, start: string, end: string)

  function KeyOf(a: Aggregate): Key
  {
    Key(a.symbol, a.kind, a.maType, a.start, a.end)
  }

  /** Two records share a table entry exactly when all five key components agree. */
  lemma KeyOfSeparates(a: Aggregate, b: Aggregate)
    ensures KeyOf(a) == KeyOf(b) <==>
      && a.symbol == b.symbol
      && a.kind == b.kind
      && a.maType == b.maType
      && a.start == b.start
      && a.end == b.end
  {
  }

  /** The simple moving average of `count` contributions adding up to `sum`,
      with the division guarded to zero when the count is zero. The guard is
      `count != 0`, so a negative count still divides. */
  function Average(sum: real, count: int): (r: real)
    ensures count != 0 ==> r * (count as real) == sum
    ensures count == 0 ==> r == 0.0
  {
    if count != 0 then sum / (count as real) else 0.0
  }

  /** The additive part of an aggregate: the five accumulators a merge adds up. */
  datatype Totals = Totals(
    sumOfVwap: real,
    countOfVwap: int,
    windowDataCount: int,
    realDataCount: int,
    filledDataCount: int
  )

  const Zero := Totals(0.0, 0, 0, 0, 0)

  function TotalsOf(a: Aggregate): Totals
  {
    Totals(a.sumOfVwap, a.countOfVwap, a.windowDataCount, a.realDataCount, a.filledDataCount)
  }

  function Add(x: Totals, y: Totals): Totals
  {
    Totals(
      x.sumOfVwap + y.sumOfVwap,
      x.countOfVwap + y.countOfVwap,
      x.windowDataCount + y.windowDataCount,
      x.realDataCount + y.realDataCount,
      x.filledDataCount + y.filledDataCount)
  }

  lemma AddZero(x: Totals)
    ensures Add(Zero, x) == x && Add(x, Zero) == x
  {
  }

  lemma AddCommutes(x: Totals, y: Totals)
    ensures Add(x, y) == Add(y, x)
  {
  }

  lemma AddAssociates(x: Totals, y: Totals, z: Totals)
    ensures Add(Add(x, y), z) == Add(x, Add(y, z))
  {
  }

  /** What one record adds under `k`: its accumulators if it is filed there. */
  function Contribution(r: Aggregate, k: Key): Totals
  {
    if KeyOf(r) == k then TotalsOf(r) else Zero
  }

  /** The count bookkeeping every well-formed aggregate keeps: no negative
      counter, every tick either real or filled, and no more VWAP
      contributions than ticks. */
  predicate WellFormed(a: Aggregate)
  {
    && 0 <= a.countOfVwap
    && 0 <= a.realDataCount
    && 0 <= a.filledDataCount
    && a.realDataCount + a.filledDataCount == a.windowDataCount
    && a.countOfVwap <= a.windowDataCount
  }

  /** The stored moving average agrees with the two accumulators. */
  predicate SmaConsistent(a: Aggregate)
  {
    a.smaValue == Average(a.sumOfVwap, a.countOfVwap)
  }

  /** The record that replaces `existing` when `incoming` arrives under the same key. */
  function Merge(existing: AggregatedData, incoming: StockData): (r: AggregatedData)
    ensures TotalsOf(r) == Add(TotalsOf(existing), TotalsOf(incoming))
    ensures SmaConsistent(r)
    ensures KeyOf(r) == KeyOf(incoming) && r.currentTime == incoming.currentTime
    ensures WellFormed(existing) && WellFormed(incoming) ==> WellFormed(r)
  {
    var sum := existing.sumOfVwap + incoming.sumOfVwap;
    var count := existing.countOfVwap + incoming.countOfVwap;
    Aggregate(
      incoming.symbol,
      incoming.kind,
      incoming.maType,
      incoming.start,
      incoming.end,
      incoming.currentTime,
      Average(sum, count),
      sum,
      count,
      existing.windowDataCount + incoming.windowDataCount,
      existing.realDataCount + incoming.realDataCount,
      existing.filledDataCount + incoming.filledDataCount)
  }

  /** A merged record's average is the mean of everything merged into it, and
      it never divides by zero: with no VWAP contributions on either side the
      average is zero. */
  lemma MergeSmaIsMean(existing: AggregatedData, incoming: StockData)
    ensures var r := Merge(existing, incoming);
      && (r.countOfVwap != 0 ==>
            r.smaValue * (r.countOfVwap as real) == existing.sumOfVwap + incoming.sumOfVwap)
      && (existing.countOfVwap + incoming.countOfVwap == 0 ==> r.smaValue == 0.0)
  {
  }
}
