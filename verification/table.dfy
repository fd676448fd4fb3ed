/**
 The agent's table and the per-record insert-or-merge step.

 The table is a map from the 5-tuple key to the aggregate filed under it. One
 call of `Step` is one iteration of the agent's loop body: build the key, then
 either store the incoming record or replace the entry with a merged record.
 */
module WindowedTable {
  import opened Aggregates

  type Table = map<Key, AggregatedData>

  /** One record through the loop body: the table gains the record's key,
      nothing else changes, and the entry under the key holds the incoming
      accumulators, added onto the existing ones when the key was present. */
  function Step(t: Table, s: StockData): (r: Table)
    ensures r.Keys == t.Keys + {KeyOf(s)}
    ensures r - {KeyOf(s)} == t - {KeyOf(s)}
    ensures TotalsOf(r[KeyOf(s)]) ==
      if KeyOf(s) in t then Add(TotalsOf(t[KeyOf(s)]), TotalsOf(s)) else TotalsOf(s)
  {
    var key := KeyOf(s);
    if key !in t then t[key := s]
    else t[key := Merge(t[key], s)]
  }

  /** Every entry under another key is left exactly as it was. */
  lemma StepLeavesOtherKeys(t: Table, s: StockData, k: Key)
    requires k != KeyOf(s)
    ensures k in Step(t, s) <==> k in t
    ensures k in t ==> Step(t, s)[k] == t[k]
  {
    var r := Step(t, s);
    if k in t {
      assert (t - {KeyOf(s)})[k] == t[k];
      assert (r - {KeyOf(s)})[k] == r[k];
    }
  }

  /** The accumulators a table holds under `k`, zero when there is no entry. */
  function TotalsAt(t: Table, k: Key): Totals
  {
    if k in t then TotalsOf(t[k]) else Zero
  }

  /** The moving average a table holds under `k`, zero when there is no entry. */
  function SmaAt(t: Table, k: Key): real
  {
    if k in t then t[k].smaValue else 0.0
  }

  /** One step adds the record's accumulators under its own key and nothing
      under any other key. */
  lemma StepTotalsAt(t: Table, s: StockData, k: Key)
    ensures TotalsAt(Step(t, s), k) == Add(TotalsAt(t, k), Contribution(s, k))
  {
    if k != KeyOf(s) {
      StepLeavesOtherKeys(t, s, k);
      AddZero(TotalsAt(t, k));
    } else if k !in t {
      AddZero(TotalsOf(s));
    }
  }

  /** A record whose key is new is stored field for field as it arrived; in
      particular its moving average is copied, not recomputed. */
  lemma StepStoresNewRecordVerbatim(t: Table, s: StockData)
    requires KeyOf(s) !in t
    ensures Step(t, s)[KeyOf(s)] == s
    ensures Step(t, s)[KeyOf(s)].smaValue == s.smaValue
  {
  }

  /** A record whose key is present is added field-wise onto the existing entry. */
  lemma StepAddsOntoExisting(t: Table, s: StockData)
    requires KeyOf(s) in t
    ensures var e, r := t[KeyOf(s)], Step(t, s)[KeyOf(s)];
      && r.sumOfVwap == e.sumOfVwap + s.sumOfVwap
      && r.countOfVwap == e.countOfVwap + s.countOfVwap
      && r.windowDataCount == e.windowDataCount + s.windowDataCount
      && r.realDataCount == e.realDataCount + s.realDataCount
      && r.filledDataCount == e.filledDataCount + s.filledDataCount
  {
  }

  /** After a merge the moving average is the new sum over the new count, or
      zero when the new count is zero. */
  lemma StepMergedSma(t: Table, s: StockData)
    requires KeyOf(s) in t
    ensures var r := Step(t, s)[KeyOf(s)];
      && (r.countOfVwap != 0 ==> r.smaValue == r.sumOfVwap / (r.countOfVwap as real))
      && (r.countOfVwap == 0 ==> r.smaValue == 0.0)
  {
  }

  /** Whether stored or merged, the entry carries the incoming record's
      descriptive fields, so its `currentTime` is that of the latest record. */
  lemma StepTakesDescriptionFromIncoming(t: Table, s: StockData)
    ensures var r := Step(t, s)[KeyOf(s)];
      && r.symbol == s.symbol && r.kind == s.kind && r.maType == s.maType
      && r.start == s.start && r.end == s.end && r.currentTime == s.currentTime
  {
  }

  /** Two records that differ in any key component never touch each other's entry. */
  lemma StepSeparatesKeys(t: Table, a: StockData, b: StockData)
    requires a.symbol != b.symbol || a.kind != b.kind || a.maType != b.maType
          || a.start != b.start || a.end != b.end
    ensures Step(Step(t, a), b)[KeyOf(a)] == Step(t, a)[KeyOf(a)]
  {
  }

  /** Every entry is filed under its own key and keeps the count bookkeeping. */
  predicate Valid(t: Table)
  {
    forall k :: k in t ==> KeyOf(t[k]) == k && WellFormed(t[k])
  }

  /** Every entry's moving average agrees with its accumulators. */
  predicate AveragesConsistent(t: Table)
  {
    forall k :: k in t ==> SmaConsistent(t[k])
  }

  /** The step keeps a valid table valid when the incoming record is well formed. */
  lemma StepPreservesValid(t: Table, s: StockData)
    requires Valid(t) && WellFormed(s)
    ensures Valid(Step(t, s))
  {
  }

  /** A merged entry always has a consistent average; a stored one has it when
      the incoming record did. */
  lemma StepPreservesAveragesConsistent(t: Table, s: StockData)
    requires AveragesConsistent(t)
    requires KeyOf(s) in t || SmaConsistent(s)
    ensures AveragesConsistent(Step(t, s))
  {
  }
}
