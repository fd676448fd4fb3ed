# Keyed upsert-and-merge of partial moving-average aggregates

This project models the stream agent `process` of the stock moving-average
aggregator (`faust_app/ma_agg.py`). The agent receives partial moving-average
aggregates (`StockData`). It files each one under the 5-tuple key
(symbol, type, MA_type, start, end) in a table of `AggregatedData`:

- If the key is absent, the incoming record is stored as it arrived.
- If the key is present, the entry is replaced by a merged record.
  - `sum_of_vwap` and the four counters are added field-wise.
  - `sma_value` is recomputed as sum over count. It is guarded to zero when the count is zero.
  - The descriptive fields, `current_time` included, come from the incoming record.

The model is written in Dafny and has three modules:

- `Aggregates` (`aggregate.dfy`) defines the record datatype and the key.
  It also defines the guarded average, the additive `Totals` part of a record,
  the `WellFormed` and `SmaConsistent` invariants, and `Merge`.
- `WindowedTable` (`table.dfy`) models the table as an immutable
  `map<Key, AggregatedData>`. Its `Step` is one iteration of the agent's loop body.
- `Agent` (`agent.dfy`) folds `Step` over a sequence of records. `Run` is the
  fold and `Process` is the loop. The module proves what each entry
  accumulates and that the accumulation does not depend on arrival order.

Modelling choices:

- `StockData` and `AggregatedData` declare the same twelve fields, so both are
  the one datatype `Aggregate`, with the two names kept as type aliases.
- Dafny reserves `type`, so the `type` field is `kind`. `MA_type` is `maType`.
- Counters are `int`, because Python integers are unbounded and the agent never
  checks their sign. `sum_of_vwap` and `sma_value` are mathematical `real`s.
- The division is guarded by `count != 0`, so a negative count still divides.
- The agent merges pre-aggregated records field by field: every field of the
  incoming record is added, with no per-tick gating. `start` and `end` are
  taken from the incoming record, which is harmless because they are part of
  the key and so equal those of the existing entry.
- A new entry's `sma_value` is copied from the record that creates it, not
  recomputed, so the entry's average is consistent only when that record's
  was (`WindowedTable.StepPreservesAveragesConsistent`). Every merge
  recomputes it, so a stale average on a later record is repaired.

## Model

| member | source | states |
|---|---|---|
| Aggregates.KeyOf | faust_app/ma_agg.py:51 | builds the 5-tuple (symbol, type, MA_type, start, end) a record is filed under; its meaning is stated by `Aggregates.KeyOfSeparates` |
| Aggregates.KeyOfSeparates | faust_app/ma_agg.py:51 | two records share a table entry exactly when all five key components are equal |
| Aggregates.Average | faust_app/ma_agg.py:72 | the guarded average times the count gives back the sum when the count is non-zero, and it is 0 when the count is zero; nothing divides by zero |
| Aggregates.Merge | faust_app/ma_agg.py:67-87 | the merged record's five accumulators are the sums of the two inputs; its average agrees with its accumulators; its key and `current_time` are the incoming record's; merging two well-formed records gives a well-formed one |
| Aggregates.MergeSmaIsMean | faust_app/ma_agg.py:70-72 | the merged average times the merged count equals the combined VWAP sum, and the average is 0 when the combined count is 0 |
| WindowedTable.Step | faust_app/ma_agg.py:51-87 | the step adds the record's key to the table; every other entry is unchanged; the entry under the key holds the incoming totals, plus the existing entry's totals when the key was present |
| WindowedTable.StepLeavesOtherKeys | faust_app/ma_agg.py:51-53 | an entry under any key other than the record's 5-tuple is present after the step exactly when it was before, and it is unchanged |
| WindowedTable.StepTotalsAt | faust_app/ma_agg.py:52-86 | one step adds the record's accumulators under its own key, whether it was absent (added to zero) or present, and adds nothing under any other key |
| WindowedTable.StepStoresNewRecordVerbatim | faust_app/ma_agg.py:52-66 | when the key is absent, the new entry equals the incoming record field for field, and `sma_value` is copied rather than recomputed |
| WindowedTable.StepAddsOntoExisting | faust_app/ma_agg.py:67-86 | when the key is present, `sum_of_vwap`, `count_of_vwap`, `window_data_count`, `real_data_count` and `filled_data_count` each equal the existing value plus the incoming value |
| WindowedTable.StepMergedSma | faust_app/ma_agg.py:70-72 | after a merge, `sma_value` is the new sum divided by the new count when that count is non-zero, and 0 otherwise |
| WindowedTable.StepTakesDescriptionFromIncoming | faust_app/ma_agg.py:53-80 | after a step, the entry has the incoming record's symbol, type, MA_type, start, end and `current_time`, whether the record was stored or merged |
| WindowedTable.StepSeparatesKeys | faust_app/ma_agg.py:51-53 | a record that differs in any key component never changes another record's entry |
| WindowedTable.StepPreservesValid | faust_app/ma_agg.py:84-86 | with a well-formed incoming record, every entry still sits under its own key, has no negative counter, has real plus filled equal to the window count, and has no more VWAP contributions than ticks |
| WindowedTable.StepPreservesAveragesConsistent | faust_app/ma_agg.py:60-72 | a merged entry's average always agrees with its accumulators; a stored entry's average agrees when the incoming record's did |
| Agent.KeysOfMembers | faust_app/ma_agg.py:51 | a key is among a sequence's keys exactly when some record in the sequence builds that 5-tuple |
| Agent.Run | faust_app/ma_agg.py:50-87 | applies `Step` to the records in arrival order; what it computes is stated by `Agent.RunKeys`, `Agent.RunTotals` and `Agent.RunOrderIndependent` |
| Agent.RunKeys | faust_app/ma_agg.py:50-87 | after a sequence of records is processed, the table's keys are the starting keys plus the key of every record: no entry is lost and none appears from nowhere |
| Agent.Process | faust_app/ma_agg.py:50-87 | the record-by-record loop computes the same table as the fold `Run`, and that table holds the starting keys plus every record's key |
| Agent.RunTotals | faust_app/ma_agg.py:52-87 | after a fold, the accumulators under every key (zero where there is no entry) are the starting table's plus the sum over all records filed under that key |
| Agent.KeysOfPermutation | faust_app/ma_agg.py:51 | a permutation of the same records is filed under the same set of 5-tuple keys |
| Agent.TotalPermutation | faust_app/ma_agg.py:70-86 | the per-key sum of the accumulators over a sequence of records depends only on the multiset of records, not on their order |
| Agent.FoldSameKey | faust_app/ma_agg.py:52-87 | folding records that share one key into an empty table leaves exactly one entry; a lone record is stored verbatim; the entry's accumulators are the sums over the whole sequence |
| Agent.RunOrderIndependent | faust_app/ma_agg.py:52-87 | processing any permutation of the same records gives the same set of keys and the same accumulators under every key |
| Agent.RunKeepsLatestDescription | faust_app/ma_agg.py:74-80 | an entry carries the key and `current_time` of the last record filed under it |
| Agent.RunPreservesValid | faust_app/ma_agg.py:84-86 | processing well-formed records keeps a valid table valid, so the count invariants hold for every entry after any number of records |
| Agent.RunPreservesAveragesConsistent | faust_app/ma_agg.py:52-72 | starting from consistent entries, every entry's average stays consistent with its accumulators as long as each record that creates an entry (key absent from the table and from every earlier record) was consistent; records that are merged may carry any average |
| Agent.RunMergedEntrySmaIsMean | faust_app/ma_agg.py:67-72 | once some record under a key was merged into an existing entry, that entry's average is the guarded mean of everything filed under the key, whatever averages the records carried |
| Agent.RunSmaIsMeanOfAll | faust_app/ma_agg.py:70-72 | with consistent starting entries and consistent entry-creating records in both orders, the average under every key is the guarded mean (sum over count, 0 for a zero count) of everything filed under that key, and every arrival order gives the same average |
| Agent.ExampleTwoPartials | faust_app/ma_agg.py:52-87 | two partial aggregates for "2330" merge to a sum of 30.0, a count of 2, an average of 15.0, window/real/filled counts of 3/2/1, and the later `current_time` |

## Left out

- The app, topics and table construction (faust_app/ma_agg.py:32-45) are left out. This is broker, port and concurrency configuration. Line 44 also leaves `partitions=` without a value, so that call is not well-formed as written.
- The `.hopping(size=60, step=30)` windowing (faust_app/ma_agg.py:45) is left out. Window assignment and expiry happen inside the streaming library's windowed table, which is not part of this model. The table is modelled as a plain map from the 5-tuple key to one record.
- The table's `default=AggregatedData` factory is not modelled. The agent tests membership before every read, so the factory is never used on the modelled path.
- The `stream.group_by` repartitioning and the asynchronous `async for` loop (faust_app/ma_agg.py:50) are modelled only as the sequential loop `Agent.Process` over one already-partitioned sub-stream.
- The read `windowed_table[key]` at faust_app/ma_agg.py:68 is taken to yield the current window's stored `AggregatedData`, and `existing.sum_of_vwap` and the other fields at lines 70-86 are read from that record. On a hopping table the same expression yields the library's windowed value, and line 92 calls `.now()` on it; the fields of that value are not part of this model.
- The emission check against the wall clock and the send to the output topic (faust_app/ma_agg.py:89-93) are left out. They depend on the current time, windowed-value semantics and an asynchronous network send.
- The `__main__` entry point (faust_app/ma_agg.py:96-97) is left out.
- IEEE-754 rounding of `sum_of_vwap` and `sma_value` is left out. The model uses mathematical reals, so additivity and order independence hold exactly here but only approximately in floating point.
- Window lifecycle, emission flags, tumbling and count-based windows, and a periodic sweep timer are not modelled, because this code does not implement them.
