/**
 The agent loop as a fold of `Step` over the records that arrive, and what
 the fold accumulates under each key.
 */
module Agent {
  import opened Aggregates
  import opened WindowedTable

  /** The keys a sequence of records is filed under. */
  function KeysOf(rs: seq<StockData>): set<Key>
    decreases |rs|
  {
    if |rs| == 0 then {} else KeysOf(rs[..|rs| - 1]) + {KeyOf(rs[|rs| - 1])}
  }

  /** A key is among a sequence's keys exactly when some record is filed under it. */
  lemma {:induction false} KeysOfMembers(rs: seq<StockData>, k: Key)
    ensures k in KeysOf(rs) <==> exists i :: 0 <= i < |rs| && KeyOf(rs[i]) == k
    decreases |rs|
  {
    if |rs| > 0 {
      var prefix := rs[..|rs| - 1];
      KeysOfMembers(prefix, k);
      if k in KeysOf(prefix) {
        var i :| 0 <= i < |prefix| && KeyOf(prefix[i]) == k;
        assert KeyOf(rs[i]) == k;
      }
      if exists i :: 0 <= i < |rs| && KeyOf(rs[i]) == k {
        var i :| 0 <= i < |rs| && KeyOf(rs[i]) == k;
        if i < |rs| - 1 {
          assert KeyOf(prefix[i]) == k;
        }
      }
    }
  }

  /** The table after every record of `rs` has been processed, in order. */
  function Run(t: Table, rs: seq<StockData>): Table
    decreases |rs|
  {
    if |rs| == 0 then t
    else Step(Run(t, rs[..|rs| - 1]), rs[|rs| - 1])
  }

  /** The fold's table holds the starting keys plus the key of every record. */
  lemma {:induction false} RunKeys(t: Table, rs: seq<StockData>)
    ensures Run(t, rs).Keys == t.Keys + KeysOf(rs)
    decreases |rs|
  {
    if |rs| > 0 {
      RunKeys(t, rs[..|rs| - 1]);
    }
  }

  /** The agent's `async for` loop over one sub-stream, record by record. */
  method Process(table: Table, recs: seq<StockData>) returns (tbl: Table)
    ensures tbl == Run(table, recs)
    ensures tbl.Keys == table.Keys + KeysOf(recs)
  {
    tbl := table;
    var i := 0;
    while i < |recs|
      invariant 0 <= i <= |recs|
      invariant tbl == Run(table, recs[..i])
    {
      assert recs[..i + 1][..i] == recs[..i];
      tbl := Step(tbl, recs[i]);
      i := i + 1;
    }
    assert recs[..i] == recs;
    RunKeys(table, recs);
  }

  /** What the records of `rs` filed under `k` add up to. */
  function Total(rs: seq<StockData>, k: Key): Totals
    decreases |rs|
  {
    if |rs| == 0 then Zero
    else Add(Total(rs[..|rs| - 1], k), Contribution(rs[|rs| - 1], k))
  }

  /** Totals over a concatenation add up. */
  lemma {:induction false} TotalConcat(a: seq<StockData>, b: seq<StockData>, k: Key)
    ensures Total(a + b, k) == Add(Total(a, k), Total(b, k))
    decreases |b|
  {
    if |b| == 0 {
      assert a + b == a;
      AddZero(Total(a, k));
    } else {
      var c := Contribution(b[|b| - 1], k);
      assert (a + b)[..|a + b| - 1] == a + b[..|b| - 1];
      TotalConcat(a, b[..|b| - 1], k);
      AddAssociates(Total(a, k), Total(b[..|b| - 1], k), c);
    }
  }

  /** Deleting position `i` removes one occurrence of `s[i]` from the multiset. */
  lemma MultisetRemoveAt<T>(s: seq<T>, i: nat)
    requires i < |s|
    ensures multiset(s[..i] + s[i + 1..]) == multiset(s) - multiset{s[i]}
  {
    assert s == s[..i] + [s[i]] + s[i + 1..];
    calc {
      multiset(s);
      multiset(s[..i] + [s[i]] + s[i + 1..]);
      multiset(s[..i]) + multiset{s[i]} + multiset(s[i + 1..]);
      multiset(s[..i] + s[i + 1..]) + multiset{s[i]};
    }
  }

  /** Taking one record out of a sequence takes exactly its contribution out
      of the total. */
  lemma TotalRemoveAt(qs: seq<StockData>, i: nat, k: Key)
    requires i < |qs|
    ensures Total(qs, k) == Add(Total(qs[..i] + qs[i + 1..], k), Contribution(qs[i], k))
  {
    var front, c, back := qs[..i], Contribution(qs[i], k), qs[i + 1..];
    assert qs == front + [qs[i]] + back;
    assert Total([qs[i]], k) == c by {
      assert [qs[i]][..0] == [];
      AddZero(c);
    }
    TotalConcat(front + [qs[i]], back, k);
    TotalConcat(front, [qs[i]], k);
    TotalConcat(front, back, k);
    AddAssociates(Total(front, k), c, Total(back, k));
    AddCommutes(c, Total(back, k));
    AddAssociates(Total(front, k), Total(back, k), c);
  }

  /** Taking the last element off one sequence and a matching element out of
      a permutation of it leaves two permutations of each other. */
  lemma RemoveMatching<T>(rs: seq<T>, qs: seq<T>, i: nat)
    requires multiset(rs) == multiset(qs)
    requires 0 < |rs| && i < |qs| && qs[i] == rs[|rs| - 1]
    ensures multiset(rs[..|rs| - 1]) == multiset(qs[..i] + qs[i + 1..])
  {
    var n := |rs|;
    assert rs[..n - 1] == rs[..n - 1] + rs[n..];
    MultisetRemoveAt(rs, n - 1);
    MultisetRemoveAt(qs, i);
  }

  /** What a sequence adds up to under a key depends only on which records it
      holds, not on the order they arrive in. */
  lemma {:induction false} TotalPermutation(rs: seq<StockData>, qs: seq<StockData>, k: Key)
    requires multiset(rs) == multiset(qs)
    ensures Total(rs, k) == Total(qs, k)
    decreases |rs|
  {
    if |rs| == 0 {
      assert |qs| == |multiset(qs)| == 0;
    } else {
      var n := |rs|;
      var last := rs[n - 1];
      assert last in multiset(qs);
      var i :| 0 <= i < |qs| && qs[i] == last;
      var rest := qs[..i] + qs[i + 1..];
      RemoveMatching(rs, qs, i);
      TotalPermutation(rs[..n - 1], rest, k);
      TotalRemoveAt(qs, i, k);
    }
  }

  /** Under every key, the fold's table holds what the starting table held
      plus everything filed under that key, in whatever order it arrived. */
  lemma {:induction false} RunTotals(t: Table, rs: seq<StockData>, k: Key)
    ensures TotalsAt(Run(t, rs), k) == Add(TotalsAt(t, k), Total(rs, k))
    decreases |rs|
  {
    if |rs| == 0 {
      AddZero(TotalsAt(t, k));
    } else {
      var prefix, last := rs[..|rs| - 1], rs[|rs| - 1];
      RunTotals(t, prefix, k);
      StepTotalsAt(Run(t, prefix), last, k);
      AddAssociates(TotalsAt(t, k), Total(prefix, k), Contribution(last, k));
    }
  }

  /** Records filed under one key, processed from an empty table, leave one
      entry; the first record is stored verbatim and each later one adds, so
      the entry's accumulators are the sums over the whole sequence. */
  lemma FoldSameKey(rs: seq<StockData>, k: Key)
    requires |rs| > 0
    requires forall i :: 0 <= i < |rs| ==> KeyOf(rs[i]) == k
    ensures Run(map[], rs).Keys == {k}
    ensures |rs| == 1 ==> Run(map[], rs) == map[k := rs[0]]
    ensures TotalsAt(Run(map[], rs), k) == Total(rs, k)
  {
    assert KeyOf(rs[0]) == k;
    RunKeys(map[], rs);
    forall j ensures j in KeysOf(rs) <==> j == k {
      KeysOfMembers(rs, j);
    }
    RunTotals(map[], rs, k);
    AddZero(Total(rs, k));
    if |rs| == 1 {
      assert rs[..0] == [];
    }
  }

  /** A permutation of the records is filed under the same keys. */
  lemma KeysOfPermutation(rs: seq<StockData>, qs: seq<StockData>)
    requires multiset(rs) == multiset(qs)
    ensures KeysOf(rs) == KeysOf(qs)
  {
    forall k ensures k in KeysOf(rs) <==> k in KeysOf(qs) {
      KeysOfMembers(rs, k);
      KeysOfMembers(qs, k);
      if k in KeysOf(rs) {
        var i :| 0 <= i < |rs| && KeyOf(rs[i]) == k;
        assert rs[i] in multiset(qs);
        var j :| 0 <= j < |qs| && qs[j] == rs[i];
      }
      if k in KeysOf(qs) {
        var j :| 0 <= j < |qs| && KeyOf(qs[j]) == k;
        assert qs[j] in multiset(rs);
        var i :| 0 <= i < |rs| && rs[i] == qs[j];
      }
    }
  }

  /** Processing the same records in any order yields the same keys and the
      same accumulators under every key. */
  lemma RunOrderIndependent(t: Table, rs: seq<StockData>, qs: seq<StockData>)
    requires multiset(rs) == multiset(qs)
    ensures Run(t, rs).Keys == Run(t, qs).Keys
    ensures forall k :: TotalsAt(Run(t, rs), k) == TotalsAt(Run(t, qs), k)
  {
    RunKeys(t, rs);
    RunKeys(t, qs);
    KeysOfPermutation(rs, qs);
    forall k ensures TotalsAt(Run(t, rs), k) == TotalsAt(Run(t, qs), k) {
      RunTotals(t, rs, k);
      RunTotals(t, qs, k);
      TotalPermutation(rs, qs, k);
    }
  }

  /** The entry under a record's key carries that record's description when no
      later record was filed under the same key: `currentTime` is the latest. */
  lemma {:induction false} RunKeepsLatestDescription(t: Table, rs: seq<StockData>, i: nat)
    requires i < |rs|
    requires forall j :: i < j < |rs| ==> KeyOf(rs[j]) != KeyOf(rs[i])
    ensures KeyOf(rs[i]) in Run(t, rs)
    ensures var e := Run(t, rs)[KeyOf(rs[i])];
      KeyOf(e) == KeyOf(rs[i]) && e.currentTime == rs[i].currentTime
    decreases |rs|
  {
    var k := KeyOf(rs[i]);
    KeysOfMembers(rs, k);
    RunKeys(t, rs);
    if i < |rs| - 1 {
      var prefix := rs[..|rs| - 1];
      assert prefix[i] == rs[i];
      RunKeepsLatestDescription(t, prefix, i);
      StepLeavesOtherKeys(Run(t, prefix), rs[|rs| - 1], k);
    }
  }

  /** Processing well-formed records keeps a valid table valid. */
  lemma {:induction false} RunPreservesValid(t: Table, rs: seq<StockData>)
    requires Valid(t)
    requires forall i :: 0 <= i < |rs| ==> WellFormed(rs[i])
    ensures Valid(Run(t, rs))
    decreases |rs|
  {
    if |rs| > 0 {
      RunPreservesValid(t, rs[..|rs| - 1]);
      StepPreservesValid(Run(t, rs[..|rs| - 1]), rs[|rs| - 1]);
    }
  }

  /** Record `i` creates its entry: its key is neither in the starting table
      nor carried by any earlier record, so it is stored rather than merged. */
  predicate CreatesEntry(t: Table, rs: seq<StockData>, i: int)
  {
    && 0 <= i < |rs|
    && KeyOf(rs[i]) !in t
    && forall j :: 0 <= j < i ==> KeyOf(rs[j]) != KeyOf(rs[i])
  }

  /** Every record that creates an entry carries a consistent average; records
      that are merged may carry any average, since the merge recomputes it. */
  predicate CreatorsConsistent(t: Table, rs: seq<StockData>)
  {
    forall i :: 0 <= i < |rs| && CreatesEntry(t, rs, i) ==> SmaConsistent(rs[i])
  }

  /** Whether a record creates its entry does not depend on later records. */
  lemma CreatesEntryInPrefix(t: Table, rs: seq<StockData>, i: int)
    requires 0 < |rs| && 0 <= i < |rs| - 1
    ensures CreatesEntry(t, rs[..|rs| - 1], i) <==> CreatesEntry(t, rs, i)
  {
    var prefix := rs[..|rs| - 1];
    assert forall j :: 0 <= j <= i ==> prefix[j] == rs[j];
  }

  /** The last record either finds its key already in the table, so it is
      merged, or it creates its entry. */
  lemma LastMergesOrCreates(t: Table, rs: seq<StockData>)
    requires 0 < |rs|
    ensures KeyOf(rs[|rs| - 1]) in Run(t, rs[..|rs| - 1]) || CreatesEntry(t, rs, |rs| - 1)
  {
    var prefix, last := rs[..|rs| - 1], rs[|rs| - 1];
    RunKeys(t, prefix);
    KeysOfMembers(prefix, KeyOf(last));
    if KeyOf(last) !in Run(t, prefix) {
      forall j | 0 <= j < |rs| - 1 ensures KeyOf(rs[j]) != KeyOf(last) {
        assert prefix[j] == rs[j];
      }
    }
  }

  /** Processing keeps every entry's average consistent with its accumulators
      as long as each record that creates an entry was consistent; later
      records under the same key may carry a stale average. */
  lemma {:induction false} RunPreservesAveragesConsistent(t: Table, rs: seq<StockData>)
    requires AveragesConsistent(t)
    requires CreatorsConsistent(t, rs)
    ensures AveragesConsistent(Run(t, rs))
    decreases |rs|
  {
    if |rs| > 0 {
      var prefix, last := rs[..|rs| - 1], rs[|rs| - 1];
      forall i | CreatesEntry(t, prefix, i) ensures SmaConsistent(prefix[i]) {
        CreatesEntryInPrefix(t, rs, i);
        assert prefix[i] == rs[i];
      }
      RunPreservesAveragesConsistent(t, prefix);
      LastMergesOrCreates(t, rs);
      StepPreservesAveragesConsistent(Run(t, prefix), last);
    }
  }

  /** Once any record under `k` has been merged into an existing entry, the
      entry's average is the guarded mean of everything filed under `k`,
      whatever averages the records carried. */
  lemma {:induction false} RunMergedEntrySmaIsMean(t: Table, rs: seq<StockData>, k: Key, i: int)
    requires 0 <= i < |rs| && KeyOf(rs[i]) == k && !CreatesEntry(t, rs, i)
    ensures var total := Add(TotalsAt(t, k), Total(rs, k));
      SmaAt(Run(t, rs), k) == Average(total.sumOfVwap, total.countOfVwap)
    decreases |rs|
  {
    var prefix, last := rs[..|rs| - 1], rs[|rs| - 1];
    RunTotals(t, rs, k);
    if KeyOf(last) == k {
      if i < |rs| - 1 {
        assert KeyOf(rs[i]) == KeyOf(last);
      }
      LastMergesOrCreates(t, rs);
    } else {
      CreatesEntryInPrefix(t, rs, i);
      assert prefix[i] == rs[i];
      RunMergedEntrySmaIsMean(t, prefix, k, i);
      StepLeavesOtherKeys(Run(t, prefix), last, k);
      RunTotals(t, prefix, k);
      AddZero(Total(prefix, k));
    }
  }

  /** With consistent starting entries and entry-creating records, each
      entry's moving average is the guarded mean of all VWAP contributions
      filed under its key, whatever the arrival order. */
  lemma RunSmaIsMeanOfAll(t: Table, rs: seq<StockData>, qs: seq<StockData>, k: Key)
    requires AveragesConsistent(t)
    requires CreatorsConsistent(t, rs) && CreatorsConsistent(t, qs)
    requires multiset(rs) == multiset(qs)
    ensures var total := Add(TotalsAt(t, k), Total(rs, k));
      SmaAt(Run(t, rs), k) == Average(total.sumOfVwap, total.countOfVwap)
    ensures SmaAt(Run(t, rs), k) == SmaAt(Run(t, qs), k)
  {
    RunPreservesAveragesConsistent(t, rs);
    RunPreservesAveragesConsistent(t, qs);
    RunTotals(t, rs, k);
    RunTotals(t, qs, k);
    TotalPermutation(rs, qs, k);
  }

  /** Two partial aggregates for symbol "2330" in one window. */
  const firstPartial := Aggregate("2330", "stock", "5_MA", "09:00", "09:01", "09:00:10",
                                  10.0, 10.0, 1, 2, 1, 1)
  const secondPartial := Aggregate("2330", "stock", "5_MA", "09:00", "09:01", "09:00:40",
                                   20.0, 20.0, 1, 1, 1, 0)

  /** The first partial is stored as it came, the second is added onto it and
      the average becomes 30.0 / 2. */
  lemma ExampleTwoPartials()
    ensures KeyOf(firstPartial) in Run(map[], [firstPartial, secondPartial])
    ensures var e := Run(map[], [firstPartial, secondPartial])[KeyOf(firstPartial)];
      && e.sumOfVwap == 30.0 && e.countOfVwap == 2 && e.smaValue == 15.0
      && e.windowDataCount == 3 && e.realDataCount == 2 && e.filledDataCount == 1
      && e.currentTime == "09:00:40"
  {
    var a, b := firstPartial, secondPartial;
    assert [a, b][..1] == [a];
    assert [a][..0] == [];
    assert Run(map[], [a]) == map[KeyOf(a) := a];
    assert Run(map[], [a, b]) == map[KeyOf(a) := Merge(a, b)];
  }
}
