/**
 * The streaming top-K frequency aggregator of `FrequentCustomersAnalyzer`:
 * one in-order pass over the transactions that keeps those inside an
 * inclusive time window, accumulates a per-customer count and sum, evicts
 * low-frequency customers at checkpoints when the map is very large, and
 * finally ranks the surviving customers.
 *
 * The asynchronous source is a finite sequence; the cooperative yields are
 * no-ops and are not modelled.
 */
module Ranking {
  import opened Seqs
  import opened Sorting
  import opened Wrappers

  datatype Transaction = Transaction(timestamp: real, customerId: string, amount: real)

  datatype CustomerFrequency = CustomerFrequency(customerId: string, transactionCount: int, totalAmount: real)

  /** The inclusive window `[startTime, endTime]`. */
  datatype Window = Window(startTime: real, endTime: real)

  datatype Options = Options(batchSize: int, memoryThreshold: int, enableSpilling: bool)

  const DefaultHeapThreshold: int := 2_000_000
  /** The size that `optimizeMemoryUsage` itself demands before it evicts anything. */
  const EvictionFloor: int := 2_000_000
  const DefaultOptions: Options := Options(50000, DefaultHeapThreshold, true)
  const DefaultLimit: int := 10

  /**
   * A JavaScript `Map` from customer id to aggregate: its entries, and its
   * keys in the order in which they were inserted (the order in which the
   * map is iterated).
   */
  datatype CustomerMap = CustomerMap(entries: map<string, CustomerFrequency>, keys: seq<string>)

  const EmptyMap: CustomerMap := CustomerMap(map[], [])

  /** The map's own consistency, and the shape of every aggregate in it. */
  ghost predicate ValidMap(cm: CustomerMap) {
    && NoDup(cm.keys)
    && (forall k :: k in cm.keys <==> k in cm.entries)
    && (forall k :: k in cm.entries ==> cm.entries[k].customerId == k && cm.entries[k].transactionCount >= 1)
  }

  /** The values of `entries` listed in the order `ks`. */
  function ValuesOf(ks: seq<string>, entries: map<string, CustomerFrequency>): (vs: seq<CustomerFrequency>)
    requires forall k :: k in ks ==> k in entries
    ensures |vs| == |ks|
    ensures forall i :: 0 <= i < |ks| ==> vs[i] == entries[ks[i]]
  {
    if ks == [] then [] else [entries[ks[0]]] + ValuesOf(ks[1..], entries)
  }

  /** `Array.from(customerMap.values())`. */
  function Values(cm: CustomerMap): (vs: seq<CustomerFrequency>)
    requires ValidMap(cm)
    ensures |vs| == |cm.keys|
    ensures forall i :: 0 <= i < |vs| ==> vs[i] == cm.entries[cm.keys[i]] && vs[i].transactionCount >= 1
  {
    ValuesOf(cm.keys, cm.entries)
  }

  lemma MapSize(cm: CustomerMap)
    requires ValidMap(cm)
    ensures |cm.entries| == |cm.keys|
  {
    NoDupCard(cm.keys);
    assert Elems(cm.keys) == cm.entries.Keys;
  }

  // ------------------------------------------------------------------
  // Aggregation (lines 107-124)

  predicate InWindow(t: Transaction, w: Window) {
    t.timestamp >= w.startTime && t.timestamp <= w.endTime
  }

  /** Adds one in-window transaction to the map (lines 113-123). */
  function Record(cm: CustomerMap, t: Transaction): (r: CustomerMap)
    ensures ValidMap(cm) ==> ValidMap(r)
  {
    var id := t.customerId;
    if id in cm.entries then
      var e := cm.entries[id];
      CustomerMap(cm.entries[id := e.(transactionCount := e.transactionCount + 1,
                                       totalAmount := e.totalAmount + t.amount)], cm.keys)
    else
      var r := CustomerMap(cm.entries[id := CustomerFrequency(id, 1, t.amount)], cm.keys + [id]);
      assert ValidMap(cm) ==> NoDup(r.keys) by {
        if ValidMap(cm) {
          forall i, j | 0 <= i < j < |r.keys| ensures r.keys[i] != r.keys[j] {
            if j == |cm.keys| {
              assert r.keys[i] == cm.keys[i];
              assert cm.keys[i] in cm.keys;
            } else {
              assert r.keys[i] == cm.keys[i] && r.keys[j] == cm.keys[j];
            }
          }
        }
      }
      r
  }

  /** Number of in-window transactions: the reference for `filteredCount`. */
  function InWindowCount(data: seq<Transaction>, w: Window): (n: nat)
    ensures n <= |data|
  {
    if data == [] then 0
    else InWindowCount(data[..|data| - 1], w) + (if InWindow(data[|data| - 1], w) then 1 else 0)
  }

  /** Number of in-window transactions of customer `c`. */
  function CountOf(data: seq<Transaction>, c: string, w: Window): nat {
    if data == [] then 0
    else
      var t := data[|data| - 1];
      CountOf(data[..|data| - 1], c, w) + (if t.customerId == c && InWindow(t, w) then 1 else 0)
  }

  /** Sum of the amounts of the in-window transactions of customer `c`. */
  function SumOf(data: seq<Transaction>, c: string, w: Window): real {
    if data == [] then 0.0
    else
      var t := data[|data| - 1];
      SumOf(data[..|data| - 1], c, w) + (if t.customerId == c && InWindow(t, w) then t.amount else 0.0)
  }

  /** The exact aggregate of customer `c` over `data`. */
  function Exact(data: seq<Transaction>, c: string, w: Window): CustomerFrequency {
    CustomerFrequency(c, CountOf(data, c, w), SumOf(data, c, w))
  }

  /** The customers with at least one in-window transaction. */
  function Customers(data: seq<Transaction>, w: Window): set<string> {
    if data == [] then {}
    else
      var t := data[|data| - 1];
      Customers(data[..|data| - 1], w) + (if InWindow(t, w) then {t.customerId} else {})
  }

  /** The map that the pass builds when nothing is ever evicted. */
  function Aggregate(data: seq<Transaction>, w: Window): (r: CustomerMap)
    ensures ValidMap(r)
  {
    if data == [] then EmptyMap
    else
      var prev := Aggregate(data[..|data| - 1], w);
      var t := data[|data| - 1];
      if InWindow(t, w) then Record(prev, t) else prev
  }

  /**
   * Without eviction the map is exact: it holds an entry for exactly the
   * customers with an in-window transaction, and that entry is the count and
   * sum of those transactions.
   */
  lemma {:induction false} AggregateIsExact(data: seq<Transaction>, w: Window)
    ensures Aggregate(data, w).entries.Keys == Customers(data, w)
    ensures forall c :: c in Customers(data, w) <==> CountOf(data, c, w) > 0
    ensures forall c :: CountOf(data, c, w) == 0 ==> SumOf(data, c, w) == 0.0
    ensures forall c :: c in Aggregate(data, w).entries ==> Aggregate(data, w).entries[c] == Exact(data, c, w)
  {
    if data != [] {
      var init, t := data[..|data| - 1], data[|data| - 1];
      AggregateIsExact(init, w);
      var prev := Aggregate(init, w);
      forall c | c in Aggregate(data, w).entries
        ensures Aggregate(data, w).entries[c] == Exact(data, c, w)
      {
        if c != t.customerId || !InWindow(t, w) {
          assert Aggregate(data, w).entries[c] == prev.entries[c];
        }
      }
    }
  }

  // ------------------------------------------------------------------
  // Eviction cutoff (lines 195-200)

  function Counts(vs: seq<CustomerFrequency>): (cs: seq<int>)
    ensures |cs| == |vs|
    ensures forall i :: 0 <= i < |vs| ==> cs[i] == vs[i].transactionCount
  {
    if vs == [] then [] else [vs[0].transactionCount] + Counts(vs[1..])
  }

  /** The comparator `(a, b) => a - b`. */
  predicate Ascending(a: int, b: int) {
    a <= b
  }

  /**
   * `calculateMinTransactionThreshold`: the element at index
   * `floor(n * 0.25)` of the counts sorted ascending, or 1 when that element
   * is missing (an empty map) or is 0 (`counts[i] || 1`).
   */
  function MinTransactionThreshold(vs: seq<CustomerFrequency>): int {
    var counts := SortBy(Counts(vs), Ascending);
    var p25Index := |counts| / 4;
    if p25Index < |counts| && counts[p25Index] != 0 then counts[p25Index] else 1
  }

  /** How many of `s` are strictly below `c`. */
  function CountBelow(s: seq<int>, c: int): (n: nat)
    ensures n <= |s|
  {
    if s == [] then 0 else (if s[0] < c then 1 else 0) + CountBelow(s[1..], c)
  }

  lemma {:induction false} CountBelowInsert(x: int, s: seq<int>, c: int)
    ensures CountBelow(InsertBy(x, s, Ascending), c) == CountBelow(s, c) + (if x < c then 1 else 0)
  {
    if s != [] && !Ascending(x, s[0]) {
      CountBelowInsert(x, s[1..], c);
      var r := InsertBy(x, s, Ascending);
      assert r[1..] == InsertBy(x, s[1..], Ascending);
    } else {
      var r := InsertBy(x, s, Ascending);
      assert r[1..] == s;
    }
  }

  /** Sorting does not change how many counts are below a value. */
  lemma {:induction false} CountBelowSorted(s: seq<int>, c: int)
    ensures CountBelow(SortBy(s, Ascending), c) == CountBelow(s, c)
  {
    if s != [] {
      CountBelowSorted(s[1..], c);
      CountBelowInsert(s[0], SortBy(s[1..], Ascending), c);
    }
  }

  /** If nothing from index `k` on is below `c`, at most `k` elements are. */
  lemma {:induction false} CountBelowAtMost(s: seq<int>, c: int, k: nat)
    requires forall j :: k <= j < |s| ==> s[j] >= c
    ensures CountBelow(s, c) <= k
  {
    if s != [] {
      if k == 0 {
        CountBelowAtMost(s[1..], c, 0);
      } else {
        CountBelowAtMost(s[1..], c, k - 1);
      }
    }
  }

  /** If everything before index `k` is below `c`, at least `k` elements are. */
  lemma {:induction false} CountBelowAtLeast(s: seq<int>, c: int, k: nat)
    requires k <= |s|
    requires forall j :: 0 <= j < k ==> s[j] < c
    ensures CountBelow(s, c) >= k
  {
    if k > 0 {
      CountBelowAtLeast(s[1..], c, k - 1);
    }
  }

  /** The counts sorted by `Ascending` are ordered and are the same counts. */
  lemma SortedCounts(cs: seq<int>)
    ensures forall i, j :: 0 <= i < j < |SortBy(cs, Ascending)| ==> SortBy(cs, Ascending)[i] <= SortBy(cs, Ascending)[j]
  {
    assert TotalPreorder(Ascending);
    SortBySorted(cs, Ascending);
  }

  lemma QuartileOfSorted(sorted: seq<int>, q: nat)
    requires q < |sorted|
    requires forall i, j :: 0 <= i < j < |sorted| ==> sorted[i] <= sorted[j]
    ensures CountBelow(sorted, sorted[q]) <= q
    ensures CountBelow(sorted, sorted[q] + 1) >= q + 1
  {
    CountBelowAtMost(sorted, sorted[q], q);
    CountBelowAtLeast(sorted, sorted[q] + 1, q + 1);
  }

  /**
   * The cutoff is the lower quartile of the counts: at most a quarter of the
   * customers have a count strictly below it, and more than a quarter have a
   * count at or below it. For a non-empty map it is one of the counts, so at
   * least 1 and at most the largest count; an empty map gives 1.
   */
  lemma {:induction false} ThresholdIsLowerQuartile(vs: seq<CustomerFrequency>)
    requires forall i :: 0 <= i < |vs| ==> vs[i].transactionCount >= 1
    ensures |vs| == 0 ==> MinTransactionThreshold(vs) == 1
    ensures |vs| > 0 ==> MinTransactionThreshold(vs) in Counts(vs)
    ensures MinTransactionThreshold(vs) >= 1
    ensures CountBelow(Counts(vs), MinTransactionThreshold(vs)) <= |vs| / 4
    ensures |vs| > 0 ==> CountBelow(Counts(vs), MinTransactionThreshold(vs) + 1) > |vs| / 4
  {
    var cs := Counts(vs);
    if |vs| > 0 {
      var r := SortBy(cs, Ascending)[|cs| / 4];
      QuartileOfCounts(cs);
      var i :| 0 <= i < |cs| && cs[i] == r;
      assert r == vs[i].transactionCount;
      assert MinTransactionThreshold(vs) == r;
    }
  }

  /** The element at the quarter of the sorted counts is a count, and splits them at the quarter. */
  lemma QuartileOfCounts(cs: seq<int>)
    requires |cs| > 0
    ensures |SortBy(cs, Ascending)| == |cs|
    ensures SortBy(cs, Ascending)[|cs| / 4] in cs
    ensures CountBelow(cs, SortBy(cs, Ascending)[|cs| / 4]) <= |cs| / 4
    ensures CountBelow(cs, SortBy(cs, Ascending)[|cs| / 4] + 1) >= |cs| / 4 + 1
  {
    var sorted := SortBy(cs, Ascending);
    var q := |cs| / 4;
    assert sorted[q] in multiset(sorted);
    SortedCounts(cs);
    QuartileOfSorted(sorted, q);
    CountBelowSorted(cs, sorted[q]);
    CountBelowSorted(cs, sorted[q] + 1);
  }

  // ------------------------------------------------------------------
  // Eviction (lines 167-193)

  /** Deletes every entry whose count is strictly below `cutoff` (lines 172-182). */
  function Evict(cm: CustomerMap, cutoff: int): (r: CustomerMap)
    ensures ValidMap(cm) ==> ValidMap(r)
  {
    var doomed := set k | k in cm.entries && cm.entries[k].transactionCount < cutoff;
    var r := CustomerMap(cm.entries - doomed, Without(cm.keys, doomed));
    assert ValidMap(cm) ==> NoDup(r.keys) by {
      if ValidMap(cm) {
        WithoutNoDup(cm.keys, doomed);
      }
    }
    r
  }

  /**
   * What `optimizeMemoryUsage` does to the map: nothing unless it holds more
   * than 2,000,000 entries, whatever `memoryThreshold` made the caller try.
   */
  function Optimized(cm: CustomerMap): (r: CustomerMap)
    requires ValidMap(cm)
    ensures ValidMap(r)
  {
    if |cm.entries| > EvictionFloor then Evict(cm, MinTransactionThreshold(Values(cm))) else cm
  }

  /**
   * Exactly the entries below the cutoff are removed; the survivors keep
   * their values and key order, so none of them is below the cutoff.
   */
  lemma EvictRemovesExactlyTheLowOnes(cm: CustomerMap, cutoff: int)
    requires ValidMap(cm)
    ensures forall k :: k in Evict(cm, cutoff).entries <==> k in cm.entries && cm.entries[k].transactionCount >= cutoff
    ensures forall k :: k in Evict(cm, cutoff).entries ==> Evict(cm, cutoff).entries[k] == cm.entries[k]
    ensures forall k :: k in Evict(cm, cutoff).entries ==> Evict(cm, cutoff).entries[k].transactionCount >= cutoff
  {
  }

  /** An entry with the largest count always survives a pass. */
  lemma {:induction false} MaximumSurvives(cm: CustomerMap, top: string)
    requires ValidMap(cm)
    requires top in cm.entries
    requires forall k :: k in cm.entries ==> cm.entries[k].transactionCount <= cm.entries[top].transactionCount
    ensures top in Optimized(cm).entries && Optimized(cm).entries[top] == cm.entries[top]
  {
    if |cm.entries| > EvictionFloor {
      var vs := Values(cm);
      ThresholdIsLowerQuartile(vs);
      var cutoff := MinTransactionThreshold(vs);
      MapSize(cm);
      var i :| 0 <= i < |vs| && Counts(vs)[i] == cutoff;
      var k := cm.keys[i];
      assert vs[i] == cm.entries[k];
      assert cutoff <= cm.entries[top].transactionCount;
      EvictRemovesExactlyTheLowOnes(cm, cutoff);
    }
  }

  lemma {:induction false} WithoutCountsBelow(ks: seq<string>, entries: map<string, CustomerFrequency>, cutoff: int)
    requires forall k :: k in ks ==> k in entries
    ensures |Without(ks, set k | k in entries && entries[k].transactionCount < cutoff)|
            + CountBelow(Counts(ValuesOf(ks, entries)), cutoff) == |ks|
  {
    if ks != [] {
      WithoutCountsBelow(ks[1..], entries, cutoff);
      var vs := ValuesOf(ks, entries);
      assert vs[1..] == ValuesOf(ks[1..], entries);
      assert Counts(vs)[1..] == Counts(vs[1..]);
    }
  }

  /** A pass removes at most a quarter of the entries. */
  lemma {:induction false} EvictionKeepsThreeQuarters(cm: CustomerMap)
    requires ValidMap(cm)
    ensures |Optimized(cm).entries| >= |cm.entries| - |cm.entries| / 4
  {
    if |cm.entries| > EvictionFloor {
      var vs := Values(cm);
      var cutoff := MinTransactionThreshold(vs);
      ThresholdIsLowerQuartile(vs);
      WithoutCountsBelow(cm.keys, cm.entries, cutoff);
      MapSize(cm);
      MapSize(Optimized(cm));
    }
  }

  // ------------------------------------------------------------------
  // The pass with its checkpoints (lines 97-139)

  /** The local state of one run: the map and the three counters. */
  datatype AggregationState = AggregationState(
    customers: CustomerMap,
    processedCount: nat,
    filteredCount: nat,
    memoryCheckCounter: int)

  const InitialState: AggregationState := AggregationState(EmptyMap, 0, 0, 0)

  /** One iteration of the `for await` loop on transaction `t`. */
  function Consume(st: AggregationState, t: Transaction, w: Window, opt: Options): (r: AggregationState)
    requires ValidMap(st.customers)
    ensures ValidMap(r.customers)
  {
    var hit := InWindow(t, w);
    var customers := if hit then Record(st.customers, t) else st.customers;
    var processed := st.processedCount + 1;
    var filtered := st.filteredCount + (if hit then 1 else 0);
    var counter := st.memoryCheckCounter + 1;
    if counter >= opt.batchSize then
      var checked := if opt.enableSpilling && |customers.entries| > opt.memoryThreshold
                     then Optimized(customers) else customers;
      AggregationState(checked, processed, filtered, 0)
    else
      AggregationState(customers, processed, filtered, counter)
  }

  /** The state after consuming all of `data` in order. */
  function Run(data: seq<Transaction>, w: Window, opt: Options): (r: AggregationState)
    ensures ValidMap(r.customers)
  {
    if data == [] then InitialState
    else Consume(Run(data[..|data| - 1], w, opt), data[|data| - 1], w, opt)
  }

  /**
   * `processedCount` counts every transaction, `filteredCount` the in-window
   * ones, and the checkpoint counter is the number of transactions since the
   * last checkpoint, always below `batchSize`.
   */
  lemma {:induction false} RunCounters(data: seq<Transaction>, w: Window, opt: Options)
    ensures Run(data, w, opt).processedCount == |data|
    ensures Run(data, w, opt).filteredCount == InWindowCount(data, w)
    ensures Run(data, w, opt).filteredCount <= Run(data, w, opt).processedCount
    ensures Run(data, w, opt).memoryCheckCounter == if opt.batchSize >= 1 then |data| % opt.batchSize else 0
    ensures opt.batchSize >= 1 ==> 0 <= Run(data, w, opt).memoryCheckCounter < opt.batchSize
  {
    if data != [] {
      var init := data[..|data| - 1];
      RunCounters(init, w, opt);
      ConsumeCounters(Run(init, w, opt), data[|data| - 1], w, opt);
      if opt.batchSize >= 1 {
        ModStep(|init|, opt.batchSize);
      }
    }
  }

  lemma ConsumeCounters(st: AggregationState, t: Transaction, w: Window, opt: Options)
    requires ValidMap(st.customers)
    ensures Consume(st, t, w, opt).processedCount == st.processedCount + 1
    ensures Consume(st, t, w, opt).filteredCount == st.filteredCount + (if InWindow(t, w) then 1 else 0)
    ensures Consume(st, t, w, opt).memoryCheckCounter ==
      if st.memoryCheckCounter + 1 >= opt.batchSize then 0 else st.memoryCheckCounter + 1
  {
  }

  lemma ModUnique(n: int, b: int, q: int, r: int)
    requires b >= 1 && 0 <= r < b && n == q * b + r
    ensures n % b == r
  {
    var q', r' := n / b, n % b;
    assert n == q' * b + r';
    var d := q - q';
    assert d * b == q * b - q' * b;
    assert d * b == r' - r;
  }

  lemma ModStep(n: nat, b: int)
    requires b >= 1
    ensures (n + 1) % b == if n % b + 1 >= b then 0 else n % b + 1
  {
    var q, r := n / b, n % b;
    if r + 1 >= b {
      ModUnique(n + 1, b, q + 1, 0);
    } else {
      ModUnique(n + 1, b, q, r + 1);
    }
  }

  lemma {:induction false} CustomersGrow(data: seq<Transaction>, n: nat, w: Window)
    requires n <= |data|
    ensures Customers(data[..n], w) <= Customers(data, w)
    decreases |data| - n
  {
    if n < |data| {
      var init := data[..|data| - 1];
      assert data[..n] == init[..n];
      CustomersGrow(init, n, w);
    } else {
      assert data[..n] == data;
    }
  }

  lemma SubsetCard<T>(a: set<T>, b: set<T>)
    requires a <= b
    ensures |a| <= |b|
  {
    assert b == a + (b - a);
  }

  /**
   * While the window holds at most 2,000,000 distinct customers, or no more
   * than `memoryThreshold` of them, or spilling is off, nothing is ever
   * evicted: the run's map is the exact aggregate.
   */
  lemma {:induction false} RunWithoutEvictionIsExact(data: seq<Transaction>, w: Window, opt: Options)
    requires !opt.enableSpilling || |Customers(data, w)| <= EvictionFloor || |Customers(data, w)| <= opt.memoryThreshold
    ensures Run(data, w, opt).customers == Aggregate(data, w)
  {
    if data != [] {
      var init := data[..|data| - 1];
      CustomersGrow(data, |data| - 1, w);
      SubsetCard(Customers(init, w), Customers(data, w));
      RunWithoutEvictionIsExact(init, w, opt);
      AggregateIsExact(data, w);
    }
  }

  /** Every entry is the exact aggregate of the transactions from some index on. */
  ghost predicate SuffixAggregates(entries: map<string, CustomerFrequency>, data: seq<Transaction>, w: Window) {
    forall c :: c in entries ==> exists k :: 0 <= k <= |data| && entries[c] == Exact(data[k..], c, w)
  }

  /** Extending a suffix by the next transaction. */
  lemma ExactExtend(data: seq<Transaction>, k: nat, c: string, w: Window)
    requires k < |data|
    ensures var t := data[|data| - 1];
      && CountOf(data[k..], c, w) == CountOf(data[..|data| - 1][k..], c, w) + (if t.customerId == c && InWindow(t, w) then 1 else 0)
      && SumOf(data[k..], c, w) == SumOf(data[..|data| - 1][k..], c, w) + (if t.customerId == c && InWindow(t, w) then t.amount else 0.0)
  {
    assert data[k..][..|data[k..]| - 1] == data[..|data| - 1][k..];
  }

  lemma RecordKeepsSuffixAggregates(prev: CustomerMap, data: seq<Transaction>, w: Window)
    requires |data| > 0
    requires SuffixAggregates(prev.entries, data[..|data| - 1], w)
    ensures var t := data[|data| - 1];
      SuffixAggregates((if InWindow(t, w) then Record(prev, t) else prev).entries, data, w)
  {
    var n := |data| - 1;
    var init, t := data[..n], data[n];
    var customers := if InWindow(t, w) then Record(prev, t) else prev;
    forall c | c in customers.entries
      ensures exists k :: 0 <= k <= |data| && customers.entries[c] == Exact(data[k..], c, w)
    {
      if c in prev.entries {
        var k :| 0 <= k <= n && prev.entries[c] == Exact(init[k..], c, w);
        ExactExtend(data, k, c, w);
        assert customers.entries[c] == Exact(data[k..], c, w);
      } else {
        ExactExtend(data, n, c, w);
        assert data[..n][n..] == [];
        assert customers.entries[c] == Exact(data[n..], c, w);
      }
    }
  }

  lemma OptimizedKeepsSuffixAggregates(cm: CustomerMap, data: seq<Transaction>, w: Window)
    requires ValidMap(cm)
    requires SuffixAggregates(cm.entries, data, w)
    ensures SuffixAggregates(Optimized(cm).entries, data, w)
  {
    if |cm.entries| > EvictionFloor {
      EvictRemovesExactlyTheLowOnes(cm, MinTransactionThreshold(Values(cm)));
    }
  }

  /**
   * Whatever was evicted, every entry is the exact aggregate of the
   * transactions from some point of the stream on: eviction only ever makes
   * a customer lose the transactions seen before it was dropped.
   */
  lemma {:induction false} RunEntriesAreSuffixAggregates(data: seq<Transaction>, w: Window, opt: Options)
    ensures SuffixAggregates(Run(data, w, opt).customers.entries, data, w)
  {
    if data != [] {
      var init := data[..|data| - 1];
      RunEntriesAreSuffixAggregates(init, w, opt);
      ConsumeKeepsSuffixAggregates(Run(init, w, opt), data, w, opt);
    }
  }

  lemma ConsumeKeepsSuffixAggregates(st: AggregationState, data: seq<Transaction>, w: Window, opt: Options)
    requires |data| > 0 && ValidMap(st.customers)
    requires SuffixAggregates(st.customers.entries, data[..|data| - 1], w)
    ensures SuffixAggregates(Consume(st, data[|data| - 1], w, opt).customers.entries, data, w)
  {
    var t := data[|data| - 1];
    RecordKeepsSuffixAggregates(st.customers, data, w);
    var customers := if InWindow(t, w) then Record(st.customers, t) else st.customers;
    OptimizedKeepsSuffixAggregates(customers, data, w);
  }

  lemma {:induction false} CountOfSplit(data: seq<Transaction>, k: nat, c: string, w: Window)
    requires k <= |data|
    ensures CountOf(data, c, w) == CountOf(data[..k], c, w) + CountOf(data[k..], c, w)
  {
    if k < |data| {
      var n := |data| - 1;
      CountOfSplit(data[..n], k, c, w);
      assert data[..n][..k] == data[..k];
      assert data[k..][..|data[k..]| - 1] == data[..n][k..];
    } else {
      assert data[..k] == data;
      assert data[k..] == [];
    }
  }

  /** Eviction can only under-count a customer, never over-count. */
  lemma RunNeverOvercounts(data: seq<Transaction>, w: Window, opt: Options, c: string)
    requires c in Run(data, w, opt).customers.entries
    ensures 1 <= Run(data, w, opt).customers.entries[c].transactionCount <= CountOf(data, c, w)
  {
    RunEntriesAreSuffixAggregates(data, w, opt);
    var k :| 0 <= k <= |data| && Run(data, w, opt).customers.entries[c] == Exact(data[k..], c, w);
    CountOfSplit(data, k, c, w);
  }

  // ------------------------------------------------------------------
  // Selection (lines 153-165)

  /** The comparator of `partialSort`: `a` may come before `b`. */
  predicate RanksAtLeast(a: CustomerFrequency, b: CustomerFrequency) {
    || a.transactionCount > b.transactionCount
    || (a.transactionCount == b.transactionCount && a.totalAmount >= b.totalAmount)
  }

  /** The end index that `Array.prototype.slice(0, end)` uses on `len` elements. */
  function SliceEnd(len: nat, end: int): (e: nat)
    ensures e <= len
  {
    if end < 0 then (if len + end < 0 then 0 else len + end)
    else if end < len then end else len
  }

  /** `partialSort`: sort by count, then amount, both descending, and keep the first `limit`. */
  function PartialSort(customers: seq<CustomerFrequency>, limit: int): seq<CustomerFrequency> {
    var sorted := SortBy(customers, RanksAtLeast);
    if |sorted| <= limit then sorted else sorted[..SliceEnd(|sorted|, limit)]
  }

  lemma RanksAtLeastIsTotalPreorder()
    ensures TotalPreorder(RanksAtLeast)
  {
  }

  /**
   * The result has `min(limit, n)` elements (for a negative `limit`, `slice`
   * drops that many from the end), is ordered by count and then amount, takes
   * its elements from the input, and ranks every element it keeps at least
   * as high as every element it leaves out.
   */
  lemma {:induction false} PartialSortSelectsTop(customers: seq<CustomerFrequency>, limit: int)
    ensures var r := PartialSort(customers, limit);
      && (limit >= 0 ==> |r| == if limit < |customers| then limit else |customers|)
      && (limit < 0 ==> |r| == if |customers| + limit < 0 then 0 else |customers| + limit)
      && SortedBy(r, RanksAtLeast)
      && multiset(r) <= multiset(customers)
      && (forall x, y :: x in r && y in multiset(customers) - multiset(r) ==> RanksAtLeast(x, y))
      && (forall x, y :: x in r && y in customers && y !in r ==> RanksAtLeast(x, y))
  {
    var sorted := SortBy(customers, RanksAtLeast);
    RanksAtLeastIsTotalPreorder();
    SortBySorted(customers, RanksAtLeast);
    var e := if |sorted| <= limit then |sorted| else SliceEnd(|sorted|, limit);
    var r := PartialSort(customers, limit);
    assert r == sorted[..e];
    SortedPrefix(sorted, e, RanksAtLeast);
    forall y | y in customers && y !in r ensures y in multiset(customers) - multiset(r) {
      assert multiset(r)[y] == 0;
    }
  }

  /** Distinct customers stay distinct in the result. */
  lemma PartialSortNoDup(customers: seq<CustomerFrequency>, limit: int)
    requires NoDup(customers)
    ensures NoDup(PartialSort(customers, limit))
  {
    PartialSortSelectsTop(customers, limit);
    var r := PartialSort(customers, limit);
    forall i, j | 0 <= i < j < |r| ensures r[i] != r[j] {
      if r[i] == r[j] {
        assert r == r[..j] + r[j..];
        assert multiset(r)[r[i]] >= 2 by {
          assert r[i] in r[..j];
          assert r[j] in r[j..];
          assert multiset(r) == multiset(r[..j]) + multiset(r[j..]);
        }
        NoDupCount(customers, r[i]);
      }
    }
  }

  /** The values of a map are pairwise distinct: their ids are its keys. */
  lemma ValuesNoDup(cm: CustomerMap)
    requires ValidMap(cm)
    ensures NoDup(Values(cm))
  {
    var vs := Values(cm);
    forall i, j | 0 <= i < j < |vs| ensures vs[i] != vs[j] {
      assert vs[i].customerId == cm.keys[i] && vs[j].customerId == cm.keys[j];
    }
  }

  lemma {:induction false} NoDupCount<T>(s: seq<T>, x: T)
    requires NoDup(s)
    ensures multiset(s)[x] <= 1
  {
    if s != [] {
      assert s == [s[0]] + s[1..];
      assert NoDup(s[1..]) by {
        forall i, j | 0 <= i < j < |s[1..]| ensures s[1..][i] != s[1..][j] {
          assert s[1..][i] == s[i + 1] && s[1..][j] == s[j + 1];
        }
      }
      NoDupCount(s[1..], x);
      assert s[0] !in s[1..];
    }
  }

  // ------------------------------------------------------------------
  // The imperative operations

  /** `Map.prototype.delete`. */
  function Delete(cm: CustomerMap, id: string): (r: CustomerMap)
    ensures r.entries == cm.entries - {id}
  {
    CustomerMap(cm.entries - {id}, Without(cm.keys, {id}))
  }

  /** The ids whose count is below `threshold`, in iteration order (lines 172-178). */
  method CollectBelow(customerMap: CustomerMap, threshold: int) returns (toRemove: seq<string>)
    requires ValidMap(customerMap)
    ensures Elems(toRemove) == set k | k in customerMap.entries && customerMap.entries[k].transactionCount < threshold
  {
    var keys := customerMap.keys;
    toRemove := [];
    var i := 0;
    while i < |keys|
      invariant 0 <= i <= |keys|
      invariant forall k :: k in toRemove <==>
        k in customerMap.entries && k in keys[..i] && customerMap.entries[k].transactionCount < threshold
    {
      assert keys[..i + 1] == keys[..i] + [keys[i]];
      if customerMap.entries[keys[i]].transactionCount < threshold {
        toRemove := toRemove + [keys[i]];
      }
      i := i + 1;
    }
    assert keys[..i] == keys;
  }

  /** Deletes the ids of `toRemove` one after the other (lines 180-182). */
  method DeleteAll(customerMap: CustomerMap, toRemove: seq<string>) returns (r: CustomerMap)
    ensures r.entries == customerMap.entries - Elems(toRemove)
    ensures r.keys == Without(customerMap.keys, Elems(toRemove))
  {
    r := customerMap;
    WithoutNone(customerMap.keys);
    ElemsPrefix(toRemove, 0);
    var j := 0;
    while j < |toRemove|
      invariant 0 <= j <= |toRemove|
      invariant r.entries == customerMap.entries - Elems(toRemove[..j])
      invariant r.keys == Without(customerMap.keys, Elems(toRemove[..j]))
    {
      ElemsPrefix(toRemove, j + 1);
      WithoutTwice(customerMap.keys, Elems(toRemove[..j]), {toRemove[j]});
      r := Delete(r, toRemove[j]);
      j := j + 1;
    }
    assert toRemove[..j] == toRemove;
  }

  /**
   * `optimizeMemoryUsage`: above 2,000,000 entries, collect the ids whose
   * count is below the lower-quartile cutoff, then delete them.
   */
  method OptimizeMemoryUsage(customerMap: CustomerMap) returns (r: CustomerMap)
    requires ValidMap(customerMap)
    ensures r == Optimized(customerMap)
    ensures |customerMap.entries| <= EvictionFloor ==> r == customerMap
  {
    r := customerMap;
    if |customerMap.entries| > EvictionFloor {
      var threshold := MinTransactionThreshold(Values(customerMap));
      var toRemove := CollectBelow(customerMap, threshold);
      r := DeleteAll(customerMap, toRemove);
    }
  }

  /** The options argument: each field that is absent takes its default. */
  datatype OptionOverrides = OptionOverrides(
    batchSize: Option<int>,
    memoryThreshold: Option<int>,
    enableSpilling: Option<bool>)

  const NoOverrides: OptionOverrides := OptionOverrides(None, None, None)

  function OrDefault<T>(o: Option<T>, default: T): (r: T)
    ensures o.Some? ==> r == o.value
    ensures o.None? ==> r == default
  {
    if o.Some? then o.value else default
  }

  /** The destructuring with defaults of lines 91-95. */
  function ResolveOptions(o: OptionOverrides): (r: Options)
    ensures o == NoOverrides ==> r == DefaultOptions
    ensures o.batchSize.None? ==> r.batchSize == 50000
    ensures o.memoryThreshold.None? ==> r.memoryThreshold == 2_000_000
    ensures o.enableSpilling.None? ==> r.enableSpilling
    ensures o.batchSize.Some? ==> r.batchSize == o.batchSize.value
    ensures o.memoryThreshold.Some? ==> r.memoryThreshold == o.memoryThreshold.value
    ensures o.enableSpilling.Some? ==> r.enableSpilling == o.enableSpilling.value
  {
    Options(OrDefault(o.batchSize, DefaultOptions.batchSize),
            OrDefault(o.memoryThreshold, DefaultOptions.memoryThreshold),
            OrDefault(o.enableSpilling, DefaultOptions.enableSpilling))
  }

  /** Lines 113-123: bump the existing aggregate or insert a fresh one. This
      is the statement-level form of the loop body; `Record` is the function
      the pass is specified with, and the method is proved to agree with it. */
  method RecordTransaction(customerMap: CustomerMap, transaction: Transaction) returns (r: CustomerMap)
    ensures r == Record(customerMap, transaction)
  {
    var id := transaction.customerId;
    if id in customerMap.entries {
      var existing := customerMap.entries[id];
      r := customerMap.(entries := customerMap.entries[id := existing.(
        transactionCount := existing.transactionCount + 1,
        totalAmount := existing.totalAmount + transaction.amount)]);
    } else {
      r := CustomerMap(customerMap.entries[id := CustomerFrequency(id, 1, transaction.amount)],
                       customerMap.keys + [id]);
    }
  }

  /**
   * The `for await` loop of lines 107-139, with every checkpoint: the map
   * and the counters it leaves behind are those of `Run`.
   */
  method Aggregation(dataStream: seq<Transaction>, startTime: real, endTime: real, opt: Options)
    returns (customerMap: CustomerMap, processedCount: nat, filteredCount: nat, memoryCheckCounter: int)
    ensures AggregationState(customerMap, processedCount, filteredCount, memoryCheckCounter)
         == Run(dataStream, Window(startTime, endTime), opt)
  {
    ghost var w := Window(startTime, endTime);
    customerMap := EmptyMap;
    processedCount, filteredCount, memoryCheckCounter := 0, 0, 0;
    var i := 0;
    while i < |dataStream|
      invariant 0 <= i <= |dataStream|
      invariant customerMap == Run(dataStream[..i], w, opt).customers
      invariant processedCount == Run(dataStream[..i], w, opt).processedCount
      invariant filteredCount == Run(dataStream[..i], w, opt).filteredCount
      invariant memoryCheckCounter == Run(dataStream[..i], w, opt).memoryCheckCounter
    {
      ghost var next := Consume(Run(dataStream[..i], w, opt), dataStream[i], w, opt);
      assert dataStream[..i + 1][..i] == dataStream[..i];
      assert Run(dataStream[..i + 1], w, opt) == next;
      var transaction := dataStream[i];
      processedCount := processedCount + 1;
      if transaction.timestamp >= startTime && transaction.timestamp <= endTime {
        filteredCount := filteredCount + 1;
        customerMap := RecordTransaction(customerMap, transaction);
      }
      memoryCheckCounter := memoryCheckCounter + 1;
      if memoryCheckCounter >= opt.batchSize {
        memoryCheckCounter := 0;
        if opt.enableSpilling && |customerMap.entries| > opt.memoryThreshold {
          customerMap := OptimizeMemoryUsage(customerMap);
        }
      }
      i := i + 1;
    }
    assert dataStream[..i] == dataStream;
  }

  /**
   * `getTopFrequentCustomersStreaming`: the aggregation loop, then
   * `partialSort` of the surviving map.
   */
  method GetTopFrequentCustomersStreaming(
    dataStream: seq<Transaction>, startTime: real, endTime: real, limit: Option<int>, options: OptionOverrides)
    returns (result: seq<CustomerFrequency>)
    ensures var final := Run(dataStream, Window(startTime, endTime), ResolveOptions(options)).customers;
      result == PartialSort(Values(final), OrDefault(limit, DefaultLimit))
    ensures var final := Run(dataStream, Window(startTime, endTime), ResolveOptions(options)).customers;
      var n := OrDefault(limit, DefaultLimit);
      && SortedBy(result, RanksAtLeast)
      && (n >= 0 ==> |result| == if n < |final.entries| then n else |final.entries|)
      && NoDup(result)
      && (forall x :: x in result ==> x.customerId in final.entries && final.entries[x.customerId] == x)
  {
    var n := OrDefault(limit, DefaultLimit);
    var opt := ResolveOptions(options);
    var customerMap, processedCount, filteredCount, memoryCheckCounter := Aggregation(dataStream, startTime, endTime, opt);
    result := PartialSort(Values(customerMap), n);
    PartialSortSelectsTop(Values(customerMap), n);
    ValuesNoDup(customerMap);
    PartialSortNoDup(Values(customerMap), n);
    MapSize(customerMap);
    SelectedFromMap(customerMap, n);
  }

  // ------------------------------------------------------------------
  // What the result means for the caller

  /**
   * What `partialSort` returns is taken from the map, and every map entry it
   * leaves out ranks no higher than anything it returns.
   */
  lemma SelectedFromMap(cm: CustomerMap, limit: int)
    requires ValidMap(cm)
    ensures var result := PartialSort(Values(cm), limit);
      && (forall x :: x in result ==> x.customerId in cm.entries && cm.entries[x.customerId] == x)
      && (forall k, x :: k in cm.entries && cm.entries[k] !in result && x in result ==> RanksAtLeast(x, cm.entries[k]))
  {
    SelectedAreEntries(cm, limit);
    LeftOutRankLower(cm, limit);
  }

  lemma SelectedAreEntries(cm: CustomerMap, limit: int)
    requires ValidMap(cm)
    ensures forall x :: x in PartialSort(Values(cm), limit) ==> x.customerId in cm.entries && cm.entries[x.customerId] == x
  {
    var vs := Values(cm);
    var result := PartialSort(vs, limit);
    PartialSortSelectsTop(vs, limit);
    forall x | x in result ensures x.customerId in cm.entries && cm.entries[x.customerId] == x {
      assert x in multiset(vs);
      var i :| 0 <= i < |vs| && vs[i] == x;
      assert cm.entries[cm.keys[i]] == x;
    }
  }

  lemma LeftOutRankLower(cm: CustomerMap, limit: int)
    requires ValidMap(cm)
    ensures var result := PartialSort(Values(cm), limit);
      forall k, x :: k in cm.entries && cm.entries[k] !in result && x in result ==> RanksAtLeast(x, cm.entries[k])
  {
    var vs := Values(cm);
    var result := PartialSort(vs, limit);
    PartialSortSelectsTop(vs, limit);
    forall k, x | k in cm.entries && cm.entries[k] !in result && x in result
      ensures RanksAtLeast(x, cm.entries[k])
    {
      var i :| 0 <= i < |cm.keys| && cm.keys[i] == k;
      assert vs[i] == cm.entries[k];
    }
  }

  /**
   * Without eviction every returned aggregate is the exact count and sum of
   * that customer's in-window transactions, and every in-window customer
   * left out ranks no higher than any that was returned.
   */
  lemma StreamingResultIsExact(data: seq<Transaction>, w: Window, opt: Options, limit: int)
    requires !opt.enableSpilling || |Customers(data, w)| <= EvictionFloor || |Customers(data, w)| <= opt.memoryThreshold
    ensures var result := PartialSort(Values(Run(data, w, opt).customers), limit);
      && (forall x :: x in result ==> CountOf(data, x.customerId, w) > 0 && x == Exact(data, x.customerId, w))
      && (forall c, x :: c in Customers(data, w) && Exact(data, c, w) !in result && x in result ==>
            RanksAtLeast(x, Exact(data, c, w)))
  {
    RunWithoutEvictionIsExact(data, w, opt);
    AggregateIsExact(data, w);
    SelectedFromMap(Aggregate(data, w), limit);
  }

  /** Both window bounds are inclusive; a timestamp outside them is ignored. */
  lemma WindowBoundsInclusive(w: Window, c: string, amount: real, t: real)
    requires w.startTime <= w.endTime
    ensures CountOf([Transaction(w.startTime, c, amount)], c, w) == 1
    ensures CountOf([Transaction(w.endTime, c, amount)], c, w) == 1
    ensures t < w.startTime || t > w.endTime ==> Customers([Transaction(t, c, amount)], w) == {}
  {
    assert [Transaction(w.startTime, c, amount)][..0] == [];
    assert [Transaction(w.endTime, c, amount)][..0] == [];
    assert [Transaction(t, c, amount)][..0] == [];
  }

  /** Two transactions of A and one of B at the same instant, limit 2. */
  lemma ScenarioTwoCustomers()
    ensures var data := [Transaction(0.0, "A", 10.0), Transaction(0.0, "A", 20.0), Transaction(0.0, "B", 5.0)];
      PartialSort(Values(Run(data, Window(0.0, 100.0), DefaultOptions).customers), 2)
        == [CustomerFrequency("A", 2, 30.0), CustomerFrequency("B", 1, 5.0)]
  {
    ScenarioTwoCustomersMap();
    ScenarioTwoCustomersTop();
  }

  /** The final map of the two-customer scenario, ranked with limit 2. */
  lemma ScenarioTwoCustomersTop()
    ensures PartialSort(Values(CustomerMap(map["A" := CustomerFrequency("A", 2, 30.0), "B" := CustomerFrequency("B", 1, 5.0)], ["A", "B"])), 2)
      == [CustomerFrequency("A", 2, 30.0), CustomerFrequency("B", 1, 5.0)]
  {
    var a := CustomerFrequency("A", 2, 30.0);
    var b := CustomerFrequency("B", 1, 5.0);
    ValuesOfTwo("A", "B", a, b);
    PartialSortOfTwo(a, b);
  }

  /** A two-key map lists its aggregates in insertion order. */
  lemma ValuesOfTwo(k1: string, k2: string, a: CustomerFrequency, b: CustomerFrequency)
    requires k1 != k2 && a.customerId == k1 && b.customerId == k2
    requires a.transactionCount >= 1 && b.transactionCount >= 1
    ensures ValidMap(CustomerMap(map[k1 := a, k2 := b], [k1, k2]))
    ensures Values(CustomerMap(map[k1 := a, k2 := b], [k1, k2])) == [a, b]
  {
    var cm := CustomerMap(map[k1 := a, k2 := b], [k1, k2]);
    assert Elems(cm.keys) == cm.entries.Keys;
    assert ValidMap(cm);
    var vs := Values(cm);
    assert vs[0] == a && vs[1] == b;
  }

  /** Two aggregates already in rank order are kept as they are with limit 2. */
  lemma PartialSortOfTwo(a: CustomerFrequency, b: CustomerFrequency)
    requires RanksAtLeast(a, b)
    ensures PartialSort([a, b], 2) == [a, b]
  {
    var vs := [a, b];
    assert vs[1..] == [b];
    assert SortBy(vs[1..], RanksAtLeast) == [b];
    assert SortBy(vs, RanksAtLeast) == vs;
  }

  /** The map after each of the three transactions. */
  lemma ScenarioTwoCustomersMap()
    ensures var data := [Transaction(0.0, "A", 10.0), Transaction(0.0, "A", 20.0), Transaction(0.0, "B", 5.0)];
      Run(data, Window(0.0, 100.0), DefaultOptions).customers
        == CustomerMap(map["A" := CustomerFrequency("A", 2, 30.0), "B" := CustomerFrequency("B", 1, 5.0)], ["A", "B"])
  {
    var data := [Transaction(0.0, "A", 10.0), Transaction(0.0, "A", 20.0), Transaction(0.0, "B", 5.0)];
    var w := Window(0.0, 100.0);
    assert data[..2][..1][..0] == [];
    var m1 := CustomerMap(map["A" := CustomerFrequency("A", 1, 10.0)], ["A"]);
    assert Run(data[..1], w, DefaultOptions).customers == m1;
    var m2 := CustomerMap(map["A" := CustomerFrequency("A", 2, 30.0)], ["A"]);
    assert Run(data[..2], w, DefaultOptions).customers == m2;
  }

  /** The same transactions with a window that starts after them yield nothing. */
  lemma ScenarioWindowExcludesAll()
    ensures var data := [Transaction(0.0, "A", 10.0), Transaction(0.0, "A", 20.0), Transaction(0.0, "B", 5.0)];
      PartialSort(Values(Run(data, Window(1.0, 100.0), DefaultOptions).customers), 2) == []
  {
    var data := [Transaction(0.0, "A", 10.0), Transaction(0.0, "A", 20.0), Transaction(0.0, "B", 5.0)];
    var w := Window(1.0, 100.0);
    assert data[..2][..1][..0] == [];
    assert Run(data[..1], w, DefaultOptions).customers == EmptyMap;
    assert Run(data[..2], w, DefaultOptions).customers == EmptyMap;
    assert Run(data, w, DefaultOptions).customers == EmptyMap;
  }
}
