/**
 * The dashboard metrics endpoints (fulcrum-llm-ops/backend/app/api/metrics.py).
 * The runs of the requested range are a parameter: they are what
 * `list_runs_in_range(days=GetDays(range))` returns from the store.
 * Amounts are exact reals; Python's `round(..., 4)` and `round(..., 3)` are not applied.
 */
module MetricsApi {
  import opened Common
  import opened Schemas
  import Sorting

  // ---------------------------------------------------------------------------
  // Range

  /** `_get_days`: the table of named ranges, seven days for anything else. */
  function GetDays(range: string): (d: int)
    ensures range == "24h" ==> d == 1
    ensures range == "7d" ==> d == 7
    ensures range == "30d" ==> d == 30
    ensures range == "90d" ==> d == 90
    ensures range != "24h" && range != "7d" && range != "30d" && range != "90d" ==> d == 7
    ensures d == 1 || d == 7 || d == 30 || d == 90
  {
    if range == "24h" then 1
    else if range == "7d" then 7
    else if range == "30d" then 30
    else if range == "90d" then 90
    else 7
  }

  // ---------------------------------------------------------------------------
  // Summary

  datatype Kpis = Kpis(
    p50LatencyMs: real,
    p95LatencyMs: real,
    totalCostUsd: real,
    avgConfidence: real,
    parseSuccessRate: real,
    runCount: nat)

  datatype SummaryResponse = SummaryResponse(range: string, kpis: Kpis, models: seq<string>)

  const ZeroKpis := Kpis(0.0, 0.0, 0.0, 0.0, 0.0, 0)

  function SumReals(xs: seq<real>): real
  {
    if |xs| == 0 then 0.0 else xs[0] + SumReals(xs[1..])
  }

  /** `statistics.mean` of a non-empty list, 0 for an empty one. */
  function MeanOrZero(xs: seq<real>): real
  {
    if |xs| == 0 then 0.0 else SumReals(xs) / (|xs| as real)
  }

  /** `int(0.5 * n)`: the largest k with 2k <= n. */
  function P50Index(n: nat): (k: nat)
    ensures 2 * k <= n < 2 * k + 2
  {
    n / 2
  }

  /** `min(int(0.95 * n), n - 1)`, with 0.95·n taken exactly. */
  function P95Index(n: nat): (k: int)
    ensures n > 0 ==> 0 <= k < n
    ensures n > 0 ==> 100 * k <= 95 * n && (k == n - 1 || 95 * n < 100 * (k + 1))
  {
    var k := (95 * n) / 100;
    if k < n - 1 then k else n - 1
  }

  /** Both percentile positions are indices of a non-empty list, the median one first. */
  lemma PercentileIndices(n: nat)
    requires n > 0
    ensures 0 <= P50Index(n) <= P95Index(n) < n
  {
  }

  /**
   * `get_metrics_summary`. Without any latency the whole summary is zero, even
   * `run_count`; otherwise the percentiles are latencies, the median one not above
   * the 95th, and `run_count` counts every run in range.
   */
  function MetricsSummary(range: string, runs: seq<RunItem>): (s: SummaryResponse)
    ensures s.range == range
    ensures |Values(runs, Latency)| == 0 ==> s.kpis == ZeroKpis && s.models == []
    ensures |Values(runs, Latency)| > 0 ==>
      s.kpis.p50LatencyMs == SortedLatencies(Values(runs, Latency))[P50Index(|Values(runs, Latency)|)] &&
      s.kpis.p95LatencyMs == SortedLatencies(Values(runs, Latency))[P95Index(|Values(runs, Latency)|)]
    ensures |Values(runs, Latency)| > 0 ==>
      s.kpis.runCount == |runs| &&
      s.kpis.p50LatencyMs in Values(runs, Latency) && s.kpis.p95LatencyMs in Values(runs, Latency) &&
      s.kpis.p50LatencyMs <= s.kpis.p95LatencyMs
    ensures |Values(runs, Latency)| > 0 ==>
      Sorting.NoDuplicates(s.models) &&
      forall m :: m in s.models <==> m != "" && exists i :: 0 <= i < |runs| && runs[i].model == m
    ensures |Values(runs, Latency)| > 0 ==>
      s.kpis.totalCostUsd == SumReals(Values(runs, Cost)) &&
      s.kpis.avgConfidence == MeanOrZero(Values(runs, Confidence)) &&
      s.kpis.parseSuccessRate == MeanOrZero(Values(runs, ParseSuccess))
  {
    var latencies := Values(runs, Latency);
    if |latencies| == 0 then SummaryResponse(range, ZeroKpis, [])
    else
      var p := Percentiles(latencies);
      var kpis := Kpis(p.0, p.1, SumReals(Values(runs, Cost)), MeanOrZero(Values(runs, Confidence)),
                       MeanOrZero(Values(runs, ParseSuccess)), |runs|);
      SummaryResponse(range, kpis, ModelList(runs))
  }

  /** `list(set(r.model for r in runs if r.model))`, in first-seen order. */
  function ModelList(runs: seq<RunItem>): (models: seq<string>)
    ensures Sorting.NoDuplicates(models)
    ensures forall m :: m in models <==> m != "" && exists i :: 0 <= i < |runs| && runs[i].model == m
  {
    Sorting.Distinct(NamedModels(runs))
  }

  /** The latencies in ascending order, as `latencies.sort()` leaves them. */
  function SortedLatencies(latencies: seq<real>): (s: seq<real>)
    ensures |s| == |latencies| && multiset(s) == multiset(latencies)
    ensures forall i, j :: 0 <= i < j < |s| ==> s[i] <= s[j]
  {
    Sorting.RealLeTotal();
    Sorting.Sort(latencies, Sorting.RealLe)
  }

  /**
   * The median and 95th-percentile entries of the sorted latencies: the entries at
   * `P50Index` and `P95Index`, hence latencies, the median not above the 95th.
   */
  function Percentiles(latencies: seq<real>): (p: (real, real))
    requires |latencies| > 0
    ensures p.0 == SortedLatencies(latencies)[P50Index(|latencies|)]
    ensures p.1 == SortedLatencies(latencies)[P95Index(|latencies|)]
    ensures p.0 in latencies && p.1 in latencies && p.0 <= p.1
  {
    var sorted := SortedLatencies(latencies);
    var n := |sorted|;
    PercentileIndices(n);
    var p50 := sorted[P50Index(n)];
    var p95 := sorted[P95Index(n)];
    assert p50 in multiset(sorted) && p95 in multiset(sorted);
    (p50, p95)
  }

  /** How many of `xs` lie strictly below `x` (`below`) or strictly above it. */
  function CountBeyond(xs: seq<real>, x: real, below: bool): (c: nat)
    ensures c <= |xs|
  {
    if |xs| == 0 then 0
    else (if (below && xs[0] < x) || (!below && xs[0] > x) then 1 else 0) + CountBeyond(xs[1..], x, below)
  }

  /**
   * The percentiles are ranks of the latencies: at most `k` latencies lie below the
   * entry at sorted position `k`, and at most `n - 1 - k` above it.
   */
  lemma PercentileRanks(latencies: seq<real>)
    requires |latencies| > 0
    ensures CountBeyond(latencies, Percentiles(latencies).0, true) <= P50Index(|latencies|)
    ensures CountBeyond(latencies, Percentiles(latencies).0, false) <= |latencies| - 1 - P50Index(|latencies|)
    ensures CountBeyond(latencies, Percentiles(latencies).1, true) <= P95Index(|latencies|)
    ensures CountBeyond(latencies, Percentiles(latencies).1, false) <= |latencies| - 1 - P95Index(|latencies|)
  {
    var sorted := SortedLatencies(latencies);
    SortedRank(sorted, P50Index(|sorted|));
    SortedRank(sorted, P95Index(|sorted|));
    forall x: real, below: bool ensures CountBeyond(latencies, x, below) == CountBeyond(sorted, x, below) {
      CountBeyondPermutation(latencies, sorted, x, below);
    }
  }

  /** In an ascending list, entry `k` has at most `k` entries below it and `n - 1 - k` above. */
  lemma SortedRank(s: seq<real>, k: nat)
    requires k < |s|
    requires forall i, j :: 0 <= i < j < |s| ==> s[i] <= s[j]
    ensures CountBeyond(s, s[k], true) <= k
    ensures CountBeyond(s, s[k], false) <= |s| - 1 - k
  {
    BelowBound(s, s[k], k);
    AboveBound(s, s[k], k);
  }

  lemma {:induction false} BelowBound(s: seq<real>, x: real, k: nat)
    requires k <= |s|
    requires forall j :: k <= j < |s| ==> s[j] >= x
    ensures CountBeyond(s, x, true) <= k
  {
    if |s| > 0 {
      BelowBound(s[1..], x, if k == 0 then 0 else k - 1);
    }
  }

  lemma {:induction false} AboveBound(s: seq<real>, x: real, k: nat)
    requires k < |s|
    requires forall j :: 0 <= j <= k ==> s[j] <= x
    ensures CountBeyond(s, x, false) <= |s| - 1 - k
  {
    if k > 0 {
      AboveBound(s[1..], x, k - 1);
    }
  }

  lemma {:induction false} CountBeyondConcat(a: seq<real>, b: seq<real>, x: real, below: bool)
    ensures CountBeyond(a + b, x, below) == CountBeyond(a, x, below) + CountBeyond(b, x, below)
  {
    if |a| > 0 {
      assert (a + b)[1..] == a[1..] + b;
      CountBeyondConcat(a[1..], b, x, below);
    } else {
      assert a + b == b;
    }
  }

  /** Reordering a list keeps how many of its entries lie beyond a value. */
  lemma {:induction false} CountBeyondPermutation(a: seq<real>, b: seq<real>, x: real, below: bool)
    requires multiset(a) == multiset(b)
    ensures CountBeyond(a, x, below) == CountBeyond(b, x, below)
    decreases |a|
  {
    if |a| == 0 {
      assert |b| == |multiset(b)|;
    } else {
      assert a[0] in multiset(b);
      var k :| 0 <= k < |b| && b[k] == a[0];
      var b' := b[..k] + b[k + 1..];
      RemoveEntry(b, k, x, below);
      assert a == [a[0]] + a[1..];
      assert multiset(a[1..]) == multiset(b');
      CountBeyondPermutation(a[1..], b', x, below);
    }
  }

  /** Taking entry `k` out of a list takes it out of the multiset and out of the count. */
  lemma RemoveEntry(b: seq<real>, k: nat, x: real, below: bool)
    requires k < |b|
    ensures multiset(b[..k] + b[k + 1..]) == multiset(b) - multiset{b[k]}
    ensures CountBeyond(b, x, below) == CountBeyond([b[k]], x, below) + CountBeyond(b[..k] + b[k + 1..], x, below)
  {
    var p, e, q := b[..k], b[k], b[k + 1..];
    var rest := [e] + q;
    assert b == p + rest;
    assert multiset(b) == multiset(p) + multiset(rest);
    assert multiset(rest) == multiset{e} + multiset(q);
    CountBeyondConcat(p, rest, x, below);
    CountBeyondConcat([e], q, x, below);
    CountBeyondConcat(p, q, x, below);
  }

  // ---------------------------------------------------------------------------
  // Cost by model

  datatype ModelCost = ModelCost(model: string, costUsd: real, runCount: nat)

  /** `r.model or "unknown"`. */
  function ModelKey(r: RunItem): string
  {
    if r.model == "" then "unknown" else r.model
  }

  /** What a run adds to its model's cost: nothing when the cost is missing or zero. */
  function AddedCost(r: RunItem): real
  {
    if r.costUsd.Some? && r.costUsd.value != 0.0 then r.costUsd.value else 0.0
  }

  /** The number of runs grouped under `m`. */
  function RunsFor(runs: seq<RunItem>, m: string): nat
  {
    if |runs| == 0 then 0
    else RunsFor(runs[..|runs| - 1], m) + (if ModelKey(runs[|runs| - 1]) == m then 1 else 0)
  }

  /** The summed cost of the runs grouped under `m`. */
  function CostFor(runs: seq<RunItem>, m: string): real
  {
    if |runs| == 0 then 0.0
    else CostFor(runs[..|runs| - 1], m) + (if ModelKey(runs[|runs| - 1]) == m then AddedCost(runs[|runs| - 1]) else 0.0)
  }

  function TotalRuns(s: seq<ModelCost>): nat
  {
    if |s| == 0 then 0 else s[0].runCount + TotalRuns(s[1..])
  }

  predicate CostDesc(a: ModelCost, b: ModelCost)
  {
    a.costUsd >= b.costUsd
  }

  lemma CostDescTotal()
    ensures Sorting.TotalPreorder(CostDesc)
  {
  }

  /** The group key of every run, in run order. */
  function Keys(runs: seq<RunItem>): (r: seq<string>)
    ensures |r| == |runs|
    ensures forall j :: 0 <= j < |runs| ==> r[j] == ModelKey(runs[j])
  {
    seq(|runs|, j requires 0 <= j < |runs| => ModelKey(runs[j]))
  }

  /** The model column of the grouped table. */
  function Models(stats: seq<ModelCost>): (r: seq<string>)
    ensures |r| == |stats|
    ensures forall k :: 0 <= k < |stats| ==> r[k] == stats[k].model
  {
    seq(|stats|, k requires 0 <= k < |stats| => stats[k].model)
  }

  /** Position of the entry for `m`, as a dict lookup. */
  function Lookup(stats: seq<ModelCost>, m: string): (r: Option<nat>)
    ensures r.Some? ==> r.value < |stats| && stats[r.value].model == m
    ensures r.None? ==> m !in Models(stats)
  {
    if |stats| == 0 then None
    else if stats[|stats| - 1].model == m then Some(|stats| - 1)
    else
      var r := Lookup(stats[..|stats| - 1], m);
      assert Models(stats) == Models(stats[..|stats| - 1]) + [stats[|stats| - 1].model];
      r
  }

  /** Every entry holds the count and summed cost of its model's runs. */
  ghost predicate CountsMatch(stats: seq<ModelCost>, runs: seq<RunItem>)
  {
    forall k :: 0 <= k < |stats| ==>
      stats[k].runCount == RunsFor(runs, stats[k].model) && stats[k].costUsd == CostFor(runs, stats[k].model)
  }

  /**
   * The grouped table after the runs: one entry per model in first-seen order,
   * each with its count and cost, the counts adding up to the runs.
   */
  ghost predicate Tallied(stats: seq<ModelCost>, runs: seq<RunItem>)
  {
    Models(stats) == Sorting.Distinct(Keys(runs)) && CountsMatch(stats, runs) && TotalRuns(stats) == |runs|
  }

  /** The `model_stats` loop: cost and count per model, models in first-seen order. */
  method TallyByModel(runs: seq<RunItem>) returns (stats: seq<ModelCost>)
    ensures Tallied(stats, runs)
  {
    stats := [];
    ghost var seen: seq<RunItem> := [];
    for i := 0 to |runs|
      invariant seen == runs[..i]
      invariant Tallied(stats, seen)
    {
      stats := TallyRun(seen, runs[i], stats);
      seen := seen + [runs[i]];
    }
    assert seen == runs;
  }

  /** One iteration: add run `x` to its model's entry, creating the entry when the model is new. */
  method TallyRun(ghost done: seq<RunItem>, x: RunItem, stats: seq<ModelCost>) returns (r: seq<ModelCost>)
    requires Tallied(stats, done)
    ensures Tallied(r, done + [x])
  {
    var m := ModelKey(x);
    var found := Lookup(stats, m);
    if found.None? {
      TallyNew(done, x, stats);
      r := stats + [ModelCost(m, AddedCost(x), 1)];
    } else {
      var idx := found.value;
      TallyExisting(done, x, stats, idx);
      r := stats[idx := ModelCost(m, stats[idx].costUsd + AddedCost(x), stats[idx].runCount + 1)];
    }
  }

  lemma KeysSnoc(done: seq<RunItem>, x: RunItem)
    ensures Keys(done + [x]) == Keys(done) + [ModelKey(x)]
  {
  }

  lemma DistinctSnoc(s: seq<string>, m: string)
    ensures Sorting.Distinct(s + [m]) == if m in Sorting.Distinct(s) then Sorting.Distinct(s) else Sorting.Distinct(s) + [m]
  {
    assert (s + [m])[..|s|] == s;
  }

  /** Runs of one model do not change the figures of another. */
  lemma RunsForSnoc(done: seq<RunItem>, x: RunItem, m: string)
    ensures RunsFor(done + [x], m) == RunsFor(done, m) + (if ModelKey(x) == m then 1 else 0)
    ensures CostFor(done + [x], m) == CostFor(done, m) + (if ModelKey(x) == m then AddedCost(x) else 0.0)
  {
    assert (done + [x])[..|done|] == done;
  }

  /** The first-seen model order after one more run. */
  lemma DistinctAfter(done: seq<RunItem>, x: RunItem, ms: seq<string>)
    requires ms == Sorting.Distinct(Keys(done))
    ensures Sorting.Distinct(Keys(done + [x])) == if ModelKey(x) in ms then ms else ms + [ModelKey(x)]
  {
    KeysSnoc(done, x);
    DistinctSnoc(Keys(done), ModelKey(x));
  }

  lemma TallyNew(done: seq<RunItem>, x: RunItem, stats: seq<ModelCost>)
    requires Tallied(stats, done)
    requires ModelKey(x) !in Models(stats)
    ensures Tallied(stats + [ModelCost(ModelKey(x), AddedCost(x), 1)], done + [x])
  {
    var m := ModelKey(x);
    var after := stats + [ModelCost(m, AddedCost(x), 1)];
    DistinctAfter(done, x, Models(stats));
    assert Models(after) == Models(stats) + [m];
    NewModelAbsent(done, stats, m);
    CountsStep(done, x, stats + [ModelCost(m, 0.0, 0)], after);
    TotalRunsSnoc(stats, after[|stats|]);
  }

  /** A model missing from the table has had no runs, and no entry carries it. */
  lemma NewModelAbsent(done: seq<RunItem>, stats: seq<ModelCost>, m: string)
    requires CountsMatch(stats, done) && Models(stats) == Sorting.Distinct(Keys(done))
    requires m !in Models(stats)
    ensures CountsMatch(stats + [ModelCost(m, 0.0, 0)], done)
    ensures forall k :: 0 <= k < |stats| ==> stats[k].model != m
  {
    assert m !in Keys(done);
    RunsForAbsent(done, m);
    forall k | 0 <= k < |stats| ensures stats[k].model != m {
      assert Models(stats)[k] == stats[k].model;
    }
  }

  lemma TallyExisting(done: seq<RunItem>, x: RunItem, stats: seq<ModelCost>, idx: nat)
    requires Tallied(stats, done)
    requires idx < |stats| && stats[idx].model == ModelKey(x)
    ensures Tallied(stats[idx := ModelCost(ModelKey(x), stats[idx].costUsd + AddedCost(x), stats[idx].runCount + 1)],
                    done + [x])
  {
    var m := ModelKey(x);
    var after := stats[idx := ModelCost(m, stats[idx].costUsd + AddedCost(x), stats[idx].runCount + 1)];
    assert Models(stats)[idx] == m;
    assert m in Models(stats);
    DistinctAfter(done, x, Models(stats));
    assert Sorting.Distinct(Keys(done + [x])) == Models(stats);
    ModelsUpdate(stats, idx, after[idx]);
    CountsUpdate(done, x, stats, idx);
    TotalRunsUpdate(stats, idx, after[idx]);
  }

  lemma ModelsUpdate(stats: seq<ModelCost>, idx: nat, e: ModelCost)
    requires idx < |stats| && e.model == stats[idx].model
    ensures Models(stats[idx := e]) == Models(stats)
  {
  }

  lemma CountsUpdate(done: seq<RunItem>, x: RunItem, stats: seq<ModelCost>, idx: nat)
    requires CountsMatch(stats, done) && Sorting.NoDuplicates(Models(stats))
    requires idx < |stats| && stats[idx].model == ModelKey(x)
    ensures CountsMatch(stats[idx := ModelCost(ModelKey(x), stats[idx].costUsd + AddedCost(x), stats[idx].runCount + 1)],
                        done + [x])
  {
    forall k | 0 <= k < |stats| && k != idx ensures stats[k].model != stats[idx].model {
      assert Models(stats)[k] != Models(stats)[idx];
    }
    var m := ModelKey(x);
    CountsStep(done, x, stats, stats[idx := ModelCost(m, stats[idx].costUsd + AddedCost(x), stats[idx].runCount + 1)]);
  }

  /** Adding one run to the table updates exactly the entry of its model. */
  lemma CountsStep(done: seq<RunItem>, x: RunItem, before: seq<ModelCost>, after: seq<ModelCost>)
    requires CountsMatch(before, done)
    requires |after| == |before|
    requires forall k :: 0 <= k < |before| ==>
      after[k] ==
      if before[k].model == ModelKey(x)
      then ModelCost(before[k].model, before[k].costUsd + AddedCost(x), before[k].runCount + 1)
      else before[k]
    ensures CountsMatch(after, done + [x])
  {
    forall k | 0 <= k < |after|
      ensures after[k].runCount == RunsFor(done + [x], after[k].model)
      ensures after[k].costUsd == CostFor(done + [x], after[k].model)
    {
      RunsForSnoc(done, x, before[k].model);
    }
  }

  lemma {:induction false} RunsForAbsent(runs: seq<RunItem>, m: string)
    requires m !in Keys(runs)
    ensures RunsFor(runs, m) == 0 && CostFor(runs, m) == 0.0
  {
    if |runs| > 0 {
      var init := runs[..|runs| - 1];
      assert Keys(runs) == Keys(init) + [ModelKey(runs[|runs| - 1])];
      RunsForAbsent(init, m);
    }
  }

  lemma {:induction false} TotalRunsSnoc(s: seq<ModelCost>, x: ModelCost)
    ensures TotalRuns(s + [x]) == TotalRuns(s) + x.runCount
  {
    if |s| > 0 {
      assert (s + [x])[1..] == s[1..] + [x];
      TotalRunsSnoc(s[1..], x);
    }
  }

  lemma {:induction false} TotalRunsUpdate(s: seq<ModelCost>, k: nat, x: ModelCost)
    requires k < |s|
    ensures TotalRuns(s[k := x]) == TotalRuns(s) - s[k].runCount + x.runCount
  {
    if k > 0 {
      assert s[k := x][1..] == s[1..][k - 1 := x];
      TotalRunsUpdate(s[1..], k - 1, x);
    }
  }

  lemma {:induction false} TotalRunsConcat(a: seq<ModelCost>, b: seq<ModelCost>)
    ensures TotalRuns(a + b) == TotalRuns(a) + TotalRuns(b)
  {
    if |a| > 0 {
      assert (a + b)[1..] == a[1..] + b;
      TotalRunsConcat(a[1..], b);
    } else {
      assert a + b == b;
    }
  }

  /** A permutation of the table has the same total. */
  lemma {:induction false} TotalRunsPermutation(a: seq<ModelCost>, b: seq<ModelCost>)
    requires multiset(a) == multiset(b)
    ensures TotalRuns(a) == TotalRuns(b)
    decreases |a|
  {
    if |a| == 0 {
      assert |b| == |multiset(b)|;
    } else {
      assert a[0] in multiset(b);
      var k :| 0 <= k < |b| && b[k] == a[0];
      var b' := b[..k] + b[k + 1..];
      RemoveAt(b, k);
      assert a == [a[0]] + a[1..];
      assert multiset(a[1..]) == multiset(b');
      TotalRunsPermutation(a[1..], b');
    }
  }

  /** Taking entry `k` out of a table takes its count out of the total and its copy out of the multiset. */
  lemma RemoveAt(b: seq<ModelCost>, k: nat)
    requires k < |b|
    ensures multiset(b[..k] + b[k + 1..]) == multiset(b) - multiset{b[k]}
    ensures TotalRuns(b) == b[k].runCount + TotalRuns(b[..k] + b[k + 1..])
  {
    var p, x, q := b[..k], b[k], b[k + 1..];
    var rest := [x] + q;
    assert b == p + rest;
    assert multiset(b) == multiset(p) + multiset(rest);
    assert multiset(rest) == multiset{x} + multiset(q);
    TotalRunsConcat(p, rest);
    assert rest[1..] == q;
    assert TotalRuns(rest) == x.runCount + TotalRuns(q);
    TotalRunsConcat(p, q);
  }

  /**
   * `get_cost_by_model`: one entry per model (missing models grouped as "unknown"),
   * each with its runs' count and summed cost, ordered by cost, highest first;
   * the counts add up to the number of runs.
   */
  method CostByModel(runs: seq<RunItem>) returns (r: seq<ModelCost>)
    ensures Sorting.SortedBy(r, CostDesc)
    ensures Sorting.NoDuplicates(Models(r))
    ensures forall m :: m in Models(r) <==> m in Keys(runs)
    ensures forall i :: 0 <= i < |r| ==>
      r[i].runCount == RunsFor(runs, r[i].model) && r[i].costUsd == CostFor(runs, r[i].model)
    ensures TotalRuns(r) == |runs|
    ensures exists stats ::
      Tallied(stats, runs) && forall y :: Sorting.Ties(r, y, CostDesc) == Sorting.Ties(stats, y, CostDesc)
  {
    var stats := TallyByModel(runs);
    CostDescTotal();
    r := Sorting.Sort(stats, CostDesc);
    SortedTally(stats, r, runs);
    forall y ensures Sorting.Ties(r, y, CostDesc) == Sorting.Ties(stats, y, CostDesc) {
      Sorting.SortStable(stats, y, CostDesc);
    }
    assert Tallied(stats, runs);
  }

  lemma SortedTally(stats: seq<ModelCost>, r: seq<ModelCost>, runs: seq<RunItem>)
    requires Tallied(stats, runs)
    requires multiset(r) == multiset(stats)
    ensures Sorting.NoDuplicates(Models(r))
    ensures forall m :: m in Models(r) <==> m in Keys(runs)
    ensures forall i :: 0 <= i < |r| ==>
      r[i].runCount == RunsFor(runs, r[i].model) && r[i].costUsd == CostFor(runs, r[i].model)
    ensures TotalRuns(r) == |runs|
  {
    TotalRunsPermutation(r, stats);
    PermutedMembers(stats, r);
    PermutedModels(stats, r);
  }

  lemma PermutedMembers(stats: seq<ModelCost>, r: seq<ModelCost>)
    requires multiset(r) == multiset(stats)
    ensures forall i :: 0 <= i < |r| ==> r[i] in stats
    ensures forall k :: 0 <= k < |stats| ==> stats[k] in r
  {
    forall i | 0 <= i < |r| ensures r[i] in stats {
      assert r[i] in multiset(stats);
    }
    forall k | 0 <= k < |stats| ensures stats[k] in r {
      assert stats[k] in multiset(r);
    }
  }

  /** Reordering a table with distinct models keeps them distinct and keeps the same models. */
  lemma PermutedModels(stats: seq<ModelCost>, r: seq<ModelCost>)
    requires Sorting.NoDuplicates(Models(stats))
    requires multiset(r) == multiset(stats)
    ensures Sorting.NoDuplicates(Models(r))
    ensures forall m :: m in Models(r) <==> m in Models(stats)
  {
    var ms := Models(stats);
    assert Sorting.NoDuplicates(stats) by {
      forall a, b | 0 <= a < b < |stats| ensures stats[a] != stats[b] {
        assert ms[a] != ms[b];
      }
    }
    Sorting.MultisetNoDuplicates(stats, r);
    PermutedMembers(stats, r);
    forall i, j | 0 <= i < j < |r| ensures Models(r)[i] != Models(r)[j] {
      var a :| 0 <= a < |stats| && stats[a] == r[i];
      var b :| 0 <= b < |stats| && stats[b] == r[j];
      assert ms[a] != ms[b] || a == b;
    }
    forall m ensures m in Models(r) <==> m in ms {
      if m in Models(r) {
        var i :| 0 <= i < |r| && Models(r)[i] == m;
        var a :| 0 <= a < |stats| && stats[a] == r[i];
        assert ms[a] == m;
      }
      if m in ms {
        var k :| 0 <= k < |stats| && ms[k] == m;
        var i :| 0 <= i < |r| && r[i] == stats[k];
        assert Models(r)[i] == m;
      }
    }
  }

  // ---------------------------------------------------------------------------
  // Confidence distribution

  datatype Bin = Bin(min: real, max: real, count: nat)

  /** `max(0.0, min(1.0, c))`. */
  function Clamp(c: real): (v: real)
    ensures 0.0 <= v <= 1.0
    ensures 0.0 <= c <= 1.0 ==> v == c
  {
    if c < 0.0 then 0.0 else if c > 1.0 then 1.0 else c
  }

  /** `int(val * 10)`, with 10 (a confidence of exactly 1.0) folded into the last bin. */
  function BinIndex(c: real): (k: nat)
    ensures k < 10
    ensures (k as real) / 10.0 <= Clamp(c)
    ensures Clamp(c) < ((k + 1) as real) / 10.0 || (k == 9 && Clamp(c) == 1.0)
  {
    var v := Clamp(c);
    var idx := (v * 10.0).Floor;
    assert 0 <= idx <= 10;
    if idx == 10 then 9 else idx
  }

  /** How many of the values fall in bin `k`. */
  function InBin(xs: seq<real>, k: nat): nat
  {
    if |xs| == 0 then 0
    else InBin(xs[..|xs| - 1], k) + (if BinIndex(xs[|xs| - 1]) == k then 1 else 0)
  }

  /** The counts of bins `0 .. k-1` together. */
  function BinsBelow(xs: seq<real>, k: nat): nat
  {
    if k == 0 then 0 else BinsBelow(xs, k - 1) + InBin(xs, k - 1)
  }

  /** Every value lands in exactly one of the ten bins. */
  lemma {:induction false} BinsCoverAll(xs: seq<real>)
    ensures BinsBelow(xs, 10) == |xs|
  {
    if |xs| == 0 {
      BinsBelowEmpty(xs, 10);
    } else {
      var init := xs[..|xs| - 1];
      BinsCoverAll(init);
      assert init + [xs[|xs| - 1]] == xs;
      BinsBelowStep(init, xs[|xs| - 1], 10);
    }
  }

  lemma {:induction false} BinsBelowEmpty(xs: seq<real>, k: nat)
    requires |xs| == 0
    ensures BinsBelow(xs, k) == 0
  {
    if k > 0 {
      BinsBelowEmpty(xs, k - 1);
    }
  }

  lemma {:induction false} BinsBelowStep(init: seq<real>, x: real, k: nat)
    ensures BinsBelow(init + [x], k) == BinsBelow(init, k) + (if BinIndex(x) < k then 1 else 0)
  {
    var xs := init + [x];
    assert xs[..|xs| - 1] == init;
    if k > 0 {
      BinsBelowStep(init, x, k - 1);
    }
  }

  /**
   * `get_confidence_distribution`: ten bins of width 0.1 from 0 to 1, each counting
   * the present confidences (clamped to [0, 1]) that fall in it.
   */
  method ConfidenceDistribution(runs: seq<RunItem>) returns (bins: seq<Bin>)
    ensures |bins| == 10
    ensures forall i :: 0 <= i < 10 ==>
      bins[i].min == (i as real) / 10.0 && bins[i].max == ((i + 1) as real) / 10.0
    ensures forall i :: 0 <= i < 10 ==> bins[i].count == InBin(Values(runs, Confidence), i)
    ensures BinsBelow(Values(runs, Confidence), 10) == |Values(runs, Confidence)|
  {
    var confidences := Values(runs, Confidence);
    var counts: seq<nat> := seq(10, _ => 0);
    for j := 0 to |confidences|
      invariant |counts| == 10
      invariant forall k :: 0 <= k < 10 ==> counts[k] == InBin(confidences[..j], k)
    {
      var idx := BinIndex(confidences[j]);
      counts := counts[idx := counts[idx] + 1];
      assert confidences[..j + 1][..j] == confidences[..j];
    }
    assert confidences[..|confidences|] == confidences;
    bins := [];
    for i := 0 to 10
      invariant |bins| == i
      invariant forall k :: 0 <= k < i ==>
        bins[k] == Bin((k as real) / 10.0, ((k + 1) as real) / 10.0, counts[k])
    {
      bins := bins + [Bin((i as real) / 10.0, ((i + 1) as real) / 10.0, counts[i])];
    }
    BinsCoverAll(confidences);
  }
}
