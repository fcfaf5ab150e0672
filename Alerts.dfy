/**
 * The alert table and its rules (fulcrum-llm-ops/backend/app/services/alerts.py).
 * The JSON file the service loads and saves is the `alerts` field of the class;
 * fresh uuids and `utcnow` timestamps are supplied by the caller as functions of
 * the alert's position in the batch.
 */
module Alerts {
  import opened Common
  import opened Strings
  import Sorting

  /** The alert types the rules raise. */
  datatype Kind = LowConfidenceKind | PolicyFailKind | HighLatencyKind | RetrievalEmptyKind

  function KindName(k: Kind): string
  {
    match k
    case LowConfidenceKind => "LOW_CONFIDENCE"
    case PolicyFailKind => "POLICY_FAIL"
    case HighLatencyKind => "HIGH_LATENCY"
    case RetrievalEmptyKind => "RETRIEVAL_EMPTY"
  }

  datatype Severity = Low | Medium | High

  /** The severity each rule gives its alert. */
  function SeverityOf(k: Kind): Severity
  {
    match k
    case LowConfidenceKind => Medium
    case PolicyFailKind => High
    case HighLatencyKind => Low
    case RetrievalEmptyKind => Medium
  }

  function SeverityName(s: Severity): string
  {
    match s
    case Low => "low"
    case Medium => "medium"
    case High => "high"
  }

  datatype Alert = Alert(
    id: string,
    runId: string,
    kind: Kind,
    severity: Severity,
    message: string,
    createdAt: string,
    isResolved: bool)

  /** What a rule produces before it is stored: type, severity and message. */
  datatype Draft = Draft(kind: Kind, message: string)

  /** The parts of a finished run the rules look at. */
  datatype RunFacts = RunFacts(
    runId: string,
    status: string,
    confidence: Option<real>,
    metrics: map<string, real>,
    latencyMs: Option<real>)

  /** The value `ALERT_LATENCY_THRESHOLD_MS` takes when the variable is unset. */
  const DefaultLatencySetting := "5000"

  // ---------------------------------------------------------------------------
  // Listing

  /** Newer first: the order of `sort(key=created_at, reverse=True)`. */
  predicate NewerFirst(a: Alert, b: Alert)
  {
    Strings.StrLe(b.createdAt, a.createdAt)
  }

  lemma NewerFirstTotal()
    ensures Sorting.TotalPreorder(NewerFirst)
  {
    forall a: Alert, b: Alert ensures NewerFirst(a, b) || NewerFirst(b, a) {
      Strings.StrLeTotal(a.createdAt, b.createdAt);
    }
    forall a: Alert, b: Alert, c: Alert | NewerFirst(a, b) && NewerFirst(b, c)
      ensures NewerFirst(a, c)
    {
      Strings.StrLeTrans(c.createdAt, b.createdAt, a.createdAt);
    }
  }

  /** The alerts whose resolved flag equals `resolved`, in their order. */
  function WithResolved(s: seq<Alert>, resolved: bool): (r: seq<Alert>)
    ensures forall i :: 0 <= i < |r| ==> r[i].isResolved == resolved
    ensures forall x :: multiset(r)[x] == if x.isResolved == resolved then multiset(s)[x] else 0
    ensures |r| <= |s|
    ensures forall i :: 0 <= i < |r| ==> r[i] in s
  {
    if |s| == 0 then []
    else
      assert s == [s[0]] + s[1..];
      if s[0].isResolved == resolved then [s[0]] + WithResolved(s[1..], resolved)
      else WithResolved(s[1..], resolved)
  }

  /** Picking the alerts with one flag and picking the ties of an alert commute. */
  lemma {:induction false} WithResolvedTies(s: seq<Alert>, y: Alert, resolved: bool)
    ensures Sorting.Ties(WithResolved(s, resolved), y, NewerFirst) ==
            WithResolved(Sorting.Ties(s, y, NewerFirst), resolved)
  {
    if |s| > 0 {
      var tail := s[1..];
      WithResolvedTies(tail, y, resolved);
      var first := Sorting.Ties([s[0]], y, NewerFirst);
      assert s == [s[0]] + tail;
      Sorting.TiesConcat([s[0]], tail, y, NewerFirst);
      WithResolvedConcat(first, Sorting.Ties(tail, y, NewerFirst), resolved);
      HeadTies(s[0], y, resolved);
      WithResolvedCons(s, resolved);
      if s[0].isResolved == resolved {
        Sorting.TiesConcat([s[0]], WithResolved(tail, resolved), y, NewerFirst);
      }
    }
  }

  lemma HeadTies(x: Alert, y: Alert, resolved: bool)
    ensures WithResolved(Sorting.Ties([x], y, NewerFirst), resolved) ==
            if x.isResolved == resolved then Sorting.Ties([x], y, NewerFirst) else []
  {
    assert [x][1..] == [];
  }

  lemma WithResolvedCons(s: seq<Alert>, resolved: bool)
    requires |s| > 0
    ensures WithResolved(s, resolved) ==
            if s[0].isResolved == resolved then [s[0]] + WithResolved(s[1..], resolved) else WithResolved(s[1..], resolved)
  {
  }

  /** Without a cut, equally new alerts stay in the order they were stored. */
  lemma UnlimitedTies(alerts: seq<Alert>, sorted: seq<Alert>, r: seq<Alert>, limit: int, resolved: bool)
    requires Sorting.TotalPreorder(NewerFirst) && sorted == Sorting.Sort(alerts, NewerFirst)
    requires r == WithResolved(sorted, resolved)[..SliceLen(|WithResolved(sorted, resolved)|, limit)]
    ensures limit >= |alerts| ==>
      forall y :: Sorting.Ties(r, y, NewerFirst) == WithResolved(Sorting.Ties(alerts, y, NewerFirst), resolved)
  {
    if limit >= |alerts| {
      assert r == WithResolved(sorted, resolved);
      forall y ensures Sorting.Ties(r, y, NewerFirst) == WithResolved(Sorting.Ties(alerts, y, NewerFirst), resolved) {
        WithResolvedTies(sorted, y, resolved);
        Sorting.SortStable(alerts, y, NewerFirst);
      }
    }
  }

  lemma {:induction false} WithResolvedConcat(a: seq<Alert>, b: seq<Alert>, resolved: bool)
    ensures WithResolved(a + b, resolved) == WithResolved(a, resolved) + WithResolved(b, resolved)
  {
    if |a| > 0 {
      assert (a + b)[1..] == a[1..] + b;
      WithResolvedConcat(a[1..], b, resolved);
    } else {
      assert a + b == b;
    }
  }

  lemma {:induction false} WithResolvedSorted(s: seq<Alert>, resolved: bool)
    requires Sorting.SortedBy(s, NewerFirst)
    ensures Sorting.SortedBy(WithResolved(s, resolved), NewerFirst)
  {
    if |s| > 0 {
      var tail := s[1..];
      var rest := WithResolved(tail, resolved);
      WithResolvedSorted(tail, resolved);
      if s[0].isResolved == resolved {
        forall k | 0 <= k < |rest| ensures NewerFirst(s[0], rest[k]) {
          assert rest[k] in tail;
          var m :| 0 <= m < |tail| && tail[m] == rest[k];
          assert s[m + 1] == rest[k];
        }
        Sorting.ConsSorted(s[0], rest, NewerFirst);
      }
    }
  }

  /** How many items `xs[:limit]` keeps of `n`, with Python's negative-index rule. */
  function SliceLen(n: nat, limit: int): (k: nat)
    ensures k <= n
    ensures limit >= 0 ==> k == if limit < n then limit else n
    ensures limit < 0 ==> k == if n + limit > 0 then n + limit else 0
  {
    if limit >= 0 then (if limit < n then limit else n)
    else if n + limit > 0 then n + limit else 0
  }

  /** What sorting, filtering and slicing guarantee about the listed alerts. */
  lemma ListingFacts(alerts: seq<Alert>, sorted: seq<Alert>, matching: seq<Alert>, r: seq<Alert>,
                     limit: int, resolved: bool)
    requires Sorting.SortedBy(sorted, NewerFirst) && multiset(sorted) == multiset(alerts)
    requires |sorted| == |alerts|
    requires matching == WithResolved(sorted, resolved)
    requires r == matching[..SliceLen(|matching|, limit)]
    ensures forall i :: 0 <= i < |r| ==> r[i].isResolved == resolved
    ensures Sorting.SortedBy(r, NewerFirst)
    ensures multiset(r) <= multiset(alerts)
    ensures |r| == SliceLen(|WithResolved(alerts, resolved)|, limit)
    ensures limit >= |alerts| ==> multiset(r) == multiset(WithResolved(alerts, resolved))
  {
    FlagAndOrderFacts(sorted, matching, r, |r|, resolved);
    CountFacts(alerts, sorted, matching, r, limit, resolved);
  }

  /** A prefix of the matching alerts of a newest-first list carries the flag and is newest first. */
  lemma FlagAndOrderFacts(sorted: seq<Alert>, matching: seq<Alert>, r: seq<Alert>, k: nat, resolved: bool)
    requires Sorting.SortedBy(sorted, NewerFirst)
    requires matching == WithResolved(sorted, resolved)
    requires k <= |matching| && r == matching[..k]
    ensures forall i :: 0 <= i < |r| ==> r[i].isResolved == resolved
    ensures Sorting.SortedBy(r, NewerFirst)
  {
    WithResolvedSorted(sorted, resolved);
    PrefixSorted(matching, k);
    forall i | 0 <= i < |r| ensures r[i].isResolved == resolved {
      assert r[i] == matching[i];
    }
  }

  /** The alerts a listing keeps are at least as new as every matching alert it leaves out. */
  lemma KeptAreNewest(alerts: seq<Alert>, sorted: seq<Alert>, r: seq<Alert>, k: nat, resolved: bool)
    requires Sorting.SortedBy(sorted, NewerFirst) && multiset(sorted) == multiset(alerts)
    requires k <= |WithResolved(sorted, resolved)| && r == WithResolved(sorted, resolved)[..k]
    ensures forall i, b ::
      0 <= i < |r| && b in WithResolved(alerts, resolved) && multiset(r)[b] < multiset(WithResolved(alerts, resolved))[b] ==>
      NewerFirst(r[i], b)
  {
    var matching := WithResolved(sorted, resolved);
    WithResolvedSorted(sorted, resolved);
    WithResolvedPermutation(sorted, alerts, resolved);
    OmittedOlder(matching, k);
    forall b | b in WithResolved(alerts, resolved) ensures b in matching {
      assert multiset(matching)[b] > 0;
    }
  }

  /** A prefix of a newest-first list is at least as new as every entry it leaves out. */
  lemma OmittedOlder(s: seq<Alert>, k: nat)
    requires k <= |s| && Sorting.SortedBy(s, NewerFirst)
    ensures forall i, b :: 0 <= i < k && b in s && multiset(s[..k])[b] < multiset(s)[b] ==> NewerFirst(s[i], b)
  {
    forall i, b | 0 <= i < k && b in s && multiset(s[..k])[b] < multiset(s)[b] ensures NewerFirst(s[i], b) {
      assert s == s[..k] + s[k..];
      assert multiset(s[k..])[b] > 0;
      var j :| 0 <= j < |s[k..]| && s[k..][j] == b;
      assert s[k + j] == b;
    }
  }

  lemma PrefixSorted(s: seq<Alert>, n: nat)
    requires n <= |s| && Sorting.SortedBy(s, NewerFirst)
    ensures Sorting.SortedBy(s[..n], NewerFirst)
  {
  }

  lemma CountFacts(alerts: seq<Alert>, sorted: seq<Alert>, matching: seq<Alert>, r: seq<Alert>,
                   limit: int, resolved: bool)
    requires multiset(sorted) == multiset(alerts) && |sorted| == |alerts|
    requires matching == WithResolved(sorted, resolved)
    requires r == matching[..SliceLen(|matching|, limit)]
    ensures multiset(r) <= multiset(alerts)
    ensures |r| == SliceLen(|WithResolved(alerts, resolved)|, limit)
    ensures limit >= |alerts| ==> multiset(r) == multiset(WithResolved(alerts, resolved))
  {
    WithResolvedPermutation(sorted, alerts, resolved);
    MultisetLength(matching, WithResolved(alerts, resolved));
    PrefixMultiset(matching, |r|);
    assert |r| == |matching| ==> r == matching;
    assert multiset(matching) <= multiset(sorted);
  }

  /** Filtering two permutations of each other yields permutations of each other. */
  lemma WithResolvedPermutation(a: seq<Alert>, b: seq<Alert>, resolved: bool)
    requires multiset(a) == multiset(b)
    ensures multiset(WithResolved(a, resolved)) == multiset(WithResolved(b, resolved))
  {
    var fa := multiset(WithResolved(a, resolved));
    var fb := multiset(WithResolved(b, resolved));
    forall x ensures fa[x] == fb[x] {
    }
  }

  lemma PrefixMultiset<T>(s: seq<T>, n: nat)
    requires n <= |s|
    ensures multiset(s[..n]) <= multiset(s)
  {
    assert s == s[..n] + s[n..];
  }

  lemma MultisetLength<T>(a: seq<T>, b: seq<T>)
    requires multiset(a) == multiset(b)
    ensures |a| == |b|
  {
    assert |multiset(a)| == |a| && |multiset(b)| == |b|;
  }

  class AlertsService {
    var alerts: seq<Alert>

    constructor()
      ensures alerts == []
    {
      alerts := [];
    }

    /**
     * `get_alerts`: the alerts with the requested resolved flag, newest first,
     * cut to `limit` by a Python slice, so that no matching alert left out is newer
     * than one kept. The stored list is not changed.
     */
    function GetAlerts(limit: int, resolved: bool): (r: seq<Alert>)
      reads this
      ensures forall i :: 0 <= i < |r| ==> r[i].isResolved == resolved
      ensures Sorting.SortedBy(r, NewerFirst)
      ensures multiset(r) <= multiset(alerts)
      ensures |r| == SliceLen(|WithResolved(alerts, resolved)|, limit)
      ensures limit >= |alerts| ==> multiset(r) == multiset(WithResolved(alerts, resolved))
      ensures forall i, b ::
        0 <= i < |r| && b in WithResolved(alerts, resolved) && multiset(r)[b] < multiset(WithResolved(alerts, resolved))[b] ==>
        NewerFirst(r[i], b)
    ensures limit >= |alerts| ==>
      forall y :: Sorting.Ties(r, y, NewerFirst) == WithResolved(Sorting.Ties(alerts, y, NewerFirst), resolved)
    {
      NewerFirstTotal();
      var sorted := Sorting.Sort(alerts, NewerFirst);
      var matching := WithResolved(sorted, resolved);
      var r := matching[..SliceLen(|matching|, limit)];
      ListingFacts(alerts, sorted, matching, r, limit, resolved);
      KeptAreNewest(alerts, sorted, r, |r|, resolved);
      UnlimitedTies(alerts, sorted, r, limit, resolved);
      r
    }

    /** `resolve_alert`: marks the first alert with the id resolved; false when there is none. */
    method ResolveAlert(alertId: string) returns (found: bool)
      modifies this
      ensures found <==> exists j :: 0 <= j < |old(alerts)| && old(alerts)[j].id == alertId
      ensures !found ==> alerts == old(alerts)
      ensures found ==>
        exists k :: 0 <= k < |old(alerts)| && old(alerts)[k].id == alertId &&
          (forall j :: 0 <= j < k ==> old(alerts)[j].id != alertId) &&
          alerts == old(alerts)[k := old(alerts)[k].(isResolved := true)]
    {
      for i := 0 to |alerts|
        invariant forall j :: 0 <= j < i ==> alerts[j].id != alertId
      {
        if alerts[i].id == alertId {
          alerts := alerts[i := alerts[i].(isResolved := true)];
          return true;
        }
      }
      return false;
    }

    /**
     * `_persist_alerts`: appends one stored alert per draft, each unresolved and
     * tagged with the run's id; the existing alerts stay in front.
     */
    method PersistAlerts(drafts: seq<Draft>, runId: string, newId: nat -> string, clock: nat -> string)
      modifies this
      ensures alerts == old(alerts) + Stored(drafts, runId, newId, clock)
    {
      var i := 0;
      while i < |drafts|
        invariant 0 <= i <= |drafts|
        invariant alerts == old(alerts) + Stored(drafts[..i], runId, newId, clock)
      {
        StoredSnoc(drafts[..i], drafts[i], runId, newId, clock);
        assert drafts[..i + 1] == drafts[..i] + [drafts[i]];
        alerts := alerts + [Alert(newId(i), runId, drafts[i].kind, SeverityOf(drafts[i].kind),
                                  drafts[i].message, clock(i), false)];
        i := i + 1;
      }
      assert drafts[..i] == drafts;
    }

    /**
     * `evaluate_run` with the low-confidence rule reading `confidence` only (see
     * `DraftsAsWritten`). `latencySetting` is the text of `ALERT_LATENCY_THRESHOLD_MS`
     * (or its default); an unparsable one raises before anything is stored.
     */
    method EvaluateRun(run: RunFacts, latencySetting: string, fixed2: real -> string,
                       decimal: real -> string, newId: nat -> string, clock: nat -> string)
      returns (r: Result<seq<Draft>, string>)
      modifies this
      ensures run.status != "success" ==> r == Ok([]) && alerts == old(alerts)
      ensures run.status == "success" && ParseInt(latencySetting).None? ==>
        r == Err("ValueError") && alerts == old(alerts)
      ensures r.Ok? && run.status == "success" ==>
        r.value == Drafts(run, ParseInt(latencySetting).value, fixed2, decimal)
      ensures r.Ok? ==> alerts == old(alerts) + Stored(r.value, run.runId, newId, clock)
      ensures r.Err? ==> alerts == old(alerts)
    {
      if run.status != "success" {
        return Ok([]);
      }
      var newAlerts: seq<Draft> := [];
      ghost var a: seq<Draft> := [];
      ghost var b: seq<Draft> := [];
      ghost var c: seq<Draft> := [];
      ghost var d: seq<Draft> := [];
      if LowConfidence(run.confidence) {
        newAlerts := newAlerts + [LowConfidenceDraft(run, fixed2)];
        a := [LowConfidenceDraft(run, fixed2)];
      }
      assert newAlerts == a;
      if PolicyFailed(run.metrics) {
        newAlerts := newAlerts + [PolicyFailDraft(run)];
        b := [PolicyFailDraft(run)];
      }
      assert newAlerts == a + b;
      var parsed := ParseInt(latencySetting);
      if parsed.None? {
        return Err("ValueError");
      }
      var threshold := parsed.value;
      if SlowRun(run.latencyMs, threshold) {
        newAlerts := newAlerts + [HighLatencyDraft(run, threshold, decimal)];
        c := [HighLatencyDraft(run, threshold, decimal)];
      }
      assert newAlerts == a + b + c;
      if RetrievalEmpty(run.metrics) {
        newAlerts := newAlerts + [RetrievalEmptyDraft(run)];
        d := [RetrievalEmptyDraft(run)];
      }
      assert newAlerts == a + b + c + d;
      DraftsUnfold(run, threshold, fixed2, decimal, a, b, c, d, newAlerts);
      if |newAlerts| > 0 {
        PersistAlerts(newAlerts, run.runId, newId, clock);
      }
      return Ok(newAlerts);
    }

    /** `seed_demo_alerts`: the three demo alerts, written only into an empty table. */
    method SeedDemoAlerts(newId: nat -> string, clock: nat -> string)
      modifies this
      ensures |old(alerts)| > 0 ==> alerts == old(alerts)
      ensures |old(alerts)| == 0 ==> alerts == DemoAlerts(newId, clock)
    {
      if |alerts| > 0 {
        return;
      }
      alerts := DemoAlerts(newId, clock);
    }
  }

  // ---------------------------------------------------------------------------
  // Rules

  /** `confidence < 0.5` on a present confidence. */
  predicate LowConfidence(confidence: Option<real>)
  {
    confidence.Some? && confidence.value < 0.5
  }

  /** `run.metrics and run.metrics.get("policy_pass") == 0`. */
  predicate PolicyFailed(metrics: map<string, real>)
  {
    |metrics| > 0 && "policy_pass" in metrics && metrics["policy_pass"] == 0.0
  }

  /** `run.latency_ms and run.latency_ms > threshold`: zero and missing latencies never fire. */
  predicate SlowRun(latency: Option<real>, threshold: int)
  {
    latency.Some? && latency.value != 0.0 && latency.value > threshold as real
  }

  /** `run.metrics and run.metrics.get("retrieval_count", 1) == 0`: a missing count never fires. */
  predicate RetrievalEmpty(metrics: map<string, real>)
  {
    |metrics| > 0 && (if "retrieval_count" in metrics then metrics["retrieval_count"] else 1.0) == 0.0
  }

  /** Every rule's message opens with "Run <run id>". */
  predicate NamesRun(d: Draft, runId: string)
  {
    |d.message| >= 4 + |runId| && d.message[..4 + |runId|] == "Run " + runId
  }

  function LowConfidenceDraft(run: RunFacts, fixed2: real -> string): (d: Draft)
    requires run.confidence.Some?
    ensures d.kind == LowConfidenceKind && SeverityOf(d.kind) == Medium && NamesRun(d, run.runId)
  {
    Draft(LowConfidenceKind,
          "Run " + run.runId + " has low confidence (" + fixed2(run.confidence.value) + ").")
  }

  function PolicyFailDraft(run: RunFacts): (d: Draft)
    ensures d.kind == PolicyFailKind && SeverityOf(d.kind) == High && NamesRun(d, run.runId)
  {
    Draft(PolicyFailKind, "Run " + run.runId + " failed policy checks.")
  }

  function HighLatencyDraft(run: RunFacts, threshold: int, decimal: real -> string): (d: Draft)
    requires run.latencyMs.Some?
    ensures d.kind == HighLatencyKind && SeverityOf(d.kind) == Low && NamesRun(d, run.runId)
  {
    Draft(HighLatencyKind,
          "Run " + run.runId + " took " + decimal(run.latencyMs.value) + "ms (threshold: " +
          IntToString(threshold) + "ms).")
  }

  function RetrievalEmptyDraft(run: RunFacts): (d: Draft)
    ensures d.kind == RetrievalEmptyKind && SeverityOf(d.kind) == Medium && NamesRun(d, run.runId)
  {
    Draft(RetrievalEmptyKind, "Run " + run.runId + " yielded no retrieved context.")
  }

  /**
   * The rules' edges, from Python truthiness and strict comparisons: a confidence
   * of exactly 0.5 and a latency equal to the threshold do not fire; a zero
   * latency never fires, even under a negative threshold; empty metrics, or
   * metrics without `retrieval_count`, fire neither metric rule.
   */
  lemma RuleEdges(threshold: int, metrics: map<string, real>)
    ensures !LowConfidence(Some(0.5)) && LowConfidence(Some(0.49)) && !LowConfidence(None)
    ensures !SlowRun(Some(threshold as real), threshold) && !SlowRun(Some(0.0), threshold) && !SlowRun(None, threshold)
    ensures !PolicyFailed(map[]) && !RetrievalEmpty(map[])
    ensures "retrieval_count" !in metrics ==> !RetrievalEmpty(metrics)
    ensures "policy_pass" !in metrics ==> !PolicyFailed(metrics)
  {
  }

  predicate Fires(r: seq<Draft>, kind: Kind)
  {
    exists i :: 0 <= i < |r| && r[i].kind == kind
  }

  /**
   * The alerts a run triggers, in rule order, with the low-confidence rule reading
   * `confidence` alone.
   */
  function Drafts(run: RunFacts, threshold: int, fixed2: real -> string, decimal: real -> string): (r: seq<Draft>)
    ensures run.status != "success" ==> r == []
    ensures |r| <= 4
    ensures Fires(r, LowConfidenceKind) <==> run.status == "success" && LowConfidence(run.confidence)
    ensures Fires(r, PolicyFailKind) <==> run.status == "success" && PolicyFailed(run.metrics)
    ensures Fires(r, HighLatencyKind) <==> run.status == "success" && SlowRun(run.latencyMs, threshold)
    ensures Fires(r, RetrievalEmptyKind) <==> run.status == "success" && RetrievalEmpty(run.metrics)
    ensures forall i, j :: 0 <= i < j < |r| ==> r[i].kind != r[j].kind
  {
    if run.status != "success" then []
    else
      var a := if LowConfidence(run.confidence) then [LowConfidenceDraft(run, fixed2)] else [];
      var b := if PolicyFailed(run.metrics) then [PolicyFailDraft(run)] else [];
      var c := if SlowRun(run.latencyMs, threshold) then [HighLatencyDraft(run, threshold, decimal)] else [];
      var d := if RetrievalEmpty(run.metrics) then [RetrievalEmptyDraft(run)] else [];
      var r := a + b + c + d;
      KindsOfFour(a, b, c, d, r);
      r
  }

  /** The drafts in rule order, as `evaluate_run` appends them. */
  lemma DraftsUnfold(run: RunFacts, threshold: int, fixed2: real -> string, decimal: real -> string,
                     a: seq<Draft>, b: seq<Draft>, c: seq<Draft>, d: seq<Draft>, r: seq<Draft>)
    requires run.status == "success"
    requires a == if LowConfidence(run.confidence) then [LowConfidenceDraft(run, fixed2)] else []
    requires b == if PolicyFailed(run.metrics) then [PolicyFailDraft(run)] else []
    requires c == if SlowRun(run.latencyMs, threshold) then [HighLatencyDraft(run, threshold, decimal)] else []
    requires d == if RetrievalEmpty(run.metrics) then [RetrievalEmptyDraft(run)] else []
    requires r == a + b + c + d
    ensures r == Drafts(run, threshold, fixed2, decimal)
  {
  }

  lemma KindsOfFour(a: seq<Draft>, b: seq<Draft>, c: seq<Draft>, d: seq<Draft>, r: seq<Draft>)
    requires r == a + b + c + d
    requires |a| <= 1 && |b| <= 1 && |c| <= 1 && |d| <= 1
    requires forall i :: 0 <= i < |a| ==> a[i].kind == LowConfidenceKind
    requires forall i :: 0 <= i < |b| ==> b[i].kind == PolicyFailKind
    requires forall i :: 0 <= i < |c| ==> c[i].kind == HighLatencyKind
    requires forall i :: 0 <= i < |d| ==> d[i].kind == RetrievalEmptyKind
    ensures Fires(r, LowConfidenceKind) <==> |a| == 1
    ensures Fires(r, PolicyFailKind) <==> |b| == 1
    ensures Fires(r, HighLatencyKind) <==> |c| == 1
    ensures Fires(r, RetrievalEmptyKind) <==> |d| == 1
    ensures forall i, j :: 0 <= i < j < |r| ==> r[i].kind != r[j].kind
  {
    forall i | 0 <= i < |r|
      ensures r[i].kind == (if i < |a| then LowConfidenceKind
                            else if i < |a| + |b| then PolicyFailKind
                            else if i < |a| + |b| + |c| then HighLatencyKind
                            else RetrievalEmptyKind)
    {
      if i < |a| { assert r[i] == a[i]; }
      else if i < |a| + |b| { assert r[i] == b[i - |a|]; }
      else if i < |a| + |b| + |c| { assert r[i] == c[i - |a| - |b|]; }
      else { assert r[i] == d[i - |a| - |b| - |c|]; }
    }
    if |a| == 1 { assert r[0].kind == LowConfidenceKind; }
    if |b| == 1 { assert r[|a|].kind == PolicyFailKind; }
    if |c| == 1 { assert r[|a| + |b|].kind == HighLatencyKind; }
    if |d| == 1 { assert r[|a| + |b| + |c|].kind == RetrievalEmptyKind; }
  }

  const AttributeErrorMessage := "'RunDetail' object has no attribute 'confidence_score'"

  /**
   * The rules as alerts.py:61 writes them: a missing `confidence` falls back to
   * `run.confidence_score`, a field the run schema does not have, so every
   * successful run without a confidence raises AttributeError and no rule runs.
   */
  function DraftsAsWritten(run: RunFacts, threshold: int, fixed2: real -> string, decimal: real -> string)
    : (r: Result<seq<Draft>, string>)
    ensures r.Err? <==> run.status == "success" && run.confidence.None?
    ensures r.Err? ==> r.error == AttributeErrorMessage
    ensures r.Ok? ==> r.value == Drafts(run, threshold, fixed2, decimal)
  {
    if run.status != "success" then Ok([])
    else if run.confidence.None? then Err(AttributeErrorMessage)
    else Ok(Drafts(run, threshold, fixed2, decimal))
  }

  /**
   * A slow successful run without a confidence: the code as written raises instead
   * of raising the HIGH_LATENCY alert that the corrected rules produce.
   */
  lemma SlowRunWithoutConfidence(fixed2: real -> string, decimal: real -> string)
    ensures var run := RunFacts("r1", "success", None, map[], Some(9000.0));
      DraftsAsWritten(run, 5000, fixed2, decimal).Err? &&
      Drafts(run, 5000, fixed2, decimal) == [HighLatencyDraft(run, 5000, decimal)]
  {
    var run := RunFacts("r1", "success", None, map[], Some(9000.0));
    assert !LowConfidence(run.confidence) && !PolicyFailed(run.metrics) && !RetrievalEmpty(run.metrics);
    assert SlowRun(run.latencyMs, 5000);
  }

  // ---------------------------------------------------------------------------
  // Storage

  /** The stored form of a batch of drafts: fresh id and timestamp each, unresolved, run id attached. */
  function Stored(drafts: seq<Draft>, runId: string, newId: nat -> string, clock: nat -> string): (r: seq<Alert>)
    ensures |r| == |drafts|
    ensures forall i :: 0 <= i < |r| ==>
      r[i].runId == runId && !r[i].isResolved && r[i].kind == drafts[i].kind &&
      r[i].severity == SeverityOf(drafts[i].kind) && r[i].message == drafts[i].message &&
      r[i].id == newId(i) && r[i].createdAt == clock(i)
  {
    seq(|drafts|, i requires 0 <= i < |drafts| =>
      Alert(newId(i), runId, drafts[i].kind, SeverityOf(drafts[i].kind), drafts[i].message, clock(i), false))
  }

  lemma StoredSnoc(drafts: seq<Draft>, d: Draft, runId: string, newId: nat -> string, clock: nat -> string)
    ensures Stored(drafts + [d], runId, newId, clock) ==
      Stored(drafts, runId, newId, clock) +
      [Alert(newId(|drafts|), runId, d.kind, SeverityOf(d.kind), d.message, clock(|drafts|), false)]
  {
    var a := Stored(drafts + [d], runId, newId, clock);
    var b := Stored(drafts, runId, newId, clock) +
      [Alert(newId(|drafts|), runId, d.kind, SeverityOf(d.kind), d.message, clock(|drafts|), false)];
    assert |a| == |b|;
    forall i | 0 <= i < |a| ensures a[i] == b[i] {
      if i < |drafts| { assert (drafts + [d])[i] == drafts[i]; }
    }
  }

  function DemoAlerts(newId: nat -> string, clock: nat -> string): (r: seq<Alert>)
    ensures |r| == 3 && r[0].runId == "demo-run-123" && r[1].runId == "demo-run-456" && r[2].runId == "demo-run-789"
    ensures forall i :: 0 <= i < |r| ==> r[i].id == newId(i) && r[i].createdAt == clock(i)
    ensures !r[0].isResolved && !r[1].isResolved && r[2].isResolved
  {
    [ Alert(newId(0), "demo-run-123", PolicyFailKind, High,
            "PII usage detected in output (credit card pattern).", clock(0), false),
      Alert(newId(1), "demo-run-456", LowConfidenceKind, Medium,
            "Model confidence 0.35 below threshold 0.5.", clock(1), false),
      Alert(newId(2), "demo-run-789", HighLatencyKind, Low,
            "Response time 8500ms exceeded SLA 5000ms.", clock(2), true) ]
  }
}
