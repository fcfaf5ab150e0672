/**
 * The run store over MLflow (fulcrum-llm-ops/backend/app/mlflow_store.py): the
 * translation between the dashboard's status names and MLflow's, the filters of
 * the run listings, how a run's model and artifacts are named, what `update_run`
 * does, and which signals the confidence recomputation reads.
 *
 * The tracking server is outside the model: what `search_runs` returns for a filter
 * string is a parameter, and so are the artifacts a recomputation reads, the clock
 * and the formatting of start times. Writes to the server are returned as a list of
 * `Effect`s in the order the source issues them.
 */
module MlflowStore {
  import opened Common
  import opened Strings
  import opened Json
  import opened Schemas
  import Confidence

  // ---------------------------------------------------------------------------
  // Status names

  /** `_STATUS_TO_MLFLOW.get(status)`. */
  function StatusToMlflow(status: string): (r: Option<string>)
    ensures r.Some? <==> status in {"success", "failed", "running"}
  {
    if status == "success" then Some("FINISHED")
    else if status == "failed" then Some("FAILED")
    else if status == "running" then Some("RUNNING")
    else None
  }

  /** `_MLFLOW_TO_STATUS.get(status, "pending")`. */
  function MlflowToStatus(mlflowStatus: string): (r: string)
    ensures r in {"success", "failed", "running", "pending"}
  {
    if mlflowStatus == "FINISHED" then "success"
    else if mlflowStatus == "FAILED" then "failed"
    else if mlflowStatus == "RUNNING" then "running"
    else "pending"
  }

  /** The two maps are inverse to each other on the three statuses they know. */
  lemma StatusMapsInverse(status: string, mlflowStatus: string)
    ensures StatusToMlflow(status).Some? ==> MlflowToStatus(StatusToMlflow(status).value) == status
    ensures MlflowToStatus(mlflowStatus) != "pending" ==>
      StatusToMlflow(MlflowToStatus(mlflowStatus)) == Some(mlflowStatus)
  {
  }

  /** Any MLflow status other than FINISHED, FAILED and RUNNING shows as "pending". */
  lemma OtherStatusesPending(mlflowStatus: string)
    requires mlflowStatus !in {"FINISHED", "FAILED", "RUNNING"}
    ensures MlflowToStatus(mlflowStatus) == "pending"
  {
  }

  // ---------------------------------------------------------------------------
  // The runs as MLflow stores them

  datatype MlflowRun = MlflowRun(
    runId: string,
    status: string,
    metrics: map<string, real>,
    params: map<string, string>,
    tags: map<string, string>,
    startTime: int)

  /** `d.get(key, default)`. */
  function Get<V>(d: map<string, V>, key: string, default: V): (v: V)
    ensures key in d ==> v == d[key]
    ensures key !in d ==> v == default
  {
    if key in d then d[key] else default
  }

  /** `d.get(key)`, with `None` for a missing key. */
  function GetOpt<V>(d: map<string, V>, key: string): (v: Option<V>)
    ensures v.Some? <==> key in d
    ensures v.Some? ==> v.value == d[key]
  {
    if key in d then Some(d[key]) else None
  }

  /** `params.get("model_name") or params.get("model") or "unknown"`: the first non-empty one. */
  function RunModel(params: map<string, string>): (m: string)
    ensures m != ""
    ensures m == Get(params, "model_name", "") || m == Get(params, "model", "") || m == "unknown"
    ensures Get(params, "model_name", "") != "" ==> m == params["model_name"]
    ensures Get(params, "model_name", "") == "" && Get(params, "model", "") != "" ==> m == params["model"]
    ensures Get(params, "model_name", "") == "" && Get(params, "model", "") == "" ==> m == "unknown"
  {
    var name := Get(params, "model_name", "");
    var model := Get(params, "model", "");
    if name != "" then name else if model != "" then model else "unknown"
  }

  /** The started-at field: the formatted start time, when it is not 0. */
  function StartedAt(startTime: int, format: int -> string): Option<string>
  {
    if startTime != 0 then Some(format(startTime)) else None
  }

  /**
   * The list item for a run. The listing with filters leaves `parse_success` unset, so the
   * item takes the field's default 0; the listing by time range sets it to the metric, 0 when missing.
   */
  function ToItem(run: MlflowRun, withParse: bool, format: int -> string): (r: RunItem)
    ensures r.runId == run.runId && r.status == MlflowToStatus(run.status) && r.model == RunModel(run.params)
    ensures r.latencyMs == GetOpt(run.metrics, "latency_ms") && r.costUsd == GetOpt(run.metrics, "cost_usd")
    ensures r.confidence == GetOpt(run.metrics, "confidence")
    ensures r.confidenceLabel == GetOpt(run.tags, "confidence_label")
    ensures withParse ==> r.parseSuccess == Some(Get(run.metrics, "parse_success", 0.0))
    ensures !withParse ==> r.parseSuccess == Some(0.0)
  {
    RunItem(
      run.runId,
      MlflowToStatus(run.status),
      RunModel(run.params),
      GetOpt(run.metrics, "latency_ms"),
      GetOpt(run.metrics, "cost_usd"),
      GetOpt(run.metrics, "confidence"),
      GetOpt(run.tags, "confidence_label"),
      Some(if withParse then Get(run.metrics, "parse_success", 0.0) else 0.0),
      StartedAt(run.startTime, format))
  }

  // ---------------------------------------------------------------------------
  // list_runs

  /** The server-side conditions: a known status and a non-empty model each add one. */
  function ListConditions(status: Option<string>, model: Option<string>): (r: seq<string>)
    ensures |r| == (if TruthyText(status) && StatusToMlflow(status.value).Some? then 1 else 0) +
                   (if TruthyText(model) then 1 else 0)
    ensures TruthyText(status) && StatusToMlflow(status.value).Some? ==>
      r[0] == "attributes.status = '" + StatusToMlflow(status.value).value + "'"
    ensures TruthyText(model) ==> r[|r| - 1] == "params.model = '" + model.value + "'"
    ensures forall c :: c in r ==> StartsWith(c, "attributes.status") ==>
      TruthyText(status) && StatusToMlflow(status.value).Some?
  {
    var statusPart :=
      if TruthyText(status) && StatusToMlflow(status.value).Some?
      then ["attributes.status = '" + StatusToMlflow(status.value).value + "'"]
      else [];
    var modelPart := if TruthyText(model) then ["params.model = '" + model.value + "'"] else [];
    ModelConditionNotStatus(if TruthyText(model) then model.value else "");
    statusPart + modelPart
  }

  lemma ModelConditionNotStatus(model: string)
    ensures !StartsWith("params.model = '" + model + "'", "attributes.status")
  {
    assert ("params.model = '" + model + "'")[0] == 'p';
  }

  /** `" AND ".join(conditions) if conditions else ""`. */
  function FilterString(conditions: seq<string>): (f: string)
    ensures |conditions| == 0 ==> f == ""
    ensures |conditions| == 1 ==> f == conditions[0]
  {
    Join(conditions, " AND ")
  }

  /** An unknown status adds no condition: with no model the search is unfiltered. */
  lemma UnknownStatusNoFilter(status: string)
    requires StatusToMlflow(status).None?
    ensures FilterString(ListConditions(Some(status), None)) == ""
  {
  }

  /** The text the query is searched in: id, model, status and question, lowercased. */
  function SearchText(run: MlflowRun): string
  {
    Lower(run.runId + " " + RunModel(run.params) + " " + MlflowToStatus(run.status) + " " +
          Get(run.params, "user_question", ""))
  }

  /** The client-side filters: the query as a case-insensitive substring, then the confidence floor. */
  predicate Keep(run: MlflowRun, query: Option<string>, minConfidence: Option<real>)
  {
    (TruthyText(query) ==> Contains(SearchText(run), Lower(query.value))) &&
    (minConfidence.Some? ==>
      "confidence" in run.metrics && run.metrics["confidence"] >= minConfidence.value)
  }

  /** The items of the runs the client-side filters keep, in the order the server returned them. */
  function Listed(runs: seq<MlflowRun>, query: Option<string>, minConfidence: Option<real>,
                  format: int -> string): (r: seq<RunItem>)
    ensures |r| <= |runs|
  {
    if |runs| == 0 then []
    else
      var init, last := runs[..|runs| - 1], runs[|runs| - 1];
      Listed(init, query, minConfidence, format) +
        (if Keep(last, query, minConfidence) then [ToItem(last, false, format)] else [])
  }

  /** Every listed item is the item of a run the filters keep, and every such run's item is listed. */
  lemma {:induction false} ListedExactly(runs: seq<MlflowRun>, query: Option<string>, minConfidence: Option<real>,
                                         format: int -> string)
    ensures forall x :: x in Listed(runs, query, minConfidence, format) ==>
      exists i :: 0 <= i < |runs| && Keep(runs[i], query, minConfidence) && x == ToItem(runs[i], false, format)
    ensures forall i :: 0 <= i < |runs| && Keep(runs[i], query, minConfidence) ==>
      ToItem(runs[i], false, format) in Listed(runs, query, minConfidence, format)
  {
    if |runs| > 0 {
      var init, last := runs[..|runs| - 1], runs[|runs| - 1];
      ListedExactly(init, query, minConfidence, format);
      assert forall i :: 0 <= i < |init| ==> init[i] == runs[i];
    }
  }

  /**
   * `list_runs`: the server is asked for the runs matching the status and model
   * conditions, newest first; the loop then drops those the query or the
   * confidence floor rejects.
   */
  method ListRuns(
    query: Option<string>, model: Option<string>, status: Option<string>, minConfidence: Option<real>,
    limit: int, search: (string, int) -> seq<MlflowRun>, format: int -> string)
    returns (results: seq<RunItem>)
    ensures results == Listed(search(FilterString(ListConditions(status, model)), limit), query, minConfidence, format)
  {
    var runs := search(FilterString(ListConditions(status, model)), limit);
    results := [];
    for i := 0 to |runs|
      invariant results == Listed(runs[..i], query, minConfidence, format)
    {
      ListedSnoc(runs, i, query, minConfidence, format);
      if Keep(runs[i], query, minConfidence) {
        results := results + [ToItem(runs[i], false, format)];
      }
    }
    assert runs[..|runs|] == runs;
  }

  lemma ListedSnoc(runs: seq<MlflowRun>, i: nat, query: Option<string>, minConfidence: Option<real>,
                   format: int -> string)
    requires i < |runs|
    ensures Listed(runs[..i + 1], query, minConfidence, format) ==
      Listed(runs[..i], query, minConfidence, format) +
      (if Keep(runs[i], query, minConfidence) then [ToItem(runs[i], false, format)] else [])
  {
    assert runs[..i + 1][..i] == runs[..i];
  }

  /** Without a query and a confidence floor every run the server returns is listed. */
  lemma NoClientFilter(runs: seq<MlflowRun>, format: int -> string)
    ensures |Listed(runs, None, None, format)| == |runs|
  {
    if |runs| > 0 {
      NoClientFilter(runs[..|runs| - 1], format);
    }
  }

  /** Under a confidence floor every listed item has a confidence, at or above the floor. */
  lemma ListedAboveFloor(runs: seq<MlflowRun>, query: Option<string>, floor: real, format: int -> string)
    ensures forall x :: x in Listed(runs, query, Some(floor), format) ==>
      x.confidence.Some? && x.confidence.value >= floor
  {
    ListedExactly(runs, query, Some(floor), format);
    forall x | x in Listed(runs, query, Some(floor), format)
      ensures x.confidence.Some? && x.confidence.value >= floor
    {
      var i :| 0 <= i < |runs| && Keep(runs[i], query, Some(floor)) && x == ToItem(runs[i], false, format);
      assert x.confidence == GetOpt(runs[i].metrics, "confidence");
    }
  }

  /** A run without a confidence metric is never listed under a confidence floor. */
  lemma FloorDropsUnscored(runs: seq<MlflowRun>, query: Option<string>, floor: real, format: int -> string)
    requires forall i :: 0 <= i < |runs| ==> "confidence" !in runs[i].metrics
    ensures Listed(runs, query, Some(floor), format) == []
  {
  }

  // ---------------------------------------------------------------------------
  // list_runs_in_range

  /** `int(x)`: truncation toward zero. */
  function Trunc(x: real): (n: int)
    ensures x >= 0.0 ==> n == x.Floor
    ensures x < 0.0 ==> n == -((-x).Floor)
    ensures x >= 0.0 ==> n as real <= x < n as real + 1.0
    ensures x < 0.0 ==> n as real - 1.0 < x <= n as real
  {
    if x >= 0.0 then x.Floor else -((-x).Floor)
  }

  /** The time-range filter: runs started at or after `days` days before now. */
  function RangeFilter(nowMs: real, days: real): string
  {
    RangePrefix + IntToString(Trunc(nowMs - days * 86400000.0))
  }

  const RangePrefix := "attribute.start_time >= "

  /** The filter compares the start time with the cutoff in whole milliseconds, `days` days before now. */
  lemma RangeFilterCutoff(nowMs: real, days: real)
    ensures var f := RangeFilter(nowMs, days);
      |f| > |RangePrefix| && f[..|RangePrefix|] == RangePrefix &&
      ParseInt(f[|RangePrefix|..]) == Some(Trunc(nowMs - days * 86400000.0))
  {
    var digits := IntToString(Trunc(nowMs - days * 86400000.0));
    ParseIntToString(Trunc(nowMs - days * 86400000.0));
    assert (RangePrefix + digits)[|RangePrefix|..] == digits;
  }

  /** `list_runs_in_range`: every run the server returns, with its parse-success metric. */
  method ListRunsInRange(days: real, nowMs: real, limit: int, search: (string, int) -> seq<MlflowRun>,
                         format: int -> string)
    returns (results: seq<RunItem>)
    ensures var runs := search(RangeFilter(nowMs, days), limit);
      |results| == |runs| &&
      forall i :: 0 <= i < |runs| ==> results[i] == ToItem(runs[i], true, format)
    ensures forall i :: 0 <= i < |results| ==> results[i].parseSuccess.Some?
  {
    var runs := search(RangeFilter(nowMs, days), limit);
    results := [];
    for i := 0 to |runs|
      invariant |results| == i
      invariant forall j :: 0 <= j < i ==> results[j] == ToItem(runs[j], true, format)
    {
      results := results + [ToItem(runs[i], true, format)];
    }
  }

  // ---------------------------------------------------------------------------
  // Artifacts

  /** An entry of an artifact listing; a directory whose listing fails is `UnlistableDir`. */
  datatype ArtifactNode =
    | FileNode(path: string)
    | DirNode(path: string, children: seq<ArtifactNode>)
    | UnlistableDir(path: string)

  datatype ArtifactItem = ArtifactItem(name: string, path: string, kind: string)

  /** The path (already lowercased) ends in one of the extensions shown as text. */
  predicate HasTextExtension(lowerPath: string)
  {
    EndsWith(lowerPath, ".txt") || EndsWith(lowerPath, ".md") || EndsWith(lowerPath, ".log") ||
    EndsWith(lowerPath, ".csv") || EndsWith(lowerPath, ".py") || EndsWith(lowerPath, ".yaml") ||
    EndsWith(lowerPath, ".yml") || EndsWith(lowerPath, ".ini")
  }

  /** "json" for a .json path, "text" for the text extensions, otherwise "file"; case-insensitive. */
  function ArtifactType(path: string): (t: string)
    ensures t == "json" <==> EndsWith(Lower(path), ".json")
    ensures t == "text" <==> !EndsWith(Lower(path), ".json") && HasTextExtension(Lower(path))
    ensures t in {"json", "text", "file"}
  {
    if EndsWith(Lower(path), ".json") then "json"
    else if HasTextExtension(Lower(path)) then "text"
    else "file"
  }

  /**
   * `path.split("/")[-1]`: the last segment, a suffix of the path without any "/",
   * either the whole path or the part after its last "/".
   */
  function ArtifactName(path: string): (n: string)
    ensures EndsWith(path, n)
    ensures !Contains(n, "/")
    ensures n == path || (|n| < |path| && path[|path| - |n| - 1] == '/')
  {
    var pieces := Split(path, "/");
    JoinSplit(path, "/");
    JoinedLastPreceded(path, pieces, "/");
    SplitPiecesFree(path, "/");
    var n := pieces[|pieces| - 1];
    assert n != path ==> path[|path| - |n| - 1..|path| - |n|][0] == path[|path| - |n| - 1];
    n
  }

  function FileItem(path: string): ArtifactItem
  {
    ArtifactItem(ArtifactName(path), path, ArtifactType(path))
  }

  /** The files below an entry, depth first and in listing order; a failed listing gives none. */
  function Flatten(node: ArtifactNode): (r: seq<ArtifactItem>)
    ensures forall a :: a in r ==> a.kind == ArtifactType(a.path) && a.name == ArtifactName(a.path)
    ensures node.FileNode? ==> r == [FileItem(node.path)]
    ensures node.UnlistableDir? ==> r == []
    decreases node, 1, 0
  {
    match node
    case FileNode(path) => [FileItem(path)]
    case UnlistableDir(_) => []
    case DirNode(_, _) => FlattenFrom(node, 0)
  }

  /** The files below the entries of a directory's listing from index `i` on. */
  function FlattenFrom(dir: ArtifactNode, i: nat): (r: seq<ArtifactItem>)
    requires dir.DirNode? && i <= |dir.children|
    ensures forall a :: a in r ==> a.kind == ArtifactType(a.path) && a.name == ArtifactName(a.path)
    decreases dir, 0, |dir.children| - i
  {
    if i == |dir.children| then []
    else Flatten(dir.children[i]) + FlattenFrom(dir, i + 1)
  }

  /** `_list_artifacts_recursive` from the root of a run: `None` when listing it fails. */
  method ListArtifacts(listing: Option<seq<ArtifactNode>>) returns (artifacts: seq<ArtifactItem>)
    ensures listing.Some? ==> artifacts == Flatten(DirNode("", listing.value))
    ensures listing.None? ==> artifacts == []
  {
    if listing.None? {
      return [];
    }
    artifacts := ListDir(DirNode("", listing.value));
  }

  /** The loop over one directory's listing, descending into each sub-directory. */
  method ListDir(dir: ArtifactNode) returns (artifacts: seq<ArtifactItem>)
    requires dir.DirNode?
    ensures artifacts == Flatten(dir)
    decreases dir
  {
    artifacts := [];
    for i := 0 to |dir.children|
      invariant artifacts + FlattenFrom(dir, i) == FlattenFrom(dir, 0)
    {
      var below;
      match dir.children[i] {
        case FileNode(path) =>
          below := [FileItem(path)];
        case UnlistableDir(_) =>
          below := [];
        case DirNode(_, _) =>
          below := ListDir(dir.children[i]);
      }
      artifacts := artifacts + below;
    }
  }

  // ---------------------------------------------------------------------------
  // update_run

  /** A write to the tracking server. */
  datatype Effect =
    | SetTerminated(mlflowStatus: string, endTime: Option<int>)
    | LogMetric(key: string, value: real)
    | LogText(content: string, file: string)
    | RecomputeConfidence
    | SetTag(tag: string, text: string)
    | LogDict(file: string)
    | EvaluateAlerts

  /** The status `update_run` sets: the MLflow name, RUNNING for names it does not know. */
  function TerminalStatus(status: string): (m: string)
    ensures StatusToMlflow(status).Some? ==> m == StatusToMlflow(status).value
    ensures StatusToMlflow(status).None? ==> m == "RUNNING"
  {
    match StatusToMlflow(status)
    case Some(m) => m
    case None => "RUNNING"
  }

  function MetricEffects(metrics: seq<(string, real)>): (r: seq<Effect>)
    ensures |r| == |metrics|
    ensures forall i :: 0 <= i < |metrics| ==> r[i] == LogMetric(metrics[i].0, metrics[i].1)
  {
    seq(|metrics|, i requires 0 <= i < |metrics| => LogMetric(metrics[i].0, metrics[i].1))
  }

  /** The status write, when a status is given. */
  function Terminate(status: Option<string>, endTime: bool, nowMs: int): (r: seq<Effect>)
    ensures forall e :: e in r ==> e.SetTerminated?
  {
    if TruthyText(status) then [SetTerminated(TerminalStatus(status.value), if endTime then Some(nowMs) else None)]
    else []
  }

  /** The response text and the error text, each when given. */
  function Texts(output: Option<string>, error: Option<string>): (r: seq<Effect>)
    ensures forall e :: e in r ==> e.LogText?
    ensures output.Some? ==> (LogText(output.value, "llm_response.txt") in r <==> output.value != "")
    ensures error.Some? ==> (LogText(error.value, "error.txt") in r <==> error.value != "")
  {
    (if TruthyText(output) then [LogText(output.value, "llm_response.txt")] else []) +
    (if TruthyText(error) then [LogText(error.value, "error.txt")] else [])
  }

  /** The writes of `update_run`, in order. */
  function UpdateEffects(status: Option<string>, metrics: seq<(string, real)>, output: Option<string>,
                         error: Option<string>, endTime: bool, nowMs: int): (r: seq<Effect>)
  {
    Terminate(status, endTime, nowMs) + MetricEffects(metrics) + Texts(output, error) +
    (if status.Some? && status.value in {"success", "failed"} then [RecomputeConfidence] else [])
  }

  /**
   * What `update_run` writes: the status first, exactly when one is given; every
   * metric; and, last, a confidence recomputation exactly for "success" and "failed".
   */
  lemma UpdateEffectsShape(status: Option<string>, metrics: seq<(string, real)>, output: Option<string>,
                           error: Option<string>, endTime: bool, nowMs: int)
    ensures var r := UpdateEffects(status, metrics, output, error, endTime, nowMs);
      (TruthyText(status) <==> |r| > 0 && r[0].SetTerminated?) &&
      (TruthyText(status) ==> r[0] == SetTerminated(TerminalStatus(status.value), if endTime then Some(nowMs) else None)) &&
      (RecomputeConfidence in r <==> status.Some? && status.value in {"success", "failed"}) &&
      (RecomputeConfidence in r ==> r[|r| - 1] == RecomputeConfidence) &&
      (forall i :: 0 <= i < |metrics| ==> LogMetric(metrics[i].0, metrics[i].1) in r)
  {
    var t := Terminate(status, endTime, nowMs);
    var m := MetricEffects(metrics);
    var x := Texts(output, error);
    var c := if status.Some? && status.value in {"success", "failed"} then [RecomputeConfidence] else [];
    var r := t + m + x + c;
    assert r == UpdateEffects(status, metrics, output, error, endTime, nowMs);
    forall i | 0 <= i < |metrics| ensures LogMetric(metrics[i].0, metrics[i].1) in r {
      assert r[|t| + i] == m[i];
    }
    assert RecomputeConfidence !in t + m + x;
    if status.Some? && status.value in {"success", "failed"} {
      assert r[|r| - 1] == RecomputeConfidence;
    }
    if !TruthyText(status) && |r| > 0 {
      assert r[0] in m + x + c;
    }
  }

  /** `update_run` logs the response text and the error text exactly when each is non-empty. */
  lemma UpdateEffectsTexts(status: Option<string>, metrics: seq<(string, real)>, output: Option<string>,
                           error: Option<string>, endTime: bool, nowMs: int)
    ensures var r := UpdateEffects(status, metrics, output, error, endTime, nowMs);
      (output.Some? ==> (LogText(output.value, "llm_response.txt") in r <==> output.value != "")) &&
      (error.Some? ==> (LogText(error.value, "error.txt") in r <==> error.value != ""))
  {
    var t := Terminate(status, endTime, nowMs);
    var m := MetricEffects(metrics);
    var c := if status.Some? && status.value in {"success", "failed"} then [RecomputeConfidence] else [];
    assert forall e: Effect :: e in t + m + c ==> !e.LogText?;
  }

  /** `update_run`: the status, one write per metric, the texts, then the recomputation. */
  method UpdateRun(status: Option<string>, metrics: seq<(string, real)>, output: Option<string>,
                   error: Option<string>, endTime: bool, nowMs: int)
    returns (effects: seq<Effect>)
    ensures effects == UpdateEffects(status, metrics, output, error, endTime, nowMs)
  {
    effects := [];
    if TruthyText(status) {
      effects := [SetTerminated(TerminalStatus(status.value), if endTime then Some(nowMs) else None)];
    }
    assert effects == Terminate(status, endTime, nowMs);
    ghost var before := effects;
    for i := 0 to |metrics|
      invariant effects == before + MetricEffects(metrics[..i])
    {
      effects := effects + [LogMetric(metrics[i].0, metrics[i].1)];
      assert MetricEffects(metrics[..i + 1]) == MetricEffects(metrics[..i]) + [LogMetric(metrics[i].0, metrics[i].1)];
    }
    assert metrics[..|metrics|] == metrics;
    ghost var logged := effects;
    assert logged == Terminate(status, endTime, nowMs) + MetricEffects(metrics);
    if TruthyText(output) {
      effects := effects + [LogText(output.value, "llm_response.txt")];
    }
    if TruthyText(error) {
      effects := effects + [LogText(error.value, "error.txt")];
    }
    assert effects == logged + Texts(output, error);
    ghost var written := effects;
    ghost var recompute: seq<Effect> := [];
    if status.Some? && status.value in {"success", "failed"} {
      effects := effects + [RecomputeConfidence];
      recompute := [RecomputeConfidence];
    }
    assert effects == written + recompute;
  }

  /** An unknown status still terminates the run, as RUNNING, and triggers no recomputation. */
  lemma UnknownStatusRuns(status: string, metrics: seq<(string, real)>, output: Option<string>,
                          error: Option<string>, endTime: bool, nowMs: int)
    requires status != "" && StatusToMlflow(status).None?
    ensures UpdateEffects(Some(status), metrics, output, error, endTime, nowMs)[0].mlflowStatus == "RUNNING"
    ensures RecomputeConfidence !in UpdateEffects(Some(status), metrics, output, error, endTime, nowMs)
  {
  }

  // ---------------------------------------------------------------------------
  // _compute_and_log_confidence

  /** What the recomputation reads from a run and its artifacts. */
  datatype Signals = Signals(responseText: string, retrievalCount: int, parseSuccess: bool, status: string)

  /**
   * The signals: the response text (empty when missing), the retrieval count (1 when
   * the metric is 0 but a non-empty sources artifact exists), and parse success (also
   * when the metric is not 1 but a non-empty parsed forecast exists).
   */
  function SignalsOf(run: MlflowRun, responseText: Option<string>, sources: Option<Json>,
                     parsed: Option<Json>): (s: Signals)
    ensures s.status == MlflowToStatus(run.status)
    ensures responseText.Some? ==> s.responseText == responseText.value
    ensures responseText.None? ==> s.responseText == ""
    ensures Trunc(Get(run.metrics, "retrieval_count", 0.0)) != 0 ==>
      s.retrievalCount == Trunc(Get(run.metrics, "retrieval_count", 0.0))
    ensures Trunc(Get(run.metrics, "retrieval_count", 0.0)) == 0 ==>
      s.retrievalCount == (if sources.Some? && Truthy(sources.value) then 1 else 0)
    ensures s.parseSuccess <==>
      Trunc(Get(run.metrics, "parse_success", 0.0)) == 1 || (parsed.Some? && Truthy(parsed.value))
  {
    var metricCount := Trunc(Get(run.metrics, "retrieval_count", 0.0));
    var count := if metricCount == 0 && sources.Some? && Truthy(sources.value) then 1 else metricCount;
    var parsedOk := Trunc(Get(run.metrics, "parse_success", 0.0)) == 1 || (parsed.Some? && Truthy(parsed.value));
    Signals(if responseText.Some? then responseText.value else "", count, parsedOk, MlflowToStatus(run.status))
  }

  /** The artifact fallbacks never lower the score the run would get from its metrics alone. */
  lemma FallbacksNeverLower(run: MlflowRun, responseText: Option<string>, sources: Option<Json>, parsed: Option<Json>)
    ensures var bare := SignalsOf(run, responseText, None, None);
            var full := SignalsOf(run, responseText, sources, parsed);
            Confidence.SignalScore(bare.responseText, bare.retrievalCount, bare.parseSuccess) <=
            Confidence.SignalScore(full.responseText, full.retrievalCount, full.parseSuccess)
  {
    var bare := SignalsOf(run, responseText, None, None);
    var full := SignalsOf(run, responseText, sources, parsed);
    Confidence.SignalScoreMonotone(bare.responseText, bare.retrievalCount, bare.parseSuccess,
                                   full.responseText, full.retrievalCount, full.parseSuccess);
  }

  /**
   * `_compute_and_log_confidence`: the explanation computed from the run's signals,
   * and the writes that follow it: the score, as a fraction in [0, 1], as the
   * `confidence` metric, the label as the `confidence_label` tag, the components and
   * the explanation as JSON artifacts, then the alert evaluation of the run.
   */
  method ComputeAndLogConfidence(run: MlflowRun, responseText: Option<string>, sources: Option<Json>,
                                 parsed: Option<Json>)
    returns (r: Confidence.Explanation, effects: seq<Effect>)
    ensures var s := SignalsOf(run, responseText, sources, parsed);
      (s.status != "success" ==> r.score == 0 && r.scoreLabel == Confidence.Low) &&
      (s.status == "success" ==>
        r.score == Confidence.Min(Confidence.SignalScore(s.responseText, s.retrievalCount, s.parseSuccess), 100) &&
        r.scoreLabel == Confidence.LabelFor(r.score))
    ensures MlflowToStatus(run.status) != "success" ==> r.score == 0
    ensures effects == [LogMetric("confidence", r.score as real / 100.0),
                        SetTag("confidence_label", Confidence.LabelName(r.scoreLabel)),
                        LogDict("confidence_components.json"), LogDict("confidence_explanation.json"),
                        EvaluateAlerts]
    ensures 0.0 <= effects[0].value <= 1.0
    ensures effects[0].value < 0.5 <==> r.scoreLabel == Confidence.Low
  {
    var s := SignalsOf(run, responseText, sources, parsed);
    r := Confidence.ComputeConfidence(s.responseText, s.retrievalCount, s.parseSuccess, s.status);
    effects := [LogMetric("confidence", r.score as real / 100.0),
                SetTag("confidence_label", Confidence.LabelName(r.scoreLabel)),
                LogDict("confidence_components.json"), LogDict("confidence_explanation.json"),
                EvaluateAlerts];
  }
}
