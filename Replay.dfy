/**
 * Replaying a run (fulcrum-llm-ops/backend/app/api/replay.py): the stage artifacts
 * a run offers the Replay Studio, and the staged replay that merges the user's
 * overrides, re-runs the guarded LLM call only when replaying from stage 3 or
 * earlier, parses the response and scores it with a keyword heuristic.
 *
 * Everything outside the function is a parameter (`Env`): the two guard checks,
 * whether a real model is called and what it answers, the mock latency, JSON
 * decoding and the id the store gives the logged run.
 */
module Replay {
  import opened Common
  import opened Strings
  import opened Json
  import opened BackendGuardrails
  import MlflowStore

  // ---------------------------------------------------------------------------
  // Stages

  /** The artifacts of the replayable stages; `None` where the run has none. */
  datatype Stages = Stages(
    userQuestion: Option<string>,
    retrievedSources: Option<seq<Json>>,
    kpiSummary: Option<Json>,
    promptPacket: Option<string>,
    llmResponse: Option<string>,
    parsedForecast: Option<Json>,
    parseError: Option<Json>)

  /** The artifacts the store finds for a run. */
  datatype StoredArtifacts = StoredArtifacts(
    retrievedSources: Option<seq<Json>>,
    kpiSummary: Option<Json>,
    promptPacket: Option<string>,
    llmResponse: Option<string>,
    parsedForecast: Option<Json>,
    parseError: Option<Json>)

  /** A run as `get_run` returns it, for the fields the stages response reads. */
  datatype SourceRun = SourceRun(
    params: map<string, string>,
    confidence: Option<real>,
    confidenceLabel: Option<string>,
    confidenceComponents: Option<seq<(string, real)>>)

  datatype RunStages = RunStages(
    runId: string,
    model: string,
    temperature: real,
    confidence: Option<real>,
    confidenceLabel: Option<string>,
    confidenceComponents: Option<seq<(string, real)>>,
    stages: Stages)

  /** `float(params.get("temperature", 0.7))`, falling back to 0.7 when the text does not parse. */
  function Temperature(params: map<string, string>, parseFloat: string -> Option<real>): (t: real)
    ensures "temperature" !in params ==> t == 0.7
    ensures "temperature" in params && parseFloat(params["temperature"]).None? ==> t == 0.7
    ensures "temperature" in params && parseFloat(params["temperature"]).Some? ==>
      t == parseFloat(params["temperature"]).value
  {
    if "temperature" !in params then 0.7
    else match parseFloat(params["temperature"])
      case Some(v) => v
      case None => 0.7
  }

  /**
   * `get_run_stages`: 404 for a run the store does not have; otherwise the params'
   * question (empty when missing), model ("unknown" when missing) and temperature,
   * and the stored artifacts as they are.
   */
  function GetRunStages(runId: string, found: Option<SourceRun>, artifacts: StoredArtifacts,
                        parseFloat: string -> Option<real>): (r: Result<RunStages, HttpError>)
    ensures found.None? <==> r.Err?
    ensures r.Err? ==> r.error == HttpError(404, "Run not found")
    ensures r.Ok? ==>
      r.value.runId == runId &&
      r.value.model == MlflowStore.Get(found.value.params, "model", "unknown") &&
      r.value.temperature == Temperature(found.value.params, parseFloat) &&
      r.value.confidence == found.value.confidence &&
      r.value.confidenceLabel == found.value.confidenceLabel &&
      r.value.confidenceComponents == found.value.confidenceComponents
    ensures r.Ok? ==>
      r.value.stages.userQuestion == Some(MlflowStore.Get(found.value.params, "user_question", "")) &&
      r.value.stages.retrievedSources == artifacts.retrievedSources &&
      r.value.stages.kpiSummary == artifacts.kpiSummary &&
      r.value.stages.promptPacket == artifacts.promptPacket &&
      r.value.stages.llmResponse == artifacts.llmResponse &&
      r.value.stages.parsedForecast == artifacts.parsedForecast &&
      r.value.stages.parseError == artifacts.parseError
  {
    match found
    case None => Err(HttpError(404, "Run not found"))
    case Some(run) =>
      var stages := Stages(
        Some(MlflowStore.Get(run.params, "user_question", "")),
        artifacts.retrievedSources, artifacts.kpiSummary, artifacts.promptPacket,
        artifacts.llmResponse, artifacts.parsedForecast, artifacts.parseError);
      Ok(RunStages(runId, MlflowStore.Get(run.params, "model", "unknown"), Temperature(run.params, parseFloat),
                   run.confidence, run.confidenceLabel, run.confidenceComponents, stages))
  }

  // ---------------------------------------------------------------------------
  // Overrides

  datatype Overrides = Overrides(
    userQuestion: Option<string>,
    retrievedSources: Option<seq<Json>>,
    kpiSummary: Option<Json>,
    promptPacket: Option<string>,
    llmResponse: Option<string>)

  const NoOverrides := Overrides(None, None, None, None, None)

  /**
   * The override merge: exactly the overridable fields that have an override change;
   * the parsed forecast and the parse error are never overridden.
   */
  function ApplyOverrides(s: Stages, o: Overrides): (r: Stages)
    ensures r.userQuestion == (if o.userQuestion.Some? then o.userQuestion else s.userQuestion)
    ensures r.retrievedSources == (if o.retrievedSources.Some? then o.retrievedSources else s.retrievedSources)
    ensures r.kpiSummary == (if o.kpiSummary.Some? then o.kpiSummary else s.kpiSummary)
    ensures r.promptPacket == (if o.promptPacket.Some? then o.promptPacket else s.promptPacket)
    ensures r.llmResponse == (if o.llmResponse.Some? then o.llmResponse else s.llmResponse)
    ensures r.parsedForecast == s.parsedForecast && r.parseError == s.parseError
  {
    var s1 := if o.userQuestion.Some? then s.(userQuestion := o.userQuestion) else s;
    var s2 := if o.retrievedSources.Some? then s1.(retrievedSources := o.retrievedSources) else s1;
    var s3 := if o.kpiSummary.Some? then s2.(kpiSummary := o.kpiSummary) else s2;
    var s4 := if o.promptPacket.Some? then s3.(promptPacket := o.promptPacket) else s3;
    if o.llmResponse.Some? then s4.(llmResponse := o.llmResponse) else s4
  }

  /** No overrides leave the stages as they are; applying the same overrides twice changes nothing more. */
  lemma OverridesIdentityAndIdempotent(s: Stages, o: Overrides)
    ensures ApplyOverrides(s, NoOverrides) == s
    ensures ApplyOverrides(ApplyOverrides(s, o), o) == ApplyOverrides(s, o)
  {
  }

  // ---------------------------------------------------------------------------
  // Guard checks

  /** `x.failed and x.metadata.get("guardrails_ai") == "failed"`: the check that blocks a replay. */
  predicate GuardBlocks(v: ValidationResult)
  {
    Failed(v) && v.metadata == GuardrailsAi("failed")
  }

  /** An f-string of an optional text: `None` prints as "None". */
  function Shown(s: Option<string>): (r: string)
    ensures s.Some? ==> r == s.value
    ensures s.None? ==> r == "None"
  {
    if s.Some? then s.value else "None"
  }

  /**
   * The output check on a response: the validated text replaces it when non-empty,
   * and a failed check appends a warning with the failure message.
   */
  function OutputChecked(text: string, v: ValidationResult): (r: string)
    ensures Failed(v) ==> EndsWith(r, "\n[GUARDRAILS WARNING]: " + Shown(v.failureMessage))
    ensures !Failed(v) ==> r == OrElse(v.validatedText, text)
    ensures StartsWith(r, OrElse(v.validatedText, text))
  {
    var base := OrElse(v.validatedText, text);
    if Failed(v) then base + "\n[GUARDRAILS WARNING]: " + Shown(v.failureMessage) else base
  }

  // ---------------------------------------------------------------------------
  // Stage 4: the LLM call

  datatype LlmReply = LlmReply(text: string, latencyMs: int)

  /** The world outside the handler. */
  datatype Env = Env(
    validateInput: string -> ValidationResult,
    validateOutput: string -> ValidationResult,
    apiKey: Option<string>,
    llm: string -> Result<LlmReply, string>,
    mockLatency: int,
    decode: string -> Result<Json, string>,
    newRunId: string)

  const MockResponse: string :=
    "Based on the new inputs, the forecast remains strong. Enterprise deals are accelerating.\n" +
    "```json\n{\n  \"forecast_adjustment\": \"+15%\",\n  \"primary_driver\": \"Replay Success\",\n" +
    "  \"risk_factor\": \"None\"\n}\n```"

  /** The outcome of stage 4: the response, its latency and cost, and the error a failed call records. */
  datatype LlmCall = LlmCall(text: string, latency: real, cost: real, error: Option<Json>)

  /** `{"error": str(e)}`. */
  function ErrorObject(message: string): Json
  {
    JObj([("error", JStr(message))])
  }

  /** `api_key and req.model != "mock-llm"`: the model is called only with a non-empty key and a real model name. */
  predicate UsesRealLlm(apiKey: Option<string>, model: string)
  {
    TruthyText(apiKey) && model != "mock-llm"
  }

  /**
   * The real call costs 0.001 per thousand characters of prompt and response; a
   * failing call answers with the error and costs nothing; the mock costs 0.002.
   */
  function CallLlm(prompt: string, model: string, env: Env): (c: LlmCall)
    ensures UsesRealLlm(env.apiKey, model) && env.llm(prompt).Ok? ==>
      c.text == env.llm(prompt).value.text && c.error.None? &&
      c.cost == 0.001 * ((|prompt| + |env.llm(prompt).value.text|) as real) / 1000.0
    ensures UsesRealLlm(env.apiKey, model) && env.llm(prompt).Err? ==>
      c == LlmCall("Error calling LLM: " + env.llm(prompt).error, 0.0, 0.0, Some(ErrorObject(env.llm(prompt).error)))
    ensures !UsesRealLlm(env.apiKey, model) ==> c == LlmCall(MockResponse, env.mockLatency as real, 0.002, None)
    ensures c.cost >= 0.0
  {
    if UsesRealLlm(env.apiKey, model) then
      match env.llm(prompt)
      case Ok(reply) =>
        LlmCall(reply.text, reply.latencyMs as real, 0.001 * ((|prompt| + |reply.text|) as real) / 1000.0, None)
      case Err(e) => LlmCall("Error calling LLM: " + e, 0.0, 0.0, Some(ErrorObject(e)))
    else LlmCall(MockResponse, env.mockLatency as real, 0.002, None)
  }

  // ---------------------------------------------------------------------------
  // Stage 5: parsing

  /**
   * The group of the first match of ```` ```json\s*([\s\S]*?)\s*``` ```` : the text
   * between the first "```json" and the next "```", without surrounding whitespace.
   * When the first opening fence has no closing one, no later opening fence has one
   * either (it would itself close the first), so there is no match.
   */
  function FencedJson(text: string): (g: Option<string>)
    ensures g.Some? ==> Contains(text, "```json") && Trimmed(g.value, PyWhitespace)
    ensures !Contains(text, "```json") ==> g.None?
  {
    match Find(text, "```json")
    case None => None
    case Some(i) =>
      match FindFrom(text, "```", i + 7)
      case None => None
      case Some(k) => ContainsAt(text, "```json", i); Some(Trim(text[i + 7..k], PyWhitespace))
  }

  /** A decoded object is wrapped into a one-element list; JSON `null` is Python's `None`. */
  function Wrapped(j: Json): (r: Option<Json>)
    ensures j.JObj? ==> r == Some(JArr([j]))
    ensures j.JNull? ==> r.None?
    ensures !j.JObj? && !j.JNull? ==> r == Some(j)
  {
    if j.JNull? then None else if j.JObj? then Some(JArr([j])) else Some(j)
  }

  datatype Parsed = Parsed(forecast: Option<Json>, success: bool, error: Option<Json>)

  /**
   * The parse stage: the fenced block when there is one (a decoding error is recorded),
   * otherwise the whole response (a decoding error is ignored).
   */
  function Parse(text: string, decode: string -> Result<Json, string>): (p: Parsed)
    ensures p.success <==>
      (FencedJson(text).Some? && decode(FencedJson(text).value).Ok?) ||
      (FencedJson(text).None? && decode(text).Ok?)
    ensures !p.success ==> p.forecast.None?
    ensures p.error.Some? <==> FencedJson(text).Some? && decode(FencedJson(text).value).Err?
    ensures p.forecast.Some? && p.forecast.value.JArr? && FencedJson(text).Some? ==>
      decode(FencedJson(text).value).Ok? &&
      (decode(FencedJson(text).value).value.JArr? || decode(FencedJson(text).value).value.JObj?)
    ensures p.success && FencedJson(text).Some? ==> p.forecast == Wrapped(decode(FencedJson(text).value).value)
    ensures p.success && FencedJson(text).None? ==> p.forecast == Wrapped(decode(text).value)
  {
    match FencedJson(text)
    case Some(g) =>
      (match decode(g)
       case Ok(j) => Parsed(Wrapped(j), true, None)
       case Err(e) => Parsed(None, false, Some(ErrorObject(e))))
    case None =>
      (match decode(text)
       case Ok(j) => Parsed(Wrapped(j), true, None)
       case Err(_) => Parsed(None, false, None))
  }

  // ---------------------------------------------------------------------------
  // The confidence heuristic

  /** The reference score: 0.35 for a parse, 0.20 for three sources, 0.15 per keyword or bullet, at most 1. */
  function HeuristicScore(parseSuccess: bool, retrievalCount: nat, text: string): (h: real)
    ensures 0.0 <= h <= 1.0
    ensures h == 0.0 <==>
      (!parseSuccess && retrievalCount < 3 && !Contains(Lower(text), "assumption") &&
       !Contains(Lower(text), "risk") && !Contains(text, "- ") && !Contains(text, "* "))
    ensures h == 1.0 <==>
      (parseSuccess && retrievalCount >= 3 && Contains(Lower(text), "assumption") &&
       Contains(Lower(text), "risk") && (Contains(text, "- ") || Contains(text, "* ")))
  {
    var sum := (if parseSuccess then 0.35 else 0.0) + (if retrievalCount >= 3 then 0.20 else 0.0)
             + (if Contains(Lower(text), "assumption") then 0.15 else 0.0)
             + (if Contains(Lower(text), "risk") then 0.15 else 0.0)
             + (if Contains(text, "- ") || Contains(text, "* ") then 0.15 else 0.0);
    if sum <= 1.0 then sum else 1.0
  }

  /** The heuristic as the handler accumulates it. */
  method ConfidenceHeuristic(parseSuccess: bool, retrievalCount: nat, text: string) returns (h: real)
    ensures h == HeuristicScore(parseSuccess, retrievalCount, text)
    ensures 0.0 <= h <= 1.0
    ensures (parseSuccess && retrievalCount >= 3 && Contains(Lower(text), "assumption") &&
             Contains(Lower(text), "risk") && (Contains(text, "- ") || Contains(text, "* "))) ==> h == 1.0
  {
    h := 0.0;
    if parseSuccess {
      h := h + 0.35;
    }
    if retrievalCount >= 3 {
      h := h + 0.20;
    }
    var lower := Lower(text);
    if Contains(lower, "assumption") {
      h := h + 0.15;
    }
    if Contains(lower, "risk") {
      h := h + 0.15;
    }
    if Contains(text, "- ") || Contains(text, "* ") {
      h := h + 0.15;
    }
    h := if 1.0 <= h then 1.0 else h;
  }

  /** Each signal can only raise the heuristic. */
  lemma HeuristicMonotone(p1: bool, n1: nat, p2: bool, n2: nat, text: string)
    requires p1 ==> p2
    requires n1 <= n2
    ensures HeuristicScore(p1, n1, text) <= HeuristicScore(p2, n2, text)
  {
  }

  // ---------------------------------------------------------------------------
  // The staged replay

  datatype StagedRequest = StagedRequest(
    sourceRunId: string,
    replayFromStage: int,
    overrides: Overrides,
    recomputeRetrieval: bool,
    recomputeKpi: bool,
    model: string,
    temperature: real)

  /** The response; `logged` holds the stages of the new run, `None` when the replay was blocked. */
  datatype StagedOutcome = StagedOutcome(
    newRunId: string,
    outputText: Option<string>,
    parsedForecast: Option<Json>,
    metrics: seq<(string, real)>,
    logged: Option<Stages>)

  const MetricKeys: seq<string> :=
    ["latency_ms", "cost_usd", "confidence", "parse_success", "retrieval_count", "prompt_length_chars"]

  function Keys(metrics: seq<(string, real)>): (r: seq<string>)
    ensures |r| == |metrics|
    ensures forall i :: 0 <= i < |metrics| ==> r[i] == metrics[i].0
  {
    seq(|metrics|, i requires 0 <= i < |metrics| => metrics[i].0)
  }

  /** The metrics of a replayed run, and nothing else. */
  function ReplayMetrics(latency: real, cost: real, confidence: real, parseSuccess: bool,
                         retrievalCount: nat, promptLength: nat): (m: seq<(string, real)>)
    ensures Keys(m) == MetricKeys
    ensures m[0].1 == latency && m[1].1 == cost
    ensures m[2].1 == confidence && m[3].1 == (if parseSuccess then 1.0 else 0.0)
    ensures m[4].1 == retrievalCount as real && m[5].1 == promptLength as real
  {
    [("latency_ms", latency), ("cost_usd", cost), ("confidence", confidence),
     ("parse_success", if parseSuccess then 1.0 else 0.0), ("retrieval_count", retrievalCount as real),
     ("prompt_length_chars", promptLength as real)]
  }

  /** `len(sources)` when the sources are present and non-empty, else 0. */
  function RetrievalCount(sources: Option<seq<Json>>): nat
  {
    if sources.Some? then |sources.value| else 0
  }

  function Blocked(message: Option<string>): StagedOutcome
  {
    StagedOutcome("blocked", Some("Guardrails Block: " + Shown(message)), None, [("blocked", 1.0)], None)
  }

  /**
   * `create_staged_replay`. From stage 3 or earlier the (guard-fixed) prompt is checked
   * and, unless blocked, sent to the model and the response checked; from stage 4 on
   * the response is the source's or its override, and a run without one fails as the
   * handler's `.lower()` on `None` does (500). Then the response is parsed and scored.
   */
  method CreateStagedReplay(req: StagedRequest, source: Result<RunStages, HttpError>, env: Env)
    returns (r: Result<StagedOutcome, HttpError>)
    ensures source.Err? ==> r == Err(source.error)
    ensures source.Ok? ==>
      var merged := ApplyOverrides(source.value.stages, req.overrides);
      var check := env.validateInput(OrElse(merged.promptPacket, ""));
      ((r.Ok? && r.value.logged.None?) <==> req.replayFromStage <= 3 && GuardBlocks(check)) &&
      (req.replayFromStage <= 3 && GuardBlocks(check) ==> r == Ok(Blocked(check.failureMessage))) &&
      (req.replayFromStage <= 3 ==> r.Ok?) &&
      (req.replayFromStage > 3 ==> (r.Err? <==> merged.llmResponse.None?)) &&
      (req.replayFromStage > 3 && r.Ok? ==>
         r.value.logged.Some? && r.value.logged.value.llmResponse == merged.llmResponse &&
         r.value.logged.value.promptPacket == merged.promptPacket)
    ensures source.Ok? && req.replayFromStage <= 3 && r.Ok? && r.value.logged.Some? ==>
      var merged := ApplyOverrides(source.value.stages, req.overrides);
      var check := env.validateInput(OrElse(merged.promptPacket, ""));
      var prompt := if TruthyText(check.validatedText) then check.validatedText else merged.promptPacket;
      var call := CallLlm(OrElse(prompt, ""), req.model, env);
      r.value.logged.value.promptPacket == prompt &&
      r.value.logged.value.llmResponse == Some(OutputChecked(call.text, env.validateOutput(call.text)))
    ensures r.Ok? && r.value.logged.Some? ==>
      var st := r.value.logged.value;
      var merged := ApplyOverrides(source.value.stages, req.overrides);
      st.llmResponse.Some? && r.value.outputText == st.llmResponse &&
      st.userQuestion == merged.userQuestion && st.retrievedSources == merged.retrievedSources &&
      st.kpiSummary == merged.kpiSummary &&
      var p := Parse(st.llmResponse.value, env.decode);
      st.parsedForecast == p.forecast && st.parseError == p.error && r.value.parsedForecast == p.forecast &&
      r.value.newRunId == env.newRunId &&
      Keys(r.value.metrics) == MetricKeys &&
      r.value.metrics[2].1 == HeuristicScore(p.success, RetrievalCount(st.retrievedSources), st.llmResponse.value)
    ensures source.Ok? && r.Ok? && r.value.logged.Some? && r.value.logged.value.llmResponse.Some? ==>
      var st := r.value.logged.value;
      var merged := ApplyOverrides(source.value.stages, req.overrides);
      var check := env.validateInput(OrElse(merged.promptPacket, ""));
      var prompt := if TruthyText(check.validatedText) then check.validatedText else merged.promptPacket;
      var call := CallLlm(OrElse(prompt, ""), req.model, env);
      var p := Parse(st.llmResponse.value, env.decode);
      r.value.metrics == ReplayMetrics(
        if req.replayFromStage <= 3 then call.latency else 0.0,
        if req.replayFromStage <= 3 then call.cost else 0.0,
        HeuristicScore(p.success, RetrievalCount(st.retrievedSources), st.llmResponse.value),
        p.success, RetrievalCount(st.retrievedSources), |OrElse(st.promptPacket, "")|)
  {
    if source.Err? {
      return Err(source.error);
    }
    var stages := ApplyOverrides(source.value.stages, req.overrides);
    ghost var merged := stages;

    if req.replayFromStage <= 3 {
      var check := env.validateInput(OrElse(stages.promptPacket, ""));
      if GuardBlocks(check) {
        return Ok(Blocked(check.failureMessage));
      }
      if TruthyText(check.validatedText) {
        stages := stages.(promptPacket := check.validatedText);
      }
    }

    var latency := 0.0;
    var cost := 0.0;
    if req.replayFromStage <= 3 {
      var call := CallLlm(OrElse(stages.promptPacket, ""), req.model, env);
      latency, cost := call.latency, call.cost;
      stages := stages.(llmResponse := Some(call.text));
      if call.error.Some? {
        stages := stages.(parseError := call.error);
      }
      var outcome := env.validateOutput(call.text);
      stages := stages.(llmResponse := Some(OutputChecked(call.text, outcome)));
    }

    if stages.llmResponse.None? {
      return Err(HttpError(500, "Internal Server Error"));
    }
    var responseText := stages.llmResponse.value;
    var parsed := Parse(responseText, env.decode);
    stages := stages.(parsedForecast := parsed.forecast, parseError := parsed.error);

    var retrievalCount := RetrievalCount(stages.retrievedSources);
    var heuristic := ConfidenceHeuristic(parsed.success, retrievalCount, responseText);
    var metrics := ReplayMetrics(latency, cost, heuristic, parsed.success, retrievalCount,
                                 |OrElse(stages.promptPacket, "")|);
    r := Ok(StagedOutcome(env.newRunId, Some(responseText), parsed.forecast, metrics, Some(stages)));
  }

  // ---------------------------------------------------------------------------
  // The legacy replay

  datatype ReplayResponse = ReplayResponse(
    newRunId: string, latencyMs: real, costUsd: real, confidence: real, outputText: string, viewRunUrl: string)

  /**
   * The guard step of `create_replay`: a block when the input check failed with
   * guardrails_ai "failed" (zero metrics, link "#"); otherwise the prompt to send,
   * the validated text when it is non-empty.
   */
  function LegacyGuard(prompt: Option<string>, check: ValidationResult): (r: Result<string, ReplayResponse>)
    ensures r.Err? <==> GuardBlocks(check)
    ensures r.Err? ==> r.error == ReplayResponse("blocked", 0.0, 0.0, 0.0,
                                                 "Guardrails Violation: " + Shown(check.failureMessage), "#")
    ensures r.Ok? ==> r.value == OrElse(check.validatedText, OrElse(prompt, ""))
  {
    if GuardBlocks(check) then
      Err(ReplayResponse("blocked", 0.0, 0.0, 0.0, "Guardrails Violation: " + Shown(check.failureMessage), "#"))
    else Ok(OrElse(check.validatedText, OrElse(prompt, "")))
  }

  /** A passing input check never blocks either replay. */
  lemma PassingCheckNeverBlocks(prompt: Option<string>, check: ValidationResult)
    requires check.passed
    ensures LegacyGuard(prompt, check).Ok?
    ensures !GuardBlocks(check)
  {
  }
}
