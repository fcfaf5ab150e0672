/**
 * The state of the Replay Studio page (frontend/src/pages/ReplayStudio.tsx):
 * the stage editors and their overrides, the replay-from cursor that makes the
 * stages above it read-only, the request the Run button sends, the last result
 * and the save-to-library guards.
 *
 * Each handler is a method on the page's state; a mutation's reply is a separate
 * method, called when the server answers. The toasts, the query cache and the
 * rendering are not modelled; `JSON.parse` is a parameter and `trim` removes
 * JavaScript's whitespace.
 */
module ReplayStudioPage {
  import opened Common
  import opened Json
  import opened Strings

  /** The seven fields of `RunStageArtifacts`; the first five are also the fields of `ReplayOverrides`. */
  datatype Field = UserQuestion | RetrievedSources | KpiSummary | PromptPacket | LlmResponse | ParsedForecast | ParseError

  predicate Overridable(f: Field)
  {
    !f.ParsedForecast? && !f.ParseError?
  }

  /** The field each editable stage shows: stages 0 to 4 in the order of the stage list. */
  function StageField(stage: int): (f: Option<Field>)
    ensures f.Some? <==> 0 <= stage <= 4
    ensures f.Some? ==> Overridable(f.value)
  {
    match stage
    case 0 => Some(UserQuestion)
    case 1 => Some(RetrievedSources)
    case 2 => Some(KpiSummary)
    case 3 => Some(PromptPacket)
    case 4 => Some(LlmResponse)
    case _ => None
  }

  /** The editors of stages 1 and 2 hold JSON; the others hold text. */
  predicate JsonStage(stage: int)
  {
    stage == 1 || stage == 2
  }

  /** Stage ids run from 0 (user question) to 5 (parsed forecast). */
  const LastStage := 5

  /** The replay-from choices are the first five stages. */
  const LastReplayFrom := 4

  /** JavaScript truthiness of a JSON value: empty text, zero, false and null are false, arrays and objects true. */
  predicate JsTruthy(j: Json)
  {
    match j
    case JNull => false
    case JBool(b) => b
    case JNum(n) => n != 0.0
    case JStr(s) => s != ""
    case _ => true
  }

  /** `getStageValue`: the override if set, else the source run's value if set, else the empty text. */
  function Resolve(overrides: map<Field, Json>, original: Option<map<Field, Json>>, field: Field): (v: Json)
  {
    if field in overrides then overrides[field]
    else if original.Some? && field in original.value then original.value[field]
    else JStr("")
  }

  /** After setting one override, that field reads the new value and every other field reads what it did. */
  lemma ResolveAfterUpdate(overrides: map<Field, Json>, original: Option<map<Field, Json>>, f: Field, x: Json, g: Field)
    ensures Resolve(overrides[f := x], original, g) == if g == f then x else Resolve(overrides, original, g)
  {
  }

  /** Without overrides the editors show the source run, and an unset field shows as empty text. */
  lemma ResolveWithoutOverrides(original: map<Field, Json>, g: Field)
    ensures Resolve(map[], Some(original), g) == if g in original then original[g] else JStr("")
    ensures Resolve(map[], None, g) == JStr("")
  {
  }

  /** A stage is read-only when it lies above the replay-from cursor. */
  predicate ReadOnly(activeStage: int, replayFromStage: int)
  {
    activeStage < replayFromStage
  }

  /** Which pipeline parts the staged replay recomputes. */
  datatype ReplayOptions = ReplayOptions(recomputeRetrieval: bool, recomputeKpi: bool)

  /** The two bodies the Run button posts: the ad-hoc playground run and the staged replay. */
  datatype RunRequest =
    | PlaygroundRequest(sourceRunId: string, model: string, temperature: real, prompt: string)
    | StagedRequest(sourceRunId: string, replayFromStage: int, model: string, temperature: real,
                    overrides: map<Field, Json>, options: ReplayOptions)

  /** The body `createPrompt` posts. */
  datatype PromptRequest = PromptRequest(name: string, slug: string, template: Json, author: string, status: string)

  /** A property of the playground reply: `data.x`, undefined when absent or when the reply is not an object. */
  function Prop(data: Json, key: string): (v: Option<Json>)
    ensures v.Some? ==> data.JObj? && exists i :: 0 <= i < |data.fields| && data.fields[i] == (key, v.value)
  {
    if data.JObj? then Last(data.fields, key) else None
  }

  /** The last binding of `key`, as `JSON.parse` keeps the last of repeated keys. */
  function Last(fields: seq<(string, Json)>, key: string): (v: Option<Json>)
    ensures v.None? <==> forall i :: 0 <= i < |fields| ==> fields[i].0 != key
    ensures v.Some? ==> exists i :: 0 <= i < |fields| && fields[i] == (key, v.value)
  {
    if |fields| == 0 then None
    else if fields[|fields| - 1].0 == key then Some(fields[|fields| - 1].1)
    else
      var front := fields[..|fields| - 1];
      assert forall i :: 0 <= i < |front| ==> front[i] == fields[i];
      Last(front, key)
  }

  /** The result panel's content: the staged reply as it came, or the playground reply normalised to its shape. */
  datatype LastResult =
    | StagedResult(data: Json)
    | PlaygroundResult(newRunId: Option<Json>, outputText: Option<Json>, latencyMs: Option<Json>,
                       costUsd: Option<Json>, confidence: Option<Json>, parseSuccess: int)

  /** The playground reply with the fields the panel reads; parse success is always 0. */
  function Normalized(data: Json): (r: LastResult)
    ensures r.PlaygroundResult? && r.parseSuccess == 0
    ensures r.newRunId == Prop(data, "new_run_id") && r.outputText == Prop(data, "output_text")
    ensures r.latencyMs == Prop(data, "latency_ms") && r.costUsd == Prop(data, "cost_usd")
    ensures r.confidence == Prop(data, "confidence")
  {
    PlaygroundResult(Prop(data, "new_run_id"), Prop(data, "output_text"), Prop(data, "latency_ms"),
                     Prop(data, "cost_usd"), Prop(data, "confidence"), 0)
  }

  /** What the stages endpoint returns for the source run, with the fields the page copies. */
  datatype SourceData = SourceData(model: string, temperature: real, stages: map<Field, Json>)

  /** The page's state. `sourceRunId` is the query parameter; without it (or with it empty) the page is the playground. */
  class ReplayStudio {
    const sourceRunId: Option<string>
    var activeStage: int
    var replayFromStage: int
    var prompt: string
    var isSaveOpen: bool
    var saveName: string
    var saveSlug: string
    var model: string
    var temperature: real
    var recomputeRetrieval: bool
    var recomputeKpi: bool
    var originalStages: Option<map<Field, Json>>
    var overrides: map<Field, Json>
    var lastResult: Option<LastResult>
    var playgroundPending: bool
    var replayPending: bool
    var savePending: bool

    /** The cursors stay on real stages and only override fields are ever overridden. */
    predicate Valid()
      reads this
    {
      0 <= activeStage <= LastStage && 0 <= replayFromStage <= LastReplayFrom &&
      forall f :: f in overrides ==> Overridable(f)
    }

    predicate IsPlayground()
      reads this
    {
      !TruthyText(sourceRunId)
    }

    /** `isPending`: either run mutation is in flight. */
    predicate IsPending()
      reads this
    {
      playgroundPending || replayPending
    }

    /** `isReadOnly` of the editor on screen. */
    predicate IsReadOnly()
      reads this
    {
      ReadOnly(activeStage, replayFromStage)
    }

    constructor(sourceRunId: Option<string>)
      ensures Valid() && this.sourceRunId == sourceRunId
      ensures activeStage == 0 && replayFromStage == 0 && prompt == "" && overrides == map[]
      ensures model == "gpt-4-turbo" && temperature == 0.7 && !recomputeRetrieval && !recomputeKpi
      ensures originalStages == None && lastResult == None && !IsPending() && !savePending
      ensures !isSaveOpen && saveName == "" && saveSlug == ""
    {
      this.sourceRunId := sourceRunId;
      activeStage := 0;
      replayFromStage := 0;
      prompt := "";
      isSaveOpen := false;
      saveName := "";
      saveSlug := "";
      model := "gpt-4-turbo";
      temperature := 0.7;
      recomputeRetrieval := false;
      recomputeKpi := false;
      originalStages := None;
      overrides := map[];
      lastResult := None;
      playgroundPending := false;
      replayPending := false;
      savePending := false;
    }

    /** The effect on the loaded source run: its stages, its model (a default when empty) and its temperature. */
    method SourceLoaded(data: SourceData)
      requires Valid()
      modifies this
      ensures Valid()
      ensures originalStages == Some(data.stages) && temperature == data.temperature
      ensures model == (if data.model != "" then data.model else "gpt-4-turbo")
      ensures overrides == old(overrides) && activeStage == old(activeStage) && replayFromStage == old(replayFromStage)
      ensures lastResult == old(lastResult)
    {
      originalStages := Some(data.stages);
      model := if data.model != "" then data.model else "gpt-4-turbo";
      temperature := data.temperature;
    }

    /** `getStageValue`. */
    function StageValue(field: Field): (v: Json)
      reads this
      ensures v == Resolve(overrides, originalStages, field)
    {
      Resolve(overrides, originalStages, field)
    }

    /** `updateOverride`: sets one override and leaves the others as they were. */
    method UpdateOverride(field: Field, value: Json)
      requires Valid() && Overridable(field)
      modifies this
      ensures Valid()
      ensures overrides == old(overrides)[field := value]
      ensures forall g :: g != field ==> StageValue(g) == old(StageValue(g))
      ensures StageValue(field) == value
      ensures activeStage == old(activeStage) && replayFromStage == old(replayFromStage)
      ensures originalStages == old(originalStages) && lastResult == old(lastResult)
    {
      forall g ensures Resolve(overrides[field := value], originalStages, g) ==
                       if g == field then value else Resolve(overrides, originalStages, g) {
        ResolveAfterUpdate(overrides, originalStages, field, value, g);
      }
      overrides := overrides[field := value];
    }

    /**
     * A change in the editor on screen. The editors above the cursor are disabled and
     * accept nothing; the JSON editors keep the old override when the text does not parse.
     */
    method EditStage(text: string, parse: string -> Option<Json>)
      requires Valid() && !IsPlayground()
      modifies this
      ensures Valid()
      ensures IsReadOnly() || StageField(activeStage).None? ==> overrides == old(overrides)
      ensures !IsReadOnly() && StageField(activeStage).Some? && !JsonStage(activeStage) ==>
        overrides == old(overrides)[StageField(activeStage).value := JStr(text)]
      ensures !IsReadOnly() && JsonStage(activeStage) ==>
        overrides == if parse(text).Some? then old(overrides)[StageField(activeStage).value := parse(text).value]
                     else old(overrides)
      ensures activeStage == old(activeStage) && replayFromStage == old(replayFromStage)
      ensures lastResult == old(lastResult) && originalStages == old(originalStages)
    {
      if IsReadOnly() {
        return;
      }
      var field := StageField(activeStage);
      if field.None? {
        return;
      }
      if JsonStage(activeStage) {
        var parsed := parse(text);
        if parsed.Some? {
          UpdateOverride(field.value, parsed.value);
        }
      } else {
        UpdateOverride(field.value, JStr(text));
      }
    }

    /** The playground prompt's text area. */
    method EditPrompt(text: string)
      requires Valid()
      modifies this
      ensures Valid() && prompt == text
      ensures overrides == old(overrides) && activeStage == old(activeStage) && replayFromStage == old(replayFromStage)
    {
      prompt := text;
    }

    /** A click in the stage list shows that stage. */
    method SelectStage(stage: int)
      requires Valid() && 0 <= stage <= LastStage
      modifies this
      ensures Valid() && activeStage == stage && replayFromStage == old(replayFromStage)
      ensures overrides == old(overrides)
    {
      activeStage := stage;
    }

    /** The replay-from choice also shows the chosen stage, which is then editable. */
    method SelectReplayFrom(stage: int)
      requires Valid() && 0 <= stage <= LastReplayFrom
      modifies this
      ensures Valid() && replayFromStage == stage && activeStage == stage && !IsReadOnly()
      ensures forall s :: 0 <= s <= LastStage ==> (ReadOnly(s, replayFromStage) <==> s < stage)
      ensures overrides == old(overrides) && lastResult == old(lastResult)
    {
      replayFromStage := stage;
      activeStage := stage;
    }

    /** The two recompute switches. */
    method SetRecompute(retrieval: bool, kpi: bool)
      requires Valid()
      modifies this
      ensures Valid() && recomputeRetrieval == retrieval && recomputeKpi == kpi
      ensures overrides == old(overrides) && replayFromStage == old(replayFromStage)
    {
      recomputeRetrieval := retrieval;
      recomputeKpi := kpi;
    }

    /**
     * A click on Run, which is disabled while a run is pending. The playground rejects a
     * blank prompt and sends the trimmed one; a replay sends the cursor, the model, the
     * temperature, every override (those above the cursor too) and both switches, shown
     * or not. Sending marks that mutation pending.
     */
    method HandleRun() returns (request: Option<RunRequest>)
      requires Valid()
      modifies this
      ensures Valid()
      ensures old(IsPending()) ==> request.None? && IsPending()
      ensures !old(IsPending()) && IsPlayground() ==>
        request == (if forall i :: 0 <= i < |prompt| ==> prompt[i] in JsWhitespace then None
                    else Some(PlaygroundRequest("playground", model, temperature, Trim(prompt, JsWhitespace))))
      ensures !old(IsPending()) && !IsPlayground() ==>
        request == Some(StagedRequest(sourceRunId.value, replayFromStage, model, temperature, overrides,
                                      ReplayOptions(recomputeRetrieval, recomputeKpi)))
      ensures request.Some? ==> IsPending()
      ensures request.Some? && request.value.PlaygroundRequest? ==> playgroundPending && replayPending == old(replayPending)
      ensures request.Some? && request.value.StagedRequest? ==> replayPending && playgroundPending == old(playgroundPending)
      ensures request.None? ==> playgroundPending == old(playgroundPending) && replayPending == old(replayPending)
      ensures overrides == old(overrides) && lastResult == old(lastResult) && prompt == old(prompt)
      ensures activeStage == old(activeStage) && replayFromStage == old(replayFromStage)
    {
      if IsPending() {
        return None;
      }
      if IsPlayground() {
        if Trim(prompt, JsWhitespace) == "" {
          return None;
        }
        playgroundPending := true;
        return Some(PlaygroundRequest("playground", model, temperature, Trim(prompt, JsWhitespace)));
      }
      replayPending := true;
      return Some(StagedRequest(sourceRunId.value, replayFromStage, model, temperature, overrides,
                                ReplayOptions(recomputeRetrieval, recomputeKpi)));
    }

    /** The staged replay's reply replaces the last result wholesale. */
    method ReplaySucceeded(data: Json)
      requires Valid()
      modifies this
      ensures Valid() && lastResult == Some(StagedResult(data)) && !replayPending
      ensures playgroundPending == old(playgroundPending) && overrides == old(overrides)
    {
      lastResult := Some(StagedResult(data));
      replayPending := false;
    }

    /** The playground reply, normalised, replaces the last result wholesale. */
    method PlaygroundSucceeded(data: Json)
      requires Valid()
      modifies this
      ensures Valid() && lastResult == Some(Normalized(data)) && !playgroundPending
      ensures replayPending == old(replayPending) && overrides == old(overrides)
    {
      lastResult := Some(Normalized(data));
      playgroundPending := false;
    }

    /** A failed run only ends the pending state: the last result stays. */
    method RunFailed(staged: bool)
      requires Valid()
      modifies this
      ensures Valid() && lastResult == old(lastResult) && overrides == old(overrides)
      ensures staged ==> !replayPending && playgroundPending == old(playgroundPending)
      ensures !staged ==> !playgroundPending && replayPending == old(replayPending)
    {
      if staged {
        replayPending := false;
      } else {
        playgroundPending := false;
      }
    }

    /** The save dialog's two inputs, and opening or closing it. */
    method EditSaveDialog(open: bool, name: string, slug: string)
      requires Valid()
      modifies this
      ensures Valid() && isSaveOpen == open && saveName == name && saveSlug == slug
      ensures overrides == old(overrides) && lastResult == old(lastResult)
    {
      isSaveOpen := open;
      saveName := name;
      saveSlug := slug;
    }

    /**
     * `handleSavePrompt`, whose button is disabled while a save is pending: the template
     * is the playground prompt, or the prompt packet on the prompt stage; any other stage,
     * or an empty template, sends nothing.
     */
    method HandleSavePrompt() returns (request: Option<PromptRequest>)
      requires Valid()
      modifies this
      ensures Valid()
      ensures old(savePending) ==> request.None? && savePending
      ensures !old(savePending) && IsPlayground() ==>
        request == (if prompt != "" then Some(PromptRequest(saveName, saveSlug, JStr(prompt), "User", "dev")) else None)
      ensures !old(savePending) && !IsPlayground() && activeStage != 3 ==> request.None?
      ensures !old(savePending) && !IsPlayground() && activeStage == 3 ==>
        request == (if JsTruthy(StageValue(PromptPacket))
                    then Some(PromptRequest(saveName, saveSlug, StageValue(PromptPacket), "User", "dev")) else None)
      ensures savePending == (old(savePending) || request.Some?)
      ensures overrides == old(overrides) && lastResult == old(lastResult) && isSaveOpen == old(isSaveOpen)
      ensures saveName == old(saveName) && saveSlug == old(saveSlug) && activeStage == old(activeStage)
    {
      if savePending {
        return None;
      }
      var template: Json;
      if IsPlayground() {
        template := JStr(prompt);
      } else if activeStage == 3 {
        template := StageValue(PromptPacket);
      } else {
        return None;
      }
      if !JsTruthy(template) {
        return None;
      }
      savePending := true;
      return Some(PromptRequest(saveName, saveSlug, template, "User", "dev"));
    }

    /** A saved prompt closes the dialog and clears its inputs. */
    method SaveSucceeded()
      requires Valid()
      modifies this
      ensures Valid() && !isSaveOpen && saveName == "" && saveSlug == "" && !savePending
      ensures overrides == old(overrides) && lastResult == old(lastResult) && prompt == old(prompt)
    {
      isSaveOpen := false;
      saveName := "";
      saveSlug := "";
      savePending := false;
    }

    /** A failed save leaves the dialog as it was. */
    method SaveFailed()
      requires Valid()
      modifies this
      ensures Valid() && !savePending && isSaveOpen == old(isSaveOpen)
      ensures saveName == old(saveName) && saveSlug == old(saveSlug) && overrides == old(overrides)
    {
      savePending := false;
    }
  }
}
