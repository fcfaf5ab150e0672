/**
 * The sequential step pipeline of the app (app/pipeline/pipeline.py and
 * app/pipeline/interfaces.py). Each step's behaviour on an input is a parameter:
 * it returns a step result or raises. The context keeps one record per executed
 * step under its `step_runs` metadata key.
 */
module Pipeline {
  import opened Common
  import opened Json

  /** `StepResult`: the step's output, metadata, errors and success flag. */
  datatype StepResult = StepResult(output: Json, metadata: map<string, Json>, errors: seq<string>, success: bool)

  /** What calling a step's `run` does: return a result, or raise an exception of a named type. */
  datatype StepCall = Returned(result: StepResult) | Raised(message: string, exceptionType: string)

  /** A `PipelineStep`: its name and what `run` does on each input. */
  datatype Step = Step(name: string, run: Json -> StepCall)

  /**
   * One entry of `step_runs`: a returned result records its metadata and no
   * exception; a raise records its message as the errors and the exception, and no
   * metadata.
   */
  datatype StepRun = StepRun(stepName: string, success: bool, errors: seq<string>,
                             metadata: Option<map<string, Json>>, exception: Option<string>)

  /** The result `run` continues with, or stops on, after a step call. */
  function ResultOf(call: StepCall): (r: StepResult)
    ensures call.Raised? ==> !r.success && r.output == JNull && r.errors == [call.message]
    ensures call.Raised? ==> r.metadata == map["exception_type" := JStr(call.exceptionType)]
    ensures call.Returned? ==> r == call.result
  {
    match call
    case Returned(res) => res
    case Raised(msg, ty) => StepResult(JNull, map["exception_type" := JStr(ty)], [msg], false)
  }

  /** The step record of a call. */
  function RecordOf(name: string, call: StepCall): (rec: StepRun)
    ensures rec.stepName == name && rec.success == ResultOf(call).success && rec.errors == ResultOf(call).errors
    ensures rec.exception.Some? <==> call.Raised?
    ensures call.Raised? ==> rec.exception == Some(call.message) && rec.metadata.None?
    ensures call.Returned? ==> rec.metadata == Some(call.result.metadata)
  {
    match call
    case Returned(res) => StepRun(name, res.success, res.errors, Some(res.metadata), None)
    case Raised(msg, _) => StepRun(name, false, [msg], None, Some(msg))
  }

  /** A call after which the pipeline goes on to the next step. */
  predicate Passes(call: StepCall)
  {
    call.Returned? && call.result.success
  }

  /**
   * A run over a list of steps: one record and one input per executed step, and the
   * final result (`None` when no step ran).
   */
  datatype Execution = Execution(records: seq<StepRun>, inputs: seq<Json>, final: Option<StepResult>)

  /** Running `steps` on `input`, step by step until one does not pass. */
  function Execute(steps: seq<Step>, input: Json): (e: Execution)
    ensures |e.records| == |e.inputs| <= |steps|
    ensures e.final.None? <==> |steps| == 0
    ensures |steps| > 0 ==> |e.inputs| >= 1 && e.inputs[0] == input
    decreases |steps|
  {
    if |steps| == 0 then Execution([], [], None)
    else
      var call := steps[0].run(input);
      var rec := RecordOf(steps[0].name, call);
      if !Passes(call) then Execution([rec], [input], Some(ResultOf(call)))
      else
        var rest := Execute(steps[1..], ResultOf(call).output);
        Then([rec], [input], Some(ResultOf(call)), rest)
  }

  /** A first step that passes is followed by the run of the remaining steps on its output. */
  lemma ExecuteCons(steps: seq<Step>, input: Json)
    requires |steps| > 0 && Passes(steps[0].run(input))
    ensures var rest := Execute(steps[1..], steps[0].run(input).result.output);
      Execute(steps, input) == Then([RecordOf(steps[0].name, steps[0].run(input))], [input], Some(steps[0].run(input).result), rest)
  {
  }

  /** Each record is the record of its step's call on the input that step received. */
  lemma {:induction false} RecordsLineUp(steps: seq<Step>, input: Json)
    ensures forall k :: 0 <= k < |Execute(steps, input).records| ==>
      Execute(steps, input).records[k] == RecordOf(steps[k].name, steps[k].run(Execute(steps, input).inputs[k]))
    decreases |steps|
  {
    if |steps| > 0 && Passes(steps[0].run(input)) {
      var tail := steps[1..];
      var rest := Execute(tail, steps[0].run(input).result.output);
      RecordsLineUp(tail, steps[0].run(input).result.output);
      ExecuteCons(steps, input);
      var e := Execute(steps, input);
      assert e.records[1..] == rest.records && e.inputs[1..] == rest.inputs;
      forall k | 0 < k < |e.records| ensures e.records[k] == RecordOf(steps[k].name, steps[k].run(e.inputs[k])) {
        assert e.records[1..][k - 1] == rest.records[k - 1];
        assert steps[k] == tail[k - 1];
      }
    }
  }

  /** Every executed step but the last passed and handed its output to the next. */
  lemma {:induction false} InputsChain(steps: seq<Step>, input: Json)
    ensures forall k :: 0 <= k < |Execute(steps, input).inputs| - 1 ==>
      (Passes(steps[k].run(Execute(steps, input).inputs[k])) &&
       Execute(steps, input).inputs[k + 1] == steps[k].run(Execute(steps, input).inputs[k]).result.output)
    decreases |steps|
  {
    if |steps| > 0 && Passes(steps[0].run(input)) {
      var tail := steps[1..];
      var rest := Execute(tail, steps[0].run(input).result.output);
      InputsChain(tail, steps[0].run(input).result.output);
      ExecuteCons(steps, input);
      var e := Execute(steps, input);
      forall k | 0 < k < |e.inputs| - 1
        ensures Passes(steps[k].run(e.inputs[k])) && e.inputs[k + 1] == steps[k].run(e.inputs[k]).result.output
      {
        assert e.inputs[k] == rest.inputs[k - 1] && e.inputs[k + 1] == rest.inputs[k] && steps[k] == tail[k - 1];
      }
    }
  }

  /** The final result is the last executed step's, and the run stops early only on a step that does not pass. */
  lemma {:induction false} FinalIsLast(steps: seq<Step>, input: Json)
    requires |steps| > 0
    ensures var e := Execute(steps, input); var n := |e.inputs|;
      e.final == Some(ResultOf(steps[n - 1].run(e.inputs[n - 1]))) &&
      (n < |steps| ==> !Passes(steps[n - 1].run(e.inputs[n - 1])))
    decreases |steps|
  {
    if Passes(steps[0].run(input)) {
      var tail := steps[1..];
      var rest := Execute(tail, steps[0].run(input).result.output);
      ExecuteCons(steps, input);
      if |tail| > 0 {
        FinalIsLast(tail, steps[0].run(input).result.output);
        assert steps[|Execute(steps, input).inputs| - 1] == tail[|rest.inputs| - 1];
      }
    }
  }

  /** The records and inputs so far followed by those of the rest of the run; the last result wins. */
  function Then(records: seq<StepRun>, inputs: seq<Json>, last: Option<StepResult>, rest: Execution): Execution
  {
    Execution(records + rest.records, inputs + rest.inputs, if rest.final.Some? then rest.final else last)
  }

  /** The result when no step ran. */
  const NoSteps := StepResult(JNull, map[], ["No steps executed"], false)

  /** What `run` returns: the final step result, or the failure for an empty pipeline. */
  function Outcome(steps: seq<Step>, input: Json): StepResult
  {
    match Execute(steps, input).final
    case None => NoSteps
    case Some(r) => r
  }

  /** The list `step_runs` holds, an absent one read as empty. */
  function Existing(runs: Option<seq<StepRun>>): seq<StepRun>
  {
    if runs.Some? then runs.value else []
  }

  /** `step_runs` after appending `records` to what the context held. */
  function Appended(before: Option<seq<StepRun>>, records: seq<StepRun>): (after: Option<seq<StepRun>>)
    ensures records == [] ==> after == before
    ensures records != [] ==> after == Some(Existing(before) + records)
  {
    if records == [] then before
    else Some(Existing(before) + records)
  }

  // ---------------------------------------------------------------------------
  // Properties of a run

  /** An empty pipeline fails with "No steps executed" and records nothing. */
  lemma EmptyPipeline(input: Json)
    ensures Outcome([], input) == NoSteps && !Outcome([], input).success
    ensures Execute([], input).records == []
  {
  }

  /** A successful run executed every step, and every step succeeded. */
  lemma SuccessMeansAllRan(steps: seq<Step>, input: Json)
    requires Outcome(steps, input).success
    ensures |steps| > 0 && |Execute(steps, input).records| == |steps|
    ensures forall k :: 0 <= k < |steps| ==> Execute(steps, input).records[k].success
  {
    RecordsLineUp(steps, input);
    InputsChain(steps, input);
    FinalIsLast(steps, input);
    var e := Execute(steps, input);
    var n := |e.inputs|;
    forall k | 0 <= k < |steps| ensures e.records[k].success {
      if k < n - 1 {
        assert Passes(steps[k].run(e.inputs[k]));
      }
    }
  }

  /** Only the last record can be a failure: execution stops at the first one. */
  lemma StopsAtFirstFailure(steps: seq<Step>, input: Json, k: nat)
    requires k < |Execute(steps, input).records| && !Execute(steps, input).records[k].success
    ensures k == |Execute(steps, input).records| - 1
    ensures Outcome(steps, input) == ResultOf(steps[k].run(Execute(steps, input).inputs[k]))
    ensures !Outcome(steps, input).success
  {
    RecordsLineUp(steps, input);
    InputsChain(steps, input);
    FinalIsLast(steps, input);
  }

  /** A step that raises ends the run with the exception's message and type. */
  lemma RaiseStops(steps: seq<Step>, input: Json, k: nat)
    requires k < |Execute(steps, input).inputs| && steps[k].run(Execute(steps, input).inputs[k]).Raised?
    ensures var call := steps[k].run(Execute(steps, input).inputs[k]);
      k == |Execute(steps, input).records| - 1 &&
      Outcome(steps, input) == StepResult(JNull, map["exception_type" := JStr(call.exceptionType)], [call.message], false) &&
      Execute(steps, input).records[k] == StepRun(steps[k].name, false, [call.message], None, Some(call.message))
  {
    RecordsLineUp(steps, input);
    StopsAtFirstFailure(steps, input, k);
  }

  /** Each executed step got the previous step's output, the first the initial input. */
  lemma OutputsChain(steps: seq<Step>, input: Json, k: nat)
    requires k + 1 < |Execute(steps, input).inputs|
    ensures Execute(steps, input).inputs[0] == input
    ensures steps[k].run(Execute(steps, input).inputs[k]).Returned?
    ensures steps[k].run(Execute(steps, input).inputs[k]).result.success
    ensures Execute(steps, input).inputs[k + 1] == steps[k].run(Execute(steps, input).inputs[k]).result.output
  {
    InputsChain(steps, input);
  }

  // ---------------------------------------------------------------------------
  // The imperative run

  /** `PipelineContext`, reduced to the metadata the pipeline writes. */
  class PipelineContext {
    /** `metadata["step_runs"]`, absent until a step is recorded. */
    var stepRuns: Option<seq<StepRun>>
    /** Whether `metadata["pipeline_duration_seconds"]` has been set. */
    var durationRecorded: bool

    constructor()
      ensures stepRuns.None? && !durationRecorded
    {
      stepRuns := None;
      durationRecorded := false;
    }

    /** Appends one record to `step_runs`, creating the list when it is absent. */
    method Record(rec: StepRun)
      modifies this
      ensures stepRuns == Some(Existing(old(stepRuns)) + [rec])
      ensures durationRecorded == old(durationRecorded)
    {
      if stepRuns.None? {
        stepRuns := Some([]);
      }
      stepRuns := Some(stepRuns.value + [rec]);
    }
  }

  /** The run from step `i`: the state so far followed by the run of the remaining steps. */
  lemma ExecuteAt(steps: seq<Step>, i: nat, input: Json)
    requires i < |steps|
    ensures var call := steps[i].run(input);
      var rec := RecordOf(steps[i].name, call);
      Execute(steps[i..], input) ==
        if !Passes(call) then Execution([rec], [input], Some(ResultOf(call)))
        else Then([rec], [input], Some(ResultOf(call)), Execute(steps[i + 1..], ResultOf(call).output))
  {
    assert steps[i..][0] == steps[i];
    assert steps[i..][1..] == steps[i + 1..];
  }

  lemma ThenThen(records: seq<StepRun>, inputs: seq<Json>, last: Option<StepResult>,
                 rec: StepRun, input: Json, r: StepResult, rest: Execution)
    ensures Then(records, inputs, last, Then([rec], [input], Some(r), rest)) ==
            Then(records + [rec], inputs + [input], Some(r), rest)
  {
    assert records + ([rec] + rest.records) == records + [rec] + rest.records;
    assert inputs + ([input] + rest.inputs) == inputs + [input] + rest.inputs;
  }

  lemma AppendedSnoc(before: Option<seq<StepRun>>, records: seq<StepRun>, rec: StepRun)
    ensures Appended(before, records + [rec]) == Some(Existing(Appended(before, records)) + [rec])
  {
    if records != [] {
      assert Existing(before) + records + [rec] == Existing(before) + (records + [rec]);
    } else {
      assert records + [rec] == [rec];
    }
  }

  lemma ThenEmpty(records: seq<StepRun>, inputs: seq<Json>, last: Option<StepResult>, rest: Execution)
    requires rest == Execution([], [], None)
    ensures Then(records, inputs, last, rest) == Execution(records, inputs, last)
  {
    assert records + [] == records && inputs + [] == inputs;
  }

  class Pipeline {
    const name: string
    const steps: seq<Step>

    constructor(name: string, steps: seq<Step>)
      ensures this.name == name && this.steps == steps
    {
      this.name := name;
      this.steps := steps;
    }

    /**
     * `run`: the steps in order, each on the previous step's output, until one fails
     * or raises; every executed step is recorded in the context, a fresh one when
     * none is given.
     */
    method Run(initialInput: Json, context: PipelineContext?) returns (r: StepResult)
      modifies if context != null then {context} else {}
      ensures r == Outcome(steps, initialInput)
      ensures context != null ==>
        context.stepRuns == Appended(old(context.stepRuns), Execute(steps, initialInput).records) &&
        context.durationRecorded
    {
      var ctx: PipelineContext;
      if context == null {
        ctx := new PipelineContext();
      } else {
        ctx := context;
      }
      ghost var before := ctx.stepRuns;
      ghost var records: seq<StepRun> := [];
      ghost var inputs: seq<Json> := [];
      var currentInput := initialInput;
      var finalResult: Option<StepResult> := None;
      var i := 0;
      while i < |steps|
        invariant 0 <= i <= |steps|
        invariant ctx == context || (context == null && fresh(ctx))
        invariant ctx.stepRuns == Appended(before, records)
        invariant Execute(steps, initialInput) == Then(records, inputs, finalResult, Execute(steps[i..], currentInput))
      {
        var step := steps[i];
        var call := step.run(currentInput);
        var rec := RecordOf(step.name, call);
        var result := ResultOf(call);
        ExecuteAt(steps, i, currentInput);
        AppendedSnoc(before, records, rec);
        ctx.Record(rec);
        if !Passes(call) {
          records, inputs, finalResult := records + [rec], inputs + [currentInput], Some(result);
          break;
        }
        ThenThen(records, inputs, finalResult, rec, currentInput, result, Execute(steps[i + 1..], result.output));
        records, inputs, finalResult := records + [rec], inputs + [currentInput], Some(result);
        currentInput := result.output;
        i := i + 1;
      }
      ctx.durationRecorded := true;
      if i == |steps| {
        ThenEmpty(records, inputs, finalResult, Execute(steps[i..], currentInput));
      }
      assert Execute(steps, initialInput) == Execution(records, inputs, finalResult);
      r := if finalResult.Some? then finalResult.value else NoSteps;
    }
  }
}
