/**
 * The run record the list endpoints return and the dashboard pages read
 * (`RunListItem` in fulcrum-llm-ops/backend/app/schemas.py and
 * fulcrum-llm-ops/frontend/src/lib/types.ts). Missing optional fields are `None`.
 */
module Schemas {
  import opened Common

  datatype RunItem = RunItem(
    runId: string,
    status: string,
    model: string,
    latencyMs: Option<real>,
    costUsd: Option<real>,
    confidence: Option<real>,
    confidenceLabel: Option<string>,
    parseSuccess: Option<real>,
    startedAt: Option<string>)

  /** `[f(r) for r in runs if f(r) is not None]`: the present values of one field, in run order. */
  function Values(runs: seq<RunItem>, f: RunItem -> Option<real>): (r: seq<real>)
    ensures |r| <= |runs|
    ensures forall v :: v in r <==> exists i :: 0 <= i < |runs| && f(runs[i]) == Some(v)
    ensures (forall i :: 0 <= i < |runs| ==> f(runs[i]).Some?) ==> |r| == |runs|
  {
    if |runs| == 0 then []
    else
      var rest := Values(runs[1..], f);
      assert forall i :: 1 <= i < |runs| ==> runs[1..][i - 1] == runs[i];
      match f(runs[0])
      case Some(v) => [v] + rest
      case None => rest
  }

  function Latency(r: RunItem): Option<real> { r.latencyMs }
  function Cost(r: RunItem): Option<real> { r.costUsd }
  function Confidence(r: RunItem): Option<real> { r.confidence }
  function ParseSuccess(r: RunItem): Option<real> { r.parseSuccess }

  /** The non-empty model names of the runs, as `r.model` is truthy. */
  function NamedModels(runs: seq<RunItem>): (r: seq<string>)
    ensures forall m :: m in r <==> m != "" && exists i :: 0 <= i < |runs| && runs[i].model == m
  {
    if |runs| == 0 then []
    else
      var rest := NamedModels(runs[1..]);
      assert forall i :: 1 <= i < |runs| ==> runs[1..][i - 1] == runs[i];
      if runs[0].model != "" then [runs[0].model] + rest else rest
  }

  /** The status of every run, in run order. */
  function Statuses(runs: seq<RunItem>): (r: seq<string>)
    ensures |r| == |runs|
    ensures forall i :: 0 <= i < |runs| ==> r[i] == runs[i].status
  {
    seq(|runs|, i requires 0 <= i < |runs| => runs[i].status)
  }
}
