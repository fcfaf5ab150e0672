/**
 * The run comparison endpoint (fulcrum-llm-ops/backend/app/api/compare.py).
 * `get_run` is the parameter `getRun`.
 */
module CompareApi {
  import opened Common
  import opened Strings

  /** `[p.strip() for p in pieces if p.strip()]`. */
  function StrippedPieces(pieces: seq<string>): (r: seq<string>)
    requires forall k :: 0 <= k < |pieces| ==> !Contains(pieces[k], ",")
    ensures forall k :: 0 <= k < |r| ==> r[k] != "" && Trimmed(r[k], PyWhitespace) && !Contains(r[k], ",")
    ensures |r| <= |pieces|
  {
    if |pieces| == 0 then []
    else
      var t := Trim(pieces[0], PyWhitespace);
      var rest := StrippedPieces(pieces[1..]);
      SliceFree(pieces[0], Lead(pieces[0], PyWhitespace), Lead(pieces[0], PyWhitespace) + |t|, ",");
      if t != "" then [t] + rest else rest
  }

  /** The ids of `run_ids`: its comma-separated pieces, stripped, empty ones dropped. */
  function ParseIds(runIds: string): (ids: seq<string>)
    ensures forall k :: 0 <= k < |ids| ==> ids[k] != "" && Trimmed(ids[k], PyWhitespace) && !Contains(ids[k], ",")
  {
    var pieces := Split(runIds, ",");
    SplitPiecesFree(runIds, ",");
    StrippedPieces(pieces)
  }

  /** Joining ids with commas and parsing them back gives the same ids, duplicates and order kept. */
  lemma ParseJoin(ids: seq<string>)
    requires |ids| >= 1
    requires forall k :: 0 <= k < |ids| ==> ids[k] != "" && Trimmed(ids[k], PyWhitespace) && !Contains(ids[k], ",")
    ensures ParseIds(Join(ids, ",")) == ids
  {
    SplitJoin(ids, ",");
    StrippedIdentity(ids);
  }

  lemma {:induction false} StrippedIdentity(ids: seq<string>)
    requires forall k :: 0 <= k < |ids| ==> ids[k] != "" && Trimmed(ids[k], PyWhitespace) && !Contains(ids[k], ",")
    ensures StrippedPieces(ids) == ids
  {
    if |ids| > 0 {
      TrimNoop(ids[0], PyWhitespace);
      StrippedIdentity(ids[1..]);
      assert ids == [ids[0]] + ids[1..];
    }
  }

  /** Index of the first id the store does not know. */
  function FirstMissing<R>(ids: seq<string>, getRun: string -> Option<R>): (k: Option<nat>)
    ensures k.Some? ==> k.value < |ids| && getRun(ids[k.value]).None? &&
                        forall j :: 0 <= j < k.value ==> getRun(ids[j]).Some?
    ensures k.None? ==> forall j :: 0 <= j < |ids| ==> getRun(ids[j]).Some?
  {
    if |ids| == 0 then None
    else if getRun(ids[0]).None? then Some(0)
    else
      match FirstMissing(ids[1..], getRun)
      case None => None
      case Some(k) => Some(k + 1)
  }

  /**
   * `compare_runs`: 422 unless there are two to four ids; otherwise 404 naming the
   * first unknown id, or one run per id in input order.
   */
  method CompareRuns<R>(runIds: string, getRun: string -> Option<R>) returns (r: Result<seq<R>, HttpError>)
    ensures var ids := ParseIds(runIds);
      (|ids| < 2 || |ids| > 4) ==> r == Err(HttpError(422, "Provide 2-4 run IDs"))
    ensures var ids := ParseIds(runIds);
      2 <= |ids| <= 4 && FirstMissing(ids, getRun).Some? ==>
        r == Err(HttpError(404, "Run " + ids[FirstMissing(ids, getRun).value] + " not found"))
    ensures var ids := ParseIds(runIds);
      2 <= |ids| <= 4 && FirstMissing(ids, getRun).None? ==>
        r.Ok? && |r.value| == |ids| && forall k :: 0 <= k < |ids| ==> getRun(ids[k]) == Some(r.value[k])
  {
    var ids := ParseIds(runIds);
    if |ids| < 2 || |ids| > 4 {
      return Err(HttpError(422, "Provide 2-4 run IDs"));
    }
    var runs: seq<R> := [];
    for i := 0 to |ids|
      invariant |runs| == i
      invariant forall k :: 0 <= k < i ==> getRun(ids[k]) == Some(runs[k])
    {
      var run := getRun(ids[i]);
      if run.None? {
        FirstMissingAt(ids, getRun, i);
        return Err(HttpError(404, "Run " + ids[i] + " not found"));
      }
      runs := runs + [run.value];
    }
    return Ok(runs);
  }

  lemma FirstMissingAt<R>(ids: seq<string>, getRun: string -> Option<R>, i: nat)
    requires i < |ids| && getRun(ids[i]).None?
    requires forall k :: 0 <= k < i ==> getRun(ids[k]).Some?
    ensures FirstMissing(ids, getRun) == Some(i)
  {
    var f := FirstMissing(ids, getRun);
    assert f.Some?;
    assert !(f.value < i);
    assert !(i < f.value);
  }
}
