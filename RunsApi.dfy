/**
 * The read and write endpoints over runs (fulcrum-llm-ops/backend/app/api/runs.py).
 * What the store returns is a parameter: the runs `list_runs` gives for the query,
 * model and confidence filters, the run `get_run` finds, the artifact content
 * `get_artifact_content` reads, and the outcome of each write.
 */
module RunsApi {
  import opened Common
  import opened Strings
  import opened Schemas
  import Sorting

  datatype RunsResponse = RunsResponse(runs: seq<RunItem>, models: seq<string>, statuses: seq<string>)

  /** `[r for r in runs if r.status == status]`. */
  function WithStatus(runs: seq<RunItem>, status: string): (r: seq<RunItem>)
    ensures forall i :: 0 <= i < |r| ==> r[i].status == status
    ensures forall x :: multiset(r)[x] == if x.status == status then multiset(runs)[x] else 0
    ensures |r| <= |runs|
  {
    if |runs| == 0 then []
    else
      var head, tail := runs[0], runs[1..];
      var rest := WithStatus(tail, status);
      assert multiset(runs) == multiset{head} + multiset(tail) by {
        assert runs == [head] + tail;
      }
      if head.status == status then [head] + rest else rest
  }

  /** The filter keeps order: filtering a concatenation filters each part. */
  lemma {:induction false} WithStatusConcat(a: seq<RunItem>, b: seq<RunItem>, status: string)
    ensures WithStatus(a + b, status) == WithStatus(a, status) + WithStatus(b, status)
  {
    if |a| > 0 {
      assert (a + b)[1..] == a[1..] + b;
      WithStatusConcat(a[1..], b, status);
    } else {
      assert a + b == b;
    }
  }

  /**
   * `get_runs`: the model and status lists are built from the whole list, sorted
   * and without repeats, and only then is the status filter (when one is given)
   * applied to the runs.
   */
  function GetRuns(allRuns: seq<RunItem>, status: Option<string>): (r: RunsResponse)
    ensures Sorting.StrictlyAscending(r.models)
    ensures forall m :: m in r.models <==> m != "" && exists i :: 0 <= i < |allRuns| && allRuns[i].model == m
    ensures Sorting.StrictlyAscending(r.statuses)
    ensures forall s :: s in r.statuses <==> exists i :: 0 <= i < |allRuns| && allRuns[i].status == s
    ensures !TruthyText(status) ==> r.runs == allRuns
    ensures TruthyText(status) ==> r.runs == WithStatus(allRuns, status.value)
  {
    var models := Sorting.SortedSet(NamedModels(allRuns));
    var statuses := Sorting.SortedSet(Statuses(allRuns));
    var filtered := if TruthyText(status) then WithStatus(allRuns, status.value) else allRuns;
    RunsResponse(filtered, models, statuses)
  }

  /** The dropdown lists do not depend on the status filter. */
  lemma ListsIgnoreFilter(allRuns: seq<RunItem>, s1: Option<string>, s2: Option<string>)
    ensures GetRuns(allRuns, s1).models == GetRuns(allRuns, s2).models
    ensures GetRuns(allRuns, s1).statuses == GetRuns(allRuns, s2).statuses
  {
  }

  /** A filtered listing holds exactly the runs with that status, as often as the full list does. */
  lemma FilteredRuns(allRuns: seq<RunItem>, status: string, x: RunItem)
    requires status != ""
    ensures x in GetRuns(allRuns, Some(status)).runs <==> x in allRuns && x.status == status
  {
    var r := GetRuns(allRuns, Some(status)).runs;
    assert x in r <==> x in multiset(r);
    assert x in allRuns <==> x in multiset(allRuns);
  }

  /** `get_run_details`: 404 exactly when the store has no such run. */
  function GetRunDetails<T>(found: Option<T>): (r: Result<T, HttpError>)
    ensures r.Err? <==> found.None?
    ensures r.Err? ==> r.error == HttpError(404, "Run not found")
    ensures r.Ok? ==> r.value == found.value
  {
    match found
    case None => Err(HttpError(404, "Run not found"))
    case Some(run) => Ok(run)
  }

  /** The content type of an artifact: JSON exactly when the path ends in ".json", in any case. */
  function MediaType(path: string): (m: string)
    ensures m == "application/json" <==> EndsWith(Lower(path), ".json")
    ensures m == "application/json" || m == "text/plain"
  {
    if EndsWith(Lower(path), ".json") then "application/json" else "text/plain"
  }

  lemma {:induction false} LowerIdempotent(s: string)
    ensures Lower(Lower(s)) == Lower(s)
  {
    assert forall i :: 0 <= i < |s| ==> LowerChar(LowerChar(s[i])) == LowerChar(s[i]);
  }

  /** The media type ignores the case of the path. */
  lemma MediaTypeIgnoresCase(path: string)
    ensures MediaType(Lower(path)) == MediaType(path)
  {
    LowerIdempotent(path);
  }

  /** Why the store could not read an artifact: an unsupported type (`ValueError`) or anything else. */
  datatype Artifact = Artifact(content: string, mediaType: string)

  /**
   * `get_artifact` over `get_artifact_content`, which returns None on any failure
   * instead of raising: the 415 and 404 handlers never fire, and a missing
   * artifact is served as an empty plain-text body.
   */
  function GetArtifact(path: string, content: Option<string>): (a: Artifact)
    ensures a.mediaType == MediaType(path)
    ensures content.Some? ==> a.content == content.value
    ensures content.None? ==> a.content == ""
  {
    match content
    case Some(text) => Artifact(text, MediaType(path))
    case None => Artifact("", MediaType(path))
  }

  /**
   * The write endpoints (`create_run`, `update_run`, `log_artifact`): any failure of
   * the store becomes a 500 carrying its message; success returns `reply`.
   */
  function WriteEndpoint<T, U>(outcome: Result<T, string>, reply: T -> U): (r: Result<U, HttpError>)
    ensures r.Ok? <==> outcome.Ok?
    ensures r.Ok? ==> r.value == reply(outcome.value)
    ensures r.Err? ==> r.error == HttpError(500, outcome.error)
  {
    match outcome
    case Ok(v) => Ok(reply(v))
    case Err(e) => Err(HttpError(500, e))
  }
}
