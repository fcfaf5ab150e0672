/**
 * Human evaluation endpoint (fulcrum-llm-ops/backend/app/api/evaluations.py).
 * Whether `get_run` finds the run is a parameter; the `set_evaluation` write is
 * returned as the evaluation to store.
 */
module Evaluations {
  import opened Common

  datatype Evaluation = Evaluation(runId: string, rating: int, ratingLabel: string, comment: string)

  datatype EvaluationOutcome = EvaluationOutcome(response: Result<Evaluation, HttpError>, stored: Option<Evaluation>)

  /**
   * `create_evaluation`: 404 for an unknown run, whatever the rating; then 422 for a
   * rating outside 1..5; only a request passing both is stored and echoed.
   */
  function CreateEvaluation(req: Evaluation, runFound: bool): (r: EvaluationOutcome)
    ensures !runFound ==> r.response == Err(HttpError(404, "Run not found"))
    ensures runFound && !(1 <= req.rating <= 5) ==> r.response == Err(HttpError(422, "Rating must be 1-5"))
    ensures r.response.Ok? <==> runFound && 1 <= req.rating <= 5
    ensures r.stored.Some? <==> r.response.Ok?
    ensures r.response.Ok? ==> r.response.value == req && r.stored == Some(req)
  {
    if !runFound then EvaluationOutcome(Err(HttpError(404, "Run not found")), None)
    else if !(1 <= req.rating <= 5) then EvaluationOutcome(Err(HttpError(422, "Rating must be 1-5")), None)
    else EvaluationOutcome(Ok(req), Some(req))
  }
}
