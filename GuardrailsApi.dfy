/**
 * The guardrails endpoints (fulcrum-llm-ops/backend/app/api/guardrails.py): list
 * the policies of the shared wrapper, and validate a text through it, as user
 * input or as model output, turning the wrapper's result into a block decision.
 */
module GuardrailsApi {
  import opened Common
  import opened BackendGuardrails

  datatype ValidateResponse = ValidateResponse(
    blocked: bool,
    violatedPolicyId: Option<string>,
    reason: Option<string>,
    validatedText: Option<string>)

  /**
   * The response for a validation result: blocked exactly when it did not pass; a
   * block names the first failure ("unknown" when there is none) and carries the
   * failure message; the validated text is returned either way.
   */
  function Respond(res: ValidationResult): (r: ValidateResponse)
    ensures r.blocked <==> !res.passed
    ensures r.validatedText == res.validatedText
    ensures !r.blocked ==> r.violatedPolicyId.None? && r.reason.None?
    ensures r.blocked ==> r.reason == res.failureMessage
    ensures r.blocked && |res.failures| > 0 ==> r.violatedPolicyId == Some(res.failures[0])
    ensures r.blocked && |res.failures| == 0 ==> r.violatedPolicyId == Some("unknown")
  {
    if res.passed then ValidateResponse(false, None, None, res.validatedText)
    else
      var mainFail := if |res.failures| > 0 then res.failures[0] else "unknown";
      ValidateResponse(true, Some(mainFail), res.failureMessage, res.validatedText)
  }

  /**
   * A blocked input names the first failing validator as the violated policy, or
   * "exception" when the guard itself raised.
   */
  lemma BlockedInputNamesFirstValidator(stats: Stats, text: string, guard: GuardOutcome)
    requires Respond(InputSpec(true, stats, text, guard)).blocked
    ensures guard.Raised? ==> Respond(InputSpec(true, stats, text, guard)).violatedPolicyId == Some("exception")
    ensures guard.Validated? && |guard.summaries| > 0 ==>
      Respond(InputSpec(true, stats, text, guard)).violatedPolicyId == Some(guard.summaries[0].validatorName)
  {
  }

  /** Without a working guard library nothing is blocked, whatever the source. */
  lemma UnavailableNeverBlocks(stats: Stats, text: string, guard: GuardOutcome)
    ensures !Respond(InputSpec(false, stats, text, guard)).blocked
    ensures !Respond(OutputSpec(false, text, guard)).blocked
    ensures Respond(InputSpec(false, stats, text, guard)).validatedText == Some(text)
  {
  }

  /**
   * `validate_content`: a text whose source is "user" goes through the input
   * checks (and may change the violation counters); any other source goes
   * through the output checks and leaves the wrapper as it was.
   */
  method ValidateContent(w: GuardrailsWrapper, text: string, source: string, guard: GuardOutcome)
    returns (r: ValidateResponse)
    modifies w
    ensures w.available == old(w.available)
    ensures source == "user" ==>
      r == Respond(InputSpec(old(w.available), old(w.stats), text, guard)) &&
      Incremented(old(w.stats), w.stats, CountedSummaries(old(w.available), guard))
    ensures source != "user" ==>
      r == Respond(OutputSpec(old(w.available), text, guard)) && w.stats == old(w.stats)
  {
    var result;
    if source == "user" {
      result := w.ValidateInput(text, guard);
    } else {
      result := w.ValidateOutput(text, guard);
    }
    r := Respond(result);
  }

  /** `get_policies`: the wrapper's three policies. */
  function GetPolicies(w: GuardrailsWrapper): (r: seq<PolicyInfo>)
    reads w
    ensures |r| == 3
    ensures r[0].violations24h == w.stats.pii.violations
    ensures r[1].violations24h == w.stats.toxicity.violations
    ensures r[2].violations24h == w.stats.competitors.violations
  {
    w.GetPolicies()
  }
}
