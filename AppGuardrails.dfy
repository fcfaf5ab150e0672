/**
 * The guardrail wrapper of the command-line forecasting app (app/guardrails_wrapper.py).
 * Its input guard runs with `on_fail="exception"`, so a validation either returns
 * (and passes) or raises; the exception text is classified by the messages the
 * custom validators produce. The result type, the stats table, the guard outcome
 * and the output validation are those of the dashboard backend's wrapper.
 */
module AppGuardrails {
  import opened Common
  import opened Strings
  import opened BackendGuardrails

  /**
   * The policy an exception message is counted against, checked in the order
   * toxic language, PII, competitors; `None` for any other message.
   */
  function ClassifyError(msg: string): (p: Option<Policy>)
    ensures p == Some(Toxicity) <==> Contains(msg, "Found toxic language")
    ensures p == Some(Pii) <==> !Contains(msg, "Found toxic language") && Contains(msg, "Found PII")
    ensures p == Some(Competitors) <==>
      !Contains(msg, "Found toxic language") && !Contains(msg, "Found PII") && Contains(msg, "Found competitors")
    ensures p.None? <==>
      !Contains(msg, "Found toxic language") && !Contains(msg, "Found PII") && !Contains(msg, "Found competitors")
  {
    if Contains(msg, "Found toxic language") then Some(Toxicity)
    else if Contains(msg, "Found PII") then Some(Pii)
    else if Contains(msg, "Found competitors") then Some(Competitors)
    else None
  }

  /** The failure name reported for a classified exception. */
  function FailureType(p: Option<Policy>): (name: string)
    ensures name == "validation_error" <==> p.None?
    ensures p == Some(Toxicity) <==> name == "ToxicLanguage"
    ensures p == Some(Pii) <==> name == "DetectPII"
    ensures p == Some(Competitors) <==> name == "CompetitorCheck"
  {
    match p
    case None => "validation_error"
    case Some(Toxicity) => "ToxicLanguage"
    case Some(Pii) => "DetectPII"
    case Some(Competitors) => "CompetitorCheck"
  }

  /**
   * What `validate_input` returns: a guard call that returns passes with its output
   * (or the input, when the output is empty); one that raises fails with the input
   * text, the exception text and the classified failure name.
   */
  function InputResult(available: bool, text: string, guard: GuardOutcome): (r: ValidationResult)
    ensures r.passed <==> !available || guard.Validated?
    ensures !available ==> r == ValidationResult(true, [], Some(text), None, Fallback)
    ensures available && guard.Validated? ==>
      r == ValidationResult(true, [], Some(OrElse(guard.validatedOutput, text)), None, GuardrailsAi("passed"))
    ensures available && guard.Raised? ==>
      r.failures == [FailureType(ClassifyError(guard.message))] &&
      r.validatedText == Some(text) && r.failureMessage == Some(guard.message) &&
      r.metadata == ErrorInfo(guard.message)
  {
    if !available then ValidationResult(true, [], Some(text), None, Fallback)
    else match guard
      case Validated(_, out, _) =>
        ValidationResult(true, [], Some(OrElse(out, text)), None, GuardrailsAi("passed"))
      case Raised(e) =>
        ValidationResult(false, [FailureType(ClassifyError(e))], Some(text), Some(e), ErrorInfo(e))
  }

  /** The policy whose counter a validation increments, if any. */
  function CountedPolicy(available: bool, guard: GuardOutcome): Option<Policy>
  {
    if available && guard.Raised? then ClassifyError(guard.message) else None
  }

  /** The stats after a validation: one more violation for the counted policy, everything else kept. */
  function CountedStats(before: Stats, available: bool, guard: GuardOutcome): (after: Stats)
    ensures forall p: Policy :: after.Of(p).status == before.Of(p).status
    ensures forall p: Policy ::
      after.Of(p).violations == before.Of(p).violations + (if CountedPolicy(available, guard) == Some(p) then 1 else 0)
  {
    match CountedPolicy(available, guard)
    case None => before
    case Some(p) => before.Bump(p)
  }

  /** An exception no custom validator produced changes no counter. */
  lemma UnrecognisedLeavesCounters(before: Stats, text: string, msg: string)
    requires ClassifyError(msg).None?
    ensures CountedStats(before, true, Raised(msg)) == before
    ensures InputResult(true, text, Raised(msg)).failures == ["validation_error"]
  {
  }

  /** A failing validation is always named after the first matching message kind. */
  lemma ToxicWinsOverPii(text: string, msg: string)
    requires Contains(msg, "Found toxic language") && Contains(msg, "Found PII")
    ensures InputResult(true, text, Raised(msg)).failures == ["ToxicLanguage"]
    ensures CountedStats(DefaultStats, true, Raised(msg)).pii == DefaultStats.pii
  {
  }

  class AppGuardrailsWrapper {
    var available: bool
    var stats: Stats

    /** `__init__`: default stats; unavailable when building the guards failed. */
    constructor(guardsBuilt: bool)
      ensures available == guardsBuilt && stats == DefaultStats
    {
      available := guardsBuilt;
      stats := DefaultStats;
    }

    /** `validate_input`: the result `InputResult` describes; a raise also counts its policy. */
    method ValidateInput(text: string, guard: GuardOutcome) returns (r: ValidationResult)
      modifies this
      ensures available == old(available)
      ensures r == InputResult(old(available), text, guard)
      ensures stats == CountedStats(old(stats), old(available), guard)
    {
      if !available {
        return ValidationResult(true, [], Some(text), None, Fallback);
      }
      match guard {
        case Validated(_, out, _) =>
          var validated := if out.Some? && out.value != "" then out.value else text;
          r := ValidationResult(true, [], Some(validated), None, GuardrailsAi("passed"));
        case Raised(errMsg) =>
          var failureType := "validation_error";
          if Contains(errMsg, "Found toxic language") {
            stats := stats.Bump(Toxicity);
            failureType := "ToxicLanguage";
          } else if Contains(errMsg, "Found PII") {
            stats := stats.Bump(Pii);
            failureType := "DetectPII";
          } else if Contains(errMsg, "Found competitors") {
            stats := stats.Bump(Competitors);
            failureType := "CompetitorCheck";
          }
          r := ValidationResult(false, [failureType], Some(text), Some(errMsg), ErrorInfo(errMsg));
      }
    }

    /** `validate_output`: the same as the backend's output validation. */
    function ValidateOutput(text: string, guard: GuardOutcome): (r: ValidationResult)
      reads this
      ensures r == OutputSpec(available, text, guard)
      ensures !available ==> r.passed && r.validatedText == Some(text)
    {
      OutputSpec(available, text, guard)
    }

    /** `check_input`: exactly `validate_input`. */
    method CheckInput(text: string, guard: GuardOutcome) returns (r: ValidationResult)
      modifies this
      ensures available == old(available)
      ensures r == InputResult(old(available), text, guard)
      ensures stats == CountedStats(old(stats), old(available), guard)
    {
      r := ValidateInput(text, guard);
    }
  }
}
