/**
 * The guardrail wrapper of the dashboard backend
 * (fulcrum-llm-ops/backend/app/guardrails_wrapper.py). A guard's `validate(text)`
 * is an oracle: its outcome is a parameter, either the exception it raised or the
 * result it returned. Whether building the guards succeeded is the constructor's
 * parameter.
 */
module BackendGuardrails {
  import opened Common
  import opened Strings
  import opened Json

  // ---------------------------------------------------------------------------
  // Validation results

  /** The `metadata` dictionary of a result; `NoMetadata` is `None`. */
  datatype Metadata = NoMetadata | Fallback | GuardrailsAi(outcome: string) | ErrorInfo(message: string)

  datatype ValidationResult = ValidationResult(
    passed: bool,
    failures: seq<string>,
    validatedText: Option<string>,
    failureMessage: Option<string>,
    metadata: Metadata)

  /** `ValidationResult.failed`. */
  function Failed(r: ValidationResult): (f: bool)
    ensures f <==> !r.passed
  {
    !r.passed
  }

  function MetadataFields(m: Metadata): (r: seq<(string, Json)>)
    ensures m.NoMetadata? <==> r == []
  {
    match m
    case NoMetadata => []
    case Fallback => [("fallback", JBool(true))]
    case GuardrailsAi(o) => [("guardrails_ai", JStr(o))]
    case ErrorInfo(e) => [("error", JStr(e))]
  }

  function TextOrNull(s: Option<string>): Json
  {
    match s
    case None => JNull
    case Some(t) => JStr(t)
  }

  /** `to_dict`: the five fields, a missing metadata becoming an empty object. */
  function ToDict(r: ValidationResult): (j: Json)
    ensures j.JObj? && |j.fields| == 5
    ensures j.fields[0] == ("passed", JBool(r.passed))
    ensures j.fields[4].0 == "metadata" && (r.metadata.NoMetadata? ==> j.fields[4].1 == JObj([]))
  {
    JObj([("passed", JBool(r.passed)),
          ("failures", JArr(seq(|r.failures|, i requires 0 <= i < |r.failures| => JStr(r.failures[i])))),
          ("validated_text", TextOrNull(r.validatedText)),
          ("failure_message", TextOrNull(r.failureMessage)),
          ("metadata", JObj(MetadataFields(r.metadata)))])
  }

  // ---------------------------------------------------------------------------
  // Guard outcomes and policy classification

  /** One entry of `validation_summaries`. */
  datatype Summary = Summary(validatorName: string, errorMessage: string)

  /** What `guard.validate(text)` did. */
  datatype GuardOutcome =
    | Raised(message: string)
    | Validated(validationPassed: bool, validatedOutput: Option<string>, summaries: seq<Summary>)

  datatype Policy = Pii | Toxicity | Competitors

  datatype PolicyStats = PolicyStats(violations: nat, status: string)

  /** The wrapper's `stats` table: one entry per policy. */
  datatype Stats = Stats(pii: PolicyStats, toxicity: PolicyStats, competitors: PolicyStats)
  {
    function Of(p: Policy): PolicyStats
    {
      match p
      case Pii => pii
      case Toxicity => toxicity
      case Competitors => competitors
    }

    /** `self.stats[p]["violations"] += 1`. */
    function Bump(p: Policy): (s: Stats)
      ensures forall q: Policy :: s.Of(q) == if q == p then Of(q).(violations := Of(q).violations + 1) else Of(q)
    {
      match p
      case Pii => this.(pii := pii.(violations := pii.violations + 1))
      case Toxicity => this.(toxicity := toxicity.(violations := toxicity.violations + 1))
      case Competitors => this.(competitors := competitors.(violations := competitors.violations + 1))
    }
  }

  /** The stats table the wrapper starts with: competitors only monitored. */
  const DefaultStats := Stats(PolicyStats(0, "active"), PolicyStats(0, "active"), PolicyStats(0, "monitor"))

  /** The policy a validator name belongs to, checked in the order pii/regex, toxic, competitor. */
  function PolicyOf(name: string): (p: Option<Policy>)
    ensures p == Some(Pii) <==> (Contains(Lower(name), "pii") || Contains(Lower(name), "regex"))
    ensures p == Some(Toxicity) <==>
      !(Contains(Lower(name), "pii") || Contains(Lower(name), "regex")) && Contains(Lower(name), "toxic")
    ensures p == Some(Competitors) <==>
      !(Contains(Lower(name), "pii") || Contains(Lower(name), "regex")) && !Contains(Lower(name), "toxic") &&
      Contains(Lower(name), "competitor")
  {
    var l := Lower(name);
    if Contains(l, "pii") || Contains(l, "regex") then Some(Pii)
    else if Contains(l, "toxic") then Some(Toxicity)
    else if Contains(l, "competitor") then Some(Competitors)
    else None
  }

  /** A failing validator blocks unless its policy is not "active"; an unknown validator blocks. */
  predicate Blocks(stats: Stats, name: string)
  {
    match PolicyOf(name)
    case None => true
    case Some(p) => stats.Of(p).status == "active"
  }

  /** How many of the summaries belong to policy `p`. */
  function CountPolicy(summaries: seq<Summary>, p: Policy): nat
  {
    if |summaries| == 0 then 0
    else CountPolicy(summaries[..|summaries| - 1], p) +
         (if PolicyOf(summaries[|summaries| - 1].validatorName) == Some(p) then 1 else 0)
  }

  function Names(summaries: seq<Summary>): (r: seq<string>)
    ensures |r| == |summaries|
    ensures forall i :: 0 <= i < |summaries| ==> r[i] == summaries[i].validatorName
  {
    seq(|summaries|, i requires 0 <= i < |summaries| => summaries[i].validatorName)
  }

  /** `f"{v_name}: {err}"` for every summary. */
  function Messages(summaries: seq<Summary>): (r: seq<string>)
    ensures |r| == |summaries|
    ensures forall i :: 0 <= i < |summaries| ==>
      r[i] == summaries[i].validatorName + ": " + summaries[i].errorMessage
  {
    seq(|summaries|, i requires 0 <= i < |summaries| =>
      summaries[i].validatorName + ": " + summaries[i].errorMessage)
  }

  function OutputOr(output: Option<string>, text: string): (r: string)
    ensures output.Some? ==> r == output.value
    ensures output.None? ==> r == text
  {
    match output
    case Some(v) => v
    case None => text
  }

  /**
   * What `validate_input` returns. A failing validation passes only when no summary
   * blocks; the failures list every summary's validator name in order.
   */
  function InputSpec(available: bool, stats: Stats, text: string, guard: GuardOutcome): (r: ValidationResult)
    ensures !available ==> r == ValidationResult(true, [], Some(text), None, Fallback)
    ensures available && guard.Raised? ==>
      r == ValidationResult(false, ["exception"], Some(text), Some(guard.message), ErrorInfo(guard.message))
    ensures available && guard.Validated? ==> r.validatedText == Some(OutputOr(guard.validatedOutput, text))
    ensures available && guard.Validated? && guard.validationPassed ==>
      r.passed && r.failures == [] && r.metadata == GuardrailsAi("passed")
    ensures available && guard.Validated? && !guard.validationPassed ==>
      (r.passed <==> forall i :: 0 <= i < |guard.summaries| ==> !Blocks(stats, guard.summaries[i].validatorName)) &&
      r.failures == Names(guard.summaries) &&
      r.failureMessage == Some(Join(Messages(guard.summaries), "; ")) &&
      r.metadata == GuardrailsAi(if r.passed then "monitor_only" else "failed")
  {
    if !available then ValidationResult(true, [], Some(text), None, Fallback)
    else match guard
      case Raised(e) => ValidationResult(false, ["exception"], Some(text), Some(e), ErrorInfo(e))
      case Validated(ok, out, sums) =>
        var validated := OutputOr(out, text);
        if ok then ValidationResult(true, [], Some(validated), None, GuardrailsAi("passed"))
        else
          var passed := forall i :: 0 <= i < |sums| ==> !Blocks(stats, sums[i].validatorName);
          ValidationResult(passed, Names(sums), Some(validated), Some(Join(Messages(sums), "; ")),
                           GuardrailsAi(if passed then "monitor_only" else "failed"))
  }

  /** The counters after a failing input validation: each summary adds one to its policy, if any. */
  predicate Incremented(before: Stats, after: Stats, summaries: seq<Summary>)
  {
    forall p: Policy :: after.Of(p) == PolicyStats(before.Of(p).violations + CountPolicy(summaries, p), before.Of(p).status)
  }

  /** The summaries a failing input validation counts; otherwise none. */
  function CountedSummaries(available: bool, guard: GuardOutcome): seq<Summary>
  {
    if available && guard.Validated? && !guard.validationPassed then guard.summaries else []
  }

  /** With the starting stats, competitor mentions alone only get monitored. */
  lemma {:induction false} CompetitorsOnlyMonitored(text: string, out: Option<string>, sums: seq<Summary>)
    requires forall i :: 0 <= i < |sums| ==> PolicyOf(sums[i].validatorName) == Some(Competitors)
    ensures InputSpec(true, DefaultStats, text, Validated(false, out, sums)).passed
    ensures InputSpec(true, DefaultStats, text, Validated(false, out, sums)).metadata == GuardrailsAi("monitor_only")
  {
    forall i | 0 <= i < |sums| ensures !Blocks(DefaultStats, sums[i].validatorName) {
      assert DefaultStats.Of(Competitors).status == "monitor";
    }
  }

  /** One failing PII validator blocks the input with the starting stats. */
  lemma PiiBlocks(text: string, out: Option<string>, sums: seq<Summary>, k: nat)
    requires k < |sums| && PolicyOf(sums[k].validatorName) == Some(Pii)
    ensures !InputSpec(true, DefaultStats, text, Validated(false, out, sums)).passed
  {
    assert Blocks(DefaultStats, sums[k].validatorName);
  }

  /** What `validate_output` returns; the output guard leaves the counters alone. */
  function OutputSpec(available: bool, text: string, guard: GuardOutcome): (r: ValidationResult)
    ensures !available ==> r == ValidationResult(true, [], Some(text), None, NoMetadata)
    ensures available && guard.Raised? ==>
      r == ValidationResult(false, ["exception"], Some(text), Some(guard.message), NoMetadata)
    ensures available && guard.Validated? ==>
      r.validatedText == Some(OutputOr(guard.validatedOutput, text)) &&
      (r.passed <==> guard.validationPassed) &&
      (!guard.validationPassed ==> r.failures == Names(guard.summaries))
    ensures available && guard.Validated? && guard.validationPassed ==> r.failures == [] && r.failureMessage.None?
    ensures available && guard.Validated? && !guard.validationPassed ==>
      r.failureMessage == Some(Join(ErrorTexts(guard.summaries), "; "))
  {
    if !available then ValidationResult(true, [], Some(text), None, NoMetadata)
    else match guard
      case Raised(e) => ValidationResult(false, ["exception"], Some(text), Some(e), NoMetadata)
      case Validated(ok, out, sums) =>
        var validated := OutputOr(out, text);
        if ok then ValidationResult(true, [], Some(validated), None, NoMetadata)
        else
          ValidationResult(false, Names(sums), Some(validated), Some(Join(ErrorTexts(sums), "; ")), NoMetadata)
  }

  /** The error message of each summary, in order. */
  function ErrorTexts(sums: seq<Summary>): (r: seq<string>)
    ensures |r| == |sums| && forall i :: 0 <= i < |sums| ==> r[i] == sums[i].errorMessage
  {
    seq(|sums|, i requires 0 <= i < |sums| => sums[i].errorMessage)
  }

  datatype PolicyInfo = PolicyInfo(
    id: string, name: string, description: string, policyType: string, status: string, violations24h: nat)

  // ---------------------------------------------------------------------------
  // The wrapper

  class GuardrailsWrapper {
    var available: bool
    var stats: Stats

    /** `__init__`: default stats; unavailable when building the guards failed. */
    constructor(guardsBuilt: bool)
      ensures available == guardsBuilt && stats == DefaultStats
    {
      available := guardsBuilt;
      stats := DefaultStats;
    }

    /** `get_policies`: the three policies with their status and violation count. */
    function GetPolicies(): (r: seq<PolicyInfo>)
      reads this
      ensures |r| == 3
      ensures r[0].id == "pii" && r[1].id == "toxicity" && r[2].id == "competitors"
      ensures r[0].status == stats.pii.status && r[0].violations24h == stats.pii.violations
      ensures r[1].status == stats.toxicity.status && r[1].violations24h == stats.toxicity.violations
      ensures r[2].status == stats.competitors.status && r[2].violations24h == stats.competitors.violations
    {
      [PolicyInfo("pii", "PII Redaction", "Detects emails and phone numbers", "pii",
                  stats.pii.status, stats.pii.violations),
       PolicyInfo("toxicity", "Toxicity Filter", "Blocks toxic language", "toxicity",
                  stats.toxicity.status, stats.toxicity.violations),
       PolicyInfo("competitors", "Competitor Check", "Monitors competitor mentions", "topic",
                  stats.competitors.status, stats.competitors.violations)]
    }

    /**
     * `validate_input`: the result `InputSpec` describes; a failing validation also
     * adds each summary to its policy's violation counter.
     */
    method ValidateInput(text: string, guard: GuardOutcome) returns (r: ValidationResult)
      modifies this
      ensures available == old(available)
      ensures r == InputSpec(old(available), old(stats), text, guard)
      ensures Incremented(old(stats), stats, CountedSummaries(old(available), guard))
    {
      if !available {
        return ValidationResult(true, [], Some(text), None, Fallback);
      }
      match guard {
        case Raised(e) =>
          return ValidationResult(false, ["exception"], Some(text), Some(e), ErrorInfo(e));
        case Validated(ok, out, sums) =>
          var validated := if out.Some? then out.value else text;
          if ok {
            return ValidationResult(true, [], Some(validated), None, GuardrailsAi("passed"));
          }
          var failures, failureMsgs := RecordFailures(sums);
          BlocksKeepStatus(old(stats), stats, sums);
          var finalPassed := FinalPassed(stats, sums);
          r := ValidationResult(finalPassed, failures, Some(validated), Some(Join(failureMsgs, "; ")),
                                GuardrailsAi(if !finalPassed then "failed" else "monitor_only"));
      }
    }

    /** The first loop of a failing validation: count each summary and collect names and messages. */
    method RecordFailures(sums: seq<Summary>) returns (failures: seq<string>, failureMsgs: seq<string>)
      modifies this
      ensures available == old(available)
      ensures Incremented(old(stats), stats, sums)
      ensures failures == Names(sums) && failureMsgs == Messages(sums)
    {
      failures := [];
      failureMsgs := [];
      for i := 0 to |sums|
        invariant available == old(available)
        invariant Incremented(old(stats), stats, sums[..i])
        invariant failures == Names(sums[..i]) && failureMsgs == Messages(sums[..i])
      {
        var policy := PolicyOf(sums[i].validatorName);
        ghost var mid := stats;
        if policy.Some? {
          stats := stats.Bump(policy.value);
        }
        failures := failures + [sums[i].validatorName];
        failureMsgs := failureMsgs + [sums[i].validatorName + ": " + sums[i].errorMessage];
        IncrementedSnoc(old(stats), mid, stats, sums, i);
        ListsSnoc(sums, i);
      }
      assert sums[..|sums|] == sums;
    }

    /** `validate_output`: the result `OutputSpec` describes. */
    function ValidateOutput(text: string, guard: GuardOutcome): (r: ValidationResult)
      reads this
      ensures r == OutputSpec(available, text, guard)
      ensures !available ==> r.passed && r.validatedText == Some(text)
    {
      OutputSpec(available, text, guard)
    }
  }

  /** The second loop of a failing validation: fail at the first summary that blocks. */
  method FinalPassed(stats: Stats, sums: seq<Summary>) returns (passed: bool)
    ensures passed <==> forall j :: 0 <= j < |sums| ==> !Blocks(stats, sums[j].validatorName)
  {
    passed := true;
    for i := 0 to |sums|
      invariant passed
      invariant forall j :: 0 <= j < i ==> !Blocks(stats, sums[j].validatorName)
    {
      var status := "active";
      var policy := PolicyOf(sums[i].validatorName);
      if policy.Some? {
        status := stats.Of(policy.value).status;
      }
      if status == "active" {
        passed := false;
        break;
      }
    }
  }

  /** Counting violations leaves every policy's status, hence every blocking decision, as it was. */
  lemma BlocksKeepStatus(before: Stats, after: Stats, sums: seq<Summary>)
    requires Incremented(before, after, sums)
    ensures forall name :: Blocks(after, name) == Blocks(before, name)
  {
    forall name ensures Blocks(after, name) == Blocks(before, name) {
      match PolicyOf(name)
      case None =>
      case Some(p) => assert after.Of(p).status == before.Of(p).status;
    }
  }

  /** One more summary counted: its policy, if any, gets one more violation. */
  lemma IncrementedSnoc(before: Stats, mid: Stats, after: Stats, sums: seq<Summary>, i: nat)
    requires i < |sums| && Incremented(before, mid, sums[..i])
    requires PolicyOf(sums[i].validatorName).None? ==> after == mid
    requires PolicyOf(sums[i].validatorName).Some? ==> after == mid.Bump(PolicyOf(sums[i].validatorName).value)
    ensures Incremented(before, after, sums[..i + 1])
  {
    CountPolicySnoc(sums, i);
  }

  /** The names and messages of one more summary. */
  lemma ListsSnoc(sums: seq<Summary>, i: nat)
    requires i < |sums|
    ensures Names(sums[..i + 1]) == Names(sums[..i]) + [sums[i].validatorName]
    ensures Messages(sums[..i + 1]) == Messages(sums[..i]) + [sums[i].validatorName + ": " + sums[i].errorMessage]
  {
    var a, b := Names(sums[..i + 1]), Names(sums[..i]) + [sums[i].validatorName];
    assert forall k :: 0 <= k < |a| ==> a[k] == b[k];
    var c, d := Messages(sums[..i + 1]), Messages(sums[..i]) + [sums[i].validatorName + ": " + sums[i].errorMessage];
    assert forall k :: 0 <= k < |c| ==> c[k] == d[k];
  }

  lemma CountPolicySnoc(sums: seq<Summary>, i: nat)
    requires i < |sums|
    ensures forall p: Policy :: CountPolicy(sums[..i + 1], p) ==
                                CountPolicy(sums[..i], p) + (if PolicyOf(sums[i].validatorName) == Some(p) then 1 else 0)
  {
    assert sums[..i + 1][..i] == sums[..i];
  }

  /** The process-wide wrapper of `get_guardrails_wrapper`. */
  class WrapperRegistry {
    var instance: Option<GuardrailsWrapper>

    constructor()
      ensures instance == None
    {
      instance := None;
    }

    /** The first call builds the wrapper; every later call returns that same object. */
    method Get(guardsBuilt: bool) returns (w: GuardrailsWrapper)
      modifies this
      ensures old(instance).Some? ==> w == old(instance).value && instance == old(instance)
      ensures old(instance).None? ==> fresh(w) && instance == Some(w) &&
                                      w.available == guardsBuilt && w.stats == DefaultStats
    {
      if instance.None? {
        w := new GuardrailsWrapper(guardsBuilt);
        instance := Some(w);
      } else {
        w := instance.value;
      }
    }
  }
}
