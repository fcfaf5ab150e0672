/**
 * The confidence aggregation of the confidence library
 * (`compute_confidence` in ai-confidence/src/ai_confidence/scorer.py).
 *
 * The PII scan's labels, the judge's two replies, `json.loads` and Python's
 * `float(str)` are parameters. The policy judge's reply is read only when the scan
 * found nothing, as in the code; the prompts sent to the judge are not modelled.
 * Scores are exact reals and `round` rounds halves to even.
 */
module AiScorer {
  import opened Common
  import opened Json
  import opened Strings
  import opened AiJudge
  import opened AiHeuristics
  import opened AiRouting

  datatype RunContext = RunContext(runId: string, stepId: string)

  /** `LLMCall`, with the fields the aggregation reads. */
  datatype LlmCall = LlmCall(userPrompt: string, contexts: seq<RetrievedChunk>, outputText: string)

  datatype Gate = PiiPciDetected | PolicyJudgeFail | LowGroundedness

  function GateName(g: Gate): string
  {
    match g
    case PiiPciDetected => "PII_PCI_DETECTED"
    case PolicyJudgeFail => "POLICY_JUDGE_FAIL"
    case LowGroundedness => "LOW_GROUNDEDNESS"
  }

  datatype Components = Components(retrievalQuality: real, groundedness: real, policyScore: real)

  /** The `raw` dict: `policy_judge` is present only when the policy judge was consulted. */
  datatype Raw = Raw(retrieval: Details, policyJudge: Option<Json>, groundingJudge: Json)

  datatype ConfidenceReport = ConfidenceReport(
    runId: string,
    stepId: string,
    overallConfidence: int,
    routing: Routing,
    components: Components,
    gates: seq<Gate>,
    notes: seq<string>,
    raw: Raw)

  // ---------------------------------------------------------------------------
  // Reading the judges' JSON

  /** `d.get(key)` on a decoded object: the last binding of a repeated key wins, as in `json.loads`. */
  function Get(fields: seq<(string, Json)>, key: string): (r: Option<Json>)
    ensures r.None? <==> forall i :: 0 <= i < |fields| ==> fields[i].0 != key
    ensures r.Some? ==> exists i :: 0 <= i < |fields| && fields[i] == (key, r.value)
  {
    if |fields| == 0 then None
    else if fields[|fields| - 1].0 == key then Some(fields[|fields| - 1].1)
    else
      var front := fields[..|fields| - 1];
      assert forall i :: 0 <= i < |front| ==> front[i] == fields[i];
      Get(front, key)
  }

  /** `d.get(key, default)`. */
  function GetOr(fields: seq<(string, Json)>, key: string, default: Json): Json
  {
    match Get(fields, key)
    case None => default
    case Some(v) => v
  }

  /** The distinct keys of a decoded object, in the order they first appear. */
  function Keys(fields: seq<(string, Json)>): (r: seq<string>)
    ensures forall k :: k in r <==> exists i :: 0 <= i < |fields| && fields[i].0 == k
    ensures forall i, j :: 0 <= i < j < |r| ==> r[i] != r[j]
  {
    if |fields| == 0 then []
    else
      var front := fields[..|fields| - 1];
      assert forall i :: 0 <= i < |front| ==> front[i] == fields[i];
      var k := fields[|fields| - 1].0;
      Keys(front) + (if k in Keys(front) then [] else [k])
  }

  /** `float(x)` on a decoded value. */
  function Float(j: Json, parseFloat: string -> Option<real>): (r: Result<real, string>)
    ensures j.JNum? ==> r == Ok(j.n)
    ensures j.JNull? || j.JArr? || j.JObj? ==> r.Err?
  {
    match j
    case JNum(n) => Ok(n)
    case JBool(b) => Ok(if b then 1.0 else 0.0)
    case JStr(s) => if parseFloat(s).Some? then Ok(parseFloat(s).value) else Err("ValueError")
    case _ => Err("TypeError")
  }

  /** The strings of a list of JSON strings. */
  function Texts(items: seq<Json>): (r: seq<string>)
    requires forall i :: 0 <= i < |items| ==> items[i].JStr?
    ensures |r| == |items| && forall i :: 0 <= i < |items| ==> r[i] == items[i].s
  {
    if |items| == 0 then [] else [items[0].s] + Texts(items[1..])
  }

  /** The one-character strings of a string, as iterating over it gives them. */
  function Chars(s: string): (r: seq<string>)
    ensures |r| == |s| && forall i :: 0 <= i < |s| ==> r[i] == [s[i]]
  {
    if |s| == 0 then [] else [[s[0]]] + Chars(s[1..])
  }

  /** Every item of a list is a JSON string. */
  predicate AllTexts(items: seq<Json>)
  {
    forall i :: 0 <= i < |items| ==> items[i].JStr?
  }

  /** `", ".join(v)` for the judge's violations after `or []`: a list of strings, a string's characters or an object's keys. */
  function JoinViolations(v: Json): (r: Result<string, string>)
    ensures !Truthy(v) ==> r == Ok("")
    ensures v.JArr? && AllTexts(v.items) ==> r == Ok(Join(Texts(v.items), ", "))
    ensures v.JArr? && !AllTexts(v.items) ==> r == Err("TypeError")
    ensures v.JNum? || v.JBool? ==> (r.Ok? <==> !Truthy(v))
  {
    if !Truthy(v) then Ok("")
    else match v
      case JArr(items) => if AllTexts(items) then Ok(Join(Texts(items), ", ")) else Err("TypeError")
      case JStr(s) => Ok(Join(Chars(s), ", "))
      case JObj(fields) => Ok(Join(Keys(fields), ", "))
      case _ => Err("TypeError")
  }

  // ---------------------------------------------------------------------------
  // The parts of the score

  /** The policy score, its gates and notes, and the policy judge's object when it was consulted. */
  datatype PolicyCheck = PolicyCheck(score: real, gates: seq<Gate>, notes: seq<string>, judged: Option<Json>)

  /**
   * A PII hit scores 0 and skips the judge; otherwise the judge's `"pass"` decides,
   * a missing one counting as a pass, and a failing verdict scores 0.
   */
  function PolicyOf(violations: seq<string>, reply: string, decode: string -> Result<Json, string>): (r: Result<PolicyCheck, string>)
    ensures violations != [] ==>
      r == Ok(PolicyCheck(0.0, [PiiPciDetected], ["PII/PCI detected: " + Join(violations, ", ")], None))
    ensures violations == [] && ExtractJson(reply, decode).Err? ==> r == Err(ExtractJson(reply, decode).error)
    ensures r.Ok? && violations == [] ==>
      ExtractJson(reply, decode).Ok? && ExtractJson(reply, decode).value.JObj? &&
      r.value.judged == Some(ExtractJson(reply, decode).value)
    ensures r.Ok? ==> (r.value.score == 0.0 <==> r.value.gates != []) && (r.value.score == 0.0 || r.value.score == 1.0)
    ensures r.Ok? ==> |r.value.gates| <= 1 && |r.value.notes| == |r.value.gates|
    ensures violations == [] && ExtractJson(reply, decode).Ok? && !ExtractJson(reply, decode).value.JObj? ==>
      r == Err("AttributeError")
    ensures violations == [] && ExtractJson(reply, decode).Ok? && ExtractJson(reply, decode).value.JObj? ==>
      var pol := ExtractJson(reply, decode).value;
      var verdict := GetOr(pol.fields, "pass", JBool(true));
      var joined := JoinViolations(GetOr(pol.fields, "violations", JArr([])));
      (Truthy(verdict) ==> r == Ok(PolicyCheck(1.0, [], [], Some(pol)))) &&
      (!Truthy(verdict) ==> (r.Ok? <==> joined.Ok?)) &&
      (!Truthy(verdict) && joined.Ok? ==>
        r == Ok(PolicyCheck(0.0, [PolicyJudgeFail], ["Policy violations: " + joined.value], Some(pol))))
  {
    if violations != [] then
      Ok(PolicyCheck(0.0, [PiiPciDetected], ["PII/PCI detected: " + Join(violations, ", ")], None))
    else
      match ExtractJson(reply, decode)
      case Err(e) => Err(e)
      case Ok(pol) =>
        if !pol.JObj? then Err("AttributeError")
        else if Truthy(GetOr(pol.fields, "pass", JBool(true))) then Ok(PolicyCheck(1.0, [], [], Some(pol)))
        else
          match JoinViolations(GetOr(pol.fields, "violations", JArr([])))
          case Err(e) => Err(e)
          case Ok(text) => Ok(PolicyCheck(0.0, [PolicyJudgeFail], ["Policy violations: " + text], Some(pol)))
  }

  datatype Grounding = Grounding(score: real, judged: Json)

  /** The grounding judge's `"score"` (0.0 when missing) as a float, clamped to [0, 1]. */
  function GroundingOf(reply: string, decode: string -> Result<Json, string>, parseFloat: string -> Option<real>)
    : (r: Result<Grounding, string>)
    ensures r.Ok? ==> 0.0 <= r.value.score <= 1.0
    ensures r.Ok? ==> ExtractJson(reply, decode) == Ok(r.value.judged) && r.value.judged.JObj?
    ensures r.Ok? && Get(r.value.judged.fields, "score").None? ==> r.value.score == 0.0
    ensures r.Ok? && Get(r.value.judged.fields, "score").Some? && Get(r.value.judged.fields, "score").value.JNum? ==>
      r.value.score == Clamp01(Get(r.value.judged.fields, "score").value.n)
  {
    match ExtractJson(reply, decode)
    case Err(e) => Err(e)
    case Ok(g) =>
      if !g.JObj? then Err("AttributeError")
      else
        match Float(GetOr(g.fields, "score", JNum(0.0)), parseFloat)
        case Err(e) => Err(e)
        case Ok(x) => Ok(Grounding(Clamp01(x), g))
  }

  /** The weighted sum, capped at 0.2 for a zero policy score and at 0.5 for groundedness below 0.4. */
  function Capped(rq: real, g: real, policy: real): (c: real)
    ensures c <= 0.35 * rq + 0.50 * g + 0.15 * policy
    ensures policy == 0.0 ==> c <= 0.2
    ensures g < 0.4 ==> c <= 0.5
    ensures policy != 0.0 && g >= 0.4 ==> c == 0.35 * rq + 0.50 * g + 0.15 * policy
    ensures c == 0.35 * rq + 0.50 * g + 0.15 * policy || c == 0.2 || c == 0.5
    ensures policy == 0.0 ==> c == Min(0.35 * rq + 0.50 * g + 0.15 * policy, 0.2)
    ensures policy != 0.0 && g < 0.4 ==> c == Min(0.35 * rq + 0.50 * g + 0.15 * policy, 0.5)
  {
    var c0 := 0.35 * rq + 0.50 * g + 0.15 * policy;
    var c1 := if policy == 0.0 then Min(c0, 0.2) else c0;
    if g < 0.4 then Min(c1, 0.5) else c1
  }

  function Min(a: real, b: real): real
  {
    if a <= b then a else b
  }

  /** Python's `round` on a real: to the nearest integer, halves to the even one. */
  function RoundHalfEven(x: real): (r: int)
    ensures x - 0.5 <= r as real <= x + 0.5
    ensures (r as real) - x == 0.5 || x - (r as real) == 0.5 ==> r % 2 == 0
  {
    var f := x.Floor;
    var d := x - f as real;
    if d < 0.5 then f else if d > 0.5 then f + 1 else if f % 2 == 0 then f else f + 1
  }

  /** `int(round(clamp01(raw) * 100))`. */
  function Percent(raw: real): (p: int)
    ensures 0 <= p <= 100
    ensures raw <= 0.2 ==> p <= 20
    ensures raw <= 0.5 ==> p <= 50
  {
    RoundHalfEven(Clamp01(raw) * 100.0)
  }

  /** What `compute_confidence` returns, or the exception it raises. */
  function Report(run: RunContext, call: LlmCall, violations: seq<string>, policyReply: string, groundingReply: string,
                  decode: string -> Result<Json, string>, parseFloat: string -> Option<real>)
    : (r: Result<ConfidenceReport, string>)
    ensures r.Ok? ==> 0 <= r.value.overallConfidence <= 100 && r.value.routing == Route(r.value.overallConfidence)
    ensures r.Ok? ==> 0.0 <= r.value.components.groundedness <= 1.0 && 0.0 <= r.value.components.retrievalQuality <= 1.0
    ensures r.Ok? ==> r.value.runId == run.runId && r.value.stepId == run.stepId
  {
    var rq := RetrievalQuality(call.contexts);
    match PolicyOf(violations, policyReply, decode)
    case Err(e) => Err(e)
    case Ok(p) =>
      match GroundingOf(groundingReply, decode, parseFloat)
      case Err(e) => Err(e)
      case Ok(gr) =>
        Ok(Assemble(run, rq, p, gr))
  }

  /** The report built from the three parts: the capped sum as a percentage, with the low-groundedness gate last. */
  function Assemble(run: RunContext, rq: (real, Details), p: PolicyCheck, gr: Grounding): ConfidenceReport
  {
    var overall := Percent(Capped(rq.0, gr.score, p.score));
    ConfidenceReport(run.runId, run.stepId, overall, Route(overall), Components(rq.0, gr.score, p.score),
                     p.gates + (if gr.score < 0.4 then [LowGroundedness] else []), p.notes,
                     Raw(rq.1, p.judged, gr.judged))
  }

  // ---------------------------------------------------------------------------
  // Properties of the report

  /** A PII hit zeroes the policy score, opens the gates, caps the confidence at 20 and never reads the policy judge. */
  lemma PiiHitSkipsJudge(run: RunContext, call: LlmCall, violations: seq<string>, policyReply: string, otherReply: string,
                         groundingReply: string, decode: string -> Result<Json, string>, parseFloat: string -> Option<real>)
    requires violations != []
    requires Report(run, call, violations, policyReply, groundingReply, decode, parseFloat).Ok?
    ensures var rep := Report(run, call, violations, policyReply, groundingReply, decode, parseFloat).value;
      rep.components.policyScore == 0.0 && rep.gates[0] == PiiPciDetected && rep.raw.policyJudge.None? &&
      rep.notes == ["PII/PCI detected: " + Join(violations, ", ")] && rep.overallConfidence <= 20
    ensures Report(run, call, violations, otherReply, groundingReply, decode, parseFloat) ==
            Report(run, call, violations, policyReply, groundingReply, decode, parseFloat)
  {
  }

  /** With no PII hit, a falsy `"pass"` from the judge gives the judge-fail gate and caps the confidence at 20. */
  lemma JudgeFailGates(run: RunContext, call: LlmCall, policyReply: string, groundingReply: string,
                       decode: string -> Result<Json, string>, parseFloat: string -> Option<real>)
    requires Report(run, call, [], policyReply, groundingReply, decode, parseFloat).Ok?
    requires var pol := ExtractJson(policyReply, decode);
      pol.Ok? && pol.value.JObj? && !Truthy(GetOr(pol.value.fields, "pass", JBool(true)))
    ensures var rep := Report(run, call, [], policyReply, groundingReply, decode, parseFloat).value;
      rep.components.policyScore == 0.0 && rep.gates[0] == PolicyJudgeFail &&
      rep.raw.policyJudge == Some(ExtractJson(policyReply, decode).value) && rep.overallConfidence <= 20
  {
  }

  /** A judge object without `"pass"` counts as a pass: the policy score is 1 and no policy gate opens. */
  lemma MissingPassCountsAsPass(run: RunContext, call: LlmCall, policyReply: string, groundingReply: string,
                                decode: string -> Result<Json, string>, parseFloat: string -> Option<real>)
    requires var pol := ExtractJson(policyReply, decode);
      pol.Ok? && pol.value.JObj? && Get(pol.value.fields, "pass").None?
    requires Report(run, call, [], policyReply, groundingReply, decode, parseFloat).Ok?
    ensures var rep := Report(run, call, [], policyReply, groundingReply, decode, parseFloat).value;
      rep.components.policyScore == 1.0 && PolicyJudgeFail !in rep.gates && PiiPciDetected !in rep.gates
  {
  }

  /** Groundedness below 0.4 caps the confidence at 50 and adds the last gate, after any policy gate. */
  lemma LowGroundednessCaps(run: RunContext, call: LlmCall, violations: seq<string>, policyReply: string, groundingReply: string,
                            decode: string -> Result<Json, string>, parseFloat: string -> Option<real>)
    requires Report(run, call, violations, policyReply, groundingReply, decode, parseFloat).Ok?
    requires Report(run, call, violations, policyReply, groundingReply, decode, parseFloat).value.components.groundedness < 0.4
    ensures var rep := Report(run, call, violations, policyReply, groundingReply, decode, parseFloat).value;
      rep.overallConfidence <= 50 && |rep.gates| >= 1 && rep.gates[|rep.gates| - 1] == LowGroundedness &&
      rep.gates[..|rep.gates| - 1] == PolicyOf(violations, policyReply, decode).value.gates
  {
  }

  /** With no cap in force the confidence is the rounded weighted sum, which needs no clamping. */
  lemma UncappedScore(run: RunContext, call: LlmCall, violations: seq<string>, policyReply: string, groundingReply: string,
                      decode: string -> Result<Json, string>, parseFloat: string -> Option<real>)
    requires Report(run, call, violations, policyReply, groundingReply, decode, parseFloat).Ok?
    requires var c := Report(run, call, violations, policyReply, groundingReply, decode, parseFloat).value.components;
      c.policyScore == 1.0 && c.groundedness >= 0.4
    ensures var rep := Report(run, call, violations, policyReply, groundingReply, decode, parseFloat).value;
      var c := rep.components;
      rep.gates == [] &&
      rep.overallConfidence == RoundHalfEven((0.35 * c.retrievalQuality + 0.50 * c.groundedness + 0.15) * 100.0)
  {
  }

  // ---------------------------------------------------------------------------
  // The code's step-by-step form

  /** The policy part of `compute_confidence`: the scan, then the judge as a backstop. */
  method CheckPolicy(violations: seq<string>, reply: string, decode: string -> Result<Json, string>)
    returns (r: Result<PolicyCheck, string>)
    ensures r == PolicyOf(violations, reply, decode)
  {
    var gates: seq<Gate> := [];
    var notes: seq<string> := [];
    var policyJudge: Option<Json> := None;
    var policyScore := if violations == [] then 1.0 else 0.0;
    if violations != [] {
      gates := gates + [PiiPciDetected];
      notes := notes + ["PII/PCI detected: " + Join(violations, ", ")];
      assert gates == [PiiPciDetected] && notes == ["PII/PCI detected: " + Join(violations, ", ")];
      return Ok(PolicyCheck(policyScore, gates, notes, policyJudge));
    }
    var pol := ExtractJson(reply, decode);
    if pol.Err? {
      return Err(pol.error);
    }
    if !pol.value.JObj? {
      return Err("AttributeError");
    }
    policyJudge := Some(pol.value);
    if !Truthy(GetOr(pol.value.fields, "pass", JBool(true))) {
      policyScore := 0.0;
      gates := gates + [PolicyJudgeFail];
      var v := JoinViolations(GetOr(pol.value.fields, "violations", JArr([])));
      if v.Err? {
        return Err(v.error);
      }
      notes := notes + ["Policy violations: " + v.value];
      assert gates == [PolicyJudgeFail] && notes == ["Policy violations: " + v.value];
      return Ok(PolicyCheck(policyScore, gates, notes, policyJudge));
    }
    return Ok(PolicyCheck(policyScore, gates, notes, policyJudge));
  }

  /** `compute_confidence`: the policy check, the grounding judge, then the weighted sum capped by reassignment. */
  method ComputeConfidence(run: RunContext, call: LlmCall, violations: seq<string>, policyReply: string,
                           groundingReply: string, decode: string -> Result<Json, string>,
                           parseFloat: string -> Option<real>)
    returns (r: Result<ConfidenceReport, string>)
    ensures r == Report(run, call, violations, policyReply, groundingReply, decode, parseFloat)
  {
    var rq := RetrievalQuality(call.contexts);
    var policy := CheckPolicy(violations, policyReply, decode);
    if policy.Err? {
      return Err(policy.error);
    }
    var gates := policy.value.gates;
    var policyScore := policy.value.score;

    var g := ExtractJson(groundingReply, decode);
    if g.Err? {
      return Err(g.error);
    }
    if !g.value.JObj? {
      return Err("AttributeError");
    }
    var score := Float(GetOr(g.value.fields, "score", JNum(0.0)), parseFloat);
    if score.Err? {
      return Err(score.error);
    }
    var groundedness := Clamp01(score.value);
    assert GroundingOf(groundingReply, decode, parseFloat) == Ok(Grounding(groundedness, g.value));

    var confidenceRaw := 0.35 * rq.0 + 0.50 * groundedness + 0.15 * policyScore;
    if policyScore == 0.0 {
      confidenceRaw := Min(confidenceRaw, 0.2);
    }
    if groundedness < 0.4 {
      confidenceRaw := Min(confidenceRaw, 0.5);
      gates := gates + [LowGroundedness];
    }
    assert confidenceRaw == Capped(rq.0, groundedness, policyScore);
    var overall := Percent(confidenceRaw);
    r := Ok(ConfidenceReport(run.runId, run.stepId, overall, Route(overall),
                             Components(rq.0, groundedness, policyScore), gates, policy.value.notes,
                             Raw(rq.1, policy.value.judged, g.value)));
    assert gates == policy.value.gates + (if groundedness < 0.4 then [LowGroundedness] else []);
    assert r == Ok(Assemble(run, rq, policy.value, Grounding(groundedness, g.value)));
  }
}
