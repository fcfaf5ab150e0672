/**
 * The backend's heuristic confidence score for a finished LLM run
 * (fulcrum-llm-ops/backend/app/services/confidence.py).
 *
 * Scores and weights are integer hundredths: 25 stands for 0.25. Every weight is a
 * whole number of hundredths, so Python's `round(score, 2)` is the identity here.
 * The reason and note texts are enumerations; `ReasonText` and `NoteText` give the
 * strings the source writes.
 */
module Confidence {
  import opened Common
  import opened Strings

  datatype Label = Low | Medium | High

  /** The keys of the components map. */
  datatype Signal = BaseScore | JsonParsed | RetrievalBoosted | AssumptionCheck | RiskAnalysis | ErrorPenalty

  function SignalKey(k: Signal): string
  {
    match k
    case BaseScore => "base_score"
    case JsonParsed => "json_parsed"
    case RetrievalBoosted => "retrieval_boost"
    case AssumptionCheck => "assumption_check"
    case RiskAnalysis => "risk_analysis"
    case ErrorPenalty => "error_penalty"
  }

  /** Why a component has its value. */
  datatype Reason =
    | CompletedRun | RunFailed
    | JsonFound | JsonMissing
    | HighGrounding(count: int) | PartialGrounding(count: int) | ZeroShot
    | AssumptionsStated | AssumptionsMissing
    | RiskAnalysed | RiskMissing

  function ReasonText(r: Reason): string
  {
    match r
    case CompletedRun => "Base confidence for any completed run"
    case RunFailed => "Run failed or timed out"
    case JsonFound => "Structured output (JSON) successfully parsed"
    case JsonMissing => "No valid JSON structure found in output"
    case HighGrounding(n) => "High grounding: " + IntToString(n) + " sources retrieved"
    case PartialGrounding(n) => "Partial grounding: " + IntToString(n) + " source retrieved"
    case ZeroShot => "No context retrieved (zero-shot)"
    case AssumptionsStated => "Model explicitly checked/stated assumptions"
    case AssumptionsMissing => "Model did not explicitly state assumptions"
    case RiskAnalysed => "Model performed risk analysis"
    case RiskMissing => "Model did not explicitly disable risk analysis"
  }

  /** One entry of the components map: its contribution (hundredths), whether it fired, and why. */
  datatype Component = Component(value: int, fired: bool, reason: Reason)

  /** The note of an evidence entry. */
  datatype Note = JsonNote | MultipleSources | SingleSource | KeywordNote(keyword: string)

  function NoteText(n: Note): string
  {
    match n
    case JsonNote => "Valid JSON parsed from structured output"
    case MultipleSources => "Multiple retrieved sources increased confidence"
    case SingleSource => "Single source retrieval gave partial boost"
    case KeywordNote(k) => "Detected keyword '" + k + "'"
  }

  /** One evidence entry: which component, which artifact, where, the quoted excerpt and a note. */
  datatype Evidence = Evidence(component: Signal, artifact: string, path: string, excerpt: string, note: Note)

  /** The explanation object; `components` keeps the insertion order of the source's dict. */
  datatype Explanation = Explanation(
    score: int,
    scoreLabel: Label,
    components: seq<(Signal, Component)>,
    evidence: seq<Evidence>)

  const BaseWeight := 25
  const JsonWeight := 30
  const RetrievalMinWeight := 15
  const RetrievalMaxWeight := 25
  const RiskWeight := 10
  const AssumptionWeight := 10

  function LabelName(l: Label): string
  {
    match l
    case Low => "low"
    case Medium => "medium"
    case High => "high"
  }

  /** The label thresholds 0.8 and 0.5. */
  function LabelFor(score: int): (l: Label)
    ensures l == High <==> score >= 80
    ensures l == Low <==> score < 50
  {
    if score >= 80 then High else if score >= 50 then Medium else Low
  }

  /** 0.15 for a single source, 0.25 for two or more, nothing without retrieval. */
  function RetrievalBoost(retrievalCount: int): (b: int)
    ensures 0 <= b <= RetrievalMaxWeight
    ensures b > 0 <==> retrievalCount >= 1
    ensures b == RetrievalMaxWeight <==> retrievalCount >= 2
  {
    if retrievalCount >= 2 then RetrievalMaxWeight
    else if retrievalCount >= 1 then RetrievalMinWeight
    else 0
  }

  predicate Mentions(text: string, keyword: string)
  {
    Contains(Lower(text), keyword)
  }

  /** The reference sum of the fired weights on a successful run. */
  function SignalScore(text: string, retrievalCount: int, parseSuccess: bool): (score: int)
    ensures BaseWeight <= score <= 100
    ensures score == 100 <==>
      parseSuccess && retrievalCount >= 2 && Mentions(text, "assumption") && Mentions(text, "risk")
  {
    BaseWeight
    + (if parseSuccess then JsonWeight else 0)
    + RetrievalBoost(retrievalCount)
    + (if Mentions(text, "assumption") then AssumptionWeight else 0)
    + (if Mentions(text, "risk") then RiskWeight else 0)
  }

  function Min(a: int, b: int): int { if a <= b then a else b }
  function Max(a: int, b: int): int { if a >= b then a else b }

  /** `idx` is where `keyword` first occurs in `s`, as `str.find` reports it. */
  predicate FirstOccurrence(s: string, keyword: string, idx: int)
  {
    OccursAt(s, keyword, idx) && forall j :: 0 <= j < idx ==> !OccursAt(s, keyword, j)
  }

  /**
   * The quoted context of the first occurrence of `keyword` in the lowercased text:
   * up to 20 characters before and 50 from its start, newlines shown as spaces.
   */
  function Excerpt(text: string, keyword: string): (r: string)
    requires Mentions(text, keyword)
    ensures exists idx :: FirstOccurrence(Lower(text), keyword, idx) &&
              r == "..." + Replace(text[Max(0, idx - 20)..Min(|text|, idx + 50)], "\n", " ") + "..."
  {
    var idx := Find(Lower(text), keyword).value;
    assert FirstOccurrence(Lower(text), keyword, idx);
    var start := Max(0, idx - 20);
    var end := Min(|text|, idx + 50);
    "..." + Replace(text[start..end], "\n", " ") + "..."
  }

  /** The excerpt of a keyword the text mentions, or `None`. */
  function ExcerptIfMentioned(text: string, keyword: string): (r: Option<string>)
    ensures r.Some? <==> Mentions(text, keyword)
  {
    if Mentions(text, keyword) then Some(Excerpt(text, keyword)) else None
  }

  /** The components are exactly the signals `ks`, in that order. */
  predicate HasSignals(cs: seq<(Signal, Component)>, ks: seq<Signal>)
  {
    |cs| == |ks| && forall i :: 0 <= i < |cs| ==> cs[i].0 == ks[i]
  }

  function SumValues(cs: seq<(Signal, Component)>): int
  {
    if |cs| == 0 then 0 else cs[0].1.value + SumValues(cs[1..])
  }

  lemma {:induction false} SumValuesAppend(a: seq<(Signal, Component)>, b: seq<(Signal, Component)>)
    ensures SumValues(a + b) == SumValues(a) + SumValues(b)
  {
    if |a| > 0 {
      assert (a + b)[1..] == a[1..] + b;
      SumValuesAppend(a[1..], b);
    } else {
      assert a + b == b;
    }
  }

  predicate FiredComponent(cs: seq<(Signal, Component)>, name: Signal)
  {
    exists i :: 0 <= i < |cs| && cs[i].0 == name && cs[i].1.fired
  }

  /** A component fired exactly when it contributed a non-zero value. */
  predicate FiringMatchesValues(cs: seq<(Signal, Component)>)
  {
    forall i :: 0 <= i < |cs| ==> (cs[i].1.fired <==> cs[i].1.value != 0)
  }

  /** Every evidence entry belongs to a component that fired. */
  predicate EvidenceBacked(cs: seq<(Signal, Component)>, evidence: seq<Evidence>)
  {
    forall j :: 0 <= j < |evidence| ==> FiredComponent(cs, evidence[j].component)
  }

  /** The backward-compatible components map: each key with its value. */
  function SimpleComponents(cs: seq<(Signal, Component)>): (r: seq<(string, int)>)
    ensures |r| == |cs|
    ensures forall i :: 0 <= i < |cs| ==> r[i] == (SignalKey(cs[i].0), cs[i].1.value)
  {
    if |cs| == 0 then [] else [(SignalKey(cs[0].0), cs[0].1.value)] + SimpleComponents(cs[1..])
  }

  const SuccessSignals: seq<Signal> :=
    [BaseScore, JsonParsed, RetrievalBoosted, AssumptionCheck, RiskAnalysis]

  const FailureComponents: seq<(Signal, Component)> :=
    [(BaseScore, Component(BaseWeight, true, CompletedRun)), (ErrorPenalty, Component(-100, true, RunFailed))]

  function RetrievalComponent(retrievalCount: int): Component
  {
    if retrievalCount >= 2 then Component(RetrievalMaxWeight, true, HighGrounding(retrievalCount))
    else if retrievalCount >= 1 then Component(RetrievalMinWeight, true, PartialGrounding(retrievalCount))
    else Component(0, false, ZeroShot)
  }

  /**
   * The components map of a successful run, in the order the source fills it, given
   * whether the output parsed, how many sources were retrieved and which keywords occur.
   */
  function SuccessComponents(parseSuccess: bool, retrievalCount: int, assumption: bool, risk: bool): seq<(Signal, Component)>
  {
    [(BaseScore, Component(BaseWeight, true, CompletedRun)),
     (JsonParsed, if parseSuccess then Component(JsonWeight, true, JsonFound) else Component(0, false, JsonMissing)),
     (RetrievalBoosted, RetrievalComponent(retrievalCount)),
     (AssumptionCheck,
      if assumption then Component(AssumptionWeight, true, AssumptionsStated) else Component(0, false, AssumptionsMissing)),
     (RiskAnalysis, if risk then Component(RiskWeight, true, RiskAnalysed) else Component(0, false, RiskMissing))]
  }

  /** The components name the five signals in order, each firing with its weight or silent with 0. */
  lemma SuccessComponentsShape(parseSuccess: bool, retrievalCount: int, assumption: bool, risk: bool)
    ensures var cs := SuccessComponents(parseSuccess, retrievalCount, assumption, risk);
      HasSignals(cs, SuccessSignals) && FiringMatchesValues(cs) &&
      cs[0].1.value == BaseWeight && cs[0].1.fired &&
      (cs[1].1.fired <==> parseSuccess) && cs[1].1.value == (if parseSuccess then JsonWeight else 0) &&
      (cs[2].1.fired <==> retrievalCount >= 1) && cs[2].1.value == RetrievalBoost(retrievalCount) &&
      (cs[3].1.fired <==> assumption) && cs[3].1.value == (if assumption then AssumptionWeight else 0) &&
      (cs[4].1.fired <==> risk) && cs[4].1.value == (if risk then RiskWeight else 0)
  {
  }

  /** The component values add up to the reference score. */
  lemma SuccessComponentsSum(text: string, retrievalCount: int, parseSuccess: bool)
    ensures SumValues(SuccessComponents(parseSuccess, retrievalCount, Mentions(text, "assumption"), Mentions(text, "risk")))
            == SignalScore(text, retrievalCount, parseSuccess)
  {
    SumOfFive(SuccessComponents(parseSuccess, retrievalCount, Mentions(text, "assumption"), Mentions(text, "risk")));
  }

  function RetrievalEvidence(retrievalCount: int): Evidence
  {
    Evidence(RetrievalBoosted, "retrieved_sources.json", "length", "count=" + IntToString(retrievalCount),
             if retrievalCount >= 2 then MultipleSources else SingleSource)
  }

  function KeywordEvidence(component: Signal, keyword: string, excerpt: string): Evidence
  {
    Evidence(component, "llm_response.txt", "text", excerpt, KeywordNote(keyword))
  }

  function OrEmpty(x: Option<string>): string
  {
    if x.Some? then x.value else ""
  }

  /** `ev`, with `e` appended when `b` holds. */
  function AppendIf(ev: seq<Evidence>, b: bool, e: Evidence): seq<Evidence>
  {
    if b then ev + [e] else ev
  }

  const JsonEvidence := Evidence(JsonParsed, "parsed_forecast.json", "$", "(Valid JSON Object)", JsonNote)

  /**
   * The evidence list of a successful run, given whether the output parsed, how many
   * sources were retrieved and the excerpt of each keyword that occurs, appended to in
   * the order the signals are examined.
   */
  function SuccessEvidence(parseSuccess: bool, retrievalCount: int, assumption: Option<string>, risk: Option<string>): seq<Evidence>
  {
    var e1 := AppendIf([], parseSuccess, JsonEvidence);
    var e2 := AppendIf(e1, retrievalCount >= 1, RetrievalEvidence(retrievalCount));
    var e3 := AppendIf(e2, assumption.Some?, KeywordEvidence(AssumptionCheck, "assumption", OrEmpty(assumption)));
    AppendIf(e3, risk.Some?, KeywordEvidence(RiskAnalysis, "risk", OrEmpty(risk)))
  }

  /** The position of a signal in the components map. */
  function Rank(k: Signal): nat
  {
    match k
    case BaseScore => 0
    case JsonParsed => 1
    case RetrievalBoosted => 2
    case AssumptionCheck => 3
    case RiskAnalysis => 4
    case ErrorPenalty => 5
  }

  /** The entries of `ev` name components in strictly increasing component order, all before rank `n`. */
  predicate OrderedBelow(ev: seq<Evidence>, n: nat)
  {
    (forall j :: 0 <= j < |ev| ==> Rank(ev[j].component) < n) &&
    (forall j, k :: 0 <= j < k < |ev| ==> Rank(ev[j].component) < Rank(ev[k].component))
  }

  /** Some evidence entry names component `k`. */
  predicate HasEntry(ev: seq<Evidence>, k: Signal)
  {
    exists j :: 0 <= j < |ev| && ev[j].component == k
  }

  lemma AppendIfOrdered(ev: seq<Evidence>, b: bool, e: Evidence, n: nat)
    requires OrderedBelow(ev, n) && n <= Rank(e.component)
    ensures OrderedBelow(AppendIf(ev, b, e), Rank(e.component) + 1)
  {
  }

  /** The evidence entries name components in strictly increasing component order. */
  lemma {:induction false} EvidenceOrdered(parseSuccess: bool, retrievalCount: int, assumption: Option<string>, risk: Option<string>)
    ensures OrderedBelow(SuccessEvidence(parseSuccess, retrievalCount, assumption, risk), Rank(RiskAnalysis) + 1)
  {
    var ka := KeywordEvidence(AssumptionCheck, "assumption", OrEmpty(assumption));
    var e1 := AppendIf([], parseSuccess, JsonEvidence);
    AppendIfOrdered([], parseSuccess, JsonEvidence, 1);
    var e2 := AppendIf(e1, retrievalCount >= 1, RetrievalEvidence(retrievalCount));
    AppendIfOrdered(e1, retrievalCount >= 1, RetrievalEvidence(retrievalCount), 2);
    var e3 := AppendIf(e2, assumption.Some?, ka);
    AppendIfOrdered(e2, assumption.Some?, ka, 3);
    AppendIfOrdered(e3, risk.Some?, KeywordEvidence(RiskAnalysis, "risk", OrEmpty(risk)), 4);
  }

  /**
   * The evidence follows the components: each entry names a fired component other than
   * the base score, in component order, so no component has two entries; and every fired
   * component after the base score has one.
   */
  lemma EvidenceFollowsComponents(parseSuccess: bool, retrievalCount: int, assumption: Option<string>, risk: Option<string>)
    ensures var cs := SuccessComponents(parseSuccess, retrievalCount, assumption.Some?, risk.Some?);
      var ev := SuccessEvidence(parseSuccess, retrievalCount, assumption, risk);
      EvidenceBacked(cs, ev) &&
      (forall j :: 0 <= j < |ev| ==> ev[j].component != BaseScore) &&
      OrderedBelow(ev, Rank(RiskAnalysis) + 1) &&
      (forall i :: 1 <= i < |cs| && cs[i].1.fired ==> HasEntry(ev, cs[i].0))
  {
    EvidenceOrdered(parseSuccess, retrievalCount, assumption, risk);
    EvidenceCovers(parseSuccess, retrievalCount, assumption, risk);
    EvidenceOnlyFired(parseSuccess, retrievalCount, assumption, risk);
  }

  /** Whether signal `k` fires, given which of the optional signals fired. */
  predicate Fires(k: Signal, parseSuccess: bool, retrieved: bool, assumption: bool, risk: bool)
  {
    match k
    case JsonParsed => parseSuccess
    case RetrievalBoosted => retrieved
    case AssumptionCheck => assumption
    case RiskAnalysis => risk
    case _ => false
  }

  lemma FiresInComponents(k: Signal, parseSuccess: bool, retrievalCount: int, assumption: bool, risk: bool)
    requires Fires(k, parseSuccess, retrievalCount >= 1, assumption, risk)
    ensures FiredComponent(SuccessComponents(parseSuccess, retrievalCount, assumption, risk), k)
  {
    assert SuccessComponents(parseSuccess, retrievalCount, assumption, risk)[Rank(k)].0 == k;
  }

  lemma EvidenceOnlyFired(parseSuccess: bool, retrievalCount: int, assumption: Option<string>, risk: Option<string>)
    ensures var cs := SuccessComponents(parseSuccess, retrievalCount, assumption.Some?, risk.Some?);
      var ev := SuccessEvidence(parseSuccess, retrievalCount, assumption, risk);
      EvidenceBacked(cs, ev) && forall j :: 0 <= j < |ev| ==> ev[j].component != BaseScore
  {
    var ev := SuccessEvidence(parseSuccess, retrievalCount, assumption, risk);
    var f := (k: Signal) => Fires(k, parseSuccess, retrievalCount >= 1, assumption.Some?, risk.Some?);
    var e1 := AppendIf([], parseSuccess, JsonEvidence);
    var e2 := AppendIf(e1, retrievalCount >= 1, RetrievalEvidence(retrievalCount));
    var e3 := AppendIf(e2, assumption.Some?, KeywordEvidence(AssumptionCheck, "assumption", OrEmpty(assumption)));
    assert forall j :: 0 <= j < |e1| ==> f(e1[j].component);
    assert forall j :: 0 <= j < |e2| ==> f(e2[j].component);
    assert forall j :: 0 <= j < |e3| ==> f(e3[j].component);
    assert forall j :: 0 <= j < |ev| ==> f(ev[j].component);
    forall j | 0 <= j < |ev|
      ensures FiredComponent(SuccessComponents(parseSuccess, retrievalCount, assumption.Some?, risk.Some?), ev[j].component)
    {
      FiresInComponents(ev[j].component, parseSuccess, retrievalCount, assumption.Some?, risk.Some?);
    }
  }

  lemma EvidenceCovers(parseSuccess: bool, retrievalCount: int, assumption: Option<string>, risk: Option<string>)
    ensures var cs := SuccessComponents(parseSuccess, retrievalCount, assumption.Some?, risk.Some?);
      var ev := SuccessEvidence(parseSuccess, retrievalCount, assumption, risk);
      forall i :: 1 <= i < |cs| && cs[i].1.fired ==> HasEntry(ev, cs[i].0)
  {
    var cs := SuccessComponents(parseSuccess, retrievalCount, assumption.Some?, risk.Some?);
    var ev := SuccessEvidence(parseSuccess, retrievalCount, assumption, risk);
    forall i | 1 <= i < |cs| && cs[i].1.fired ensures HasEntry(ev, cs[i].0) {
      var m := (if parseSuccess && i > 1 then 1 else 0) + (if retrievalCount >= 1 && i > 2 then 1 else 0)
        + (if assumption.Some? && i > 3 then 1 else 0);
      assert ev[m].component == cs[i].0;
    }
  }

  /** The explanation for a finished run: the failure form, or the success score, label, components and evidence. */
  function Explain(text: string, retrievalCount: int, parseSuccess: bool, status: string): Explanation
  {
    if status != "success" then Explanation(0, Low, FailureComponents, [])
    else
      var score := Min(SignalScore(text, retrievalCount, parseSuccess), 100);
      Explanation(score, LabelFor(score),
                  SuccessComponents(parseSuccess, retrievalCount, Mentions(text, "assumption"), Mentions(text, "risk")),
                  SuccessEvidence(parseSuccess, retrievalCount,
                                  ExcerptIfMentioned(text, "assumption"), ExcerptIfMentioned(text, "risk")))
  }

  /** `compute_confidence`: the explanation, whose components add up to its score and back its evidence. */
  method ComputeConfidence(responseText: string, retrievalCount: int, parseSuccess: bool, status: string)
    returns (r: Explanation)
    ensures r == Explain(responseText, retrievalCount, parseSuccess, status)
    ensures status != "success" ==>
      r.score == 0 && r.scoreLabel == Low && r.components == FailureComponents && r.evidence == []
    ensures status == "success" ==>
      BaseWeight <= r.score <= 100 && r.scoreLabel == LabelFor(r.score) &&
      HasSignals(r.components, SuccessSignals) && SumValues(r.components) == r.score
    ensures FiringMatchesValues(r.components)
    ensures EvidenceBacked(r.components, r.evidence)
  {
    if status != "success" {
      r := Explanation(0, Low, [(BaseScore, Component(BaseWeight, true, CompletedRun)),
                                (ErrorPenalty, Component(-100, true, RunFailed))], []);
      return;
    }
    var components, score := ScoreSignals(responseText, retrievalCount, parseSuccess);
    var evidence := CollectEvidence(responseText, retrievalCount, parseSuccess);
    var finalScore := Min(score, 100);
    r := Explanation(finalScore, LabelFor(finalScore), components, evidence);
    var a := ExcerptIfMentioned(responseText, "assumption");
    var k := ExcerptIfMentioned(responseText, "risk");
    SuccessComponentsShape(parseSuccess, retrievalCount, a.Some?, k.Some?);
    EvidenceFollowsComponents(parseSuccess, retrievalCount, a, k);
  }

  /** The five success-path components, accumulating the score as the source does. */
  method ScoreSignals(responseText: string, retrievalCount: int, parseSuccess: bool)
    returns (components: seq<(Signal, Component)>, score: int)
    ensures components == SuccessComponents(parseSuccess, retrievalCount,
                                            Mentions(responseText, "assumption"), Mentions(responseText, "risk"))
    ensures score == SignalScore(responseText, retrievalCount, parseSuccess) == SumValues(components)
  {
    score := BaseWeight;
    var json;
    if parseSuccess {
      score := score + JsonWeight;
      json := Component(JsonWeight, true, JsonFound);
    } else {
      json := Component(0, false, JsonMissing);
    }
    var boost;
    if retrievalCount >= 2 {
      score := score + RetrievalMaxWeight;
      boost := Component(RetrievalMaxWeight, true, HighGrounding(retrievalCount));
    } else if retrievalCount >= 1 {
      score := score + RetrievalMinWeight;
      boost := Component(RetrievalMinWeight, true, PartialGrounding(retrievalCount));
    } else {
      boost := Component(0, false, ZeroShot);
    }
    var lowerText := Lower(responseText);
    var assumption;
    if Contains(lowerText, "assumption") {
      score := score + AssumptionWeight;
      assumption := Component(AssumptionWeight, true, AssumptionsStated);
    } else {
      assumption := Component(0, false, AssumptionsMissing);
    }
    var risk;
    if Contains(lowerText, "risk") {
      score := score + RiskWeight;
      risk := Component(RiskWeight, true, RiskAnalysed);
    } else {
      risk := Component(0, false, RiskMissing);
    }
    components := [(BaseScore, Component(BaseWeight, true, CompletedRun)), (JsonParsed, json), (RetrievalBoosted, boost),
                   (AssumptionCheck, assumption), (RiskAnalysis, risk)];
    SuccessComponentsSum(responseText, retrievalCount, parseSuccess);
  }

  /** The evidence list, appended to as each signal fires. */
  method CollectEvidence(responseText: string, retrievalCount: int, parseSuccess: bool)
    returns (evidence: seq<Evidence>)
    ensures evidence == SuccessEvidence(parseSuccess, retrievalCount,
                                        ExcerptIfMentioned(responseText, "assumption"),
                                        ExcerptIfMentioned(responseText, "risk"))
  {
    evidence := [];
    if parseSuccess {
      evidence := evidence + [JsonEvidence];
    }
    if retrievalCount >= 2 {
      evidence := evidence + [RetrievalEvidence(retrievalCount)];
    } else if retrievalCount >= 1 {
      evidence := evidence + [RetrievalEvidence(retrievalCount)];
    }
    var lowerText := Lower(responseText);
    if Contains(lowerText, "assumption") {
      evidence := evidence + [KeywordEvidence(AssumptionCheck, "assumption", Excerpt(responseText, "assumption"))];
    }
    if Contains(lowerText, "risk") {
      evidence := evidence + [KeywordEvidence(RiskAnalysis, "risk", Excerpt(responseText, "risk"))];
    }
  }

  lemma SumOfFive(cs: seq<(Signal, Component)>)
    requires |cs| == 5
    ensures SumValues(cs) == cs[0].1.value + cs[1].1.value + cs[2].1.value + cs[3].1.value + cs[4].1.value
  {
    assert cs[4..][1..] == [];
    assert SumValues(cs[4..]) == cs[4].1.value;
    assert cs[3..][1..] == cs[4..];
    assert SumValues(cs[3..]) == cs[3].1.value + cs[4].1.value;
    assert cs[2..][1..] == cs[3..];
    assert SumValues(cs[2..]) == cs[2].1.value + cs[3].1.value + cs[4].1.value;
    assert cs[1..][1..] == cs[2..];
    assert SumValues(cs[1..]) == cs[1].1.value + cs[2].1.value + cs[3].1.value + cs[4].1.value;
  }

  /** On a successful run the score lies in [0.25, 1.0]: the weights add up to at most 1.00. */
  lemma SuccessScoreBounds(text: string, retrievalCount: int, parseSuccess: bool)
    ensures BaseWeight <= SignalScore(text, retrievalCount, parseSuccess) <= 100
    ensures Min(SignalScore(text, retrievalCount, parseSuccess), 100) == SignalScore(text, retrievalCount, parseSuccess)
  {
  }

  /** The label is high iff the score is at least 0.8, medium iff it lies in [0.5, 0.8), low otherwise. */
  lemma LabelThresholds(score: int)
    ensures LabelFor(score) == High <==> score >= 80
    ensures LabelFor(score) == Medium <==> 50 <= score < 80
    ensures LabelFor(score) == Low <==> score < 50
  {
  }

  /** Adding any signal never lowers the score. */
  lemma SignalScoreMonotone(
    text1: string, retrieval1: int, parse1: bool,
    text2: string, retrieval2: int, parse2: bool)
    requires parse1 ==> parse2
    requires retrieval1 <= retrieval2
    requires Mentions(text1, "assumption") ==> Mentions(text2, "assumption")
    requires Mentions(text1, "risk") ==> Mentions(text2, "risk")
    ensures SignalScore(text1, retrieval1, parse1) <= SignalScore(text2, retrieval2, parse2)
    ensures LabelFor(SignalScore(text1, retrieval1, parse1)) != High ||
            LabelFor(SignalScore(text2, retrieval2, parse2)) == High
  {
  }

  /** A keyword mentioned anywhere, in any ASCII case, is found in the lowercased text. */
  lemma MentionsAnyCase(text: string, keyword: string, i: nat)
    requires i + |keyword| <= |text|
    requires Lower(text[i..i + |keyword|]) == keyword
    ensures Mentions(text, keyword)
  {
    assert Lower(text)[i..i + |keyword|] == Lower(text[i..i + |keyword|]);
    assert OccursAt(Lower(text), keyword, i);
  }
}
