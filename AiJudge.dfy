/**
 * The judge helpers of the confidence library (ai-confidence/src/ai_confidence/judge.py):
 * clamping a score to [0, 1] and picking the JSON object out of a judge's reply.
 * Scores are exact reals; `json.loads` is a parameter.
 */
module AiJudge {
  import opened Common
  import opened Json

  /** `clamp01`: `max(0.0, min(1.0, x))`. */
  function Clamp01(x: real): (r: real)
    ensures 0.0 <= r <= 1.0
    ensures 0.0 <= x <= 1.0 ==> r == x
    ensures x < 0.0 ==> r == 0.0
    ensures x > 1.0 ==> r == 1.0
  {
    if x < 0.0 then 0.0 else if x > 1.0 then 1.0 else x
  }

  /** Clamping twice is clamping once. */
  lemma Clamp01Idempotent(x: real)
    ensures Clamp01(Clamp01(x)) == Clamp01(x)
  {
  }

  /** A larger score never clamps to a smaller one. */
  lemma Clamp01Monotone(x: real, y: real)
    requires x <= y
    ensures Clamp01(x) <= Clamp01(y)
  {
  }

  /** The index of the first `c` in `s`. */
  function FirstIndex(s: string, c: char): (r: Option<nat>)
    ensures r.None? <==> c !in s
    ensures r.Some? ==> r.value < |s| && s[r.value] == c && forall k :: 0 <= k < r.value ==> s[k] != c
  {
    if |s| == 0 then None
    else if s[0] == c then Some(0)
    else
      var t := FirstIndex(s[1..], c);
      assert forall k :: 0 <= k < |s| - 1 ==> s[1..][k] == s[k + 1];
      if t.None? then None
      else
        Some(t.value + 1)
  }

  /** The index of the last `c` in `s`. */
  function LastIndex(s: string, c: char): (r: Option<nat>)
    ensures r.None? <==> c !in s
    ensures r.Some? ==> r.value < |s| && s[r.value] == c && forall k :: r.value < k < |s| ==> s[k] != c
  {
    if |s| == 0 then None
    else if s[|s| - 1] == c then Some(|s| - 1)
    else
      var t := LastIndex(s[..|s| - 1], c);
      assert forall k :: 0 <= k < |s| - 1 ==> s[..|s| - 1][k] == s[k];
      if t.None? then None
      else
        Some(t.value)
  }

  /**
   * What `re.search(r"\{.*\}", text, re.DOTALL)` matches: from the first '{' to the
   * last '}' after it. A first '{' with no '}' after it means no later '{' has one.
   */
  function JsonSpan(text: string): (span: Option<string>)
    ensures span.Some? ==> |span.value| >= 2 && span.value[0] == '{' && span.value[|span.value| - 1] == '}'
  {
    var i := FirstIndex(text, '{');
    var j := LastIndex(text, '}');
    if i.Some? && j.Some? && i.value < j.value then Some(text[i.value..j.value + 1]) else None
  }

  /** The span is the text between a prefix free of '{' and a suffix free of '}'. */
  lemma JsonSpanShape(text: string)
    requires JsonSpan(text).Some?
    ensures exists a, b :: (0 <= a < b <= |text| && text[a..b] == JsonSpan(text).value &&
                            (forall k :: 0 <= k < a ==> text[k] != '{') && (forall k :: b <= k < |text| ==> text[k] != '}'))
  {
    var i := FirstIndex(text, '{').value;
    var j := LastIndex(text, '}').value;
    assert text[i..j + 1] == JsonSpan(text).value;
  }

  /** No span exactly when no '{' comes before a '}'. */
  lemma JsonSpanNone(text: string)
    ensures JsonSpan(text).None? <==>
      forall i, j :: 0 <= i < j < |text| && text[i] == '{' ==> text[j] != '}'
  {
    var fi := FirstIndex(text, '{');
    var lj := LastIndex(text, '}');
    if JsonSpan(text).None? {
      forall i, j | 0 <= i < j < |text| && text[i] == '{' ensures text[j] != '}' {
        assert text[i] in text;
      }
    }
  }

  /** `extract_json`: the span decoded, or the `ValueError` when there is none. */
  function ExtractJson(text: string, decode: string -> Result<Json, string>): (r: Result<Json, string>)
    ensures JsonSpan(text).None? ==> r == Err("Judge did not return JSON.")
    ensures JsonSpan(text).Some? ==> r == decode(JsonSpan(text).value)
  {
    match JsonSpan(text)
    case None => Err("Judge did not return JSON.")
    case Some(span) => decode(span)
  }
}
