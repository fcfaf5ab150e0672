/**
 * The three validators the app registers when the Guardrails hub is not available
 * (app/guardrails_custom.py). The email and phone pattern of `DetectPII` is an
 * oracle: its first match in the value is a parameter.
 */
module CustomValidators {
  import opened Common
  import opened Strings

  /** `PassResult()` or `FailResult(error_message, fix_value)`. */
  datatype Outcome = Pass | Fail(errorMessage: string, fixValue: string)

  // ---------------------------------------------------------------------------
  // DetectPII

  /** What `DetectPII.validate` returns when the pattern's first match is `found`. */
  function DetectPII(value: string, found: Option<string>): (r: Outcome)
    requires found.Some? ==> |found.value| > 0
    ensures r.Pass? <==> found.None?
    ensures r.Fail? ==> r.errorMessage == "Found PII: " + found.value
    ensures r.Fail? && !Contains(value, found.value) ==> r.fixValue == value
  {
    match found
    case None => Pass
    case Some(m) => Fail("Found PII: " + m, Replace(value, m, "[REDACTED]"))
  }

  /** An occurrence in `b` is an occurrence in `a + b`. */
  lemma ContainsRight(a: string, b: string, w: string)
    requires Contains(b, w)
    ensures Contains(a + b, w)
  {
    var k :| 0 <= k <= |b| - |w| && OccursAt(b, w, k);
    assert (a + b)[|a| + k..|a| + k + |w|] == b[k..k + |w|];
    assert OccursAt(a + b, w, |a| + k);
  }

  /** An occurrence of `w` in `a + b` past `a` is an occurrence in `b`. */
  lemma OccursRight(a: string, b: string, w: string, k: int)
    requires k >= |a| && OccursAt(a + b, w, k)
    ensures OccursAt(b, w, k - |a|)
  {
    assert (a + b)[k..k + |w|] == b[k - |a|..k - |a| + |w|];
  }

  /** An occurrence that is not at the start is one in the tail. */
  lemma ContainsTail(s: string, w: string)
    requires |s| > 0 && Contains(s, w) && !OccursAt(s, w, 0)
    ensures Contains(s[1..], w)
  {
    var j :| 0 <= j <= |s| - |w| && OccursAt(s, w, j);
    OccursRight(s[..1], s[1..], w, j);
    assert s[..1] + s[1..] == s;
  }

  /** Replacing an occurring text leaves its replacement in the result. */
  lemma {:induction false} ReplaceLeavesReplacement(s: string, w: string, rep: string)
    requires |w| > 0 && Contains(s, w)
    ensures Contains(Replace(s, w, rep), rep)
    decreases |s|
  {
    var r := Replace(s, w, rep);
    if s[..|w|] == w {
      assert OccursAt(r, rep, 0);
    } else {
      ContainsTail(s, w);
      ReplaceLeavesReplacement(s[1..], w, rep);
      assert r == [s[0]] + Replace(s[1..], w, rep);
      ContainsRight([s[0]], Replace(s[1..], w, rep), rep);
    }
  }

  /** A match of the pattern in the value is redacted in the fix value. */
  lemma FoundIsRedacted(value: string, found: string)
    requires |found| > 0 && Contains(value, found)
    ensures DetectPII(value, Some(found)).Fail?
    ensures Contains(DetectPII(value, Some(found)).fixValue, "[REDACTED]")
  {
    ReplaceLeavesReplacement(value, found, "[REDACTED]");
  }

  // ---------------------------------------------------------------------------
  // ToxicLanguage

  const Blocklist: seq<string> := ["hate", "kill", "shut up", "idiot", "stupid"]

  /**
   * The fix the validator is evidently meant to produce: every occurrence of `w`,
   * in any case, masked left to right by as many `*` as it has characters.
   */
  function Mask(s: string, w: string): (r: string)
    requires |w| > 0
    ensures |r| == |s|
    ensures forall i :: 0 <= i < |s| ==> r[i] == s[i] || r[i] == '*'
    decreases |s|
  {
    if |s| < |w| then s
    else if Lower(s[..|w|]) == w then Repeat('*', |w|) + Mask(s[|w|..], w)
    else [s[0]] + Mask(s[1..], w)
  }

  /** Where the fix keeps the value's characters or masks them, a word free of `*` that it spells was spelt by the value. */
  lemma {:induction false} SpeltBefore(s: string, r: string, w: string)
    requires |r| == |s| && |w| > 0 && OccursAt(Lower(r), w, 0)
    requires forall i :: 0 <= i < |s| ==> r[i] == s[i] || r[i] == '*'
    requires forall i :: 0 <= i < |w| ==> w[i] != '*'
    ensures Lower(s[..|w|]) == w
  {
    forall j | 0 <= j < |w| ensures Lower(s[..|w|])[j] == w[j] {
      assert Lower(r)[j] == w[j];
      assert r[j] == s[j];
    }
  }

  /** After masking, the word occurs nowhere in the lowercased fix. */
  lemma {:induction false} MaskClears(s: string, w: string)
    requires |w| > 0 && forall i :: 0 <= i < |w| ==> w[i] != '*'
    ensures !Contains(Lower(Mask(s, w)), w)
    decreases |s|
  {
    if |s| >= |w| {
      var r := Mask(s, w);
      if Lower(s[..|w|]) == w {
        var stars := Repeat('*', |w|);
        var rest := Mask(s[|w|..], w);
        MaskClears(s[|w|..], w);
        LowerConcat(stars, rest);
        forall k | 0 <= k <= |r| - |w| ensures !OccursAt(Lower(r), w, k) {
          if k < |w| {
            assert Lower(r)[k] == '*';
          } else if OccursAt(Lower(r), w, k) {
            OccursRight(Lower(stars), Lower(rest), w, k);
          }
        }
      } else {
        var rest := Mask(s[1..], w);
        MaskClears(s[1..], w);
        LowerConcat([s[0]], rest);
        forall k | 0 <= k <= |r| - |w| ensures !OccursAt(Lower(r), w, k) {
          if k == 0 {
            if OccursAt(Lower(r), w, 0) {
              SpeltBefore(s, r, w);
            }
          } else if OccursAt(Lower(r), w, k) {
            OccursRight(Lower([s[0]]), Lower(rest), w, k);
          }
        }
      }
    }
  }

  /** On a value already in lowercase the intended fix is the one the code computes. */
  lemma {:induction false} MaskLowercase(s: string, w: string)
    requires |w| > 0 && Lower(s) == s
    ensures Mask(s, w) == Replace(s, w, Repeat('*', |w|))
    decreases |s|
  {
    if |s| >= |w| {
      assert Lower(s[..|w|]) == s[..|w|];
      if s[..|w|] == w {
        assert Lower(s[|w|..]) == s[|w|..];
        MaskLowercase(s[|w|..], w);
      } else {
        assert Lower(s[1..]) == s[1..];
        MaskLowercase(s[1..], w);
      }
    }
  }

  /** The fix as written: `value.replace(word, "*" * len(word))`, case-sensitive. */
  function FixAsWritten(value: string, word: string): (r: string)
    requires |word| > 0
    ensures !Contains(value, word) ==> r == value
  {
    Replace(value, word, Repeat('*', |word|))
  }

  /** The written fix keeps the length of the value. */
  lemma FixAsWrittenLength(value: string, word: string)
    requires |word| > 0
    ensures |FixAsWritten(value, word)| == |value|
  {
    ReplaceLength(value, word, Repeat('*', |word|));
  }

  /**
   * The written fix misses upper-case occurrences: "HATE" is detected, since its
   * lowercase form contains "hate", yet the fix value is "HATE" itself.
   */
  lemma FixAsWrittenMissesUppercase()
    ensures Contains(Lower("HATE"), "hate")
    ensures FixAsWritten("HATE", "hate") == "HATE"
    ensures Contains(Lower(FixAsWritten("HATE", "hate")), "hate")
  {
    assert Lower("HATE") == "hate";
    assert OccursAt("hate", "hate", 0);
    assert !OccursAt("HATE", "hate", 0);
  }

  /**
   * `ToxicLanguage.validate`: fails with the first blocklist word, in list order,
   * that occurs in the lowercased value; the fix masks that word (with the
   * case-insensitive masking, see `FixAsWritten` for the code as written).
   */
  method ToxicLanguage(value: string) returns (r: Outcome)
    ensures r.Pass? <==> forall j :: 0 <= j < |Blocklist| ==> !Contains(Lower(value), Blocklist[j])
    ensures r.Fail? ==> exists k :: (0 <= k < |Blocklist| && Contains(Lower(value), Blocklist[k]) &&
                                     (forall j :: 0 <= j < k ==> !Contains(Lower(value), Blocklist[j])) &&
                                     r == Fail("Found toxic language: " + Blocklist[k], Mask(value, Blocklist[k])))
  {
    var lowerVal := Lower(value);
    for k := 0 to |Blocklist|
      invariant forall j :: 0 <= j < k ==> !Contains(lowerVal, Blocklist[j])
    {
      var word := Blocklist[k];
      if Contains(lowerVal, word) {
        return Fail("Found toxic language: " + word, Mask(value, word));
      }
    }
    return Pass;
  }

  /** A failing toxicity check's fix has the value's length and holds the word in no case. */
  lemma ToxicFixClean(value: string, k: nat)
    requires k < |Blocklist|
    ensures |Mask(value, Blocklist[k])| == |value|
    ensures !Contains(Lower(Mask(value, Blocklist[k])), Blocklist[k])
  {
    MaskClears(value, Blocklist[k]);
  }

  // ---------------------------------------------------------------------------
  // CompetitorCheck

  /** The competitors whose lowercase form occurs in `lowerValue`, in list order. */
  function Mentioned(competitors: seq<string>, lowerValue: string): (r: seq<string>)
    ensures |r| <= |competitors|
    ensures forall c :: c in r <==> c in competitors && Contains(lowerValue, Lower(c))
  {
    if |competitors| == 0 then []
    else
      var last := competitors[|competitors| - 1];
      var front := competitors[..|competitors| - 1];
      assert competitors == front + [last];
      Mentioned(front, lowerValue) + (if Contains(lowerValue, Lower(last)) then [last] else [])
  }

  /** Filtering competitor lists concatenates. */
  lemma {:induction false} MentionedConcat(a: seq<string>, b: seq<string>, lowerValue: string)
    ensures Mentioned(a + b, lowerValue) == Mentioned(a, lowerValue) + Mentioned(b, lowerValue)
    decreases |b|
  {
    if |b| == 0 {
      assert a + b == a;
    } else {
      var front := b[..|b| - 1];
      assert (a + b)[..|a + b| - 1] == a + front;
      assert (a + b)[|a + b| - 1] == b[|b| - 1];
      MentionedConcat(a, front, lowerValue);
    }
  }

  /**
   * `CompetitorCheck.validate`: fails exactly when some competitor is mentioned,
   * naming all of them in list order; the fix value is the value itself.
   */
  method CompetitorCheck(competitors: seq<string>, value: string) returns (r: Outcome)
    ensures r.Pass? <==> forall i :: 0 <= i < |competitors| ==> !Contains(Lower(value), Lower(competitors[i]))
    ensures r.Fail? ==> r == Fail("Found competitors: " + Join(Mentioned(competitors, Lower(value)), ", "), value)
  {
    var found: seq<string> := [];
    for i := 0 to |competitors|
      invariant found == Mentioned(competitors[..i], Lower(value))
    {
      assert competitors[..i + 1][..i] == competitors[..i];
      if Contains(Lower(value), Lower(competitors[i])) {
        found := found + [competitors[i]];
      }
    }
    assert competitors[..|competitors|] == competitors;
    if |found| > 0 {
      assert found[0] in found;
      return Fail("Found competitors: " + Join(found, ", "), value);
    }
    assert forall i :: 0 <= i < |competitors| ==> competitors[i] !in found;
    return Pass;
  }
}
