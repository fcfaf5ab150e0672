/**
 * The retrieval-quality heuristic of the confidence library
 * (ai-confidence/src/ai_confidence/heuristics.py), on exact reals.
 */
module AiHeuristics {
  import opened Common
  import opened AiJudge

  /** `RetrievedChunk`, with the fields the library reads. */
  datatype RetrievedChunk = RetrievedChunk(sourceId: string, chunkId: string, text: string, similarity: Option<real>)

  /** The details dict: the reason there is no score, or the maximum and average similarity. */
  datatype Details = NoSimilarityScores | Similarities(maxSimilarity: real, avgSimilarity: real)

  /** The similarities that are present, in chunk order. */
  function Sims(chunks: seq<RetrievedChunk>): (r: seq<real>)
    ensures |r| <= |chunks|
    ensures forall x :: x in r <==> exists i :: 0 <= i < |chunks| && chunks[i].similarity == Some(x)
  {
    if |chunks| == 0 then []
    else
      var front := chunks[..|chunks| - 1];
      var last := chunks[|chunks| - 1];
      assert forall i :: 0 <= i < |front| ==> front[i] == chunks[i];
      Sims(front) + (if last.similarity.Some? then [last.similarity.value] else [])
  }

  /** The similarities of two runs of chunks, one after the other: Sims keeps order and repeats. */
  lemma {:induction false} SimsAppend(a: seq<RetrievedChunk>, b: seq<RetrievedChunk>)
    ensures Sims(a + b) == Sims(a) + Sims(b)
    decreases |b|
  {
    if |b| == 0 {
      assert a + b == a;
    } else {
      var front := b[..|b| - 1];
      assert (a + b)[..|a + b| - 1] == a + front;
      assert (a + b)[|a + b| - 1] == b[|b| - 1];
      SimsAppend(a, front);
    }
  }

  /** One chunk contributes its similarity if it has one, and nothing otherwise. */
  lemma SimsSingle(c: RetrievedChunk)
    ensures Sims([c]) == if c.similarity.Some? then [c.similarity.value] else []
  {
    assert [c][..0] == [];
  }

  function Sum(xs: seq<real>): real
  {
    if |xs| == 0 then 0.0 else Sum(xs[..|xs| - 1]) + xs[|xs| - 1]
  }

  /** Python's `max` of a non-empty list. */
  function Max(xs: seq<real>): (m: real)
    requires |xs| > 0
    ensures m in xs && forall x :: x in xs ==> x <= m
  {
    if |xs| == 1 then xs[0]
    else
      var front := xs[..|xs| - 1];
      assert xs == front + [xs[|xs| - 1]];
      var m := Max(front);
      if xs[|xs| - 1] > m then xs[|xs| - 1] else m
  }

  /** A sum of values in `[lo, hi]` lies between `n·lo` and `n·hi`. */
  lemma {:induction false} SumBounds(xs: seq<real>, lo: real, hi: real)
    requires forall x :: x in xs ==> lo <= x <= hi
    ensures (|xs| as real) * lo <= Sum(xs) <= (|xs| as real) * hi
  {
    if |xs| > 0 {
      var front := xs[..|xs| - 1];
      assert forall x :: x in front ==> x in xs;
      assert xs[|xs| - 1] in xs;
      SumBounds(front, lo, hi);
    }
  }

  /** `retrieval_quality`: 60% of the maximum plus 40% of the average similarity, clamped. */
  function RetrievalQuality(chunks: seq<RetrievedChunk>): (r: (real, Details))
    ensures 0.0 <= r.0 <= 1.0
    ensures r.1 == NoSimilarityScores <==> Sims(chunks) == []
    ensures Sims(chunks) == [] ==> r.0 == 0.0
    ensures Sims(chunks) != [] ==>
      var sims := Sims(chunks);
      r.1 == Similarities(Max(sims), Sum(sims) / (|sims| as real)) &&
      r.0 == Clamp01(0.6 * r.1.maxSimilarity + 0.4 * r.1.avgSimilarity)
  {
    var sims := Sims(chunks);
    if |sims| == 0 then (0.0, NoSimilarityScores)
    else
      var maxSim := Max(sims);
      var avgSim := Sum(sims) / (|sims| as real);
      (Clamp01(0.6 * maxSim + 0.4 * avgSim), Similarities(maxSim, avgSim))
  }

  /** For similarities in `[0, 1]` the score lies between the average and the maximum, unclamped. */
  lemma ScoreBetweenAverageAndMax(chunks: seq<RetrievedChunk>)
    requires Sims(chunks) != []
    requires forall i :: 0 <= i < |chunks| && chunks[i].similarity.Some? ==> 0.0 <= chunks[i].similarity.value <= 1.0
    ensures RetrievalQuality(chunks).1.Similarities?
    ensures RetrievalQuality(chunks).1.avgSimilarity <= RetrievalQuality(chunks).0 <= RetrievalQuality(chunks).1.maxSimilarity
    ensures RetrievalQuality(chunks).0 ==
      0.6 * RetrievalQuality(chunks).1.maxSimilarity + 0.4 * RetrievalQuality(chunks).1.avgSimilarity
  {
    SimsInRange(chunks);
    AverageAtMostMax(Sims(chunks));
  }

  /** The similarities taken are in `[0, 1]` when every present one is. */
  lemma SimsInRange(chunks: seq<RetrievedChunk>)
    requires forall i :: 0 <= i < |chunks| && chunks[i].similarity.Some? ==> 0.0 <= chunks[i].similarity.value <= 1.0
    ensures forall x :: x in Sims(chunks) ==> 0.0 <= x <= 1.0
  {
  }

  /** The average of values in `[0, 1]` lies between 0 and their maximum. */
  lemma AverageAtMostMax(xs: seq<real>)
    requires |xs| > 0 && forall x :: x in xs ==> 0.0 <= x <= 1.0
    ensures 0.0 <= Sum(xs) / (|xs| as real) <= Max(xs) <= 1.0
  {
    var m := Max(xs);
    SumBounds(xs, 0.0, m);
    var n := |xs| as real;
    assert n * 0.0 == 0.0;
    MeanAtMost(Sum(xs), n, m);
  }

  lemma MeanAtMost(total: real, n: real, m: real)
    requires n > 0.0 && 0.0 <= total <= n * m
    ensures 0.0 <= total / n <= m
  {
  }
}
