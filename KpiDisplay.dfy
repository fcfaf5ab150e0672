/**
 * The KPI cards of the app's dashboard (`parse_kpis_for_display` in app/main.py):
 * the summary's bullet lines for revenue, open pipeline and the sales target become
 * labelled values, the value being the text after the first "**: " up to the next.
 * A recognised line without "**: " makes the code index past the end of its split
 * and raise `IndexError`, which is modelled as an error result.
 */
module KpiDisplay {
  import opened Common
  import opened Strings

  const RevenuePrefix := "- **Total Revenue"
  const PipelinePrefix := "- **Total Open Pipeline"
  const TargetPrefix := "- **Global Sales Target"
  const Marker := "**: "
  const IndexError := "IndexError: list index out of range"

  /** The label of a summary line, matched in the order of the code. */
  function LineLabel(line: string): (l: Option<string>)
    ensures l == Some("Revenue") <==> StartsWith(line, RevenuePrefix)
    ensures l == Some("Open Pipeline") <==> !StartsWith(line, RevenuePrefix) && StartsWith(line, PipelinePrefix)
    ensures l == Some("2026 Target") <==>
      !StartsWith(line, RevenuePrefix) && !StartsWith(line, PipelinePrefix) && StartsWith(line, TargetPrefix)
    ensures l.None? <==>
      !StartsWith(line, RevenuePrefix) && !StartsWith(line, PipelinePrefix) && !StartsWith(line, TargetPrefix)
  {
    if StartsWith(line, RevenuePrefix) then Some("Revenue")
    else if StartsWith(line, PipelinePrefix) then Some("Open Pipeline")
    else if StartsWith(line, TargetPrefix) then Some("2026 Target")
    else None
  }

  /** `line.split("**: ")[1]`, or `None` where that index is out of range. */
  function Field(line: string): (v: Option<string>)
    ensures v.None? <==> !Contains(line, Marker)
    ensures v.Some? ==> !Contains(v.value, Marker)
    ensures v.Some? ==> Find(line, Marker).Some?
    ensures v.Some? ==>
      var rest := line[Find(line, Marker).value + |Marker|..];
      |v.value| <= |rest| && v.value == rest[..|v.value|] &&
      (|v.value| == |rest| || OccursAt(rest, Marker, |v.value|))
  {
    var parts := Split(line, Marker);
    SplitPiecesFree(line, Marker);
    if |parts| >= 2 then SecondPiece(line, Marker); Some(parts[1]) else None
  }

  /** A card: the label and the value text. */
  type Card = (string, string)

  /** The cards of the summary lines, or the error of the first recognised line without a value. */
  function Kpis(lines: seq<string>): (r: Result<seq<Card>, string>)
    ensures r.Ok? ==> |r.value| <= |lines|
    ensures r.Ok? ==> forall k :: 0 <= k < |r.value| ==> r.value[k].0 in {"Revenue", "Open Pipeline", "2026 Target"}
    ensures r.Err? ==> r.error == IndexError
  {
    if |lines| == 0 then Ok([])
    else
      var line := lines[0];
      var tag := LineLabel(line);
      if tag.None? then Kpis(lines[1..])
      else
        match Field(line)
        case None => Err(IndexError)
        case Some(v) => Prefixed([(tag.value, v)], Kpis(lines[1..]))
  }

  /** The cards found so far in front of the result for the remaining lines. */
  function Prefixed(cards: seq<Card>, r: Result<seq<Card>, string>): Result<seq<Card>, string>
  {
    match r
    case Ok(rest) => Ok(cards + rest)
    case Err(e) => Err(e)
  }

  /** The recognised lines, in order. */
  function Labelled(lines: seq<string>): (r: seq<string>)
    ensures |r| <= |lines|
    ensures forall k :: 0 <= k < |r| ==> LineLabel(r[k]).Some?
  {
    if |lines| == 0 then []
    else (if LineLabel(lines[0]).Some? then [lines[0]] else []) + Labelled(lines[1..])
  }

  /** The parse fails exactly when a recognised line has no "**: ". */
  lemma {:induction false} KpisFail(lines: seq<string>)
    ensures Kpis(lines).Ok? <==> forall i :: 0 <= i < |lines| && LineLabel(lines[i]).Some? ==> Contains(lines[i], Marker)
  {
    if |lines| > 0 {
      var tail := lines[1..];
      KpisFail(tail);
      assert forall i :: 0 < i < |lines| ==> lines[i] == tail[i - 1];
    }
  }

  /** A successful parse has one card per recognised line, in line order, with that line's label and value. */
  lemma {:induction false} KpisAreLabelledLines(lines: seq<string>)
    requires Kpis(lines).Ok?
    ensures |Kpis(lines).value| == |Labelled(lines)|
    ensures forall k :: 0 <= k < |Labelled(lines)| ==>
      (Field(Labelled(lines)[k]).Some? &&
       Kpis(lines).value[k] == (LineLabel(Labelled(lines)[k]).value, Field(Labelled(lines)[k]).value))
  {
    if |lines| > 0 {
      var tail := lines[1..];
      var r := Kpis(tail);
      if LineLabel(lines[0]).None? {
        KpisAreLabelledLines(tail);
        assert Labelled(lines) == Labelled(tail);
      } else {
        KpisAreLabelledLines(tail);
        var cards := Kpis(lines).value;
        var ls := Labelled(lines);
        assert cards == [(LineLabel(lines[0]).value, Field(lines[0]).value)] + r.value;
        assert ls == [lines[0]] + Labelled(tail);
        assert cards[1..] == r.value && ls[1..] == Labelled(tail);
        forall k | 0 < k < |ls|
          ensures Field(ls[k]).Some? && cards[k] == (LineLabel(ls[k]).value, Field(ls[k]).value)
        {
          assert cards[k] == cards[1..][k - 1] && ls[k] == ls[1..][k - 1];
        }
      }
    }
  }

  /** A line written as a head free of ':' , the marker and a value free of the marker yields that value. */
  lemma FieldOf(head: string, v: string)
    requires ':' !in head && !Contains(v, Marker)
    ensures Field(head + Marker + v) == Some(v)
  {
    var s := head + Marker + v;
    forall j | 0 <= j < |head| ensures !OccursAt(s, Marker, j) {
      if j + 2 < |head| {
        assert s[j + 2] == head[j + 2];
      } else {
        assert s[j + 2] == '*';
      }
      assert Marker[2] == ':';
    }
    assert s[|head|..|head| + |Marker|] == Marker;
    ContainsAt(s, Marker, |head|);
    var f := Find(s, Marker);
    assert OccursAt(s, Marker, |head|);
    assert f.Some? && !(f.value < |head|);
    assert !(f.value > |head|);
    SplitAt(head, Marker, v);
    assert Split(v, Marker) == [v];
  }

  /** The revenue line of the summary yields the revenue card. */
  lemma RevenueLine(year: string, amount: string)
    requires ':' !in year && !Contains(amount, Marker)
    ensures LineLabel(RevenuePrefix + " (" + year + ")" + Marker + amount) == Some("Revenue")
    ensures Field(RevenuePrefix + " (" + year + ")" + Marker + amount) == Some(amount)
  {
    var head := RevenuePrefix + " (" + year + ")";
    assert (head + Marker + amount)[..|RevenuePrefix|] == RevenuePrefix;
    assert forall i :: 0 <= i < |head| ==> head[i] != ':';
    FieldOf(head, amount);
  }

  /** `parse_kpis_for_display`: the lines in order, stopping at the first `IndexError`. */
  method ParseKpisForDisplay(summary: string) returns (r: Result<seq<Card>, string>)
    ensures r == Kpis(Split(summary, "\n"))
  {
    var lines := Split(summary, "\n");
    var metrics: seq<Card> := [];
    assert lines[0..] == lines;
    assert Kpis(lines).Ok? ==> [] + Kpis(lines).value == Kpis(lines).value;
    for i := 0 to |lines|
      invariant Kpis(lines) == Prefixed(metrics, Kpis(lines[i..]))
    {
      var line := lines[i];
      assert lines[i..][0] == line && lines[i..][1..] == lines[i + 1..];
      var tag := LineLabel(line);
      if tag.Some? {
        var parts := Split(line, Marker);
        if |parts| < 2 {
          return Err(IndexError);
        }
        PrefixedTwice(metrics, (tag.value, parts[1]), Kpis(lines[i + 1..]));
        metrics := metrics + [(tag.value, parts[1])];
      }
    }
    assert lines[|lines|..] == [];
    assert metrics + [] == metrics;
    return Ok(metrics);
  }

  lemma PrefixedTwice(cards: seq<Card>, c: Card, r: Result<seq<Card>, string>)
    ensures Prefixed(cards, Prefixed([c], r)) == Prefixed(cards + [c], r)
  {
    if r.Ok? {
      assert cards + ([c] + r.value) == cards + [c] + r.value;
    }
  }
}
