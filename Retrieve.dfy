/**
 * Document chunking of the app's retrieval (`chunk_documents` in app/retrieve.py).
 * A document is split into paragraphs on blank lines; the stripped, non-blank
 * paragraphs are grouped greedily into chunks, a paragraph joining the open chunk
 * while the chunk's length plus the paragraph's stays below the chunk size.
 *
 * The specification is stated on groups of paragraphs: each chunk is one group
 * joined with "\n\n". The code works on the chunk text itself, which starts with
 * "\n\n" when its first paragraph was joined to an empty chunk; the stripping at
 * the end removes that.
 */
module Retrieve {
  import opened Strings

  datatype Chunk = Chunk(source: string, content: string)

  const Sep := "\n\n"

  /** A stripped paragraph that is not blank. */
  predicate Clean(p: string)
  {
    p != "" && Trimmed(p, PyWhitespace)
  }

  /** The stripped, non-blank pieces, in order. */
  function Cleaned(pieces: seq<string>): (r: seq<string>)
    ensures |r| <= |pieces|
    ensures forall i :: 0 <= i < |r| ==> Clean(r[i])
  {
    if |pieces| == 0 then []
    else
      var front := pieces[..|pieces| - 1];
      var p := Trim(pieces[|pieces| - 1], PyWhitespace);
      assert forall i :: 0 <= i < |front| ==> front[i] == pieces[i];
      Cleaned(front) + (if p != "" then [p] else [])
  }

  /** The paragraphs of a document. */
  function Paragraphs(content: string): seq<string>
  {
    Cleaned(Split(content, Sep))
  }

  // ---------------------------------------------------------------------------
  // Grouping

  /** The closed groups, the open group, and whether the open chunk text starts with "\n\n". */
  datatype Grouping = Grouping(closed: seq<seq<string>>, open: seq<string>, lead: bool)

  /** The text the code holds as `current_chunk` for an open group. */
  function Text(open: seq<string>, lead: bool): string
  {
    if open == [] then "" else (if lead then Sep else "") + Join(open, Sep)
  }

  /** One paragraph of the inner loop. */
  function Step(g: Grouping, p: string, size: int): Grouping
  {
    if |Text(g.open, g.lead)| + |p| < size then Grouping(g.closed, g.open + [p], g.lead || g.open == [])
    else Grouping(g.closed + (if g.open != [] then [g.open] else []), [p], false)
  }

  function Fold(paras: seq<string>, size: int): Grouping
  {
    if |paras| == 0 then Grouping([], [], false)
    else Step(Fold(paras[..|paras| - 1], size), paras[|paras| - 1], size)
  }

  /** The chunks of a document, as groups of paragraphs: the closed ones and the residue. */
  function Groups(paras: seq<string>, size: int): seq<seq<string>>
  {
    var g := Fold(paras, size);
    g.closed + (if g.open != [] then [g.open] else [])
  }

  function Flatten(gs: seq<seq<string>>): seq<string>
  {
    if |gs| == 0 then [] else Flatten(gs[..|gs| - 1]) + gs[|gs| - 1]
  }

  lemma FlattenSnoc(gs: seq<seq<string>>, g: seq<string>)
    ensures Flatten(gs + [g]) == Flatten(gs) + g
  {
    assert (gs + [g])[..|gs|] == gs;
  }

  /** A group of several paragraphs is at most one character longer than the chunk size. */
  predicate Small(group: seq<string>, size: int)
  {
    |group| >= 2 ==> |Join(group, Sep)| <= size + 1
  }

  /**
   * The invariant of the grouping: the groups are, in order, the paragraphs seen;
   * no group is empty and every group is small.
   */
  predicate GroupsHold(g: Grouping, paras: seq<string>, size: int)
  {
    Flatten(g.closed) + g.open == paras &&
    (forall k :: 0 <= k < |g.closed| ==> g.closed[k] != [] && Small(g.closed[k], size)) &&
    Small(g.open, size)
  }

  lemma {:induction false} JoinSnoc(parts: seq<string>, p: string, sep: string)
    requires |parts| >= 1
    ensures Join(parts + [p], sep) == Join(parts, sep) + sep + p
  {
    if |parts| == 1 {
      assert (parts + [p])[1..] == [p];
    } else {
      assert (parts + [p])[1..] == parts[1..] + [p];
      JoinSnoc(parts[1..], p, sep);
    }
  }

  /** A paragraph that fits joins the open group. */
  lemma JoinStep(g: Grouping, paras: seq<string>, p: string, size: int)
    requires GroupsHold(g, paras, size) && |Text(g.open, g.lead)| + |p| < size
    ensures GroupsHold(Step(g, p, size), paras + [p], size)
  {
    if g.open != [] {
      JoinSnoc(g.open, p, Sep);
      assert |Join(g.open + [p], Sep)| <= size + 1;
    }
    assert Flatten(g.closed) + (g.open + [p]) == paras + [p];
  }

  /** A paragraph that does not fit closes the open group and opens its own. */
  lemma CloseStep(g: Grouping, paras: seq<string>, p: string, size: int)
    requires GroupsHold(g, paras, size) && |Text(g.open, g.lead)| + |p| >= size
    ensures GroupsHold(Step(g, p, size), paras + [p], size)
  {
    var h := Step(g, p, size);
    if g.open == [] {
      assert h.closed == g.closed;
    } else {
      FlattenSnoc(g.closed, g.open);
      assert h.closed == g.closed + [g.open];
      forall k | 0 <= k < |h.closed| ensures h.closed[k] != [] && Small(h.closed[k], size) {
        if k < |g.closed| { assert h.closed[k] == g.closed[k]; }
      }
    }
  }

  lemma {:induction false} FoldHolds(paras: seq<string>, size: int)
    ensures GroupsHold(Fold(paras, size), paras, size)
  {
    if |paras| > 0 {
      var front := paras[..|paras| - 1];
      var p := paras[|paras| - 1];
      var g := Fold(front, size);
      FoldHolds(front, size);
      assert paras == front + [p];
      if |Text(g.open, g.lead)| + |p| < size {
        JoinStep(g, front, p, size);
      } else {
        CloseStep(g, front, p, size);
      }
    }
  }

  /** The chunks of a document hold its paragraphs in order, each exactly once. */
  lemma GroupsPartition(paras: seq<string>, size: int)
    ensures Flatten(Groups(paras, size)) == paras
    ensures forall k :: 0 <= k < |Groups(paras, size)| ==> Groups(paras, size)[k] != []
  {
    var g := Fold(paras, size);
    FoldHolds(paras, size);
    if g.open != [] {
      FlattenSnoc(g.closed, g.open);
    }
  }

  /** A chunk of several paragraphs exceeds the chunk size by at most the one character. */
  lemma GroupsBounded(paras: seq<string>, size: int, k: nat)
    requires k < |Groups(paras, size)| && |Groups(paras, size)[k]| >= 2
    ensures |Join(Groups(paras, size)[k], Sep)| <= size + 1
  {
    FoldHolds(paras, size);
  }

  /**
   * The separator is not counted before joining, so a chunk of two paragraphs can
   * reach the chunk size: with size 10, "aaaaaaaa" is emitted alone and then
   * "bbbbbbbb" and "c" form the 11-character chunk "bbbbbbbb\n\nc".
   */
  lemma TwoParagraphsReachSize()
    ensures Groups(["aaaaaaaa", "bbbbbbbb", "c"], 10) == [["aaaaaaaa"], ["bbbbbbbb", "c"]]
    ensures |Join(["bbbbbbbb", "c"], Sep)| == 11
  {
    var a, b, c := "aaaaaaaa", "bbbbbbbb", "c";
    var ps := [a, b, c];
    var g1 := Step(Grouping([], [], false), a, 10);
    assert g1 == Grouping([], [a], true);
    assert Text([a], true) == Sep + a;
    var g2 := Step(g1, b, 10);
    assert g2 == Grouping([[a]], [b], false);
    assert Text([b], false) == b;
    var g3 := Step(g2, c, 10);
    assert g3 == Grouping([[a]], [b, c], false);
    assert ps[..2] == [a, b] && [a, b][..1] == [a] && [a][..0] == [];
    assert Fold([a], 10) == g1;
    assert Fold([a, b], 10) == g2;
    assert Fold(ps, 10) == g3;
    assert Join([b, c], Sep) == b + Sep + c;
  }

  // ---------------------------------------------------------------------------
  // Chunk texts

  lemma {:induction false} JoinEnds(parts: seq<string>, sep: string)
    requires |parts| >= 1 && parts[0] != [] && parts[|parts| - 1] != []
    ensures |Join(parts, sep)| > 0
    ensures Join(parts, sep)[0] == parts[0][0]
    ensures Join(parts, sep)[|Join(parts, sep)| - 1] == parts[|parts| - 1][|parts[|parts| - 1]| - 1]
  {
    if |parts| > 1 {
      var rest := parts[1..];
      if |rest| > 1 {
        assert rest[0] == parts[1];
        // the tail's own first piece need not be non-empty: work on the last piece directly
        JoinSnoc(parts[..|parts| - 1], parts[|parts| - 1], sep);
        assert parts[..|parts| - 1] + [parts[|parts| - 1]] == parts;
        assert Join(parts, sep) == parts[0] + sep + Join(rest, sep);
      } else {
        assert Join(rest, sep) == parts[1];
      }
    }
  }

  /** The chunk text of a group of clean paragraphs is itself stripped and not blank. */
  lemma JoinClean(parts: seq<string>)
    requires |parts| >= 1 && forall i :: 0 <= i < |parts| ==> Clean(parts[i])
    ensures Clean(Join(parts, Sep))
  {
    JoinEnds(parts, Sep);
  }

  /** Stripping the code's chunk text gives the group joined. */
  lemma TrimText(open: seq<string>, lead: bool)
    requires |open| >= 1 && forall i :: 0 <= i < |open| ==> Clean(open[i])
    ensures Trim(Text(open, lead), PyWhitespace) == Join(open, Sep)
  {
    var core := Join(open, Sep);
    JoinClean(open);
    assert Trimmed(core, PyWhitespace);
    if lead {
      SepIsWhitespace();
      assert Text(open, lead) == Sep + core + "";
      TrimAround(Sep, core, "", PyWhitespace);
    } else {
      assert Text(open, lead) == "" + core + "";
      TrimAround("", core, "", PyWhitespace);
    }
  }

  lemma SepIsWhitespace()
    ensures forall i :: 0 <= i < |Sep| ==> Sep[i] in PyWhitespace
  {
    assert Sep[0] == '\n' && Sep[1] == '\n';
  }

  /** The chunks one document contributes. */
  function Tagged(filename: string, gs: seq<seq<string>>): (r: seq<Chunk>)
    ensures |r| == |gs|
    ensures forall k :: 0 <= k < |gs| ==> r[k] == Chunk(filename, Join(gs[k], Sep))
  {
    if |gs| == 0 then []
    else
      var front := gs[..|gs| - 1];
      assert forall k :: 0 <= k < |front| ==> front[k] == gs[k];
      Tagged(filename, front) + [Chunk(filename, Join(gs[|gs| - 1], Sep))]
  }

  lemma TaggedSnoc(filename: string, gs: seq<seq<string>>, g: seq<string>)
    ensures Tagged(filename, gs + [g]) == Tagged(filename, gs) + [Chunk(filename, Join(g, Sep))]
  {
    assert (gs + [g])[..|gs|] == gs;
  }

  /** Every chunk of the documents, document by document. */
  function AllChunks(docs: seq<(string, string)>, size: int): seq<Chunk>
  {
    if |docs| == 0 then []
    else
      var d := docs[|docs| - 1];
      AllChunks(docs[..|docs| - 1], size) + Tagged(d.0, Groups(Paragraphs(d.1), size))
  }

  /** Every chunk is stripped and not blank. */
  lemma {:induction false} ChunksClean(docs: seq<(string, string)>, size: int)
    ensures forall k :: 0 <= k < |AllChunks(docs, size)| ==> Clean(AllChunks(docs, size)[k].content)
  {
    if |docs| > 0 {
      var d := docs[|docs| - 1];
      var paras := Paragraphs(d.1);
      var gs := Groups(paras, size);
      ChunksClean(docs[..|docs| - 1], size);
      GroupsPartition(paras, size);
      forall k | 0 <= k < |gs| ensures Clean(Join(gs[k], Sep)) {
        GroupMembersClean(paras, size, k);
        JoinClean(gs[k]);
      }
    }
  }

  /** The paragraphs of a group are paragraphs of the document. */
  lemma GroupMembersClean(paras: seq<string>, size: int, k: nat)
    requires forall i :: 0 <= i < |paras| ==> Clean(paras[i])
    requires k < |Groups(paras, size)|
    ensures |Groups(paras, size)[k]| >= 1
    ensures forall i :: 0 <= i < |Groups(paras, size)[k]| ==> Clean(Groups(paras, size)[k][i])
  {
    var gs := Groups(paras, size);
    GroupsPartition(paras, size);
    FlattenMember(gs, k);
    forall i | 0 <= i < |gs[k]| ensures Clean(gs[k][i]) {
      var x := gs[k][i];
      assert x in gs[k];
      assert x in paras;
      var j :| 0 <= j < |paras| && paras[j] == x;
    }
  }

  lemma {:induction false} FlattenMember(gs: seq<seq<string>>, k: nat)
    requires k < |gs|
    ensures forall x :: x in gs[k] ==> x in Flatten(gs)
  {
    var front := gs[..|gs| - 1];
    if k < |gs| - 1 {
      FlattenMember(front, k);
      assert front[k] == gs[k];
    }
  }

  // ---------------------------------------------------------------------------
  // The loops

  /** `chunk_documents`. */
  method ChunkDocuments(docs: seq<(string, string)>, chunkSize: int) returns (chunks: seq<Chunk>)
    ensures chunks == AllChunks(docs, chunkSize)
  {
    chunks := [];
    for d := 0 to |docs|
      invariant chunks == AllChunks(docs[..d], chunkSize)
    {
      assert docs[..d + 1][..d] == docs[..d];
      var docChunks := ChunkDocument(docs[d].0, docs[d].1, chunkSize);
      chunks := chunks + docChunks;
    }
    assert docs[..|docs|] == docs;
  }

  /** The inner loop: the chunks of one document. */
  method ChunkDocument(filename: string, content: string, chunkSize: int) returns (out: seq<Chunk>)
    ensures out == Tagged(filename, Groups(Paragraphs(content), chunkSize))
  {
    var paragraphs := Split(content, Sep);
    var currentChunk := "";
    out := [];
    for i := 0 to |paragraphs|
      invariant Loop(out, currentChunk, filename, paragraphs[..i], chunkSize)
    {
      assert paragraphs[..i + 1] == paragraphs[..i] + [paragraphs[i]];
      out, currentChunk := AddPiece(out, currentChunk, paragraphs[i], filename, chunkSize, paragraphs[..i]);
    }
    out := FlushResidue(out, currentChunk, filename, chunkSize, paragraphs[..|paragraphs|]);
    assert paragraphs[..|paragraphs|] == paragraphs;
  }

  /** After the loop: the current chunk text, when not empty, is the last chunk. */
  method FlushResidue(out: seq<Chunk>, currentChunk: string, filename: string, chunkSize: int,
                      ghost pieces: seq<string>)
    returns (out': seq<Chunk>)
    requires Loop(out, currentChunk, filename, pieces, chunkSize)
    ensures out' == Tagged(filename, Groups(Cleaned(pieces), chunkSize))
  {
    ResidueMatches(Cleaned(pieces), pieces, chunkSize, filename);
    out' := out;
    if currentChunk != "" {
      out' := out + [Chunk(filename, Trim(currentChunk, PyWhitespace))];
    }
  }

  /** The state of the inner loop after `pieces`: the closed chunks and the current chunk text. */
  predicate Loop(out: seq<Chunk>, currentChunk: string, filename: string, pieces: seq<string>, size: int)
  {
    var g := Fold(Cleaned(pieces), size);
    out == Tagged(filename, g.closed) && currentChunk == Text(g.open, g.lead)
  }

  /** One paragraph of the inner loop: skipped when blank, else joined or starting a new chunk. */
  method AddPiece(out: seq<Chunk>, currentChunk: string, piece: string, filename: string, chunkSize: int,
                  ghost pieces: seq<string>)
    returns (out': seq<Chunk>, currentChunk': string)
    requires Loop(out, currentChunk, filename, pieces, chunkSize)
    ensures Loop(out', currentChunk', filename, pieces + [piece], chunkSize)
  {
    out', currentChunk' := out, currentChunk;
    var cleanP := Trim(piece, PyWhitespace);
    if cleanP == "" {
      SkipBlank(out, currentChunk, filename, pieces, piece, chunkSize);
      return;
    }
    CleanedKept(pieces, piece);
    ghost var seen := Cleaned(pieces);
    ghost var g := Fold(seen, chunkSize);
    FoldOpenClean(seen, pieces, chunkSize);
    FoldSnoc(seen, cleanP, chunkSize);
    if |currentChunk| + |cleanP| < chunkSize {
      FitMatches(g, cleanP, chunkSize);
      currentChunk' := currentChunk + Sep + cleanP;
    } else {
      FlushMatches(g, cleanP, chunkSize, filename);
      if currentChunk != "" {
        out' := out + [Chunk(filename, Trim(currentChunk, PyWhitespace))];
      }
      currentChunk' := cleanP;
    }
  }

  /** A blank paragraph leaves the loop state as it is. */
  lemma SkipBlank(out: seq<Chunk>, currentChunk: string, filename: string, pieces: seq<string>, piece: string, size: int)
    requires Loop(out, currentChunk, filename, pieces, size) && Trim(piece, PyWhitespace) == ""
    ensures Loop(out, currentChunk, filename, pieces + [piece], size)
  {
    CleanedBlank(pieces, piece);
  }

  /** A blank piece adds no paragraph. */
  lemma CleanedBlank(pieces: seq<string>, piece: string)
    requires Trim(piece, PyWhitespace) == ""
    ensures Cleaned(pieces + [piece]) == Cleaned(pieces)
  {
    var a := pieces + [piece];
    assert a[..|a| - 1] == pieces;
    assert a[|a| - 1] == piece;
    assert Cleaned(a) == Cleaned(pieces) + [];
  }

  /** A piece that is not blank adds its stripped text as the last paragraph. */
  lemma CleanedKept(pieces: seq<string>, piece: string)
    requires Trim(piece, PyWhitespace) != ""
    ensures Cleaned(pieces + [piece]) == Cleaned(pieces) + [Trim(piece, PyWhitespace)]
  {
    var a := pieces + [piece];
    assert a[..|a| - 1] == pieces;
    assert a[|a| - 1] == piece;
  }

  lemma FoldSnoc(seen: seq<string>, p: string, size: int)
    ensures Fold(seen + [p], size) == Step(Fold(seen, size), p, size)
  {
    assert (seen + [p])[..|seen|] == seen;
  }

  /** An open group of clean paragraphs, and a chunk text empty exactly when the group is. */
  predicate OpenClean(g: Grouping)
  {
    (forall i :: 0 <= i < |g.open| ==> Clean(g.open[i])) && (g.open == [] <==> Text(g.open, g.lead) == "")
  }

  /** A paragraph that fits is appended to the chunk text after a blank line. */
  lemma FitMatches(g: Grouping, p: string, size: int)
    requires OpenClean(g) && |Text(g.open, g.lead)| + |p| < size
    ensures Text(Step(g, p, size).open, Step(g, p, size).lead) == Text(g.open, g.lead) + Sep + p
    ensures Step(g, p, size).closed == g.closed
  {
    if g.open != [] {
      JoinSnoc(g.open, p, Sep);
    } else {
      assert Join([p], Sep) == p;
    }
  }

  /** A paragraph that does not fit flushes the stripped chunk text and becomes the chunk text. */
  lemma FlushMatches(g: Grouping, p: string, size: int, filename: string)
    requires OpenClean(g) && |Text(g.open, g.lead)| + |p| >= size
    ensures Text(Step(g, p, size).open, Step(g, p, size).lead) == p
    ensures Text(g.open, g.lead) == "" ==> Tagged(filename, Step(g, p, size).closed) == Tagged(filename, g.closed)
    ensures Text(g.open, g.lead) != "" ==>
      (Tagged(filename, Step(g, p, size).closed) ==
       Tagged(filename, g.closed) + [Chunk(filename, Trim(Text(g.open, g.lead), PyWhitespace))])
  {
    assert Join([p], Sep) == p;
    if g.open != [] {
      TrimText(g.open, g.lead);
      assert Step(g, p, size).closed == g.closed + [g.open];
      TaggedSnoc(filename, g.closed, g.open);
    } else {
      assert Step(g, p, size).closed == g.closed;
    }
  }

  /** The residue the loop flushes is the open group. */
  lemma ResidueMatches(seen: seq<string>, pieces: seq<string>, size: int, filename: string)
    requires seen == Cleaned(pieces)
    ensures var g := Fold(seen, size); var t := Text(g.open, g.lead);
      (t == "" ==> Tagged(filename, Groups(seen, size)) == Tagged(filename, g.closed)) &&
      (t != "" ==> Tagged(filename, Groups(seen, size)) == Tagged(filename, g.closed) + [Chunk(filename, Trim(t, PyWhitespace))])
  {
    var g := Fold(seen, size);
    FoldOpenClean(seen, pieces, size);
    if g.open != [] {
      TrimText(g.open, g.lead);
      TaggedSnoc(filename, g.closed, g.open);
    }
  }

  /** The open group holds clean paragraphs, and its text is empty exactly when it is. */
  lemma FoldOpenClean(seen: seq<string>, pieces: seq<string>, size: int)
    requires seen == Cleaned(pieces)
    ensures OpenClean(Fold(seen, size))
  {
    var g := Fold(seen, size);
    FoldHolds(seen, size);
    SuffixOf(Flatten(g.closed), g.open, seen);
    if g.open != [] {
      JoinClean(g.open);
    }
  }

  lemma SuffixOf(a: seq<string>, b: seq<string>, c: seq<string>)
    requires a + b == c
    ensures forall i :: 0 <= i < |b| ==> b[i] == c[|a| + i]
  {
  }
}
