/**
 What the chunks keep of the document, how their roles and ranges agree with the other readers of
 the same spans, and that the grouping uses as few chunks as possible.
 */
module ChunkProperties {
  import opened MarkdownBlocks
  import opened MarkdownSections
  import opened MarkdownTree
  import opened Chunker

  // ---------- One chunk ----------

  /** A chunk is whole consecutive blocks of one section within the target, or one block, or a piece of one. */
  ghost predicate ChunkOk(doc: Doc, limits: Limits, c: Chunk)
    requires DocOk(doc)
  {
    && c.start < c.end <= |doc.source| && c.end - c.start <= limits.hard && c.text == doc.source[c.start..c.end]
    && c.members != [] && c.members[|c.members| - 1] < |doc.blocks|
    && (forall k :: 0 <= k < |c.members| ==> c.members[k] == c.members[0] + k)
    && (forall k :: 0 <= k < |c.members| ==> doc.owners[c.members[k]] == c.section)
    && (c.role == StructuralAnchor <==> forall k :: 0 <= k < |c.members| ==> IsAnchor(doc.blocks[c.members[k]]))
    && doc.blocks[c.members[0]].start <= c.start && c.end <= doc.blocks[c.members[|c.members| - 1]].end
    && (|c.members| > 1 ==>
          && c.start == doc.blocks[c.members[0]].start && c.end == doc.blocks[c.members[|c.members| - 1]].end
          && c.end - c.start <= limits.target)
    && CutOk(doc, limits, c)
  }

  /** Headings and thematic breaks are anchors, all other blocks are content. */
  predicate IsAnchor(block: Block) {
    match block.kind
    case Heading => true
    case Thematic => true
    case _ => false
  }

  /**
   Only a block above the hard limit is cut. A cut takes the last newline within the limit that is not the first
   character of the piece, and the limit itself when there is none.
   */
  ghost predicate CutOk(doc: Doc, limits: Limits, c: Chunk)
    requires c.start < c.end <= |doc.source| && c.members != []
    requires c.members[|c.members| - 1] < |doc.blocks|
  {
    var blockEnd := doc.blocks[c.members[|c.members| - 1]].end;
    c.end < blockEnd <= |doc.source| ==>
      && c.start + limits.hard < blockEnd
      && (forall k :: c.end <= k < c.start + limits.hard ==> doc.source[k] != '\n')
      && (if c.end < c.start + limits.hard then c.end - 1 > c.start && doc.source[c.end - 1] == '\n'
          else forall k :: c.start < k < c.end - 1 && doc.source[k] == '\n' ==> doc.source[c.end - 1] == '\n')
  }

  lemma RoleByKind(blocks: seq<Block>, members: seq<nat>)
    requires forall k :: 0 <= k < |members| ==> members[k] < |blocks|
    ensures RoleOf(blocks, members) == StructuralAnchor <==>
      forall k :: 0 <= k < |members| ==> IsAnchor(blocks[members[k]])
  {
  }

  lemma GroupIsOk(doc: Doc, limits: Limits, i: nat, ordinal: nat)
    requires DocOk(doc) && LimitsOk(limits) && i < |doc.blocks| && !Oversized(doc, limits, i)
    ensures ChunkOk(doc, limits, GroupAt(doc, i, GroupEnd(doc, limits, i, i + 1), ordinal))
  {
    hide RoleOf;
    var end := GroupEnd(doc, limits, i, i + 1);
    RoleByKind(doc.blocks, Range(i, end));
    if end > i + 1 {
      assert Fits(doc, limits, i, end - 1);
    }
    forall k | i <= k < end ensures doc.owners[k] == doc.owners[i] {
      if k > i {
        assert Fits(doc, limits, i, k);
      }
    }
  }

  // ---------- The list of chunks ----------

  ghost predicate InOrder(chunks: seq<Chunk>) {
    forall c, d :: 0 <= c < d < |chunks| ==> chunks[c].end <= chunks[d].start
  }

  ghost predicate Numbered(chunks: seq<Chunk>, ordinal: nat) {
    forall c :: 0 <= c < |chunks| ==> chunks[c].ordinal == ordinal + c
  }

  ghost predicate AllOk(doc: Doc, limits: Limits, chunks: seq<Chunk>)
    requires DocOk(doc)
  {
    forall c :: 0 <= c < |chunks| ==> ChunkOk(doc, limits, chunks[c])
  }

  ghost predicate Within(chunks: seq<Chunk>, start: nat, end: nat) {
    forall c :: 0 <= c < |chunks| ==> start <= chunks[c].start && chunks[c].end <= end
  }

  ghost predicate Holds(chunks: seq<Chunk>, p: int) {
    exists c :: 0 <= c < |chunks| && chunks[c].start <= p < chunks[c].end
  }

  function Text(chunks: seq<Chunk>): string {
    if chunks == [] then "" else chunks[0].text + Text(chunks[1..])
  }

  lemma Join(doc: Doc, limits: Limits, a: seq<Chunk>, b: seq<Chunk>, start: nat, middle: nat, end: nat, ordinal: nat)
    requires DocOk(doc) && start <= middle <= end
    requires AllOk(doc, limits, a) && InOrder(a) && Within(a, start, middle) && Numbered(a, ordinal)
    requires AllOk(doc, limits, b) && InOrder(b) && Within(b, middle, end) && Numbered(b, ordinal + |a|)
    ensures AllOk(doc, limits, a + b) && InOrder(a + b) && Within(a + b, start, end) && Numbered(a + b, ordinal)
    ensures forall p :: Holds(a + b, p) <==> Holds(a, p) || Holds(b, p)
  {
    hide ChunkOk;
    forall p ensures Holds(a + b, p) <==> Holds(a, p) || Holds(b, p) {
      if Holds(a, p) {
        var c :| 0 <= c < |a| && a[c].start <= p < a[c].end;
        assert (a + b)[c] == a[c];
      }
      if Holds(b, p) {
        var c :| 0 <= c < |b| && b[c].start <= p < b[c].end;
        assert (a + b)[|a| + c] == b[c];
      }
    }
  }

  lemma One(doc: Doc, limits: Limits, c: Chunk, start: nat, end: nat)
    requires DocOk(doc) && ChunkOk(doc, limits, c) && start <= c.start && c.end <= end
    ensures AllOk(doc, limits, [c]) && InOrder([c]) && Within([c], start, end) && Numbered([c], c.ordinal)
    ensures forall p :: Holds([c], p) <==> c.start <= p < c.end
  {
    hide ChunkOk;
    assert [c][0] == c;
  }

  /** The pieces of a block are consecutive and read together as the block. */
  lemma {:induction false} PiecesKeepTheBlock(doc: Doc, limits: Limits, b: nat, start: nat, ordinal: nat)
    requires DocOk(doc) && LimitsOk(limits) && b < |doc.blocks|
    requires doc.blocks[b].start <= start <= doc.blocks[b].end
    ensures var pieces, end := PiecesFrom(doc, limits, b, start, ordinal), doc.blocks[b].end;
      && AllOk(doc, limits, pieces) && InOrder(pieces) && Within(pieces, start, end) && Numbered(pieces, ordinal)
      && (forall p :: Holds(pieces, p) <==> start <= p < end)
    decreases doc.blocks[b].end - start
  {
    hide RoleOf, PieceEnd;
    var end := doc.blocks[b].end;
    if start < end {
      var piece := PieceAt(doc, limits, b, start, ordinal);
      PieceIsOk(doc, limits, b, start, ordinal);
      PiecesKeepTheBlock(doc, limits, b, piece.end, ordinal + 1);
      hide ChunkOk, DocOk, PieceAt;
      var rest := PiecesFrom(doc, limits, b, piece.end, ordinal + 1);
      One(doc, limits, piece, start, piece.end);
      Join(doc, limits, [piece], rest, start, piece.end, end, ordinal);
      hide AllOk, InOrder, Numbered, Within, Holds;
    }
  }

  /** Read together, the pieces are the block. */
  lemma {:induction false} PiecesReadAsTheBlock(doc: Doc, limits: Limits, b: nat, start: nat, ordinal: nat)
    requires DocOk(doc) && LimitsOk(limits) && b < |doc.blocks|
    requires doc.blocks[b].start <= start <= doc.blocks[b].end <= |doc.source|
    ensures Text(PiecesFrom(doc, limits, b, start, ordinal)) == doc.source[start..doc.blocks[b].end]
    decreases doc.blocks[b].end - start
  {
    hide RoleOf, PieceEnd;
    var end := doc.blocks[b].end;
    if start < end {
      var piece := PieceAt(doc, limits, b, start, ordinal);
      var rest := PiecesFrom(doc, limits, b, piece.end, ordinal + 1);
      PiecesReadAsTheBlock(doc, limits, b, piece.end, ordinal + 1);
      assert ([piece] + rest)[1..] == rest;
      assert doc.source[start..end] == doc.source[start..piece.end] + doc.source[piece.end..end];
    }
  }

  lemma BlockBounds(doc: Doc, b: nat)
    requires DocOk(doc) && b < |doc.blocks|
    ensures doc.blocks[b].start < doc.blocks[b].end <= |doc.source|
  {
  }

  lemma PieceIsCut(doc: Doc, limits: Limits, b: nat, start: nat, ordinal: nat)
    requires DocOk(doc) && LimitsOk(limits) && b < |doc.blocks|
    requires doc.blocks[b].start <= start < doc.blocks[b].end
    ensures CutOk(doc, limits, PieceAt(doc, limits, b, start, ordinal))
  {
    hide RoleOf;
  }

  lemma PieceIsOk(doc: Doc, limits: Limits, b: nat, start: nat, ordinal: nat)
    requires DocOk(doc) && LimitsOk(limits) && b < |doc.blocks|
    requires doc.blocks[b].start <= start < doc.blocks[b].end
    ensures var piece := PieceAt(doc, limits, b, start, ordinal);
      && ChunkOk(doc, limits, piece) && piece.start == start < piece.end <= doc.blocks[b].end
      && piece.ordinal == ordinal && piece.text == doc.source[start..piece.end]
  {
    RoleByKind(doc.blocks, [b]);
    hide RoleOf;
    PieceIsCut(doc, limits, b, start, ordinal);
    hide PieceEnd, CutOk;
  }

  function StartOf(doc: Doc, i: nat): nat
    requires DocOk(doc) && i <= |doc.blocks|
  {
    if i < |doc.blocks| then doc.blocks[i].start else |doc.source|
  }

  ghost predicate HoldsBlocks(doc: Doc, chunks: seq<Chunk>, i: nat)
    requires DocOk(doc)
  {
    forall b, p :: i <= b < |doc.blocks| && doc.blocks[b].start <= p < doc.blocks[b].end ==> Holds(chunks, p)
  }

  /**
   The chunks are sound, in order, without overlap and numbered from 0; every character of every
   block is in one, and none exceeds the hard limit.
   */
  lemma ChunksKeepTheDocument(doc: Doc, limits: Limits)
    requires DocOk(doc) && LimitsOk(limits)
    ensures var chunks := ChunksFrom(doc, limits, 0, 0);
      && AllOk(doc, limits, chunks) && InOrder(chunks) && Numbered(chunks, 0) && HoldsBlocks(doc, chunks, 0)
  {
    ChunksFromKeep(doc, limits, 0, 0);
  }

  lemma {:induction false} ChunksFromKeep(doc: Doc, limits: Limits, i: nat, ordinal: nat)
    requires DocOk(doc) && LimitsOk(limits) && i <= |doc.blocks|
    ensures var chunks := ChunksFrom(doc, limits, i, ordinal);
      && AllOk(doc, limits, chunks) && InOrder(chunks) && Numbered(chunks, ordinal)
      && Within(chunks, StartOf(doc, i), |doc.source|) && HoldsBlocks(doc, chunks, i)
    decreases |doc.blocks| - i
  {
    hide ChunkOk, GroupAt, PiecesFrom;
    if i < |doc.blocks| {
      BlockBounds(doc, i);
      if Oversized(doc, limits, i) {
        var pieces := PiecesFrom(doc, limits, i, doc.blocks[i].start, ordinal);
        ChunksFromKeep(doc, limits, i + 1, ordinal + |pieces|);
        PiecesKeepTheBlock(doc, limits, i, doc.blocks[i].start, ordinal);
        PrependChunks(doc, limits, pieces, ChunksFrom(doc, limits, i + 1, ordinal + |pieces|), i, i + 1, ordinal);
      } else {
        var end := GroupEnd(doc, limits, i, i + 1);
        var group := GroupAt(doc, i, end, ordinal);
        ChunksFromKeep(doc, limits, end, ordinal + 1);
        GroupIsOk(doc, limits, i, ordinal);
        GroupSpan(doc, i, end, ordinal);
        One(doc, limits, group, group.start, group.end);
        PrependChunks(doc, limits, [group], ChunksFrom(doc, limits, end, ordinal + 1), i, end, ordinal);
      }
    }
  }

  lemma GroupSpan(doc: Doc, i: nat, end: nat, ordinal: nat)
    requires DocOk(doc) && i < end <= |doc.blocks|
    ensures var group := GroupAt(doc, i, end, ordinal);
      group.start == doc.blocks[i].start && group.end == doc.blocks[end - 1].end && group.ordinal == ordinal
  {
  }

  /** Chunks that hold exactly the blocks from `i` to `next`, before chunks that hold the rest. */
  lemma PrependChunks(doc: Doc, limits: Limits, a: seq<Chunk>, b: seq<Chunk>, i: nat, next: nat, ordinal: nat)
    requires DocOk(doc) && i < next <= |doc.blocks|
    requires AllOk(doc, limits, a) && InOrder(a) && Numbered(a, ordinal)
    requires Within(a, doc.blocks[i].start, doc.blocks[next - 1].end)
    requires forall p :: doc.blocks[i].start <= p < doc.blocks[next - 1].end ==> Holds(a, p)
    requires AllOk(doc, limits, b) && InOrder(b) && Numbered(b, ordinal + |a|)
    requires Within(b, StartOf(doc, next), |doc.source|) && HoldsBlocks(doc, b, next)
    ensures AllOk(doc, limits, a + b) && InOrder(a + b) && Numbered(a + b, ordinal)
    ensures Within(a + b, StartOf(doc, i), |doc.source|) && HoldsBlocks(doc, a + b, i)
  {
    hide AllOk, InOrder, Numbered, Holds;
    BlockBounds(doc, i);
    BlockBounds(doc, next - 1);
    var middle := doc.blocks[next - 1].end;
    assert middle <= StartOf(doc, next);
    assert doc.blocks[i].start <= middle;
    Join(doc, limits, a, b, doc.blocks[i].start, middle, |doc.source|, ordinal);
    forall k, p | i <= k < |doc.blocks| && doc.blocks[k].start <= p < doc.blocks[k].end
      ensures Holds(a + b, p)
    {
      if k < next {
        assert doc.blocks[i].start <= doc.blocks[k].start && doc.blocks[k].end <= middle;
      }
    }
  }

  // ---------- Roles ----------

  /** The role recomputed from all blocks of the document that overlap a span. */
  ghost function OverlapRole(doc: Doc, start: nat, end: nat): Role {
    if exists b :: 0 <= b < |doc.blocks| && doc.blocks[b].start < end && doc.blocks[b].end > start
                   && !IsAnchor(doc.blocks[b])
    then ContentEvidence else StructuralAnchor
  }

  /** A chunk overlaps exactly the blocks it was made of, so both ways of finding its role agree. */
  lemma RoleAgreesWithOverlap(doc: Doc, limits: Limits, c: Chunk)
    requires DocOk(doc) && ChunkOk(doc, limits, c)
    ensures c.role == OverlapRole(doc, c.start, c.end)
  {
    var first, last := c.members[0], c.members[|c.members| - 1];
    forall b | 0 <= b < |doc.blocks|
      ensures doc.blocks[b].start < c.end && doc.blocks[b].end > c.start <==> first <= b <= last
    {
      MembersOverlap(doc, limits, c, b);
    }
    if c.role == ContentEvidence {
      var k :| 0 <= k < |c.members| && !IsAnchor(doc.blocks[c.members[k]]);
      assert first <= c.members[k] <= last;
    } else {
      forall b | first <= b <= last ensures IsAnchor(doc.blocks[b]) {
        assert c.members[b - first] == b;
      }
    }
  }

  lemma MembersOverlap(doc: Doc, limits: Limits, c: Chunk, b: nat)
    requires DocOk(doc) && ChunkOk(doc, limits, c) && b < |doc.blocks|
    ensures doc.blocks[b].start < c.end && doc.blocks[b].end > c.start <==>
      c.members[0] <= b <= c.members[|c.members| - 1]
  {
    hide RoleOf;
    BlockBounds(doc, b);
  }

  // ---------- Ranges ----------

  /** The document the parser hands over. */
  ghost function ParsedDoc(g: Grammar, lines: seq<Line>, source: string): Doc {
    Doc(source, BlocksFrom(g, lines, 0), Owners(BlocksFrom(g, lines, 0)))
  }

  lemma ParsedDocIsOk(g: Grammar, lines: seq<Line>, source: string, bodyStart: nat)
    requires Covers(lines, source, bodyStart)
    ensures DocOk(ParsedDoc(g, lines, source))
    ensures Spans(BlocksFrom(g, lines, 0), bodyStart, |source|)
  {
    BlockSpans(g, lines, source, bodyStart);
  }

  /**
   A chunk lies in a section's character range exactly when it belongs to that section or to one of
   its descendants: filtering by the range selects the subtree.
   */
  lemma RangeFilterSelectsTheSubtree(g: Grammar, lines: seq<Line>, source: string, bodyStart: nat, limits: Limits,
                                     c: Chunk, i: nat)
    requires Covers(lines, source, bodyStart) && bodyStart <= |source| && DocOk(ParsedDoc(g, lines, source))
    requires ChunkOk(ParsedDoc(g, lines, source), limits, c) && i < |Levels(BlocksFrom(g, lines, 0))|
    ensures var blocks := BlocksFrom(g, lines, 0);
      var levels, starts := Levels(blocks), Starts(blocks, bodyStart);
      c.section < |levels| &&
      (starts[i] <= c.start && c.end <= EndOf(levels, starts, |source|, i) <==> InSubtree(levels, i, c.section))
  {
    hide BlocksFrom, RoleOf, Levels, Starts, Owners, Closer, InSubtree;
    var blocks, first, last := BlocksFrom(g, lines, 0), c.members[0], c.members[|c.members| - 1];
    ParsedDocIsOk(g, lines, source, bodyStart);
    StartsAscend(blocks, bodyStart, |source|);
    BlocksLieInTheirSections(blocks, bodyStart, |source|, first);
    BlocksLieInTheirSections(blocks, bodyStart, |source|, last);
    assert Owners(blocks)[c.members[0]] == c.section;
    assert Owners(blocks)[c.members[|c.members| - 1]] == c.section;
    RangeIsSubtree(Levels(blocks), Starts(blocks, bodyStart), |source|, i, c.section, c.start, c.end);
  }

  // ---------- Fewest chunks ----------

  /** A run the chunker may emit: one block, or blocks of one section within the target. */
  ghost predicate ValidRun(doc: Doc, limits: Limits, lo: nat, hi: nat)
    requires DocOk(doc)
  {
    && lo < hi <= |doc.blocks|
    && (hi == lo + 1
        || (doc.blocks[hi - 1].end - doc.blocks[lo].start <= limits.target
            && forall k :: lo <= k < hi ==> doc.owners[k] == doc.owners[lo]))
  }

  /** The ends of consecutive valid runs that make up the blocks from `i` on. */
  ghost predicate Partition(doc: Doc, limits: Limits, i: nat, ends: seq<nat>)
    requires DocOk(doc)
    decreases |ends|
  {
    if ends == [] then i == |doc.blocks|
    else ValidRun(doc, limits, i, ends[0]) && Partition(doc, limits, ends[0], ends[1..])
  }

  /** The chunker's own runs. */
  function Runs(doc: Doc, limits: Limits, i: nat): seq<nat>
    requires DocOk(doc) && i <= |doc.blocks|
    decreases |doc.blocks| - i
  {
    if i == |doc.blocks| then []
    else
      var end := if Oversized(doc, limits, i) then i + 1 else GroupEnd(doc, limits, i, i + 1);
      [end] + Runs(doc, limits, end)
  }

  /** The chunks beyond one per run: the further pieces of oversized blocks, however the rest is grouped. */
  function ExtraPieces(doc: Doc, limits: Limits, i: nat): int
    requires DocOk(doc) && LimitsOk(limits) && i <= |doc.blocks|
    decreases |doc.blocks| - i
  {
    if i == |doc.blocks| then 0
    else (if Oversized(doc, limits, i) then |PiecesFrom(doc, limits, i, doc.blocks[i].start, 0)| - 1 else 0)
         + ExtraPieces(doc, limits, i + 1)
  }

  /** An oversized block never shares a valid run. */
  lemma OversizedStandsAlone(doc: Doc, limits: Limits, lo: nat, hi: nat, k: nat)
    requires DocOk(doc) && LimitsOk(limits) && ValidRun(doc, limits, lo, hi) && lo <= k < hi
    requires Oversized(doc, limits, k)
    ensures hi == lo + 1
  {
  }

  lemma RunFits(doc: Doc, limits: Limits, lo: nat, hi: nat, k: nat)
    requires DocOk(doc) && LimitsOk(limits) && ValidRun(doc, limits, lo, hi) && lo < k < hi
    ensures Fits(doc, limits, lo, k)
  {
    if Oversized(doc, limits, k) {
      OversizedStandsAlone(doc, limits, lo, hi, k);
    }
  }

  /** No valid run from the same block reaches further than the chunker's. */
  lemma GreedyReachesFurthest(doc: Doc, limits: Limits, i: nat, hi: nat)
    requires DocOk(doc) && LimitsOk(limits) && ValidRun(doc, limits, i, hi)
    ensures i < |doc.blocks| && hi <= Runs(doc, limits, i)[0] <= |doc.blocks|
  {
    if !Oversized(doc, limits, i) {
      var end := GroupEnd(doc, limits, i, i + 1);
      if end < hi {
        RunFits(doc, limits, i, hi, end);
      }
    } else {
      OversizedStandsAlone(doc, limits, i, hi, i);
    }
  }

  /** Starting later never needs more runs. */
  lemma {:induction false} TrimPartition(doc: Doc, limits: Limits, i: nat, j: nat, ends: seq<nat>)
    returns (rest: seq<nat>)
    requires DocOk(doc) && Partition(doc, limits, i, ends) && i <= j <= |doc.blocks|
    ensures Partition(doc, limits, j, rest) && |rest| <= |ends|
    decreases |ends|
  {
    if ends == [] || i == j {
      rest := ends;
    } else if j < ends[0] {
      rest := ends;
      assert ValidRun(doc, limits, j, ends[0]);
    } else {
      rest := TrimPartition(doc, limits, ends[0], j, ends[1..]);
    }
  }

  /** The chunker's runs are the fewest possible. */
  lemma {:induction false} RunsAreFewest(doc: Doc, limits: Limits, i: nat, ends: seq<nat>)
    requires DocOk(doc) && LimitsOk(limits) && i <= |doc.blocks| && Partition(doc, limits, i, ends)
    ensures |Runs(doc, limits, i)| <= |ends|
    decreases |ends|
  {
    if ends != [] {
      GreedyReachesFurthest(doc, limits, i, ends[0]);
      var next := Runs(doc, limits, i)[0];
      var rest := TrimPartition(doc, limits, ends[0], next, ends[1..]);
      RunsAreFewest(doc, limits, next, rest);
    }
  }

  lemma {:induction false} RunsArePartition(doc: Doc, limits: Limits, i: nat)
    requires DocOk(doc) && LimitsOk(limits) && i <= |doc.blocks|
    ensures Partition(doc, limits, i, Runs(doc, limits, i))
    decreases |doc.blocks| - i
  {
    if i < |doc.blocks| {
      var end := Runs(doc, limits, i)[0];
      RunsArePartition(doc, limits, end);
      if end > i + 1 {
        assert Fits(doc, limits, i, end - 1);
        forall k | i <= k < end ensures doc.owners[k] == doc.owners[i] {
          assert k > i ==> Fits(doc, limits, i, k);
        }
      }
    }
  }

  lemma {:induction false} PieceCount(doc: Doc, limits: Limits, b: nat, start: nat, m: nat, n: nat)
    requires DocOk(doc) && LimitsOk(limits) && b < |doc.blocks| && start <= doc.blocks[b].end
    ensures |PiecesFrom(doc, limits, b, start, m)| == |PiecesFrom(doc, limits, b, start, n)|
    decreases doc.blocks[b].end - start
  {
    hide RoleOf;
    if start < doc.blocks[b].end {
      PieceCount(doc, limits, b, PieceAt(doc, limits, b, start, m).end, m + 1, n + 1);
    }
  }

  lemma {:induction false} NoExtraPieces(doc: Doc, limits: Limits, i: nat, j: nat)
    requires DocOk(doc) && LimitsOk(limits) && i <= j <= |doc.blocks|
    requires forall k :: i <= k < j ==> !Oversized(doc, limits, k)
    ensures ExtraPieces(doc, limits, i) == ExtraPieces(doc, limits, j)
    decreases j - i
  {
    if i < j {
      NoExtraPieces(doc, limits, i + 1, j);
    }
  }

  lemma {:induction false} ChunkCount(doc: Doc, limits: Limits, i: nat, ordinal: nat)
    requires DocOk(doc) && LimitsOk(limits) && i <= |doc.blocks|
    ensures |ChunksFrom(doc, limits, i, ordinal)| == |Runs(doc, limits, i)| + ExtraPieces(doc, limits, i)
    decreases |doc.blocks| - i
  {
    hide PiecesFrom, GroupAt;
    if i < |doc.blocks| {
      if Oversized(doc, limits, i) {
        PieceCount(doc, limits, i, doc.blocks[i].start, ordinal, 0);
        ChunkCount(doc, limits, i + 1, ordinal + |PiecesFrom(doc, limits, i, doc.blocks[i].start, ordinal)|);
      } else {
        var end := GroupEnd(doc, limits, i, i + 1);
        forall k | i <= k < end ensures !Oversized(doc, limits, k) {
          assert k > i ==> Fits(doc, limits, i, k);
        }
        NoExtraPieces(doc, limits, i, end);
        ChunkCount(doc, limits, end, ordinal + 1);
      }
    }
  }

  /**
   Greedy grouping is optimal: however the blocks are cut into valid runs, the chunks are no more
   than those runs and the further pieces of oversized blocks.
   */
  lemma ChunksAreFewest(doc: Doc, limits: Limits, ends: seq<nat>)
    requires DocOk(doc) && LimitsOk(limits) && Partition(doc, limits, 0, ends)
    ensures |ChunksFrom(doc, limits, 0, 0)| <= |ends| + ExtraPieces(doc, limits, 0)
  {
    RunsAreFewest(doc, limits, 0, ends);
    ChunkCount(doc, limits, 0, 0);
  }
}
