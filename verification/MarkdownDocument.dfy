/** Parsing and chunking one document, end to end. */
module MarkdownDocument {
  import opened Options
  import opened MarkdownBlocks
  import opened MarkdownReading
  import opened MarkdownSections
  import opened MarkdownTree
  import opened Chunker
  import opened ChunkProperties

  /** The root covers the body, each heading block opens a section at its start, and no other section exists. */
  ghost predicate SectionsOpen(doc: Doc, sections: seq<Section>, bodyStart: nat)
    requires |doc.owners| == |doc.blocks|
  {
    && sections != [] && sections[0] == Section(None, 0, bodyStart, |doc.source|)
    && (forall b :: 0 <= b < |doc.blocks| ==> doc.owners[b] < |sections|)
    && (forall b :: 0 <= b < |doc.blocks| && doc.blocks[b].kind == Heading ==> OpensAt(doc, sections, b, doc.owners[b]))
    && (forall i :: 0 < i < |sections| ==> IsOpened(doc, sections, i))
  }

  ghost predicate IsOpened(doc: Doc, sections: seq<Section>, i: nat)
    requires |doc.owners| == |doc.blocks|
  {
    exists b :: 0 <= b < |doc.blocks| && OpensAt(doc, sections, b, i)
  }

  ghost predicate OpensAt(doc: Doc, sections: seq<Section>, b: nat, i: nat)
    requires b < |doc.blocks| == |doc.owners|
  {
    && 0 < i < |sections| && doc.blocks[b].kind == Heading && doc.owners[b] == i
    && sections[i].start == doc.blocks[b].start && sections[i].level == doc.blocks[b].level
  }

  /**
   A section's parent is the last one before it of a smaller level, and it ends where the next one of no greater level
   starts, or with the text.
   */
  ghost predicate SectionsNest(sections: seq<Section>, length: nat) {
    forall i :: 0 < i < |sections| ==> ParentFits(sections, i) && EndFits(sections, length, i)
  }

  ghost predicate ParentFits(sections: seq<Section>, i: nat)
    requires i < |sections|
  {
    && sections[i].parent.Some? && sections[i].parent.value < i
    && sections[sections[i].parent.value].level < sections[i].level
    && forall k :: sections[i].parent.value < k < i ==> sections[k].level >= sections[i].level
  }

  ghost predicate EndFits(sections: seq<Section>, length: nat, i: nat)
    requires i < |sections|
  {
    if forall k :: i < k < |sections| ==> sections[k].level > sections[i].level then sections[i].end == length
    else exists j :: && i < j < |sections| && sections[i].end == sections[j].start
                     && sections[j].level <= sections[i].level
                     && forall k :: i < k < j ==> sections[k].level > sections[i].level
  }

  /** Following the parents from section `j` leads to section `i`. */
  ghost predicate IsUnder(sections: seq<Section>, i: nat, j: nat)
    requires j < |sections|
    decreases j
  {
    j == i || (sections[j].parent.Some? && sections[j].parent.value < j && IsUnder(sections, i, sections[j].parent.value))
  }

  /** A heading line is marked itself or underlined by the next one. */
  ghost predicate IsHeadingLine(g: Grammar, lines: seq<Line>, k: nat)
    requires k < |lines|
  {
    !g.blank(lines[k].text) && (g.atx(lines[k].text) > 0 || (k + 1 < |lines| && g.setext(lines[k + 1].text)))
  }

  ghost function HeadingLevel(g: Grammar, lines: seq<Line>, k: nat): nat
    requires k < |lines| && IsHeadingLine(g, lines, k)
  {
    if g.atx(lines[k].text) > 0 then g.atx(lines[k].text) else if g.setextTop(lines[k + 1].text) then 1 else 2
  }

  ghost predicate GoesOnABlock(blocks: seq<Block>, k: nat) {
    exists b :: 0 <= b < |blocks| && blocks[b].first < k < blocks[b].past
  }

  /** A heading line that does not go on another block opens a section at its start. */
  ghost predicate HeadingLinesOpen(g: Grammar, lines: seq<Line>, doc: Doc, sections: seq<Section>) {
    forall k :: 0 <= k < |lines| && IsHeadingLine(g, lines, k) && !GoesOnABlock(doc.blocks, k) ==>
      SectionStarts(sections, lines[k].start, HeadingLevel(g, lines, k))
  }

  ghost predicate SectionStarts(sections: seq<Section>, start: nat, level: nat) {
    exists i :: 0 < i < |sections| && sections[i].start == start && sections[i].level == level
  }

  /** Every position of the body is in a chunk or in a blank line. */
  ghost predicate NothingIsLost(g: Grammar, lines: seq<Line>, source: string, bodyStart: nat, chunks: seq<Chunk>) {
    forall p :: bodyStart <= p < |source| ==>
      Holds(chunks, p) || exists k :: 0 <= k < |lines| && lines[k].start <= p < lines[k].end && g.blank(lines[k].text)
  }

  /**
   From text to sections and chunks. The blocks read the lines of the body. Every heading opens a section and sections
   nest by level. The chunks are sound, in order, numbered and inside the body, and hold every position of it that is
   not in a blank line; those in a section's character range are those of its subtree.
   */
  method ParseAndChunk(g: Grammar, source: string, bodyStart: nat, chunker: StructuralChunker)
    returns (sections: seq<Section>, doc: Doc, chunks: seq<Chunk>, ghost lines: seq<Line>)
    requires LevelsOk(g) && bodyStart <= |source| && LimitsOk(chunker.limits)
    ensures doc.source == source && DocOk(doc)
    ensures Covers(lines, source, bodyStart) && Reads(g, lines, doc.blocks, 0)
    ensures SectionsOpen(doc, sections, bodyStart) && SectionsNest(sections, |source|)
    ensures HeadingLinesOpen(g, lines, doc, sections)
    ensures chunks == ChunksFrom(doc, chunker.limits, 0, 0)
    ensures AllOk(doc, chunker.limits, chunks) && InOrder(chunks) && Numbered(chunks, 0)
    ensures Within(chunks, bodyStart, |source|) && NothingIsLost(g, lines, source, bodyStart, chunks)
    ensures forall c, i :: 0 <= c < |chunks| && 0 <= i < |sections| ==>
      && chunks[c].section < |sections|
      && (sections[i].start <= chunks[c].start && chunks[c].end <= sections[i].end
          <==> IsUnder(sections, i, chunks[c].section))
  {
    hide BlocksFrom, Levels, Starts, Owners, InSubtree, ChunksFrom, ChunkOk, HoldsBlocks, Covers, Reads;
    hide SectionsOpen, SectionsNest, HeadingLinesOpen, NothingIsLost, IsUnder, Within, AllOk, InOrder, Numbered, HeadingsOk;
    hide DocOk;
    var spans := LineSpans(source, bodyStart);
    lines := spans;
    var blocks, flags := ScanBlocks(g, spans);
    ScanReads(g, lines, 0);
    ScannedHeadingLevels(g, lines, 0);
    var owners;
    sections, owners := BuildSections(blocks, bodyStart, |source|);
    doc := Doc(source, blocks, owners);
    ParsedDocIsOk(g, lines, source, bodyStart);
    ParsedSections(doc, sections, bodyStart);
    HeadingsOpen(g, lines, doc, sections, bodyStart);
    chunks := chunker.Chunks(doc, |sections|);
    ChunksKeepTheDocument(doc, chunker.limits);
    ChunksStayInside(doc, chunker.limits, chunks, bodyStart);
    ChunksLoseNothing(g, lines, doc, chunks, bodyStart);
    forall c, i | 0 <= c < |chunks| && 0 <= i < |sections|
      ensures chunks[c].section < |sections|
      ensures sections[i].start <= chunks[c].start && chunks[c].end <= sections[i].end
        <==> IsUnder(sections, i, chunks[c].section)
    {
      ChunkAt(doc, chunker.limits, chunks, c);
      RangeFilterSelectsTheSubtree(g, lines, source, bodyStart, chunker.limits, chunks[c], i);
      UnderIsSubtree(Levels(blocks), sections, i, chunks[c].section);
    }
  }

  lemma ChunkAt(doc: Doc, limits: Limits, chunks: seq<Chunk>, c: nat)
    requires DocOk(doc) && AllOk(doc, limits, chunks) && c < |chunks|
    ensures ChunkOk(doc, limits, chunks[c])
  {
  }

  lemma ChunksStayInside(doc: Doc, limits: Limits, chunks: seq<Chunk>, bodyStart: nat)
    requires DocOk(doc) && AllOk(doc, limits, chunks) && Spans(doc.blocks, bodyStart, |doc.source|)
    ensures Within(chunks, bodyStart, |doc.source|)
  {
    hide CutOk;
    forall c | 0 <= c < |chunks|
      ensures bodyStart <= chunks[c].start && chunks[c].end <= |doc.source|
    {
      assert ChunkOk(doc, limits, chunks[c]);
      assert chunks[c].members[0] < |doc.blocks|;
    }
  }

  lemma ChunksLoseNothing(g: Grammar, lines: seq<Line>, doc: Doc, chunks: seq<Chunk>, bodyStart: nat)
    requires DocOk(doc) && HoldsBlocks(doc, chunks, 0) && doc.blocks == BlocksFrom(g, lines, 0)
    requires Covers(lines, doc.source, bodyStart)
    ensures NothingIsLost(g, lines, doc.source, bodyStart, chunks)
  {
    hide DocOk, Covers, BlocksFrom, Holds;
    forall p | bodyStart <= p < |doc.source|
      ensures Holds(chunks, p)
           || exists k :: 0 <= k < |lines| && lines[k].start <= p < lines[k].end && g.blank(lines[k].text)
    {
      OutsideBlocksIsBlank(g, lines, doc.source, bodyStart, p);
    }
  }

  // ---------- Sections ----------

  /** The last section opened up to a heading is its own. */
  lemma {:induction false} HeadingIsOpened(blocks: seq<Block>, bodyStart: nat, b: nat)
    requires b < |blocks| && blocks[b].kind == Heading
    ensures var i := Owners(blocks)[b];
      0 < i < |Levels(blocks)| && Levels(blocks)[i] == blocks[b].level && Starts(blocks, bodyStart)[i] == blocks[b].start
    decreases |blocks|
  {
    if b < |blocks| - 1 {
      var rest := blocks[..|blocks| - 1];
      assert rest[b] == blocks[b];
      HeadingIsOpened(rest, bodyStart, b);
    }
  }

  lemma {:induction false} OpenedByAHeading(blocks: seq<Block>, i: nat) returns (b: nat)
    requires 0 < i < |Levels(blocks)|
    ensures b < |blocks| && blocks[b].kind == Heading && Owners(blocks)[b] == i
    decreases |blocks|
  {
    var rest := blocks[..|blocks| - 1];
    if i < |Levels(rest)| {
      b := OpenedByAHeading(rest, i);
      assert rest[b] == blocks[b];
    } else {
      b := |blocks| - 1;
    }
  }

  ghost predicate Built(blocks: seq<Block>, sections: seq<Section>, bodyStart: nat, length: nat) {
    && |sections| == |Levels(blocks)|
    && (forall i :: 0 <= i < |sections| ==>
          sections[i] == Section(ParentOf(Levels(blocks), i), Levels(blocks)[i], Starts(blocks, bodyStart)[i],
                                 EndOf(Levels(blocks), Starts(blocks, bodyStart), length, i)))
  }

  lemma ParsedSections(doc: Doc, sections: seq<Section>, bodyStart: nat)
    requires HeadingsOk(doc.blocks) && doc.owners == Owners(doc.blocks)
    requires Built(doc.blocks, sections, bodyStart, |doc.source|)
    ensures SectionsOpen(doc, sections, bodyStart) && SectionsNest(sections, |doc.source|)
  {
    hide Levels, Starts, Owners, Nearest, Closer, EndOf, ParentFits, EndFits;
    var blocks := doc.blocks;
    forall b | 0 <= b < |blocks| && blocks[b].kind == Heading
      ensures OpensAt(doc, sections, b, doc.owners[b])
    {
      HeadingIsOpened(blocks, bodyStart, b);
    }
    forall i | 0 < i < |sections|
      ensures IsOpened(doc, sections, i)
      ensures sections[i].level >= 1 && ParentFits(sections, i) && EndFits(sections, |doc.source|, i)
    {
      var b := OpenedByAHeading(blocks, i);
      assert OpensAt(doc, sections, b, i);
      SectionFits(blocks, sections, bodyStart, |doc.source|, i);
    }
    RootEnds(Levels(blocks), Starts(blocks, bodyStart), |doc.source|);
  }

  lemma RootEnds(levels: seq<nat>, starts: seq<nat>, length: nat)
    requires 0 < |levels| == |starts| && levels[0] == 0
    requires forall i :: 0 < i < |levels| ==> levels[i] >= 1
    ensures EndOf(levels, starts, length, 0) == length
  {
    hide Closer;
  }

  lemma SectionFits(blocks: seq<Block>, sections: seq<Section>, bodyStart: nat, length: nat, i: nat)
    requires Built(blocks, sections, bodyStart, length) && 0 < i < |sections| && sections[i].level >= 1
    ensures ParentFits(sections, i) && EndFits(sections, length, i)
  {
    hide Levels, Starts, Owners, Nearest, Closer;
    assert ParentFits(sections, i);
    var j := Closer(Levels(blocks), i + 1, Levels(blocks)[i]);
    assert forall k :: i < k < j ==> sections[k].level > sections[i].level;
    if j < |sections| {
      assert sections[i].end == sections[j].start && sections[j].level <= sections[i].level;
    }
  }

  lemma {:induction false} UnderIsSubtree(levels: seq<nat>, sections: seq<Section>, i: nat, j: nat)
    requires |sections| == |levels| && j < |levels|
    requires forall k :: 0 <= k < |sections| ==> sections[k].parent == ParentOf(levels, k)
    ensures IsUnder(sections, i, j) <==> InSubtree(levels, i, j)
    decreases j
  {
    hide Nearest;
    if j != i && ParentOf(levels, j).Some? {
      UnderIsSubtree(levels, sections, i, ParentOf(levels, j).value);
    }
  }

  lemma HeadingsOpen(g: Grammar, lines: seq<Line>, doc: Doc, sections: seq<Section>, bodyStart: nat)
    requires |doc.owners| == |doc.blocks| && SectionsOpen(doc, sections, bodyStart) && Reads(g, lines, doc.blocks, 0)
    ensures HeadingLinesOpen(g, lines, doc, sections)
  {
    hide BlockReads;
    forall k | 0 <= k < |lines| && IsHeadingLine(g, lines, k) && !GoesOnABlock(doc.blocks, k)
      ensures SectionStarts(sections, lines[k].start, HeadingLevel(g, lines, k))
    {
      assert InBlock(doc.blocks, k);
      var b :| 0 <= b < |doc.blocks| && doc.blocks[b].first <= k < doc.blocks[b].past;
      assert doc.blocks[b].first == k;
      HeadingLine(g, lines, doc.blocks[b]);
      assert OpensAt(doc, sections, b, doc.owners[b]);
    }
  }

  lemma HeadingLine(g: Grammar, lines: seq<Line>, b: Block)
    requires b.first < b.past <= |lines| && BlockReads(g, lines, b)
    requires IsHeadingLine(g, lines, b.first)
    ensures b.kind == Heading && b.level == HeadingLevel(g, lines, b.first)
  {
  }
}
