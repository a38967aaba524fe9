/**
 How the blocks of a text are read, stated on the lines alone: which lines open a block, of which kind and level, and
 where it ends. The block scan gives the one list of blocks that reads the text this way.
 */
module MarkdownReading {
  import opened MarkdownBlocks

  /** A line that does not go on a paragraph because it opens a block of another kind. */
  ghost predicate Interrupts(g: Grammar, lines: seq<Line>, k: nat)
    requires k < |lines|
  {
    var text := lines[k].text;
    || g.atx(text) > 0 || g.fence(text) || g.item(text) || g.quote(text) || g.thematic(text)
    || "    " <= text || "\t" <= text
    || (k + 1 < |lines| && '|' in text && g.delimiter(lines[k + 1].text))
  }

  /** A heading is marked on its own line, or underlined on the next one. */
  ghost predicate HeadingReads(g: Grammar, lines: seq<Line>, b: Block)
    requires b.first < |lines|
  {
    var text := lines[b.first].text;
    && b.kind == Heading
    && if g.atx(text) > 0 then b.level == g.atx(text) && b.past == b.first + 1
       else
         && b.first + 1 < |lines| && g.setext(lines[b.first + 1].text)
         && b.level == (if g.setextTop(lines[b.first + 1].text) then 1 else 2) && b.past == b.first + 2
  }

  /** A fence goes to the first line that closes it, or to the end. */
  ghost predicate FenceReads(g: Grammar, lines: seq<Line>, b: Block)
    requires b.first < b.past <= |lines|
  {
    var text := lines[b.first].text;
    && (forall k :: b.first < k < b.past - 1 ==> !g.closes(text, lines[k].text))
    && (b.past < |lines| ==> b.first + 1 < b.past && g.closes(text, lines[b.past - 1].text))
  }

  /** A paragraph goes on up to a blank line or one that opens another block. */
  ghost predicate ParagraphReads(g: Grammar, lines: seq<Line>, b: Block)
    requires b.first < b.past <= |lines|
  {
    && (forall k :: b.first < k < b.past ==> !g.blank(lines[k].text) && !Interrupts(g, lines, k))
    && (b.past < |lines| ==> g.blank(lines[b.past].text) || Interrupts(g, lines, b.past))
  }

  /** Indented code goes on over indented and blank lines. */
  ghost predicate IndentedReads(g: Grammar, lines: seq<Line>, b: Block)
    requires b.first < b.past <= |lines|
  {
    && (forall k :: b.first + 1 <= k < b.past ==>
          "    " <= lines[k].text || "\t" <= lines[k].text || g.blank(lines[k].text))
    && (b.past < |lines| ==>
          var next := lines[b.past].text;
          !("    " <= next) && !("\t" <= next) && !g.blank(next))
  }

  /** A table goes on, after its delimiter line, over lines with a bar. */
  ghost predicate TableReads(g: Grammar, lines: seq<Line>, b: Block)
    requires b.first < b.past <= |lines|
  {
    && b.first + 2 <= b.past
    && (forall k :: b.first + 2 <= k < b.past ==> '|' in lines[k].text)
    && (b.past < |lines| ==> '|' !in lines[b.past].text)
  }

  /** A list goes on over items, blank lines and lines that start with white space. */
  ghost predicate ListReads(g: Grammar, lines: seq<Line>, b: Block)
    requires b.first < b.past <= |lines|
  {
    && (forall k :: b.first + 1 <= k < b.past ==>
          g.blank(lines[k].text) || g.item(lines[k].text) || " " <= lines[k].text || "\t" <= lines[k].text)
    && (b.past < |lines| ==>
          var next := lines[b.past].text;
          !g.blank(next) && !g.item(next) && !(" " <= next) && !("\t" <= next))
  }

  /** A quote goes on over quoted and blank lines. */
  ghost predicate QuoteReads(g: Grammar, lines: seq<Line>, b: Block)
    requires b.first < b.past <= |lines|
  {
    && (forall k :: b.first + 1 <= k < b.past ==> g.quote(lines[k].text) || g.blank(lines[k].text))
    && (b.past < |lines| ==> !g.quote(lines[b.past].text) && !g.blank(lines[b.past].text))
  }

  /** The kind of a block is the first of these that its first line allows, and it ends where that kind ends. */
  ghost predicate BlockReads(g: Grammar, lines: seq<Line>, b: Block)
    requires b.first < b.past <= |lines|
  {
    var text := lines[b.first].text;
    && !g.blank(text)
    && if g.atx(text) > 0 || (b.first + 1 < |lines| && g.setext(lines[b.first + 1].text)) then HeadingReads(g, lines, b)
       else
         && b.level == 0
         && if g.fence(text) then b.kind == Fenced && FenceReads(g, lines, b)
            else if "    " <= text || "\t" <= text then b.kind == Indented && IndentedReads(g, lines, b)
            else if b.first + 1 < |lines| && '|' in text && g.delimiter(lines[b.first + 1].text) then
              b.kind == Kind.Table && TableReads(g, lines, b)
            else if g.item(text) then b.kind == ListBlock && ListReads(g, lines, b)
            else if g.quote(text) then b.kind == Quote && QuoteReads(g, lines, b)
            else if g.thematic(text) then b.kind == Thematic && b.past == b.first + 1
            else if g.html(text) then b.kind == Html && b.past == b.first + 1
            else b.kind == Paragraph && ParagraphReads(g, lines, b)
  }

  /** Blocks of whole lines, read as above, with only blank lines outside them. */
  ghost predicate Reads(g: Grammar, lines: seq<Line>, blocks: seq<Block>, i: nat) {
    && WholeLines(lines, blocks, i)
    && (forall b :: 0 <= b < |blocks| ==> BlockReads(g, lines, blocks[b]))
    && (forall k :: i <= k < |lines| && !InBlock(blocks, k) ==> g.blank(lines[k].text))
  }

  lemma RunReads(g: Grammar, lines: seq<Line>, i: nat, kind: Kind)
    requires i < |lines| && kind in {Indented, Table, ListBlock, Quote, Paragraph}
    requires kind == Table ==> i + 1 < |lines|
    ensures var past := RunEnd(g, lines, kind, if kind == Table then i + 2 else i + 1);
      var b := Block(kind, 0, i, past, 0, 0);
      && (kind == Indented ==> IndentedReads(g, lines, b))
      && (kind == Table ==> TableReads(g, lines, b))
      && (kind == ListBlock ==> ListReads(g, lines, b))
      && (kind == Quote ==> QuoteReads(g, lines, b))
      && (kind == Paragraph ==> ParagraphReads(g, lines, b))
  {
    var from := if kind == Table then i + 2 else i + 1;
    var past := RunEnd(g, lines, kind, from);
    forall k | from <= k < past
      ensures var text := lines[k].text;
        && (kind == Indented ==> "    " <= text || "\t" <= text || g.blank(text))
        && (kind == Table ==> '|' in text)
        && (kind == ListBlock ==> g.blank(text) || g.item(text) || " " <= text || "\t" <= text)
        && (kind == Quote ==> g.quote(text) || g.blank(text))
        && (kind == Paragraph ==> !g.blank(text) && !Interrupts(g, lines, k))
    {
      assert Continues(g, lines, kind, k);
    }
  }

  lemma BlockAtReads(g: Grammar, lines: seq<Line>, i: nat)
    requires i < |lines| && !g.blank(lines[i].text)
    ensures BlockReads(g, lines, BlockAt(g, lines, i))
  {
    var kind := KindAt(g, lines, i);
    if kind in {Indented, Table, ListBlock, Quote, Paragraph} {
      RunReads(g, lines, i, kind);
    }
    hide RunEnd, Continues, Interrupts;
  }

  /** There is only one way to read the block that a line opens. */
  lemma ReadsOneWay(g: Grammar, lines: seq<Line>, a: Block, b: Block)
    requires a.first == b.first < |lines| && a.first < a.past <= |lines| && b.past <= |lines| && b.first < b.past
    requires BlockReads(g, lines, a) && BlockReads(g, lines, b)
    ensures a.kind == b.kind && a.level == b.level && a.past == b.past
  {
  }

  lemma {:induction false} ScanReads(g: Grammar, lines: seq<Line>, i: nat)
    requires i <= |lines|
    ensures Reads(g, lines, BlocksFrom(g, lines, i), i)
    decreases |lines| - i
  {
    hide BlockReads, BlockAt, PastBlock, InBlock;
    ScanIsLossless(g, lines, i);
    if i < |lines| {
      if g.blank(lines[i].text) {
        ScanReads(g, lines, i + 1);
      } else {
        ScanReads(g, lines, PastBlock(g, lines, i));
        BlockAtReads(g, lines, i);
      }
    }
  }

  /** The scan's blocks are the only ones that read the lines. */
  lemma {:induction false} ReadsExactlyWhen(g: Grammar, lines: seq<Line>, blocks: seq<Block>, i: nat)
    requires i <= |lines|
    ensures Reads(g, lines, blocks, i) <==> blocks == BlocksFrom(g, lines, i)
    decreases |lines| - i
  {
    ScanReads(g, lines, i);
    if Reads(g, lines, blocks, i) {
      hide BlockReads, BlockAt, PastBlock, WholeLines, InBlock;
      if i == |lines| {
        NoneToRead(g, lines, blocks);
      } else if g.blank(lines[i].text) {
        ReadsFromNext(g, lines, blocks, i);
        ReadsExactlyWhen(g, lines, blocks, i + 1);
      } else {
        FirstReads(g, lines, blocks, i);
        ReadsExactlyWhen(g, lines, blocks[1..], PastBlock(g, lines, i));
        assert blocks == [blocks[0]] + blocks[1..];
      }
    }
  }

  lemma NoneToRead(g: Grammar, lines: seq<Line>, blocks: seq<Block>)
    requires Reads(g, lines, blocks, |lines|)
    ensures blocks == []
  {
    FirstIsALine(lines, blocks, |lines|);
  }

  lemma FirstIsALine(lines: seq<Line>, blocks: seq<Block>, i: nat)
    requires WholeLines(lines, blocks, i)
    ensures blocks != [] ==> i <= blocks[0].first < |lines|
  {
  }

  lemma ReadsFromNext(g: Grammar, lines: seq<Line>, blocks: seq<Block>, i: nat)
    requires i < |lines| && g.blank(lines[i].text) && Reads(g, lines, blocks, i)
    ensures Reads(g, lines, blocks, i + 1)
  {
    forall b | 0 <= b < |blocks|
      ensures i < blocks[b].first
    {
      assert BlockReads(g, lines, blocks[b]);
    }
  }

  lemma FirstReads(g: Grammar, lines: seq<Line>, blocks: seq<Block>, i: nat)
    requires i < |lines| && !g.blank(lines[i].text) && Reads(g, lines, blocks, i)
    ensures blocks != [] && blocks[0] == BlockAt(g, lines, i) && Reads(g, lines, blocks[1..], PastBlock(g, lines, i))
  {
    hide BlockReads, BlockAt, PastBlock;
    assert InBlock(blocks, i);
    var b :| 0 <= b < |blocks| && blocks[b].first <= i < blocks[b].past;
    assert b == 0;
    BlockAtReads(g, lines, i);
    BlockPast(g, lines, i);
    ReadsOneWay(g, lines, blocks[0], BlockAt(g, lines, i));
    RestReads(g, lines, blocks, i);
  }

  lemma RestReads(g: Grammar, lines: seq<Line>, blocks: seq<Block>, i: nat)
    requires Reads(g, lines, blocks, i) && blocks != []
    ensures Reads(g, lines, blocks[1..], blocks[0].past)
  {
    RestIsWhole(lines, blocks, i);
    hide BlockReads, WholeLines, InBlock;
    var rest := blocks[1..];
    forall k | blocks[0].past <= k < |lines| && InBlock(blocks, k)
      ensures InBlock(rest, k)
    {
      InTheRest(blocks, k);
    }
    forall b | 0 <= b < |rest|
      ensures BlockReads(g, lines, rest[b])
    {
      assert rest[b] == blocks[b + 1];
    }
  }

  lemma RestIsWhole(lines: seq<Line>, blocks: seq<Block>, i: nat)
    requires WholeLines(lines, blocks, i) && blocks != []
    ensures WholeLines(lines, blocks[1..], blocks[0].past) && i <= blocks[0].past
    ensures forall b :: 0 <= b < |blocks| ==> blocks[b].first < blocks[b].past <= |lines|
  {
  }

  lemma InTheRest(blocks: seq<Block>, k: nat)
    requires InBlock(blocks, k) && blocks != [] && blocks[0].past <= k
    ensures InBlock(blocks[1..], k)
  {
    var c :| 0 <= c < |blocks| && blocks[c].first <= k < blocks[c].past;
    assert blocks[1..][c - 1] == blocks[c];
  }
}
