/**
 The line and block scan of the Markdown parser. The regular expressions are arbitrary predicates
 on a line's text, so what is proved here holds for any of them.
 */
module MarkdownBlocks {

  // ---------- Lines ----------

  /** A line with its line break, and its text without it. */
  datatype Line = Line(start: nat, end: nat, text: string)

  /** Line breaks are taken off the end, and nothing else. */
  function TrimBreak(s: string): (r: string)
    ensures r <= s && (r != [] ==> r[|r| - 1] != '\r' && r[|r| - 1] != '\n')
    ensures forall k :: |r| <= k < |s| ==> s[k] == '\r' || s[k] == '\n'
  {
    if s != [] && (s[|s| - 1] == '\r' || s[|s| - 1] == '\n') then TrimBreak(s[..|s| - 1]) else s
  }

  /** The lines cover the source from `start` to `stop`, without gaps or overlap. */
  ghost predicate CoversTo(lines: seq<Line>, source: string, start: nat, stop: nat) {
    && start <= stop <= |source|
    && (forall i :: 0 <= i < |lines| ==> IsLine(lines[i], source) && lines[i].end <= stop)
    && (forall i :: 0 < i < |lines| ==> lines[i].start == lines[i - 1].end && source[lines[i].start - 1] == '\n')
    && (if lines == [] then start == stop else lines[0].start == start && lines[|lines| - 1].end == stop)
  }

  /** A line has at most one newline, at its end. */
  ghost predicate IsLine(line: Line, source: string) {
    && line.start < line.end <= |source| && line.text == TrimBreak(source[line.start..line.end])
    && (forall k :: line.start <= k < line.end - 1 ==> source[k] != '\n')
  }

  ghost predicate Covers(lines: seq<Line>, source: string, start: nat) {
    CoversTo(lines, source, start, |source|)
  }

  method LineSpans(source: string, start: nat) returns (lines: seq<Line>)
    requires start <= |source|
    ensures Covers(lines, source, start)
  {
    hide CoversTo;
    lines := [];
    var position := start;
    NoLines(source, start);
    while position < |source|
      invariant start <= position <= |source|
      invariant CoversTo(lines, source, start, position)
      invariant lines != [] ==> start < position
      invariant lines != [] && position < |source| ==> source[position - 1] == '\n'
    {
      var end := position;
      while end < |source| && source[end] != '\n'
        invariant position <= end <= |source|
        invariant forall k :: position <= k < end ==> source[k] != '\n'
      {
        end := end + 1;
      }
      if end < |source| {
        end := end + 1;
      }
      var line := Line(position, end, TrimBreak(source[position..end]));
      OneMoreLine(source, start, lines, line);
      lines := lines + [line];
      position := end;
    }
  }

  lemma NoLines(source: string, start: nat)
    requires start <= |source|
    ensures CoversTo([], source, start, start)
  {
  }

  lemma OneMoreLine(source: string, start: nat, lines: seq<Line>, line: Line)
    requires CoversTo(lines, source, start, line.start) && IsLine(line, source)
    requires lines != [] ==> source[line.start - 1] == '\n'
    ensures CoversTo(lines + [line], source, start, line.end)
  {
    hide IsLine;
    assert line.start < line.end <= |source| by { IsLineBounds(line, source); }
  }

  lemma IsLineBounds(line: Line, source: string)
    requires IsLine(line, source)
    ensures line.start < line.end <= |source|
  {
  }

  // ---------- Grammar ----------

  /**
   `atx` gives the heading level of a line, 0 when it is none; `closes(open, line)` says that a
   line ends the fence opened by another.
   */
  datatype Grammar = Grammar(blank: string -> bool, atx: string -> nat, setext: string -> bool,
                             setextTop: string -> bool, fence: string -> bool, closes: (string, string) -> bool,
                             item: string -> bool, quote: string -> bool, thematic: string -> bool,
                             delimiter: string -> bool, html: string -> bool)

  ghost predicate LevelsOk(g: Grammar) {
    forall text :: g.atx(text) <= 6
  }

  datatype Kind = Heading | Fenced | Indented | Table | ListBlock | Quote | Thematic | Html | Paragraph

  /** A block with its first line and the line after its last. */
  datatype Block = Block(kind: Kind, level: nat, first: nat, past: nat, start: nat, end: nat)

  predicate IsIndented(text: string) {
    "    " <= text || "\t" <= text
  }

  predicate IsTable(g: Grammar, lines: seq<Line>, i: nat)
    requires i < |lines|
  {
    i + 1 < |lines| && '|' in lines[i].text && g.delimiter(lines[i + 1].text)
  }

  predicate StartsBlock(g: Grammar, lines: seq<Line>, i: nat)
    requires i < |lines|
  {
    var text := lines[i].text;
    g.atx(text) > 0 || g.fence(text) || g.item(text) || g.quote(text) || g.thematic(text) || IsIndented(text)
    || IsTable(g, lines, i)
  }

  predicate IsSetext(g: Grammar, lines: seq<Line>, i: nat)
    requires i < |lines|
  {
    i + 1 < |lines| && g.setext(lines[i + 1].text)
  }

  /** The kind of the block that a non-blank line opens, tried in the parser's order. */
  function KindAt(g: Grammar, lines: seq<Line>, i: nat): Kind
    requires i < |lines|
  {
    var text := lines[i].text;
    if g.atx(text) > 0 || IsSetext(g, lines, i) then Heading
    else if g.fence(text) then Fenced
    else if IsIndented(text) then Indented
    else if IsTable(g, lines, i) then Table
    else if g.item(text) then ListBlock
    else if g.quote(text) then Quote
    else if g.thematic(text) then Thematic
    else if g.html(text) then Html
    else Paragraph
  }

  function LevelAt(g: Grammar, lines: seq<Line>, i: nat): nat
    requires i < |lines|
  {
    if KindAt(g, lines, i) != Heading then 0
    else if g.atx(lines[i].text) > 0 then g.atx(lines[i].text)
    else if g.setextTop(lines[i + 1].text) then 1 else 2
  }

  /** Whether line `j` goes on the block of this kind that is open before it. */
  predicate Continues(g: Grammar, lines: seq<Line>, kind: Kind, j: nat)
    requires j < |lines|
  {
    var text := lines[j].text;
    match kind
    case Indented => IsIndented(text) || g.blank(text)
    case Table => '|' in text
    case ListBlock => g.blank(text) || g.item(text) || " " <= text || "\t" <= text
    case Quote => g.quote(text) || g.blank(text)
    case Paragraph => !g.blank(text) && !StartsBlock(g, lines, j)
    case _ => false
  }

  function RunEnd(g: Grammar, lines: seq<Line>, kind: Kind, j: nat): (r: nat)
    requires j <= |lines|
    ensures j <= r <= |lines|
    ensures forall k :: j <= k < r ==> Continues(g, lines, kind, k)
    ensures r < |lines| ==> !Continues(g, lines, kind, r)
    decreases |lines| - j
  {
    if j < |lines| && Continues(g, lines, kind, j) then RunEnd(g, lines, kind, j + 1) else j
  }

  /** Just past the first closing line from `j`, or the end of the lines. */
  function FenceEnd(g: Grammar, lines: seq<Line>, open: nat, j: nat): (r: nat)
    requires open < |lines| && j <= |lines|
    ensures j <= r <= |lines|
    ensures forall k :: j <= k < r - 1 ==> !g.closes(lines[open].text, lines[k].text)
    ensures r < |lines| ==> r > j && g.closes(lines[open].text, lines[r - 1].text)
    decreases |lines| - j
  {
    if j == |lines| then j
    else if g.closes(lines[open].text, lines[j].text) then j + 1 else FenceEnd(g, lines, open, j + 1)
  }

  /** The line after the block that line `i` opens. */
  function PastBlock(g: Grammar, lines: seq<Line>, i: nat): (r: nat)
    requires i < |lines|
    ensures i < r <= |lines|
  {
    match KindAt(g, lines, i)
    case Heading => if g.atx(lines[i].text) > 0 then i + 1 else i + 2
    case Fenced => FenceEnd(g, lines, i, i + 1)
    case Table => RunEnd(g, lines, Table, i + 2)
    case Thematic => i + 1
    case Html => i + 1
    case kind => RunEnd(g, lines, kind, i + 1)
  }

  function BlockAt(g: Grammar, lines: seq<Line>, i: nat): Block
    requires i < |lines|
  {
    var past := PastBlock(g, lines, i);
    Block(KindAt(g, lines, i), LevelAt(g, lines, i), i, past, lines[i].start, lines[past - 1].end)
  }

  function BlocksFrom(g: Grammar, lines: seq<Line>, i: nat): seq<Block>
    requires i <= |lines|
    decreases |lines| - i
  {
    if i == |lines| then []
    else if g.blank(lines[i].text) then BlocksFrom(g, lines, i + 1)
    else [BlockAt(g, lines, i)] + BlocksFrom(g, lines, PastBlock(g, lines, i))
  }

  /** The parser's flag for a fence without an end. */
  predicate Flagged(g: Grammar, lines: seq<Line>, block: Block) {
    && block.kind == Fenced && block.first < |lines| && block.past == |lines|
    && !g.closes(lines[block.first].text, lines[|lines| - 1].text)
  }

  function Flags(g: Grammar, lines: seq<Line>, blocks: seq<Block>): seq<nat> {
    if blocks == [] then []
    else
      var rest := Flags(g, lines, blocks[..|blocks| - 1]);
      var last := blocks[|blocks| - 1];
      if Flagged(g, lines, last) then rest + [last.start] else rest
  }

  method RunPast(g: Grammar, lines: seq<Line>, kind: Kind, from: nat) returns (past: nat)
    requires from <= |lines|
    ensures past == RunEnd(g, lines, kind, from)
  {
    past := from;
    while past < |lines| && Continues(g, lines, kind, past)
      invariant from <= past <= |lines| && RunEnd(g, lines, kind, from) == RunEnd(g, lines, kind, past)
    {
      past := past + 1;
    }
  }

  method FencePast(g: Grammar, lines: seq<Line>, open: nat) returns (past: nat)
    requires open < |lines|
    ensures past == FenceEnd(g, lines, open, open + 1)
  {
    past := open + 1;
    while past < |lines|
      invariant open < past <= |lines| && FenceEnd(g, lines, open, open + 1) == FenceEnd(g, lines, open, past)
    {
      if g.closes(lines[open].text, lines[past].text) {
        return past + 1;
      }
      past := past + 1;
    }
  }

  /** Reads the block that a non-blank line opens. */
  method ReadBlock(g: Grammar, lines: seq<Line>, index: nat) returns (block: Block, unclosed: bool)
    requires index < |lines|
    ensures block == BlockAt(g, lines, index)
    ensures unclosed <==> Flagged(g, lines, block)
  {
    hide RunEnd, FenceEnd, Continues, StartsBlock;
    var text := lines[index].text;
    var kind, level, past := Paragraph, 0, index + 1;
    unclosed := false;
    if g.atx(text) > 0 {
      kind, level := Heading, g.atx(text);
    } else if index + 1 < |lines| && g.setext(lines[index + 1].text) {
      kind, level := Heading, if g.setextTop(lines[index + 1].text) then 1 else 2;
      past := index + 2;
    } else if g.fence(text) {
      kind := Fenced;
      past := FencePast(g, lines, index);
      unclosed := past == |lines| && !g.closes(text, lines[|lines| - 1].text);
    } else if IsIndented(text) {
      kind := Indented;
      past := RunPast(g, lines, kind, index + 1);
    } else if index + 1 < |lines| && '|' in text && g.delimiter(lines[index + 1].text) {
      kind := Table;
      past := RunPast(g, lines, kind, index + 2);
    } else if g.item(text) {
      kind := ListBlock;
      past := RunPast(g, lines, kind, index + 1);
    } else if g.quote(text) {
      kind := Quote;
      past := RunPast(g, lines, kind, index + 1);
    } else if g.thematic(text) {
      kind := Thematic;
    } else if g.html(text) {
      kind := Html;
    } else {
      past := RunPast(g, lines, kind, index + 1);
    }
    block := Block(kind, level, index, past, lines[index].start, lines[past - 1].end);
  }

  method ScanBlocks(g: Grammar, lines: seq<Line>) returns (blocks: seq<Block>, flags: seq<nat>)
    ensures blocks == BlocksFrom(g, lines, 0)
    ensures flags == Flags(g, lines, blocks)
  {
    hide BlockAt, PastBlock, Flagged;
    blocks, flags := [], [];
    var index := 0;
    while index < |lines|
      invariant index <= |lines|
      invariant blocks + BlocksFrom(g, lines, index) == BlocksFrom(g, lines, 0)
      invariant flags == Flags(g, lines, blocks)
      decreases |lines| - index
    {
      if g.blank(lines[index].text) {
        index := index + 1;
        continue;
      }
      var block, unclosed := ReadBlock(g, lines, index);
      assert (blocks + [block])[..|blocks|] == blocks;
      assert block.past == PastBlock(g, lines, index) by {
        BlockPast(g, lines, index);
      }
      flags := if unclosed then flags + [block.start] else flags;
      blocks := blocks + [block];
      index := block.past;
    }
  }

  lemma BlockPast(g: Grammar, lines: seq<Line>, i: nat)
    requires i < |lines|
    ensures BlockAt(g, lines, i).past == PastBlock(g, lines, i) && BlockAt(g, lines, i).first == i
    ensures BlockAt(g, lines, i).start == lines[i].start
    ensures BlockAt(g, lines, i).end == lines[PastBlock(g, lines, i) - 1].end
  {
  }

  // ---------- What the scan keeps ----------

  /** Blocks are runs of whole lines, in order, without overlap, from line `i` on. */
  ghost predicate WholeLines(lines: seq<Line>, blocks: seq<Block>, i: nat) {
    && (forall b :: 0 <= b < |blocks| ==>
          && i <= blocks[b].first < blocks[b].past <= |lines|
          && blocks[b].start == lines[blocks[b].first].start && blocks[b].end == lines[blocks[b].past - 1].end)
    && (forall b, c :: 0 <= b < c < |blocks| ==> blocks[b].past <= blocks[c].first)
  }

  ghost predicate InBlock(blocks: seq<Block>, k: int) {
    exists b :: 0 <= b < |blocks| && blocks[b].first <= k < blocks[b].past
  }

  /** Every line is wholly in one block or blank and outside all of them. */
  lemma {:induction false} ScanIsLossless(g: Grammar, lines: seq<Line>, i: nat)
    requires i <= |lines|
    ensures WholeLines(lines, BlocksFrom(g, lines, i), i)
    ensures forall k :: i <= k < |lines| && !InBlock(BlocksFrom(g, lines, i), k) ==> g.blank(lines[k].text)
    decreases |lines| - i
  {
    hide BlockAt, PastBlock, WholeLines, InBlock;
    if i == |lines| {
      NoBlocks(lines, i);
    } else if g.blank(lines[i].text) {
      ScanIsLossless(g, lines, i + 1);
      WholeLinesFromEarlier(lines, BlocksFrom(g, lines, i + 1), i);
    } else {
      ScanIsLossless(g, lines, PastBlock(g, lines, i));
      BlockPast(g, lines, i);
      OneMoreBlock(lines, BlockAt(g, lines, i), BlocksFrom(g, lines, PastBlock(g, lines, i)), i);
    }
  }

  lemma NoBlocks(lines: seq<Line>, i: nat)
    ensures WholeLines(lines, [], i)
  {
  }

  lemma WholeLinesFromEarlier(lines: seq<Line>, blocks: seq<Block>, i: nat)
    requires WholeLines(lines, blocks, i + 1)
    ensures WholeLines(lines, blocks, i)
  {
  }

  lemma OneMoreBlock(lines: seq<Line>, block: Block, rest: seq<Block>, i: nat)
    requires i == block.first < block.past <= |lines| && WholeLines(lines, rest, block.past)
    requires block.start == lines[i].start && block.end == lines[block.past - 1].end
    ensures WholeLines(lines, [block] + rest, i)
    ensures forall k :: i <= k < block.past || InBlock(rest, k) ==> InBlock([block] + rest, k)
  {
    var blocks := [block] + rest;
    forall k | i <= k < block.past || InBlock(rest, k) ensures InBlock(blocks, k) {
      if InBlock(rest, k) {
        var b :| 0 <= b < |rest| && rest[b].first <= k < rest[b].past;
        assert blocks[b + 1] == rest[b];
      } else {
        assert blocks[0] == block;
      }
    }
  }

  /** Positions of lines grow with the lines. */
  lemma {:induction false} LinesAscend(lines: seq<Line>, source: string, start: nat, i: nat, j: nat)
    requires Covers(lines, source, start) && i <= j < |lines|
    ensures start <= lines[i].start < lines[i].end <= lines[j].end <= |source| && lines[i].start <= lines[j].start
    ensures i < j ==> lines[i].end <= lines[j].start
    decreases j, i
  {
    if i < j {
      LinesAscend(lines, source, start, i, j - 1);
    } else if i > 0 {
      LinesAscend(lines, source, start, i - 1, i - 1);
    }
  }

  /** As character spans, blocks are non-empty, in order, disjoint and inside the body. */
  ghost predicate Spans(blocks: seq<Block>, start: nat, length: nat) {
    && (forall b :: 0 <= b < |blocks| ==> start <= blocks[b].start < blocks[b].end <= length)
    && (forall b, c :: 0 <= b < c < |blocks| ==> blocks[b].end <= blocks[c].start)
  }

  lemma BlockSpans(g: Grammar, lines: seq<Line>, source: string, start: nat)
    requires Covers(lines, source, start)
    ensures Spans(BlocksFrom(g, lines, 0), start, |source|)
  {
    hide Covers, BlocksFrom, InBlock;
    var blocks := BlocksFrom(g, lines, 0);
    ScanIsLossless(g, lines, 0);
    forall b | 0 <= b < |blocks| ensures start <= blocks[b].start < blocks[b].end <= |source| {
      LinesAscend(lines, source, start, blocks[b].first, blocks[b].past - 1);
    }
    forall b, c | 0 <= b < c < |blocks| ensures blocks[b].end <= blocks[c].start {
      LinesAscend(lines, source, start, blocks[b].past - 1, blocks[c].first);
    }
  }

  /** What lies between the blocks is whole blank lines: no text outside blocks is lost. */
  lemma OutsideBlocksIsBlank(g: Grammar, lines: seq<Line>, source: string, start: nat, p: nat)
    requires Covers(lines, source, start) && start <= p < |source|
    ensures var blocks := BlocksFrom(g, lines, 0);
      || (exists b :: 0 <= b < |blocks| && blocks[b].start <= p < blocks[b].end)
      || (exists k :: 0 <= k < |lines| && lines[k].start <= p < lines[k].end && g.blank(lines[k].text))
  {
    hide Covers, BlocksFrom, WholeLines;
    var blocks := BlocksFrom(g, lines, 0);
    ScanIsLossless(g, lines, 0);
    var k := LineOf(lines, source, start, p);
    if InBlock(blocks, k) {
      var b :| 0 <= b < |blocks| && blocks[b].first <= k < blocks[b].past;
      LineInBlock(lines, source, start, blocks, b, k);
    }
  }

  lemma LineInBlock(lines: seq<Line>, source: string, start: nat, blocks: seq<Block>, b: nat, k: nat)
    requires Covers(lines, source, start) && WholeLines(lines, blocks, 0)
    requires b < |blocks| && blocks[b].first <= k < blocks[b].past
    ensures k < |lines| && blocks[b].start <= lines[k].start && lines[k].end <= blocks[b].end
  {
    hide Covers;
    LinesAscend(lines, source, start, blocks[b].first, k);
    LinesAscend(lines, source, start, k, blocks[b].past - 1);
  }

  lemma LineOf(lines: seq<Line>, source: string, start: nat, p: nat) returns (k: nat)
    requires Covers(lines, source, start) && start <= p < |source|
    ensures k < |lines| && lines[k].start <= p < lines[k].end
  {
    k := 0;
    while lines[k].end <= p
      invariant k < |lines| && lines[k].start <= p
      decreases |lines| - k
    {
      k := k + 1;
    }
  }

  /**
   A fence is flagged exactly when no later line closes it and it does not open on the last line,
   where the opening line passes for its own end.
   */
  lemma UnclosedFenceFlaggedExactlyWhen(g: Grammar, lines: seq<Line>, i: nat)
    requires i < |lines| && KindAt(g, lines, i) == Fenced && g.closes(lines[i].text, lines[i].text)
    ensures Flagged(g, lines, BlockAt(g, lines, i)) <==>
      i + 1 < |lines| && forall k :: i < k < |lines| ==> !g.closes(lines[i].text, lines[k].text)
  {
  }
}
