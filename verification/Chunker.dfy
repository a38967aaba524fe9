/**
 The structural chunker: blocks of a section are grouped greedily up to a target length and a block
 above the hard limit is split at newlines.
 */
module Chunker {
  import opened Options
  import opened MarkdownBlocks

  datatype Role = StructuralAnchor | ContentEvidence

  datatype Limits = Limits(target: nat, hard: nat)

  /** A document's blocks and the section of each. */
  datatype Doc = Doc(source: string, blocks: seq<Block>, owners: seq<nat>)

  datatype Chunk = Chunk(section: nat, ordinal: nat, start: nat, end: nat, text: string, members: seq<nat>, role: Role)

  predicate LimitsOk(limits: Limits) {
    0 < limits.target <= limits.hard
  }

  ghost predicate DocOk(doc: Doc) {
    && |doc.owners| == |doc.blocks| && Spans(doc.blocks, 0, |doc.source|)
    && (forall b, c :: 0 <= b <= c < |doc.owners| ==> doc.owners[b] <= doc.owners[c])
  }

  // ---------- Specification ----------

  function Range(lo: nat, hi: nat): (r: seq<nat>)
    requires lo <= hi
    ensures |r| == hi - lo && forall k :: 0 <= k < |r| ==> r[k] == lo + k
    decreases hi - lo
  {
    if lo == hi then [] else Range(lo, hi - 1) + [hi - 1]
  }

  predicate Structural(block: Block) {
    block.kind == Heading || block.kind == Thematic
  }

  function RoleOf(blocks: seq<Block>, members: seq<nat>): Role
    requires forall k :: 0 <= k < |members| ==> members[k] < |blocks|
  {
    if forall k :: 0 <= k < |members| ==> Structural(blocks[members[k]]) then StructuralAnchor else ContentEvidence
  }

  predicate Oversized(doc: Doc, limits: Limits, b: nat)
    requires DocOk(doc) && b < |doc.blocks|
  {
    doc.blocks[b].end - doc.blocks[b].start > limits.hard
  }

  /** Whether block `j` still goes into the group that block `i` opens. */
  predicate Fits(doc: Doc, limits: Limits, i: nat, j: nat)
    requires DocOk(doc) && i < |doc.blocks| && j < |doc.blocks|
  {
    && doc.owners[j] == doc.owners[i] && !Oversized(doc, limits, j)
    && doc.blocks[j].end - doc.blocks[i].start <= limits.target
  }

  function GroupEnd(doc: Doc, limits: Limits, i: nat, j: nat): (r: nat)
    requires DocOk(doc) && i < j <= |doc.blocks|
    ensures j <= r <= |doc.blocks|
    ensures forall k :: j <= k < r ==> Fits(doc, limits, i, k)
    ensures r < |doc.blocks| ==> !Fits(doc, limits, i, r)
    decreases |doc.blocks| - j
  {
    if j < |doc.blocks| && Fits(doc, limits, i, j) then GroupEnd(doc, limits, i, j + 1) else j
  }

  /** The last newline in the span, if any. */
  function LastNewline(source: string, start: nat, end: nat): (r: Option<nat>)
    requires start <= end <= |source|
    ensures r.Some? ==> start <= r.value < end && source[r.value] == '\n'
    ensures forall k :: (if r.Some? then r.value + 1 else start) <= k < end ==> source[k] != '\n'
    decreases end
  {
    if start == end then None
    else if source[end - 1] == '\n' then Some(end - 1)
    else LastNewline(source, start, end - 1)
  }

  /** A piece takes the hard limit, or less to end after the last newline that is not its first character. */
  function PieceEnd(source: string, limits: Limits, start: nat, end: nat): (r: nat)
    requires start < end <= |source| && LimitsOk(limits)
    ensures start < r <= end && r - start <= limits.hard
  {
    if end - start <= limits.hard then end
    else
      var newline := LastNewline(source, start, start + limits.hard);
      if newline.Some? && newline.value > start then newline.value + 1 else start + limits.hard
  }

  function PieceAt(doc: Doc, limits: Limits, b: nat, start: nat, ordinal: nat): (r: Chunk)
    requires DocOk(doc) && LimitsOk(limits) && b < |doc.blocks| && start < doc.blocks[b].end
    ensures start < r.end <= doc.blocks[b].end
  {
    var end := PieceEnd(doc.source, limits, start, doc.blocks[b].end);
    Chunk(doc.owners[b], ordinal, start, end, doc.source[start..end], [b], RoleOf(doc.blocks, [b]))
  }

  function PiecesFrom(doc: Doc, limits: Limits, b: nat, start: nat, ordinal: nat): seq<Chunk>
    requires DocOk(doc) && LimitsOk(limits) && b < |doc.blocks| && start <= doc.blocks[b].end
    decreases doc.blocks[b].end - start
  {
    if start == doc.blocks[b].end then []
    else
      var piece := PieceAt(doc, limits, b, start, ordinal);
      [piece] + PiecesFrom(doc, limits, b, piece.end, ordinal + 1)
  }

  function GroupAt(doc: Doc, lo: nat, hi: nat, ordinal: nat): Chunk
    requires DocOk(doc) && lo < hi <= |doc.blocks|
  {
    var start, end := doc.blocks[lo].start, doc.blocks[hi - 1].end;
    GroupBounds(doc, lo, hi);
    Chunk(doc.owners[lo], ordinal, start, end, doc.source[start..end], Range(lo, hi), RoleOf(doc.blocks, Range(lo, hi)))
  }

  lemma GroupBounds(doc: Doc, lo: nat, hi: nat)
    requires DocOk(doc) && lo < hi <= |doc.blocks|
    ensures doc.blocks[lo].start < doc.blocks[hi - 1].end <= |doc.source|
  {
  }

  function ChunksFrom(doc: Doc, limits: Limits, i: nat, ordinal: nat): seq<Chunk>
    requires DocOk(doc) && LimitsOk(limits) && i <= |doc.blocks|
    decreases |doc.blocks| - i
  {
    if i == |doc.blocks| then []
    else if Oversized(doc, limits, i) then
      var pieces := PiecesFrom(doc, limits, i, doc.blocks[i].start, ordinal);
      pieces + ChunksFrom(doc, limits, i + 1, ordinal + |pieces|)
    else
      var end := GroupEnd(doc, limits, i, i + 1);
      [GroupAt(doc, i, end, ordinal)] + ChunksFrom(doc, limits, end, ordinal + 1)
  }

  // ---------- Blocks by section ----------

  function Mine(owners: seq<nat>, s: nat, n: nat): seq<nat>
    requires n <= |owners|
  {
    if n == 0 then []
    else if owners[n - 1] == s then Mine(owners, s, n - 1) + [n - 1]
    else Mine(owners, s, n - 1)
  }

  /** How many of the first `n` blocks belong to earlier sections. */
  function Below(owners: seq<nat>, s: nat, n: nat): (r: nat)
    requires n <= |owners|
    ensures r <= n
  {
    if n == 0 then 0 else Below(owners, s, n - 1) + (if owners[n - 1] < s then 1 else 0)
  }

  lemma {:induction false} BelowCuts(owners: seq<nat>, s: nat, n: nat)
    requires n <= |owners| && forall b, c :: 0 <= b <= c < |owners| ==> owners[b] <= owners[c]
    ensures forall b :: 0 <= b < n ==> (owners[b] < s <==> b < Below(owners, s, n))
  {
    if n > 0 {
      BelowCuts(owners, s, n - 1);
    }
  }

  lemma {:induction false} AllBelow(owners: seq<nat>, s: nat, n: nat)
    requires n <= |owners| && forall b :: 0 <= b < n ==> owners[b] < s
    ensures Below(owners, s, n) == n
  {
    if n > 0 {
      AllBelow(owners, s, n - 1);
    }
  }

  /** Blocks of one section are consecutive. */
  lemma {:induction false} MineIsARange(owners: seq<nat>, s: nat, n: nat)
    requires n <= |owners| && forall b, c :: 0 <= b <= c < |owners| ==> owners[b] <= owners[c]
    ensures Below(owners, s, n) <= Below(owners, s + 1, n)
    ensures Mine(owners, s, n) == Range(Below(owners, s, n), Below(owners, s + 1, n))
  {
    if n > 0 {
      MineIsARange(owners, s, n - 1);
      if owners[n - 1] <= s {
        AllBelow(owners, s + 1, n - 1);
      }
      if owners[n - 1] < s {
        AllBelow(owners, s, n - 1);
      }
    }
  }

  lemma {:induction false} NoneBelowTheRoot(owners: seq<nat>, n: nat)
    requires n <= |owners|
    ensures Below(owners, 0, n) == 0
  {
    if n > 0 {
      NoneBelowTheRoot(owners, n - 1);
    }
  }

  // ---------- The chunker ----------

  class StructuralChunker {
    const limits: Limits

    constructor (limits: Limits)
      requires LimitsOk(limits)
      ensures this.limits == limits
    {
      this.limits := limits;
    }

    /** Limits that are not positive or cross each other are refused. */
    static method Make(target: nat, hard: nat) returns (chunker: Option<StructuralChunker>)
      ensures chunker.Some? <==> LimitsOk(Limits(target, hard))
      ensures chunker.Some? ==> chunker.value.limits == Limits(target, hard)
    {
      if target <= 0 || hard < target {
        return None;
      }
      var made := new StructuralChunker(Limits(target, hard));
      chunker := Some(made);
    }

    method BlocksBySection(owners: seq<nat>, count: nat) returns (lists: seq<seq<nat>>)
      requires forall b :: 0 <= b < |owners| ==> owners[b] < count
      ensures |lists| == count && forall s :: 0 <= s < count ==> lists[s] == Mine(owners, s, |owners|)
    {
      lists := seq(count, s => []);
      for b := 0 to |owners|
        invariant |lists| == count && forall s :: 0 <= s < count ==> lists[s] == Mine(owners, s, b)
      {
        lists := lists[owners[b] := lists[owners[b]] + [b]];
      }
    }

    method NextPiece(doc: Doc, b: nat, start: nat, ordinal: nat) returns (piece: Chunk)
      requires DocOk(doc) && LimitsOk(limits) && b < |doc.blocks| && start < doc.blocks[b].end
      ensures piece == PieceAt(doc, limits, b, start, ordinal)
    {
      var end := doc.blocks[b].end;
      var proposed := if start + limits.hard < end then start + limits.hard else end;
      if proposed < end {
        var newline := LastNewline(doc.source, start, proposed);
        if newline.Some? && newline.value > start {
          proposed := newline.value + 1;
        }
      }
      piece := Chunk(doc.owners[b], ordinal, start, proposed, doc.source[start..proposed], [b], RoleOf(doc.blocks, [b]));
    }

    method SplitLargeBlock(doc: Doc, b: nat, ordinal: nat) returns (chunks: seq<Chunk>)
      requires DocOk(doc) && LimitsOk(limits) && b < |doc.blocks|
      ensures chunks == PiecesFrom(doc, limits, b, doc.blocks[b].start, ordinal)
    {
      hide PieceAt, PieceEnd, LastNewline, RoleOf;
      chunks := [];
      var start := doc.blocks[b].start;
      while start < doc.blocks[b].end
        invariant start <= doc.blocks[b].end
        invariant chunks + PiecesFrom(doc, limits, b, start, ordinal + |chunks|)
          == PiecesFrom(doc, limits, b, doc.blocks[b].start, ordinal)
      {
        var piece := NextPiece(doc, b, start, ordinal + |chunks|);
        chunks := chunks + [piece];
        start := piece.end;
      }
    }

    /** The chunks of one section, whose blocks are `lo` to `hi`, after those before it. */
    method ChunkSection(doc: Doc, members: seq<nat>, before: seq<Chunk>, ghost lo: nat, ghost hi: nat)
      returns (chunks: seq<Chunk>)
      requires DocOk(doc) && LimitsOk(limits) && lo <= hi <= |doc.blocks| && members == Range(lo, hi)
      requires forall b :: lo <= b < hi ==> doc.owners[b] == doc.owners[lo]
      requires lo < hi < |doc.blocks| ==> doc.owners[hi] != doc.owners[lo]
      requires Reached(doc, limits, before, lo, lo)
      ensures Reached(doc, limits, chunks, hi, hi)
    {
      hide Reached, ChunksFrom, GroupEnd, GroupAt, FromGroup, PiecesFrom, RoleOf;
      chunks := before;
      var group: seq<nat> := [];
      ghost var first: nat := lo;
      for t := 0 to |members|
        invariant lo <= first <= lo + t && group == Range(first, lo + t)
        invariant Reached(doc, limits, chunks, first, lo + t)
      {
        var b := members[t];
        if Oversized(doc, limits, b) {
          if group != [] {
            FlushGroup(doc, limits, chunks, first, b);
            chunks := chunks + [FromGroup(doc, group, |chunks|)];
            group := [];
          }
          var pieces := SplitLargeBlock(doc, b, |chunks|);
          AddPieces(doc, limits, chunks, b, pieces);
          chunks := chunks + pieces;
          first := b + 1;
          continue;
        }
        if group != [] && doc.blocks[b].end - doc.blocks[group[0]].start > limits.target {
          FlushGroup(doc, limits, chunks, first, b);
          chunks := chunks + [FromGroup(doc, group, |chunks|)];
          group := [];
          first := b;
        }
        ExtendGroup(doc, limits, chunks, first, b);
        group := group + [b];
      }
      if group != [] {
        FlushGroup(doc, limits, chunks, first, hi);
        chunks := chunks + [FromGroup(doc, group, |chunks|)];
      }
    }

    method Chunks(doc: Doc, count: nat) returns (chunks: seq<Chunk>)
      requires DocOk(doc) && LimitsOk(limits)
      requires forall b :: 0 <= b < |doc.owners| ==> doc.owners[b] < count
      ensures chunks == ChunksFrom(doc, limits, 0, 0)
    {
      hide Reached, ChunksFrom, Mine, Below;
      var lists := BlocksBySection(doc.owners, count);
      chunks := [];
      NoneBelowTheRoot(doc.owners, |doc.owners|);
      NothingReached(doc, limits);
      for s := 0 to count
        invariant Reached(doc, limits, chunks, Below(doc.owners, s, |doc.owners|), Below(doc.owners, s, |doc.owners|))
      {
        MineIsARange(doc.owners, s, |doc.owners|);
        BelowCuts(doc.owners, s, |doc.owners|);
        BelowCuts(doc.owners, s + 1, |doc.owners|);
        chunks := ChunkSection(doc, lists[s], chunks, Below(doc.owners, s, |doc.owners|),
                               Below(doc.owners, s + 1, |doc.owners|));
      }
      AllBelow(doc.owners, count, |doc.owners|);
      AllReached(doc, limits, chunks);
    }
  }

  /** The chunk of a group of consecutive blocks. */
  function FromGroup(doc: Doc, group: seq<nat>, ordinal: nat): Chunk
    requires DocOk(doc) && group != [] && forall k :: 0 <= k < |group| ==> group[k] == group[0] + k
    requires group[|group| - 1] < |doc.blocks|
  {
    var start, end := doc.blocks[group[0]].start, doc.blocks[group[|group| - 1]].end;
    GroupBounds(doc, group[0], group[|group| - 1] + 1);
    Chunk(doc.owners[group[0]], ordinal, start, end, doc.source[start..end], group, RoleOf(doc.blocks, group))
  }

  /** The chunks so far and a group open from `first` to `j` lead to the whole result. */
  ghost predicate Reached(doc: Doc, limits: Limits, chunks: seq<Chunk>, first: nat, j: nat)
    requires DocOk(doc) && LimitsOk(limits)
  {
    && first <= j <= |doc.blocks|
    && chunks + ChunksFrom(doc, limits, first, |chunks|) == ChunksFrom(doc, limits, 0, 0)
    && (first < j ==> !Oversized(doc, limits, first) && doc.owners[j - 1] == doc.owners[first]
                      && GroupEnd(doc, limits, first, first + 1) == GroupEnd(doc, limits, first, j))
  }

  lemma NothingReached(doc: Doc, limits: Limits)
    requires DocOk(doc) && LimitsOk(limits)
    ensures Reached(doc, limits, [], 0, 0)
  {
    hide ChunksFrom;
  }

  lemma AllReached(doc: Doc, limits: Limits, chunks: seq<Chunk>)
    requires DocOk(doc) && LimitsOk(limits) && Reached(doc, limits, chunks, |doc.blocks|, |doc.blocks|)
    ensures chunks == ChunksFrom(doc, limits, 0, 0)
  {
  }

  lemma FromGroupIs(doc: Doc, first: nat, j: nat, ordinal: nat)
    requires DocOk(doc) && first < j <= |doc.blocks|
    ensures FromGroup(doc, Range(first, j), ordinal) == GroupAt(doc, first, j, ordinal)
  {
    hide RoleOf;
  }

  /** An open group that the next block cannot join is a chunk. */
  lemma FlushGroup(doc: Doc, limits: Limits, chunks: seq<Chunk>, first: nat, j: nat)
    requires DocOk(doc) && LimitsOk(limits) && first < j && Reached(doc, limits, chunks, first, j)
    requires j < |doc.blocks| ==> !Fits(doc, limits, first, j)
    ensures j <= |doc.blocks| && Range(first, j) != []
    ensures Reached(doc, limits, chunks + [FromGroup(doc, Range(first, j), |chunks|)], j, j)
  {
    hide GroupAt, FromGroup, RoleOf, DocOk, Fits, Range;
    FromGroupIs(doc, first, j, |chunks|);
    assert GroupEnd(doc, limits, first, j) == j;
    assert ChunksFrom(doc, limits, first, |chunks|)
      == [GroupAt(doc, first, j, |chunks|)] + ChunksFrom(doc, limits, j, |chunks| + 1);
  }

  lemma ExtendGroup(doc: Doc, limits: Limits, chunks: seq<Chunk>, first: nat, j: nat)
    requires DocOk(doc) && LimitsOk(limits) && Reached(doc, limits, chunks, first, j) && j < |doc.blocks|
    requires !Oversized(doc, limits, j) && (first < j ==> Fits(doc, limits, first, j))
    ensures Reached(doc, limits, chunks, first, j + 1)
  {
  }

  lemma AddPieces(doc: Doc, limits: Limits, chunks: seq<Chunk>, b: nat, pieces: seq<Chunk>)
    requires DocOk(doc) && LimitsOk(limits) && b < |doc.blocks| && Oversized(doc, limits, b)
    requires Reached(doc, limits, chunks, b, b)
    requires pieces == PiecesFrom(doc, limits, b, doc.blocks[b].start, |chunks|)
    ensures Reached(doc, limits, chunks + pieces, b + 1, b + 1)
  {
    hide PiecesFrom, DocOk, GroupEnd, Oversized;
    assert ChunksFrom(doc, limits, b, |chunks|) == pieces + ChunksFrom(doc, limits, b + 1, |chunks| + |pieces|);
  }
}
