/**
 The section tree that the Markdown parser builds with a stack, against its declarative form: a
 section's parent is the nearest earlier one with a smaller heading level, and it ends where the
 next one with no greater level starts.
 */
module MarkdownSections {
  import opened Options
  import opened MarkdownBlocks

  datatype Section = Section(parent: Option<nat>, level: nat, start: nat, end: nat)

  // ---------- Declarative form ----------

  /** The last section before `i` whose level is below `level`. */
  function Nearest(levels: seq<nat>, i: nat, level: nat): (r: Option<nat>)
    requires i <= |levels|
    ensures r.Some? ==> r.value < i && levels[r.value] < level
    ensures r.Some? ==> forall k :: r.value < k < i ==> levels[k] >= level
    ensures r.None? ==> forall k :: 0 <= k < i ==> levels[k] >= level
  {
    if i == 0 then None
    else if levels[i - 1] < level then Some(i - 1)
    else Nearest(levels, i - 1, level)
  }

  function ParentOf(levels: seq<nat>, i: nat): Option<nat>
    requires i < |levels|
  {
    Nearest(levels, i, levels[i])
  }

  /** The first section from `j` on whose level is at most `level`, or their number. */
  function Closer(levels: seq<nat>, j: nat, level: nat): (r: nat)
    requires j <= |levels|
    ensures j <= r <= |levels|
    ensures forall k :: j <= k < r ==> levels[k] > level
    ensures r < |levels| ==> levels[r] <= level
    decreases |levels| - j
  {
    if j == |levels| || levels[j] <= level then j else Closer(levels, j + 1, level)
  }

  function EndOf(levels: seq<nat>, starts: seq<nat>, length: nat, i: nat): nat
    requires i < |levels| == |starts|
  {
    var j := Closer(levels, i + 1, levels[i]);
    if j < |starts| then starts[j] else length
  }

  /** Section 0 is the root; the others are the heading blocks in order. */
  function Levels(blocks: seq<Block>): (r: seq<nat>)
    ensures |r| > 0 && r[0] == 0
  {
    if blocks == [] then [0]
    else
      var rest := Levels(blocks[..|blocks| - 1]);
      var last := blocks[|blocks| - 1];
      if last.kind == Heading then rest + [last.level] else rest
  }

  function Starts(blocks: seq<Block>, bodyStart: nat): (r: seq<nat>)
    ensures |r| == |Levels(blocks)| && r[0] == bodyStart
  {
    if blocks == [] then [bodyStart]
    else
      var rest := Starts(blocks[..|blocks| - 1], bodyStart);
      var last := blocks[|blocks| - 1];
      if last.kind == Heading then rest + [last.start] else rest
  }

  /** Each block belongs to the last section opened up to it. */
  function Owners(blocks: seq<Block>): (r: seq<nat>)
    ensures |r| == |blocks|
    ensures forall b :: 0 <= b < |blocks| ==> r[b] < |Levels(blocks)|
    ensures forall b, c :: 0 <= b <= c < |blocks| ==> r[b] <= r[c]
  {
    if blocks == [] then []
    else Owners(blocks[..|blocks| - 1]) + [|Levels(blocks)| - 1]
  }

  ghost predicate HeadingsOk(blocks: seq<Block>) {
    forall b :: 0 <= b < |blocks| && blocks[b].kind == Heading ==> blocks[b].level >= 1
  }

  /** Every heading that the block scan reports has a level from 1 to 6. */
  lemma {:induction false} ScannedHeadingLevels(g: Grammar, lines: seq<Line>, i: nat)
    requires i <= |lines| && LevelsOk(g)
    ensures HeadingsOk(BlocksFrom(g, lines, i))
    ensures forall b :: 0 <= b < |BlocksFrom(g, lines, i)| ==> BlocksFrom(g, lines, i)[b].level <= 6
    decreases |lines| - i
  {
    hide PastBlock;
    if i < |lines| {
      if g.blank(lines[i].text) {
        ScannedHeadingLevels(g, lines, i + 1);
      } else {
        ScannedHeadingLevels(g, lines, PastBlock(g, lines, i));
      }
    }
  }

  // ---------- The stack ----------

  /** The stack holds the sections still open: each is the parent of the next. */
  ghost predicate StackOk(levels: seq<nat>, stack: seq<nat>) {
    && stack != [] && stack[0] == 0 && stack[|stack| - 1] == |levels| - 1
    && (forall s :: 0 <= s < |stack| ==> stack[s] < |levels|)
    && (forall s :: 0 <= s < |stack| ==> EntryOk(levels, stack, s))
  }

  ghost predicate EntryOk(levels: seq<nat>, stack: seq<nat>, s: nat)
    requires s < |stack|
  {
    && stack[s] < |levels| && Closer(levels, stack[s] + 1, levels[stack[s]]) == |levels|
    && (s > 0 ==> ParentOf(levels, stack[s]) == Some(stack[s - 1]))
  }

  /** A section as the declarative form has it; it is still on the stack unless it has ended. */
  ghost predicate SectionOk(levels: seq<nat>, starts: seq<nat>, length: nat, stack: seq<nat>, section: Section, i: nat)
    requires i < |levels| == |starts|
  {
    && section == Section(ParentOf(levels, i), levels[i], starts[i], EndOf(levels, starts, length, i))
    && (i in stack <==> Closer(levels, i + 1, levels[i]) == |levels|)
  }

  ghost predicate SectionsOk(levels: seq<nat>, starts: seq<nat>, length: nat, stack: seq<nat>, sections: seq<Section>) {
    && |levels| == |starts| == |sections|
    && (forall i :: 0 <= i < |levels| ==> SectionOk(levels, starts, length, stack, sections[i], i))
  }

  method BuildSections(blocks: seq<Block>, bodyStart: nat, length: nat)
    returns (sections: seq<Section>, owners: seq<nat>)
    requires HeadingsOk(blocks)
    ensures owners == Owners(blocks) && |sections| == |Levels(blocks)|
    ensures forall i :: 0 <= i < |sections| ==>
      sections[i] == Section(ParentOf(Levels(blocks), i), Levels(blocks)[i], Starts(blocks, bodyStart)[i],
                             EndOf(Levels(blocks), Starts(blocks, bodyStart), length, i))
  {
    hide StackOk, SectionOk, Popped, ParentOf, EndOf, Nearest, Closer;
    sections := [Section(None, 0, bodyStart, length)];
    owners := [];
    var stack: seq<nat> := [0];
    RootIsOk(bodyStart, length);
    for index := 0 to |blocks|
      invariant owners == Owners(blocks[..index])
      invariant StackOk(Levels(blocks[..index]), stack)
      invariant SectionsOk(Levels(blocks[..index]), Starts(blocks[..index], bodyStart), length, stack, sections)
    {
      var block := blocks[index];
      assert blocks[..index + 1][..index] == blocks[..index];
      ghost var levels, starts := Levels(blocks[..index]), Starts(blocks[..index], bodyStart);
      StackTop(levels, stack);
      if block.kind != Heading {
        owners := owners + [stack[|stack| - 1]];
        continue;
      }
      ghost var full, before := stack, sections;
      LevelsMatch(levels, starts, length, stack, sections);
      stack, sections := CloseSections(stack, sections, block, levels);
      PushOne(levels, starts, length, full, before, stack, sections, block);
      sections := sections + [Section(Some(stack[|stack| - 1]), block.level, block.start, length)];
      stack := stack + [|sections| - 1];
      owners := owners + [|sections| - 1];
    }
    assert blocks[..|blocks|] == blocks;
    AllSections(Levels(blocks), Starts(blocks, bodyStart), length, stack, sections);
  }

  /** Closes the open sections of no smaller level than the heading, innermost first. */
  method CloseSections(full: seq<nat>, before: seq<Section>, block: Block, ghost levels: seq<nat>)
    returns (stack: seq<nat>, sections: seq<Section>)
    requires StackOk(levels, full) && |before| == |levels|
    requires forall i :: 0 <= i < |levels| ==> before[i].level == levels[i]
    ensures Popped(levels, full, before, block, stack, sections)
    ensures stack != [] && stack[|stack| - 1] < |levels|
    ensures |stack| > 1 ==> levels[stack[|stack| - 1]] < block.level
  {
    hide Popped, StackOk;
    stack, sections := full, before;
    PopNone(levels, full, before, block);
    while |stack| > 1 && sections[stack[|stack| - 1]].level >= block.level
      invariant stack != [] && |sections| == |levels| && stack[|stack| - 1] < |levels|
      invariant forall i :: 0 <= i < |levels| ==> sections[i].level == levels[i]
      invariant Popped(levels, full, before, block, stack, sections)
    {
      var closing := stack[|stack| - 1];
      PopOne(levels, full, before, block, stack, sections);
      stack := stack[..|stack| - 1];
      sections := sections[closing := sections[closing].(end := block.start)];
    }
  }

  /** The stack is a prefix of what it was, and the sections taken off it end at the heading. */
  ghost predicate Popped(levels: seq<nat>, full: seq<nat>, before: seq<Section>, block: Block, stack: seq<nat>,
                         sections: seq<Section>) {
    && 0 < |stack| <= |full| && stack == full[..|stack|] && |sections| == |before|
    && (forall s :: |stack| <= s < |full| ==> full[s] < |levels| && levels[full[s]] >= block.level)
    && (forall i :: 0 <= i < |sections| ==>
          sections[i] == if i in full[|stack|..] then before[i].(end := block.start) else before[i])
  }

  lemma RootIsOk(bodyStart: nat, length: nat)
    ensures StackOk([0], [0])
    ensures SectionsOk([0], [bodyStart], length, [0], [Section(None, 0, bodyStart, length)])
  {
  }

  lemma LevelsMatch(levels: seq<nat>, starts: seq<nat>, length: nat, stack: seq<nat>, sections: seq<Section>)
    requires SectionsOk(levels, starts, length, stack, sections)
    ensures forall i :: 0 <= i < |levels| ==> sections[i].level == levels[i]
  {
    forall i | 0 <= i < |levels| ensures sections[i].level == levels[i] {
      assert SectionOk(levels, starts, length, stack, sections[i], i);
    }
  }

  lemma AllSections(levels: seq<nat>, starts: seq<nat>, length: nat, stack: seq<nat>, sections: seq<Section>)
    requires SectionsOk(levels, starts, length, stack, sections)
    ensures forall i :: 0 <= i < |levels| ==>
      sections[i] == Section(ParentOf(levels, i), levels[i], starts[i], EndOf(levels, starts, length, i))
  {
    forall i | 0 <= i < |levels|
      ensures sections[i] == Section(ParentOf(levels, i), levels[i], starts[i], EndOf(levels, starts, length, i))
    {
      assert SectionOk(levels, starts, length, stack, sections[i], i);
    }
  }

  lemma PopNone(levels: seq<nat>, full: seq<nat>, before: seq<Section>, block: Block)
    requires StackOk(levels, full)
    ensures Popped(levels, full, before, block, full, before)
    ensures full != [] && full[|full| - 1] < |levels|
  {
  }

  /** Sections on the stack are in order, so popping one leaves it out of the rest. */
  lemma PopOne(levels: seq<nat>, full: seq<nat>, before: seq<Section>, block: Block, stack: seq<nat>,
               sections: seq<Section>)
    requires StackOk(levels, full) && Popped(levels, full, before, block, stack, sections)
    requires |before| == |levels| && |stack| > 1 && stack[|stack| - 1] < |levels|
    requires levels[stack[|stack| - 1]] >= block.level
    ensures var closing, rest := stack[|stack| - 1], stack[..|stack| - 1];
      && closing < |sections| && rest[|rest| - 1] < |levels|
      && Popped(levels, full, before, block, rest, sections[closing := sections[closing].(end := block.start)])
  {
    var n := |stack|;
    forall t | n <= t < |full| ensures full[n - 1] < full[t] {
      StackPair(levels, full, n - 1, t);
    }
    hide StackOk;
    assert full[n - 1..] == [full[n - 1]] + full[n..];
    assert stack[..n - 1] == full[..n - 1];
  }

  lemma {:induction false} StackPair(levels: seq<nat>, stack: seq<nat>, s: nat, t: nat)
    requires StackOk(levels, stack) && s < t < |stack|
    ensures stack[s] < stack[t] && levels[stack[s]] < levels[stack[t]]
    decreases t
  {
    hide Nearest, Closer;
    assert EntryOk(levels, stack, t);
    if s + 1 < t {
      StackPair(levels, stack, s, t - 1);
    }
  }

  /** The section opened last is on top of the stack. */
  lemma StackTop(levels: seq<nat>, stack: seq<nat>)
    requires StackOk(levels, stack)
    ensures stack != [] && stack[|stack| - 1] == |levels| - 1
  {
  }

  // ---------- One more section ----------

  lemma {:induction false} NearestPrefix(levels: seq<nat>, v: nat, i: nat, level: nat)
    requires i <= |levels|
    ensures Nearest(levels + [v], i, level) == Nearest(levels, i, level)
  {
    if i > 0 {
      NearestPrefix(levels, v, i - 1, level);
    }
  }

  lemma {:induction false} CloserPush(levels: seq<nat>, v: nat, j: nat, level: nat)
    requires j <= |levels|
    ensures Closer(levels + [v], j, level) ==
      if Closer(levels, j, level) < |levels| then Closer(levels, j, level)
      else if v <= level then |levels| else |levels| + 1
    decreases |levels| - j
  {
    if j < |levels| {
      CloserPush(levels, v, j + 1, level);
    }
  }

  lemma {:induction false} NearestIs(levels: seq<nat>, i: nat, level: nat, p: nat)
    requires p < i <= |levels| && levels[p] < level
    requires forall k :: p < k < i ==> levels[k] >= level
    ensures Nearest(levels, i, level) == Some(p)
  {
    if p < i - 1 {
      NearestIs(levels, i - 1, level, p);
    }
  }

  /** The section left on top of the stack is the parent of the new one. */
  lemma TopIsParent(levels: seq<nat>, full: seq<nat>, stack: seq<nat>, level: nat)
    requires StackOk(levels, full) && level >= 1 && levels[0] == 0
    requires 0 < |stack| <= |full| && stack == full[..|stack|]
    requires forall s :: |stack| <= s < |full| ==> levels[full[s]] >= level
    requires |stack| > 1 ==> levels[stack[|stack| - 1]] < level
    ensures Nearest(levels, |levels|, level) == Some(stack[|stack| - 1])
  {
    StackTop(levels, full);
    var p := stack[|stack| - 1];
    assert p == full[|stack| - 1];
    if |stack| < |full| {
      var q := full[|stack|];
      assert EntryOk(levels, full, |stack|);
      assert ParentOf(levels, q) == Some(p);
      assert Closer(levels, q + 1, levels[q]) == |levels|;
      forall k | p < k < |levels| ensures levels[k] >= level {
      }
    }
    NearestIs(levels, |levels|, level, p);
  }

  lemma PushOne(levels: seq<nat>, starts: seq<nat>, length: nat, full: seq<nat>, before: seq<Section>,
                stack: seq<nat>, sections: seq<Section>, block: Block)
    requires StackOk(levels, full) && levels[0] == 0 && block.level >= 1
    requires SectionsOk(levels, starts, length, full, before) && Popped(levels, full, before, block, stack, sections)
    requires stack[|stack| - 1] < |levels| && (|stack| > 1 ==> levels[stack[|stack| - 1]] < block.level)
    ensures var more, moreStarts := levels + [block.level], starts + [block.start];
      && StackOk(more, stack + [|levels|])
      && SectionsOk(more, moreStarts, length, stack + [|levels|],
                    sections + [Section(Some(stack[|stack| - 1]), block.level, block.start, length)])
  {
    TopIsParent(levels, full, stack, block.level);
    PushStack(levels, full, stack, block.level);
    var more, moreStarts := levels + [block.level], starts + [block.start];
    forall i | 0 <= i < |levels|
      ensures SectionOk(more, moreStarts, length, stack + [|levels|], sections[i], i)
    {
      assert SectionOk(levels, starts, length, full, before[i], i);
      PushSection(levels, starts, length, full, stack, before[i], block, i);
    }
    NearestPrefix(levels, block.level, |levels|, block.level);
    hide StackOk, Popped;
    assert SectionOk(more, moreStarts, length, stack + [|levels|],
                     Section(Some(stack[|stack| - 1]), block.level, block.start, length), |levels|);
  }

  /** What is left on the stack has smaller levels than the new heading. */
  lemma PushStack(levels: seq<nat>, full: seq<nat>, stack: seq<nat>, level: nat)
    requires StackOk(levels, full) && level >= 1 && levels[0] == 0
    requires 0 < |stack| <= |full| && stack == full[..|stack|]
    requires stack[|stack| - 1] < |levels| && (|stack| > 1 ==> levels[stack[|stack| - 1]] < level)
    requires Nearest(levels, |levels|, level) == Some(stack[|stack| - 1])
    ensures StackOk(levels + [level], stack + [|levels|])
    ensures forall i :: i in stack ==> i < |levels| && levels[i] < level
  {
    hide Nearest, Closer, EntryOk;
    forall s | 0 <= s < |stack|
      ensures EntryOk(levels + [level], stack + [|levels|], s) && stack[s] < |levels| && levels[stack[s]] < level
    {
      PushEntry(levels, full, stack, level, s);
    }
    NewEntry(levels, stack, level);
  }

  lemma PushEntry(levels: seq<nat>, full: seq<nat>, stack: seq<nat>, level: nat, s: nat)
    requires StackOk(levels, full) && level >= 1 && levels[0] == 0
    requires s < |stack| <= |full| && stack == full[..|stack|]
    requires full[|stack| - 1] < |levels| && (|stack| > 1 ==> levels[full[|stack| - 1]] < level)
    ensures EntryOk(levels + [level], stack + [|levels|], s) && stack[s] < |levels| && levels[stack[s]] < level
  {
    assert EntryOk(levels, full, s);
    if s < |stack| - 1 {
      StackPair(levels, full, s, |stack| - 1);
    }
    hide StackOk, Nearest, Closer;
    CloserPush(levels, level, stack[s] + 1, levels[stack[s]]);
    NearestPrefix(levels, level, stack[s], levels[stack[s]]);
  }

  lemma NewEntry(levels: seq<nat>, stack: seq<nat>, level: nat)
    requires stack != [] && Nearest(levels, |levels|, level) == Some(stack[|stack| - 1])
    ensures EntryOk(levels + [level], stack + [|levels|], |stack|)
  {
    NearestPrefix(levels, level, |levels|, level);
  }

  lemma PushSection(levels: seq<nat>, starts: seq<nat>, length: nat, full: seq<nat>, stack: seq<nat>,
                    section: Section, block: Block, i: nat)
    requires i < |levels| == |starts| && SectionOk(levels, starts, length, full, section, i)
    requires 0 < |stack| <= |full| && stack == full[..|stack|]
    requires forall s :: |stack| <= s < |full| ==> full[s] < |levels| && levels[full[s]] >= block.level
    requires forall k :: k in stack ==> k < |levels| && levels[k] < block.level
    ensures SectionOk(levels + [block.level], starts + [block.start], length, stack + [|levels|],
                      if i in full[|stack|..] then section.(end := block.start) else section, i)
  {
    NearestPrefix(levels, block.level, i, levels[i]);
    CloserPush(levels, block.level, i + 1, levels[i]);
    assert full == stack + full[|stack|..];
    assert i in full <==> i in stack || i in full[|stack|..];
    hide Nearest, Closer;
  }
}
