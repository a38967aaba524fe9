/**
 The sections form a tree of character ranges: a range is inside another exactly for a descendant,
 so asking for what lies in a section's range asks for its subtree.
 */
module MarkdownTree {
  import opened Options
  import opened MarkdownBlocks
  import opened MarkdownSections

  /** Following parents from section `j` leads to section `i`. */
  predicate InSubtree(levels: seq<nat>, i: nat, j: nat)
    requires j < |levels|
    decreases j
  {
    j == i || (ParentOf(levels, j).Some? && InSubtree(levels, i, ParentOf(levels, j).value))
  }

  lemma {:induction false} SubtreeIsLater(levels: seq<nat>, i: nat, j: nat)
    requires j < |levels| && InSubtree(levels, i, j)
    ensures i <= j
    decreases j
  {
    if j != i {
      SubtreeIsLater(levels, i, ParentOf(levels, j).value);
    }
  }

  /** A section's descendants are the sections that follow it up to the one that closes it. */
  lemma {:induction false} SubtreeExactlyWhen(levels: seq<nat>, i: nat, j: nat)
    requires i <= j < |levels|
    ensures InSubtree(levels, i, j) <==> j < Closer(levels, i + 1, levels[i])
    decreases j
  {
    hide Nearest, Closer;
    var parent := ParentOf(levels, j);
    if i < j {
      if parent.Some? && parent.value >= i {
        SubtreeExactlyWhen(levels, i, parent.value);
      } else if parent.Some? && InSubtree(levels, i, parent.value) {
        SubtreeIsLater(levels, i, parent.value);
      }
    }
  }

  /** Down every path the heading levels strictly increase. */
  lemma LevelsIncreaseDownAPath(levels: seq<nat>, i: nat, j: nat)
    requires i < j < |levels| && InSubtree(levels, i, j)
    ensures levels[i] < levels[j]
  {
    SubtreeExactlyWhen(levels, i, j);
  }

  ghost predicate Ascending(starts: seq<nat>, length: nat) {
    && (forall i :: 0 <= i < |starts| ==> starts[i] <= length)
    && (forall i, j :: 0 <= i < j < |starts| ==> starts[i] <= starts[j])
  }

  /** Two sections' ranges are nested, the later one's inside, or disjoint. */
  lemma NestedOrDisjoint(levels: seq<nat>, starts: seq<nat>, length: nat, i: nat, j: nat)
    requires i < j < |levels| == |starts| && Ascending(starts, length)
    ensures InSubtree(levels, i, j) ==>
      starts[i] <= starts[j] && EndOf(levels, starts, length, j) <= EndOf(levels, starts, length, i)
    ensures !InSubtree(levels, i, j) ==> EndOf(levels, starts, length, i) <= starts[j]
  {
    hide Closer, Nearest, InSubtree;
    SubtreeExactlyWhen(levels, i, j);
    var a, b := Closer(levels, i + 1, levels[i]), Closer(levels, j + 1, levels[j]);
    assert a < |levels| ==> levels[a] <= levels[i];
    assert j < a ==> levels[j] > levels[i];
    assert j < a < |levels| ==> b <= a;
  }

  /** Where a section's own text ends and the next section starts. */
  function OwnEnd(starts: seq<nat>, length: nat, s: nat): nat
    requires s < |starts|
  {
    if s + 1 < |starts| then starts[s + 1] else length
  }

  /** A piece of a section's own text lies in another section's range exactly for a descendant. */
  lemma RangeIsSubtree(levels: seq<nat>, starts: seq<nat>, length: nat, i: nat, s: nat, a: nat, b: nat)
    requires i < |levels| && s < |levels| && |levels| == |starts| && Ascending(starts, length)
    requires starts[s] <= a < b <= OwnEnd(starts, length, s)
    ensures starts[i] <= a && b <= EndOf(levels, starts, length, i) <==> InSubtree(levels, i, s)
  {
    hide Closer, Nearest, InSubtree;
    if i < s {
      NestedOrDisjoint(levels, starts, length, i, s);
    } else if s < i {
      if InSubtree(levels, i, s) {
        SubtreeIsLater(levels, i, s);
      }
    } else {
      SubtreeExactlyWhen(levels, i, i);
    }
    var end := Closer(levels, s + 1, levels[s]);
  }

  // ---------- The scanned document ----------

  /** Sections start where their headings do, in order and inside the body. */
  lemma {:induction false} StartsAscend(blocks: seq<Block>, bodyStart: nat, length: nat)
    requires Spans(blocks, bodyStart, length) && bodyStart <= length
    ensures Ascending(Starts(blocks, bodyStart), length)
    ensures forall i :: 0 <= i < |Starts(blocks, bodyStart)| ==> bodyStart <= Starts(blocks, bodyStart)[i]
    ensures blocks != [] ==> forall i :: 0 <= i < |Starts(blocks, bodyStart)| ==>
      Starts(blocks, bodyStart)[i] <= blocks[|blocks| - 1].start
  {
    if blocks != [] {
      var rest := blocks[..|blocks| - 1];
      StartsAscend(rest, bodyStart, length);
    }
  }

  /** Every block lies in the own text of the section it belongs to. */
  lemma {:induction false} BlocksLieInTheirSections(blocks: seq<Block>, bodyStart: nat, length: nat, b: nat)
    requires Spans(blocks, bodyStart, length) && bodyStart <= length && b < |blocks|
    ensures var starts, owner := Starts(blocks, bodyStart), Owners(blocks)[b];
      owner < |starts| && starts[owner] <= blocks[b].start && blocks[b].end <= OwnEnd(starts, length, owner)
    decreases |blocks|
  {
    StartsAscend(blocks, bodyStart, length);
    if b < |blocks| - 1 {
      var rest := blocks[..|blocks| - 1];
      BlocksLieInTheirSections(rest, bodyStart, length, b);
    }
  }
}
