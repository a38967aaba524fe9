/** Locating a verbatim quote in a chunk and in the document the chunk was cut from. */
module Evidence {
  import opened Options
  import opened Chunker
  import opened ChunkProperties

  predicate OccursAt(text: string, quote: string, i: nat) {
    i + |quote| <= |text| && text[i..i + |quote|] == quote
  }

  datatype Located =
    | Exact(start: nat, end: nat, globalStart: nat, globalEnd: nat)
    | MissingQuote
    | OccurrenceMissing

  /** The first occurrence at or after `from`. */
  method Find(text: string, quote: string, from: nat) returns (at: Option<nat>)
    ensures at.Some? ==>
      && from <= at.value && OccursAt(text, quote, at.value)
      && forall i: nat :: from <= i < at.value ==> !OccursAt(text, quote, i)
    ensures at.None? ==> forall i: nat :: from <= i ==> !OccursAt(text, quote, i)
  {
    var i := from;
    while i + |quote| <= |text|
      invariant from <= i && forall j :: from <= j < i ==> !OccursAt(text, quote, j)
      decreases |text| - i
    {
      if text[i..i + |quote|] == quote {
        return Some(i);
      }
      i := i + 1;
    }
    at := None;
  }

  /** The offsets are exactly the occurrences, overlapping ones included, in ascending order. */
  ghost predicate Occurrences(text: string, quote: string, offsets: seq<nat>) {
    && (forall i: nat :: OccursAt(text, quote, i) <==> i in offsets)
    && (forall a, b :: 0 <= a < b < |offsets| ==> offsets[a] < offsets[b])
  }

  method AllOccurrences(text: string, quote: string) returns (offsets: seq<nat>)
    ensures Occurrences(text, quote, offsets)
  {
    offsets := [];
    var cursor := 0;
    while true
      invariant forall i: nat :: i in offsets <==> i < cursor && OccursAt(text, quote, i)
      invariant forall a :: 0 <= a < |offsets| ==> offsets[a] < cursor
      invariant forall a, b :: 0 <= a < b < |offsets| ==> offsets[a] < offsets[b]
      invariant cursor <= |text| + 1
      decreases |text| + 1 - cursor
    {
      var at := Find(text, quote, cursor);
      if at.None? {
        break;
      }
      offsets := offsets + [at.value];
      cursor := at.value + 1;
    }
  }

  /** The number of occurrences before position `i`. */
  function CountBefore(text: string, quote: string, i: nat): nat {
    if i == 0 then 0 else CountBefore(text, quote, i - 1) + (if OccursAt(text, quote, i - 1) then 1 else 0)
  }

  /** An offset's index in the list is the number of occurrences before it. */
  lemma {:induction false} IndexIsCount(text: string, quote: string, offsets: seq<nat>, i: nat, n: nat)
    requires Occurrences(text, quote, offsets) && n <= |offsets|
    requires forall a :: 0 <= a < |offsets| ==> (offsets[a] < i <==> a < n)
    ensures CountBefore(text, quote, i) == n
    decreases i
  {
    if i > 0 {
      if OccursAt(text, quote, i - 1) {
        var a :| 0 <= a < |offsets| && offsets[a] == i - 1;
        assert a < n && (a + 1 < |offsets| ==> offsets[a + 1] >= i);
        assert a == n - 1;
        IndexIsCount(text, quote, offsets, i - 1, n - 1);
      } else {
        IndexIsCount(text, quote, offsets, i - 1, n);
      }
    } else {
      assert |offsets| > 0 ==> offsets[0] >= 0;
    }
  }

  /** How many times the quote occurs in the whole text. */
  function Total(text: string, quote: string): nat {
    CountBefore(text, quote, |text| + 1)
  }

  lemma TotalIsLength(text: string, quote: string, offsets: seq<nat>)
    requires Occurrences(text, quote, offsets)
    ensures |offsets| == Total(text, quote)
  {
    assert forall a :: 0 <= a < |offsets| ==> offsets[a] in offsets;
    IndexIsCount(text, quote, offsets, |text| + 1, |offsets|);
  }

  /**
   A quote that occurs once is found whatever occurrence is asked for; otherwise the asked one is
   the one with exactly that many before it, and asking for more than there are is an error.
   */
  method LocateExactEvidence(text: string, chunkStart: nat, quote: string, occurrence: nat) returns (r: Located)
    requires occurrence >= 1
    ensures r.MissingQuote? <==> Total(text, quote) == 0
    ensures r.OccurrenceMissing? <==> Total(text, quote) >= 2 && occurrence > Total(text, quote)
    ensures r.Exact? ==>
      && OccursAt(text, quote, r.start) && r.end == r.start + |quote|
      && CountBefore(text, quote, r.start) == (if Total(text, quote) == 1 then 0 else occurrence - 1)
      && r.globalStart == chunkStart + r.start && r.globalEnd == chunkStart + r.end
  {
    var offsets := AllOccurrences(text, quote);
    TotalIsLength(text, quote, offsets);
    if offsets == [] {
      return MissingQuote;
    }
    var index := if |offsets| == 1 then 0 else occurrence - 1;
    if index >= |offsets| {
      return OccurrenceMissing;
    }
    var start := offsets[index];
    assert start in offsets;
    IndexIsCount(text, quote, offsets, start, index);
    r := Exact(start, start + |quote|, chunkStart + start, chunkStart + start + |quote|);
  }

  /** In a chunk the chunker built, the global span of a located quote cuts it out of the document. */
  lemma GlobalSpanIsTheQuote(doc: Doc, limits: Limits, c: Chunk, quote: string, start: nat)
    requires DocOk(doc) && ChunkOk(doc, limits, c) && OccursAt(c.text, quote, start)
    ensures c.start + start + |quote| <= c.end <= |doc.source|
    ensures doc.source[c.start + start..c.start + start + |quote|] == quote
  {
    hide RoleOf;
    SliceOfSlice(doc.source, c.start, c.end, start, start + |quote|);
  }

  lemma SliceOfSlice(s: string, a: nat, b: nat, i: nat, j: nat)
    requires a <= b <= |s| && i <= j <= b - a
    ensures s[a..b][i..j] == s[a + i..a + j]
  {
    forall k | 0 <= k < j - i ensures s[a..b][i..j][k] == s[a + i..a + j][k] {
      assert s[a..b][i + k] == s[a + i + k];
    }
  }
}
