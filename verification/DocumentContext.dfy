/** Bounded collection of the content evidence around accepted seed chunks. */
module DocumentContext {
  import opened Collections
  import opened Chunker

  type DocId = nat
  type ChunkId = nat

  /** A current chunk with its document and its section's character range. */
  datatype Row = Row(id: ChunkId, document: DocId, start: nat, end: nat, ordinal: nat, size: nat, role: Role,
                     sectionStart: nat, sectionEnd: nat)

  datatype Bounds = Bounds(documents: int, chunks: int, chars: int)

  type Rows = map<ChunkId, Row>

  // ---------- What is asked for ----------

  ghost predicate Keyed(table: Rows) {
    forall id :: id in table ==> table[id].id == id
  }

  predicate InRange(row: Row, seed: Row) {
    seed.document == row.document && seed.sectionStart <= row.start && row.end <= seed.sectionEnd
  }

  /** Content evidence of the document, in a seed's section range or anywhere in it, beyond the seeds. */
  ghost predicate Wanted(table: Rows, seeds: seq<ChunkId>, whole: bool, document: DocId, id: ChunkId) {
    && id in table && table[id].document == document && table[id].role == ContentEvidence && id !in seeds
    && (whole || exists s :: s in seeds && s in table && InRange(table[id], table[s]))
  }

  /** A document with a current seed. */
  ghost predicate Seeded(table: Rows, seeds: seq<ChunkId>, document: DocId) {
    exists s :: s in seeds && s in table && table[s].document == document
  }

  /** All content evidence that the seeds ask for. */
  ghost predicate Asked(table: Rows, seeds: seq<ChunkId>, whole: bool, id: ChunkId) {
    id in table && Seeded(table, seeds, table[id].document) && Wanted(table, seeds, whole, table[id].document, id)
  }

  function SizeOf(table: Rows, ids: seq<ChunkId>): nat {
    if ids == [] then 0
    else SizeOf(table, ids[..|ids| - 1])
         + (if ids[|ids| - 1] in table then table[ids[|ids| - 1]].size else 0)
  }

  /** Reading order: by ordinal, then by id. */
  predicate Earlier(a: Row, b: Row) {
    a.ordinal < b.ordinal || (a.ordinal == b.ordinal && a.id < b.id)
  }

  /** Rows of a set in reading order, before all its other rows. */
  ghost predicate FirstInOrder(table: Rows, ids: seq<ChunkId>, all: set<ChunkId>)
    requires all <= table.Keys
  {
    && (forall id :: id in ids ==> id in all)
    && (forall i, j :: 0 <= i < j < |ids| ==> Earlier(table[ids[i]], table[ids[j]]))
    && (forall i, id :: 0 <= i < |ids| && id in all && id !in ids ==> Earlier(table[ids[i]], table[id]))
  }

  /** The first wanted rows of a document in reading order, at most `limit` of them. */
  ghost predicate StartsPart(table: Rows, seeds: seq<ChunkId>, whole: bool, document: DocId, limit: nat,
                             part: seq<ChunkId>) {
    && |part| <= limit
    && (forall id :: id in part ==> Wanted(table, seeds, whole, document, id))
    && (forall i, j :: 0 <= i < j < |part| ==> IsEarlier(table, part[i], part[j]))
    && (forall i, id :: 0 <= i < |part| && Wanted(table, seeds, whole, document, id) && id !in part ==>
          IsEarlier(table, part[i], id))
  }

  ghost predicate IsEarlier(table: Rows, a: ChunkId, b: ChunkId) {
    && a in table && b in table
    && (table[a].ordinal < table[b].ordinal || (table[a].ordinal == table[b].ordinal && table[a].id < table[b].id))
  }

  /** Nothing is left out but for the limit on a document's rows. */
  ghost predicate IsWhole(table: Rows, seeds: seq<ChunkId>, whole: bool, document: DocId, limit: nat,
                          part: seq<ChunkId>) {
    |part| == limit || forall id :: Wanted(table, seeds, whole, document, id) ==> id in part
  }

  /** The next wanted row is larger than the room that is left. */
  ghost predicate Overflows(table: Rows, seeds: seq<ChunkId>, whole: bool, document: DocId, limit: nat,
                            part: seq<ChunkId>, room: int) {
    |part| < limit && exists next :: IsNext(table, seeds, whole, document, part, next) && table[next].size > room
  }

  ghost predicate IsNext(table: Rows, seeds: seq<ChunkId>, whole: bool, document: DocId, part: seq<ChunkId>,
                         next: ChunkId) {
    && Wanted(table, seeds, whole, document, next) && next !in part
    && forall id :: Wanted(table, seeds, whole, document, id) && id !in part && id != next ==> IsEarlier(table, next, id)
  }

  function Flat(parts: seq<seq<ChunkId>>): seq<ChunkId> {
    if parts == [] then [] else Flat(parts[..|parts| - 1]) + parts[|parts| - 1]
  }

  /**
   Each selected document contributes its first wanted rows up to its limit, one document after the other, until the next
   row no longer fits.
   */
  ghost predicate Gathered(table: Rows, seeds: seq<ChunkId>, bounds: Bounds, whole: bool, selected: seq<DocId>,
                           parts: seq<seq<ChunkId>>, result: seq<ChunkId>, full: bool)
    requires bounds.chunks >= 1
  {
    && result == Flat(parts) && |parts| <= |selected|
    && (forall d :: 0 <= d < |parts| ==> StartsPart(table, seeds, whole, selected[d], bounds.chunks, parts[d]))
    && (forall d :: 0 <= d < |parts| && (full ==> d < |parts| - 1) ==>
          IsWhole(table, seeds, whole, selected[d], bounds.chunks, parts[d]))
    && if full then parts != [] && Overflows(table, seeds, whole, selected[|parts| - 1], bounds.chunks,
                                             parts[|parts| - 1], bounds.chars - SizeOf(table, result))
       else |parts| == |selected|
  }

  /** Some seed names one document before any names the other. */
  ghost predicate NamedBefore(table: Rows, seeds: seq<ChunkId>, a: DocId, b: DocId) {
    exists p :: 0 <= p < |seeds| && seeds[p] in table && table[seeds[p]].document == a
      && forall q :: 0 <= q <= p && seeds[q] in table ==> table[seeds[q]].document != b
  }

  class RetrievalStore {
    const table: Rows

    constructor (table: Rows)
      ensures this.table == table
    {
      this.table := table;
    }

    /** The seeds' documents in the order the seeds first name them. */
    method SeedDocuments(seeds: seq<ChunkId>) returns (documents: seq<DocId>)
      ensures forall d :: d in documents <==> Seeded(table, seeds, d)
      ensures NoDuplicates(documents)
      ensures forall i, j :: 0 <= i < j < |documents| ==> NamedBefore(table, seeds, documents[i], documents[j])
    {
      documents := [];
      for i := 0 to |seeds|
        invariant forall d :: d in documents <==> Seeded(table, seeds[..i], d)
        invariant NoDuplicates(documents)
        invariant forall a, b :: 0 <= a < b < |documents| ==> NamedBefore(table, seeds, documents[a], documents[b])
      {
        assert seeds[..i + 1] == seeds[..i] + [seeds[i]];
        if seeds[i] in table && table[seeds[i]].document !in documents {
          NewDocument(table, seeds, i, documents, table[seeds[i]].document);
          documents := documents + [table[seeds[i]].document];
        }
      }
      assert seeds[..|seeds|] == seeds;
    }

    /** The wanted chunks of a document in reading order, at most `limit` of them. */
    method Query(seeds: seq<ChunkId>, whole: bool, document: DocId, limit: nat)
      returns (ids: seq<ChunkId>, ghost wanted: set<ChunkId>)
      requires Keyed(table)
      ensures forall id :: id in wanted <==> Wanted(table, seeds, whole, document, id)
      ensures wanted <= table.Keys && FirstInOrder(table, ids, wanted) && NoDuplicates(ids)
      ensures |ids| <= limit && (|ids| < limit ==> forall id :: id in wanted ==> id in ids)
    {
      var found: set<ChunkId> := {};
      var todo := table.Keys;
      while todo != {}
        invariant todo <= table.Keys
        invariant forall id :: id in found <==> id !in todo && Wanted(table, seeds, whole, document, id)
      {
        var id :| id in todo;
        todo := todo - {id};
        var row := table[id];
        if row.document == document && row.role == ContentEvidence && id !in seeds
           && (whole || exists s :: s in seeds && s in table && table[s].document == document
                                    && table[s].sectionStart <= row.start && row.end <= table[s].sectionEnd) {
          found := found + {id};
        }
      }
      wanted := found;
      ids := TakeFirst(found, limit);
    }

    method TakeFirst(all: set<ChunkId>, limit: nat) returns (ids: seq<ChunkId>)
      requires Keyed(table) && all <= table.Keys
      ensures FirstInOrder(table, ids, all) && NoDuplicates(ids)
      ensures |ids| <= limit && (|ids| < limit ==> forall id :: id in all ==> id in ids)
    {
      ids := [];
      var rest := all;
      while rest != {} && |ids| < limit
        invariant rest <= all && |ids| <= limit
        invariant forall id :: id in ids <==> id in all && id !in rest
        invariant forall i, j :: 0 <= i < j < |ids| ==> Earlier(table[ids[i]], table[ids[j]])
        invariant forall i, id :: 0 <= i < |ids| && id in rest ==> Earlier(table[ids[i]], table[id])
        decreases rest
      {
        var first := FirstOf(rest);
        ids := ids + [first];
        rest := rest - {first};
      }
    }

    method FirstOf(ids: set<ChunkId>) returns (first: ChunkId)
      requires Keyed(table) && ids != {} && ids <= table.Keys
      ensures first in ids && forall id :: id in ids && id != first ==> Earlier(table[first], table[id])
    {
      first :| first in ids;
      var todo := ids - {first};
      while todo != {}
        invariant todo <= ids && first in ids && first !in todo
        invariant forall id :: id in ids && id !in todo && id != first ==> Earlier(table[first], table[id])
      {
        var id :| id in todo;
        todo := todo - {id};
        if Earlier(table[id], table[first]) {
          first := id;
        }
      }
    }

    /** Adds rows until one no longer fits. */
    method AddRows(before: seq<ChunkId>, size: nat, rows: seq<ChunkId>, chars: nat)
      returns (result: seq<ChunkId>, total: nat, full: bool, ghost added: nat)
      requires size == SizeOf(table, before) <= chars && NoDuplicates(rows)
      requires forall id :: id in rows ==> id in table && id !in before
      ensures total == SizeOf(table, result) <= chars
      ensures added <= |rows| && result == before + rows[..added] && (full <==> added < |rows|)
      ensures full ==> rows[added] in table && table[rows[added]].size > chars - total
    {
      result, total := before, size;
      for r := 0 to |rows|
        invariant result == before + rows[..r] && total == SizeOf(table, result) <= chars
      {
        assert rows[r] in rows && rows[r] !in rows[..r];
        if rows[r] in result {
          continue;
        }
        if total + table[rows[r]].size > chars {
          return result, total, true, r;
        }
        assert (result + [rows[r]])[..|result|] == result;
        assert rows[..r + 1] == rows[..r] + [rows[r]];
        result, total := result + [rows[r]], total + table[rows[r]].size;
      }
      full, added := false, |rows|;
    }

    /** Adds one document's rows; `cut` says that some are left out, `full` that the size limit was met. */
    method VisitDocument(seeds: seq<ChunkId>, bounds: Bounds, whole: bool, ghost documents: seq<DocId>,
                         document: DocId, before: seq<ChunkId>, size: nat)
      returns (result: seq<ChunkId>, total: nat, cut: bool, full: bool, ghost part: seq<ChunkId>)
      requires Keyed(table) && bounds.chunks >= 1 && bounds.chars >= 1 && size == SizeOf(table, before) <= bounds.chars
      requires Collected(table, seeds, whole, documents, before)
      requires Seeded(table, seeds, document) && document !in documents
      ensures total == SizeOf(table, result) <= bounds.chars && (full ==> cut)
      ensures Collected(table, seeds, whole, documents + [document], result)
      ensures !cut && Complete(table, seeds, whole, documents, before) ==>
        Complete(table, seeds, whole, documents + [document], result)
      ensures cut || MissingIn(table, seeds, whole, documents, before) ==>
        MissingIn(table, seeds, whole, documents + [document], result)
      ensures result == before + part && StartsPart(table, seeds, whole, document, bounds.chunks, part)
      ensures if full then Overflows(table, seeds, whole, document, bounds.chunks, part, bounds.chars - total)
              else IsWhole(table, seeds, whole, document, bounds.chunks, part)
    {
      hide StartsPart, Overflows, IsWhole;
      hide Asked, FirstInOrder, Wanted, Keyed, Collected, Complete, MissingIn, NoDuplicates, Seeded, SizeOf;
      var rows, wanted := Query(seeds, whole, document, bounds.chunks + 1);
      var taken := if |rows| > bounds.chunks then rows[..bounds.chunks] else rows;
      RowsAreNew(table, seeds, whole, documents, before, document, rows, wanted, taken);
      ghost var added;
      result, total, full, added := AddRows(before, size, taken, bounds.chars);
      AddDocument(table, seeds, whole, documents, before, document, wanted, taken, added);
      cut := |rows| > bounds.chunks || full;
      part := rows[..added];
      assert taken[..added] == part;
      PartIsFirst(table, seeds, whole, document, wanted, rows, bounds.chunks, added, bounds.chars - total);
    }

    /**
     Collects what the seeds ask for within the bounds. What is returned was asked for, once, and
     fits; the first documents that the seeds name contribute their first rows. Unless there are more
     seed documents than allowed, the result is marked as truncated exactly when something asked for
     is missing, and it is never left unmarked when incomplete.
     */
    method DocumentContext(seeds: seq<ChunkId>, bounds: Bounds, whole: bool)
      returns (result: seq<ChunkId>, truncated: bool, ghost documents: seq<DocId>, ghost parts: seq<seq<ChunkId>>)
      requires Keyed(table)
      ensures forall d :: d in documents <==> Seeded(table, seeds, d)
      ensures NoDuplicates(documents) && NoDuplicates(result)
      ensures forall i, j :: 0 <= i < j < |documents| ==> NamedBefore(table, seeds, documents[i], documents[j])
      ensures seeds != [] && bounds.documents >= 1 && bounds.chunks >= 1 && bounds.chars >= 1 ==>
        var selected := if |documents| > bounds.documents then documents[..bounds.documents] else documents;
        Gathered(table, seeds, bounds, whole, selected, parts, result, false)
        || Gathered(table, seeds, bounds, whole, selected, parts, result, true)
      ensures forall id :: id in result ==> Asked(table, seeds, whole, id)
      ensures bounds.chars >= 1 ==> SizeOf(table, result) <= bounds.chars
      ensures seeds == [] || bounds.documents < 1 || bounds.chunks < 1 || bounds.chars < 1 ==>
        result == [] && !truncated
      ensures seeds != [] && bounds.documents >= 1 && bounds.chunks >= 1 && bounds.chars >= 1 ==>
        && (!truncated ==> forall id :: Asked(table, seeds, whole, id) ==> id in result)
        && (|documents| <= bounds.documents && truncated ==> exists id :: Asked(table, seeds, whole, id) && id !in result)
    {
      hide Asked, FirstInOrder, Wanted, Keyed, Collected, Complete, MissingIn, NoDuplicates, Seeded, SizeOf;
      hide StartsPart, Overflows, IsWhole, Gathered, NamedBefore;
      result, truncated, parts := [], false, [];
      EmptyHasNoSize(table);
      var all := SeedDocuments(seeds);
      documents := all;
      NothingCollected(table, seeds, whole);
      if seeds == [] || bounds.documents < 1 || bounds.chunks < 1 || bounds.chars < 1 {
        return;
      }
      var selected := if |all| > bounds.documents then all[..bounds.documents] else all;
      truncated := |all| > bounds.documents;
      var d, total, full := 0, 0, false;
      NothingGathered(table, seeds, bounds, whole);
      while d < |selected| && !full
        invariant d <= |selected| && total == SizeOf(table, result) <= bounds.chars
        invariant Collected(table, seeds, whole, selected[..d], result)
        invariant |all| > bounds.documents || full ==> truncated
        invariant !truncated ==> Complete(table, seeds, whole, selected[..d], result)
        invariant |all| <= bounds.documents && truncated ==> MissingIn(table, seeds, whole, selected[..d], result)
        invariant Gathered(table, seeds, bounds, whole, selected[..d], parts, result, full)
      {
        NextDocument(all, selected, d);
        ghost var before := result;
        var cut;
        ghost var part;
        result, total, cut, full, part := VisitDocument(seeds, bounds, whole, selected[..d], selected[d], result, total);
        GatherPart(table, seeds, bounds, whole, selected[..d], parts, before, selected[d], part, full);
        parts := parts + [part];
        assert selected[..d + 1] == selected[..d] + [selected[d]];
        truncated := truncated || cut;
        d := d + 1;
      }
      if !truncated {
        assert selected[..d] == all;
      }
      GatheredEnds(table, seeds, bounds, whole, selected, d, parts, result, full);
      Finished(table, seeds, whole, all, selected[..d], result);
    }
  }

  lemma NewDocument(table: Rows, seeds: seq<ChunkId>, i: nat, documents: seq<DocId>, document: DocId)
    requires i < |seeds| && forall d :: d in documents <==> Seeded(table, seeds[..i], d)
    requires document !in documents
    ensures forall a :: 0 <= a < |documents| ==> NamedBefore(table, seeds, documents[a], document)
  {
    forall a | 0 <= a < |documents| ensures NamedBefore(table, seeds, documents[a], document) {
      assert documents[a] in documents;
      var s :| s in seeds[..i] && s in table && table[s].document == documents[a];
      var p :| 0 <= p < i && seeds[..i][p] == s;
      assert forall q :: 0 <= q <= p ==> seeds[q] in seeds[..i];
    }
  }

  /** The rows taken of a document are its first ones, and what did not fit comes next. */
  lemma PartIsFirst(table: Rows, seeds: seq<ChunkId>, whole: bool, document: DocId, wanted: set<ChunkId>,
                    rows: seq<ChunkId>, limit: nat, added: nat, room: int)
    requires forall id :: id in wanted <==> Wanted(table, seeds, whole, document, id)
    requires wanted <= table.Keys && FirstInOrder(table, rows, wanted) && NoDuplicates(rows)
    requires |rows| <= limit + 1 && (|rows| < limit + 1 ==> forall id :: id in wanted ==> id in rows)
    requires added <= |rows| && added <= limit
    requires added < |rows| && added < limit ==> rows[added] in table && table[rows[added]].size > room
    ensures StartsPart(table, seeds, whole, document, limit, rows[..added])
    ensures if added < |rows| && added < limit
            then Overflows(table, seeds, whole, document, limit, rows[..added], room)
            else IsWhole(table, seeds, whole, document, limit, rows[..added])
  {
    hide Wanted;
    var part := rows[..added];
    assert forall i :: 0 <= i < added ==> part[i] in rows && part[i] == rows[i];
    assert forall i :: 0 <= i < added ==> rows[i] in part;
    forall i, id | 0 <= i < |part| && id in wanted && id !in part
      ensures IsEarlier(table, part[i], id)
    {
      if id in rows {
        var j :| 0 <= j < |rows| && rows[j] == id;
      }
    }
    if added < |rows| && added < limit {
      var next := rows[added];
      assert next in rows && next !in part;
      forall id | id in wanted && id !in part && id != next
        ensures IsEarlier(table, next, id)
      {
        if id in rows {
          var j :| 0 <= j < |rows| && rows[j] == id;
        }
      }
      assert IsNext(table, seeds, whole, document, part, next);
    } else if added < limit {
      assert part == rows;
    }
  }

  lemma NothingGathered(table: Rows, seeds: seq<ChunkId>, bounds: Bounds, whole: bool)
    requires bounds.chunks >= 1
    ensures Gathered(table, seeds, bounds, whole, [], [], [], false)
  {
  }

  lemma GatherPart(table: Rows, seeds: seq<ChunkId>, bounds: Bounds, whole: bool, visited: seq<DocId>,
                   parts: seq<seq<ChunkId>>, before: seq<ChunkId>, document: DocId, part: seq<ChunkId>, full: bool)
    requires bounds.chunks >= 1 && Gathered(table, seeds, bounds, whole, visited, parts, before, false)
    requires StartsPart(table, seeds, whole, document, bounds.chunks, part)
    requires if full then Overflows(table, seeds, whole, document, bounds.chunks, part,
                                    bounds.chars - SizeOf(table, before + part))
             else IsWhole(table, seeds, whole, document, bounds.chunks, part)
    ensures Gathered(table, seeds, bounds, whole, visited + [document], parts + [part], before + part, full)
  {
    hide StartsPart, Overflows, IsWhole, SizeOf;
    assert (parts + [part])[..|parts|] == parts;
  }

  lemma GatheredEnds(table: Rows, seeds: seq<ChunkId>, bounds: Bounds, whole: bool, selected: seq<DocId>, d: nat,
                     parts: seq<seq<ChunkId>>, result: seq<ChunkId>, full: bool)
    requires bounds.chunks >= 1 && d <= |selected| && (d == |selected| || full)
    requires Gathered(table, seeds, bounds, whole, selected[..d], parts, result, full)
    ensures Gathered(table, seeds, bounds, whole, selected, parts, result, full)
  {
    hide StartsPart, Overflows, IsWhole, SizeOf;
  }

  ghost predicate Collected(table: Rows, seeds: seq<ChunkId>, whole: bool, documents: seq<DocId>,
                            result: seq<ChunkId>) {
    && NoDuplicates(result)
    && (forall id :: id in result ==> Asked(table, seeds, whole, id) && table[id].document in documents)
  }

  ghost predicate Complete(table: Rows, seeds: seq<ChunkId>, whole: bool, documents: seq<DocId>, result: seq<ChunkId>) {
    forall id :: Asked(table, seeds, whole, id) && table[id].document in documents ==> id in result
  }

  /** Something asked for in one of the documents is not in the result. */
  ghost predicate MissingIn(table: Rows, seeds: seq<ChunkId>, whole: bool, documents: seq<DocId>,
                            result: seq<ChunkId>) {
    exists id :: Asked(table, seeds, whole, id) && table[id].document in documents && id !in result
  }

  lemma EmptyHasNoSize(table: Rows)
    ensures SizeOf(table, []) == 0 && NoDuplicates<ChunkId>([])
  {
  }

  lemma NothingCollected(table: Rows, seeds: seq<ChunkId>, whole: bool)
    ensures Collected(table, seeds, whole, [], []) && Complete(table, seeds, whole, [], [])
  {
  }

  lemma NextDocument(all: seq<DocId>, selected: seq<DocId>, d: nat)
    requires NoDuplicates(all) && d < |selected| <= |all| && selected == all[..|selected|]
    ensures selected[d] !in selected[..d] && selected[d] in all
  {
  }

  /** The rows of a document not yet visited are new. */
  lemma RowsAreNew(table: Rows, seeds: seq<ChunkId>, whole: bool, documents: seq<DocId>, result: seq<ChunkId>,
                   document: DocId, rows: seq<ChunkId>, wanted: set<ChunkId>, taken: seq<ChunkId>)
    requires Collected(table, seeds, whole, documents, result) && document !in documents
    requires forall id :: id in wanted <==> Wanted(table, seeds, whole, document, id)
    requires wanted <= table.Keys && FirstInOrder(table, rows, wanted) && NoDuplicates(rows)
    requires taken <= rows
    ensures NoDuplicates(taken) && forall id :: id in taken ==> id in wanted && id in table && id !in result
    ensures |taken| < |rows| ==> exists id :: id in wanted && id !in taken
  {
    forall id | id in taken ensures id in rows {
      var i :| 0 <= i < |taken| && taken[i] == id;
      assert rows[i] == id;
    }
    if |taken| < |rows| {
      assert rows[|taken|] in rows && rows[|taken|] !in taken;
    }
  }

  /** One more document visited, of whose rows the first `added` were taken. */
  lemma AddDocument(table: Rows, seeds: seq<ChunkId>, whole: bool, documents: seq<DocId>, before: seq<ChunkId>,
                    document: DocId, wanted: set<ChunkId>, taken: seq<ChunkId>, added: nat)
    requires Collected(table, seeds, whole, documents, before) && Seeded(table, seeds, document) && document !in documents
    requires forall id :: id in wanted <==> Wanted(table, seeds, whole, document, id)
    requires NoDuplicates(taken) && added <= |taken| && forall id :: id in taken ==> id in wanted && id !in before
    ensures var result, visited := before + taken[..added], documents + [document];
      && Collected(table, seeds, whole, visited, result)
      && (Complete(table, seeds, whole, documents, before) && added == |taken| && (forall id :: id in wanted ==> id in taken)
          ==> Complete(table, seeds, whole, visited, result))
      && (added < |taken| || (exists id :: id in wanted && id !in taken) || MissingIn(table, seeds, whole, documents, before)
          ==> MissingIn(table, seeds, whole, visited, result))
  {
    var result, visited := before + taken[..added], documents + [document];
    assert forall id :: id in taken[..added] ==> id in taken;
    forall i, j | 0 <= i < j < |result| ensures result[i] != result[j] {
      if |before| <= j {
        assert result[j] == taken[j - |before|];
        assert result[j] in taken;
        if i < |before| {
          assert result[i] in before;
        }
      }
    }
    assert forall id :: id in wanted ==> Asked(table, seeds, whole, id) && table[id].document == document;
    if added == |taken| {
      assert taken[..added] == taken;
    } else {
      assert taken[added] in taken && taken[added] !in taken[..added];
    }
    if MissingIn(table, seeds, whole, documents, before) {
      var id :| Asked(table, seeds, whole, id) && table[id].document in documents && id !in before;
      assert id !in result && table[id].document in visited;
    }
    if id :| id in wanted && id !in taken {
      assert id !in result && table[id].document in visited;
    }
  }

  lemma Finished(table: Rows, seeds: seq<ChunkId>, whole: bool, all: seq<DocId>, visited: seq<DocId>,
                 result: seq<ChunkId>)
    requires Collected(table, seeds, whole, visited, result)
    requires forall d :: d in all <==> Seeded(table, seeds, d)
    ensures NoDuplicates(result) && forall id :: id in result ==> Asked(table, seeds, whole, id)
    ensures visited == all && Complete(table, seeds, whole, all, result) ==>
      forall id :: Asked(table, seeds, whole, id) ==> id in result
    ensures MissingIn(table, seeds, whole, visited, result) ==> exists id :: Asked(table, seeds, whole, id) && id !in result
  {
  }
}
