/** Graph expansion: raw graph paths are kept only with current evidence for every assertion. */
module GraphRetrieval {
  import opened Options
  import opened Fusion

  /** A hydrated chunk; `anchor` marks a structural anchor, `navigation` an index document. */
  datatype Item = Item(id: Id, semantic: Option<real>, anchor: bool, document: nat, navigation: bool)

  datatype Relationship = Relationship(assertion: Id, subject: Id, target: Id, chunk: Id)

  /** A path as the graph returns it; an id that does not parse is None. */
  datatype RawPath = RawPath(assertions: seq<Option<Id>>, entities: seq<Option<Id>>, hops: int)

  datatype Path = Path(entities: seq<Id>, assertions: seq<Id>, chunks: seq<Id>, hops: int)

  /** The currently valid assertions with the chunk each was found in. */
  type Evidence = map<Id, (Relationship, Item)>

  datatype Expansion = Expansion(relationships: map<Id, Relationship>, paths: seq<Path>, sources: seq<Item>,
                                 entityChunks: seq<Id>, anchored: bool, truncated: bool)

  ghost predicate EvidenceOk(evidence: Evidence) {
    forall a :: a in evidence ==> evidence[a].0.assertion == a && evidence[a].0.chunk == evidence[a].1.id
  }

  ghost predicate Distinct(items: seq<Item>) {
    forall i, j :: 0 <= i < j < |items| ==> items[i].id != items[j].id
  }

  predicate HasId(items: seq<Item>, id: Id) {
    exists i :: 0 <= i < |items| && items[i].id == id
  }

  // ---------- Specification ----------

  function Parsed(ids: seq<Option<Id>>): (r: seq<Id>)
    ensures |r| <= |ids|
  {
    if ids == [] then []
    else
      var rest := Parsed(ids[..|ids| - 1]);
      if ids[|ids| - 1].Some? then rest + [ids[|ids| - 1].value] else rest
  }

  predicate IsCurrent(row: RawPath, evidence: Evidence) {
    var assertions := Parsed(row.assertions);
    assertions != [] && |assertions| == row.hops && forall i :: 0 <= i < |assertions| ==> assertions[i] in evidence
  }

  /** The chunks of the assertions, each once, in order. */
  function ChunksOf(assertions: seq<Id>, evidence: Evidence): (r: seq<Id>)
    requires forall i :: 0 <= i < |assertions| ==> assertions[i] in evidence
    ensures forall i :: 0 <= i < |assertions| ==> evidence[assertions[i]].1.id in r
    ensures forall c :: c in r ==> exists i :: 0 <= i < |assertions| && evidence[assertions[i]].1.id == c
  {
    if assertions == [] then []
    else
      var rest := ChunksOf(assertions[..|assertions| - 1], evidence);
      var chunk := evidence[assertions[|assertions| - 1]].1.id;
      if chunk in rest then rest else rest + [chunk]
  }

  function PathOf(row: RawPath, evidence: Evidence): Path
    requires IsCurrent(row, evidence)
  {
    var assertions := Parsed(row.assertions);
    Path(Parsed(row.entities), assertions, ChunksOf(assertions, evidence), row.hops)
  }

  /** The current paths in order. */
  function PathsOf(rows: seq<RawPath>, evidence: Evidence): (r: seq<Path>)
    ensures |r| <= |rows|
  {
    if rows == [] then []
    else
      var rest := PathsOf(rows[..|rows| - 1], evidence);
      var row := rows[|rows| - 1];
      if IsCurrent(row, evidence) then rest + [PathOf(row, evidence)] else rest
  }

  /** A path's assertions are relationships and their chunks are the path's, which are all sources. */
  ghost predicate Closed(path: Path, relationships: map<Id, Relationship>, sources: seq<Item>) {
    && path.assertions != [] && path.hops == |path.assertions|
    && (forall i :: 0 <= i < |path.assertions| ==>
          && path.assertions[i] in relationships
          && relationships[path.assertions[i]].chunk in path.chunks)
    && (forall c :: c in path.chunks ==> HasId(sources, c))
  }

  ghost predicate Provenance(expansion: Expansion) {
    && Distinct(expansion.sources)
    && (forall a :: a in expansion.relationships ==>
          expansion.relationships[a].assertion == a && HasId(expansion.sources, expansion.relationships[a].chunk))
    && (forall i :: 0 <= i < |expansion.paths| ==> Closed(expansion.paths[i], expansion.relationships, expansion.sources))
  }

  // ---------- The enricher ----------

  /** Like setting a dictionary entry: a new id goes last, a known one keeps its place. */
  method PutItem(items: seq<Item>, item: Item) returns (r: seq<Item>)
    requires Distinct(items)
    ensures Distinct(r) && HasId(r, item.id)
    ensures forall id :: HasId(r, id) <==> HasId(items, id) || id == item.id
    ensures forall j :: 0 <= j < |r| ==> r[j] == item || (r[j] in items && r[j].id != item.id)
  {
    for i := 0 to |items|
      invariant forall j :: 0 <= j < i ==> items[j].id != item.id
    {
      if items[i].id == item.id {
        r := items[i := item];
        assert r[i].id == item.id;
        forall id ensures HasId(r, id) <==> HasId(items, id) {
          if j :| 0 <= j < |items| && items[j].id == id {
            assert r[j].id == id;
          }
          if j :| 0 <= j < |r| && r[j].id == id {
            assert items[j].id == id;
          }
        }
        return;
      }
    }
    r := items + [item];
    assert r[|items|].id == item.id;
    forall id ensures HasId(r, id) <==> HasId(items, id) || id == item.id {
      if j :| 0 <= j < |items| && items[j].id == id {
        assert r[j].id == id;
      }
      if j :| 0 <= j < |r| && r[j].id == id {
        assert j < |items| ==> items[j].id == id;
      }
    }
  }

  class GraphRetrievalEnricher {
    const maxPaths: nat

    constructor (maxPaths: nat)
      ensures this.maxPaths == maxPaths
    {
      this.maxPaths := maxPaths;
    }

    method ParseIds(ids: seq<Option<Id>>) returns (values: seq<Id>)
      ensures values == Parsed(ids)
    {
      values := [];
      for i := 0 to |ids|
        invariant values == Parsed(ids[..i])
      {
        assert ids[..i + 1][..i] == ids[..i];
        if ids[i].None? {
          continue;
        }
        values := values + [ids[i].value];
      }
      assert ids[..|ids|] == ids;
    }

    /** Records the evidence of one current path. */
    method AddPath(assertions: seq<Id>, evidence: Evidence, relationships: map<Id, Relationship>, sources: seq<Item>)
      returns (moreRelationships: map<Id, Relationship>, moreSources: seq<Item>, chunks: seq<Id>)
      requires EvidenceOk(evidence) && Backed(relationships, sources, evidence)
      requires forall i :: 0 <= i < |assertions| ==> assertions[i] in evidence
      ensures chunks == ChunksOf(assertions, evidence)
      ensures Backed(moreRelationships, moreSources, evidence)
      ensures Grown(relationships, sources, moreRelationships, moreSources)
      ensures Covered(assertions, chunks, moreRelationships, moreSources)
    {
      hide Backed, Grown, Covered;
      moreRelationships, moreSources, chunks := relationships, sources, [];
      NothingAdded(relationships, sources);
      for i := 0 to |assertions|
        invariant chunks == ChunksOf(assertions[..i], evidence)
        invariant Backed(moreRelationships, moreSources, evidence)
        invariant Grown(relationships, sources, moreRelationships, moreSources)
        invariant Covered(assertions[..i], chunks, moreRelationships, moreSources)
      {
        assert assertions[..i + 1] == assertions[..i] + [assertions[i]];
        assert assertions[..i + 1][..i] == assertions[..i];
        var relationship, chunk := evidence[assertions[i]].0, evidence[assertions[i]].1;
        BackedIsDistinct(moreRelationships, moreSources, evidence);
        var put := PutItem(moreSources, chunk);
        OneMoreAssertion(relationships, sources, evidence, assertions[..i], assertions[i], chunks,
                         moreRelationships, moreSources, put);
        moreRelationships := moreRelationships[assertions[i] := relationship];
        moreSources := put;
        if chunk.id !in chunks {
          chunks := chunks + [chunk.id];
        }
      }
      assert assertions[..|assertions|] == assertions;
    }

    /** A path whose assertions all have current evidence, and whose length is as the graph says. */
    method ReadPath(row: RawPath, evidence: Evidence) returns (current: bool, assertions: seq<Id>, entities: seq<Id>)
      ensures current <==> IsCurrent(row, evidence)
      ensures assertions == Parsed(row.assertions) && entities == Parsed(row.entities)
    {
      assertions := ParseIds(row.assertions);
      entities := ParseIds(row.entities);
      current := assertions != [] && |assertions| == row.hops
        && forall j :: 0 <= j < |assertions| ==> assertions[j] in evidence;
    }

    /**
     Expands the entity seeds. Every path that is kept is current and has its assertions and their
     chunks among what is returned; a failing graph leaves the seeds' chunks.
     */
    method Expand(anchored: bool, entityChunks: seq<Id>, seedChunks: seq<Item>, raw: Option<seq<RawPath>>,
                  evidence: Evidence)
      returns (expansion: Expansion)
      requires EvidenceOk(evidence) && Distinct(seedChunks)
      ensures Provenance(expansion) && expansion.anchored == anchored
      ensures !anchored ==> expansion == Expansion(map[], [], [], [], false, false)
      ensures anchored && raw.None? ==> expansion.paths == [] && expansion.sources == seedChunks
      ensures anchored && raw.Some? ==>
        && expansion.paths == PathsOf(if |raw.value| > maxPaths then raw.value[..maxPaths] else raw.value, evidence)
        && (expansion.truncated <==> |raw.value| > maxPaths)
    {
      if !anchored {
        return Expansion(map[], [], [], [], false, false);
      }
      if raw.None? {
        return Expansion(map[], [], seedChunks, entityChunks, true, false);
      }
      hide Backed, Grown, Covered, AllClosed, IsCurrent, EvidenceOk;
      var rows := if |raw.value| > maxPaths then raw.value[..maxPaths] else raw.value;
      var relationships: map<Id, Relationship>, sources, paths := map[], seedChunks, [];
      NothingBacked(seedChunks, evidence);
      for i := 0 to |rows|
        invariant paths == PathsOf(rows[..i], evidence)
        invariant Backed(relationships, sources, evidence) && AllClosed(paths, relationships, sources)
      {
        assert rows[..i + 1][..i] == rows[..i];
        var current, assertions, entities := ReadPath(rows[i], evidence);
        if !current {
          continue;
        }
        CurrentHasEvidence(rows[i], evidence);
        ghost var oldRelationships, oldSources := relationships, sources;
        var chunks;
        relationships, sources, chunks := AddPath(assertions, evidence, relationships, sources);
        var path := Path(entities, assertions, chunks, rows[i].hops);
        OneMorePath(paths, path, oldRelationships, oldSources, relationships, sources, evidence);
        paths := paths + [path];
      }
      assert rows[..|rows|] == rows;
      expansion := Expansion(relationships, paths, sources, entityChunks, true, |raw.value| > maxPaths);
      BackedIsProvenance(expansion, evidence);
    }
  }

  /** Relationships are current evidence and their chunks are sources. */
  ghost predicate Backed(relationships: map<Id, Relationship>, sources: seq<Item>, evidence: Evidence) {
    && Distinct(sources)
    && (forall a :: a in relationships ==>
          a in evidence && relationships[a] == evidence[a].0 && HasId(sources, relationships[a].chunk))
  }

  ghost predicate Grown(relationships: map<Id, Relationship>, sources: seq<Item>,
                        moreRelationships: map<Id, Relationship>, moreSources: seq<Item>) {
    && (forall a :: a in relationships ==> a in moreRelationships && moreRelationships[a] == relationships[a])
    && (forall id :: HasId(sources, id) ==> HasId(moreSources, id))
  }

  ghost predicate Covered(assertions: seq<Id>, chunks: seq<Id>, relationships: map<Id, Relationship>,
                          sources: seq<Item>) {
    && (forall a :: a in assertions ==> a in relationships && relationships[a].chunk in chunks)
    && (forall c :: c in chunks ==> HasId(sources, c))
  }

  ghost predicate AllClosed(paths: seq<Path>, relationships: map<Id, Relationship>, sources: seq<Item>) {
    forall p :: 0 <= p < |paths| ==> Closed(paths[p], relationships, sources)
  }

  lemma NothingAdded(relationships: map<Id, Relationship>, sources: seq<Item>)
    ensures Grown(relationships, sources, relationships, sources) && Covered([], [], relationships, sources)
  {
  }

  lemma NothingBacked(sources: seq<Item>, evidence: Evidence)
    requires Distinct(sources)
    ensures Backed(map[], sources, evidence) && AllClosed([], map[], sources)
  {
  }

  lemma BackedIsDistinct(relationships: map<Id, Relationship>, sources: seq<Item>, evidence: Evidence)
    requires Backed(relationships, sources, evidence)
    ensures Distinct(sources)
  {
  }

  lemma CurrentHasEvidence(row: RawPath, evidence: Evidence)
    requires IsCurrent(row, evidence)
    ensures forall i :: 0 <= i < |Parsed(row.assertions)| ==> Parsed(row.assertions)[i] in evidence
    ensures Parsed(row.assertions) != [] && |Parsed(row.assertions)| == row.hops
  {
  }

  lemma OneMoreAssertion(relationships: map<Id, Relationship>, sources: seq<Item>, evidence: Evidence,
                         assertions: seq<Id>, a: Id, chunks: seq<Id>, now: map<Id, Relationship>, nowSources: seq<Item>,
                         put: seq<Item>)
    requires EvidenceOk(evidence) && a in evidence && Backed(now, nowSources, evidence)
    requires Grown(relationships, sources, now, nowSources) && Covered(assertions, chunks, now, nowSources)
    requires Backed(relationships, sources, evidence)
    requires Distinct(put) && forall id :: HasId(put, id) <==> HasId(nowSources, id) || id == evidence[a].1.id
    ensures var next, chunk := now[a := evidence[a].0], evidence[a].1.id;
      && Backed(next, put, evidence) && Grown(relationships, sources, next, put)
      && Covered(assertions + [a], if chunk in chunks then chunks else chunks + [chunk], next, put)
  {
    hide HasId, Distinct;
  }

  lemma OneMorePath(paths: seq<Path>, path: Path, relationships: map<Id, Relationship>, sources: seq<Item>,
                    moreRelationships: map<Id, Relationship>, moreSources: seq<Item>, evidence: Evidence)
    requires AllClosed(paths, relationships, sources)
    requires Grown(relationships, sources, moreRelationships, moreSources)
    requires path.assertions != [] && path.hops == |path.assertions|
    requires Covered(path.assertions, path.chunks, moreRelationships, moreSources)
    ensures AllClosed(paths + [path], moreRelationships, moreSources)
  {
    hide HasId;
    forall p | 0 <= p < |paths| ensures Closed(paths[p], moreRelationships, moreSources) {
      assert Closed(paths[p], relationships, sources);
    }
  }

  lemma BackedIsProvenance(expansion: Expansion, evidence: Evidence)
    requires EvidenceOk(evidence) && Backed(expansion.relationships, expansion.sources, evidence)
    requires AllClosed(expansion.paths, expansion.relationships, expansion.sources)
    ensures Provenance(expansion)
  {
    hide HasId, Distinct, Closed;
  }
}
