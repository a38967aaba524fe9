/**
 The retrieval pipeline between its searches and its answer: ranking what is admissible, returning the best of it, and
 showing the graph evidence that rests on what is returned.
 */
module Phase5Retrieval {
  import opened Collections
  import opened Fusion
  import opened GraphRetrieval
  import opened RetrievalChannels

  datatype Claim = Claim(id: Id, chunk: Id)

  datatype Strategy = KeywordOnly | SemanticOnly | Mixed

  /** A document context comes with a mark whether it was cut short. */
  datatype Contexts = Contexts(document: (seq<Id>, bool) -> (seq<Item>, bool), section: seq<Id> -> seq<Item>)

  datatype Answer = Answer(chunks: seq<Item>, context: seq<Item>, relationships: map<Id, Relationship>,
                           paths: seq<Path>, claims: seq<Claim>, truncated: bool)

  // ---------- Ranking ----------

  /** The admissible ids by falling sum of their shares in all channels, and then by id. */
  ghost predicate FusedRanking(hits: Hits, k: nat, ids: seq<Id>) {
    exists scores: map<Id, real> :: FusedScores(hits, k, scores) && Ranking(scores, ids)
  }

  ghost predicate FusedScores(hits: Hits, k: nat, scores: map<Id, real>) {
    && (forall id :: id in scores <==> Admissible(hits, id))
    && (forall id :: id in scores ==> scores[id] == Score(AdmittedLists(hits, NAMES), k, id))
  }

  /** Only this channel has admissible hits. */
  ghost predicate IsOnly(hits: Hits, name: ChannelName) {
    && Admitted(hits, FoundBy(hits, name)) != []
    && forall other :: other != name ==> Admitted(hits, FoundBy(hits, other)) == []
  }

  /** A single search is taken in its own order; so is a single channel; several are fused. */
  ghost predicate InRankOrder(strategy: Strategy, hits: Hits, k: nat, ids: seq<Id>) {
    match strategy
    case KeywordOnly => ids == Ids(hits.keyword)
    case SemanticOnly => ids == Ids(hits.semantic)
    case Mixed =>
      if exists name :: IsOnly(hits, name)
      then exists name :: IsOnly(hits, name) && ids == Admitted(hits, FoundBy(hits, name))
      else FusedRanking(hits, k, ids)
  }

  /** Looking up every ranked id needs it in the chunk map. */
  method LookUp(ids: seq<Id>, chunks: Chunks) returns (items: seq<Item>)
    requires Keyed(chunks) && forall id :: id in ids ==> id in chunks
    ensures |items| == |ids| && forall i :: 0 <= i < |ids| ==> items[i].id == ids[i] && items[i] == chunks[ids[i]]
  {
    items := [];
    for i := 0 to |ids|
      invariant |items| == i && forall j :: 0 <= j < i ==> items[j].id == ids[j] && items[j] == chunks[ids[j]]
    {
      assert ids[i] in ids;
      items := items + [chunks[ids[i]]];
    }
  }

  /**
   Where no search repeats a hit, which they never do, the mixed strategy always ranks by fused score, with one channel as
   with several.
   */
  lemma MixedIsRanked(hits: Hits, k: nat, ids: seq<Id>)
    requires Distinct(hits.keyword) && Distinct(hits.semantic) && Distinct(hits.claimChunks)
    requires Distinct(hits.expansion.sources) && InRankOrder(Mixed, hits, k, ids)
    ensures FusedRanking(hits, k, ids)
  {
    hide FusedRanking, Distinct, IsOnly;
    if name :| IsOnly(hits, name) && ids == Admitted(hits, FoundBy(hits, name)) {
      NoneTwice(hits, name);
      OnlyIsRanked(hits, k, name);
    }
  }

  lemma NoneTwice(hits: Hits, name: ChannelName)
    requires Distinct(hits.keyword) && Distinct(hits.semantic) && Distinct(hits.claimChunks)
    requires Distinct(hits.expansion.sources)
    ensures NoDuplicates(Admitted(hits, FoundBy(hits, name)))
  {
    assert NoDuplicates(FoundBy(hits, name));
    AdmittedOnce(hits, FoundBy(hits, name));
  }

  lemma {:induction false} AdmittedOnce(hits: Hits, ids: seq<Id>)
    requires NoDuplicates(ids)
    ensures NoDuplicates(Admitted(hits, ids))
  {
    hide Admissible;
    if ids != [] {
      AdmittedOnce(hits, ids[..|ids| - 1]);
    }
  }

  /** A lone channel without repetitions is in the order of its shares. */
  lemma OnlyIsRanked(hits: Hits, k: nat, name: ChannelName)
    requires IsOnly(hits, name) && NoDuplicates(Admitted(hits, FoundBy(hits, name)))
    ensures FusedRanking(hits, k, Admitted(hits, FoundBy(hits, name)))
  {
    hide Admitted, FoundBy, Admissible, Score, Share, NoDuplicates, AdmittedLists, IsOnly, Ranking;
    var ids := Admitted(hits, FoundBy(hits, name));
    var scores := map id | id in ids :: Score(AdmittedLists(hits, NAMES), k, id);
    OnlyIds(hits, name);
    forall i | 0 <= i < |ids|
      ensures scores[ids[i]] == Share(k, i)
    {
      OnlyShare(hits, k, name, i);
    }
    SharesRank(scores, ids, k);
    assert FusedScores(hits, k, scores);
  }

  lemma OnlyIds(hits: Hits, name: ChannelName)
    requires IsOnly(hits, name)
    ensures forall id :: id in Admitted(hits, FoundBy(hits, name)) <==> Admissible(hits, id)
  {
    hide Admitted, FoundBy, Admissible;
    forall id ensures id in Admitted(hits, FoundBy(hits, name)) <==> Admissible(hits, id) {
      AdmissibleIsListed(hits, id);
      AllNames(name);
    }
  }

  lemma OnlyShare(hits: Hits, k: nat, name: ChannelName, i: nat)
    requires IsOnly(hits, name) && NoDuplicates(Admitted(hits, FoundBy(hits, name)))
    requires i < |Admitted(hits, FoundBy(hits, name))|
    ensures Score(AdmittedLists(hits, NAMES), k, Admitted(hits, FoundBy(hits, name))[i]) == Share(k, i)
  {
    assert NoDuplicates(NAMES);
    AllNames(name);
    hide Admitted, FoundBy, Score, Contribution, Share, NoDuplicates, IsOnly, AdmittedLists;
    var ids := Admitted(hits, FoundBy(hits, name));
    OnlyScore(hits, k, NAMES, name, ids[i]);
    ContributionAt(ids, k, i);
  }

  lemma SharesRank(scores: map<Id, real>, ids: seq<Id>, k: nat)
    requires forall id :: id in ids <==> id in scores
    requires forall i :: 0 <= i < |ids| ==> scores[ids[i]] == Share(k, i)
    ensures Ranking(scores, ids)
  {
    hide Share;
    forall i, j | 0 <= i < j < |ids|
      ensures Fusion.Before(scores, ids[i], ids[j])
    {
      ShareFallsStrictly(k, i, j);
    }
  }

  lemma {:induction false} OnlyScore(hits: Hits, k: nat, names: seq<ChannelName>, name: ChannelName, id: Id)
    requires IsOnly(hits, name) && NoDuplicates(names)
    ensures Score(AdmittedLists(hits, names), k, id)
      == if name in names then Contribution(Admitted(hits, FoundBy(hits, name)), k, id) else 0.0
  {
    hide Admitted, FoundBy, Contribution;
    if names != [] {
      var rest, last := names[..|names| - 1], names[|names| - 1];
      OnlyScore(hits, k, rest, name, id);
      AbsentContributesNothing([], k, id);
      var all := AdmittedLists(hits, names);
      assert all[..|all| - 1] == AdmittedLists(hits, rest);
      assert last !in rest;
    }
  }

  lemma ShareFallsStrictly(k: nat, r: nat, s: nat)
    requires r < s
    ensures Share(k, r) > Share(k, s)
  {
    var x, y := (k + r + 1) as real, (k + s + 1) as real;
    var p, q := 1.0 / x, 1.0 / y;
    assert p * x == 1.0 && q * y == 1.0 && x < y;
    ShareFalls(k, r, s);
    if p == q {
      assert p * x < p * y;
    }
  }

  method Rank(strategy: Strategy, hits: Hits, channels: Channels, chunks: Chunks, k: nat) returns (ranked: seq<Item>)
    requires ChannelsHold(channels, hits) && ChunksHold(chunks, hits)
    ensures InRankOrder(strategy, hits, k, Ids(ranked))
    ensures strategy == KeywordOnly ==> ranked == hits.keyword
    ensures strategy == SemanticOnly ==> ranked == hits.semantic
    ensures strategy == Mixed ==> forall id :: HasId(ranked, id) <==> Admissible(hits, id)
    ensures strategy == Mixed ==> forall i :: 0 <= i < |ranked| ==> StandsFor(hits, ranked[i])
  {
    if strategy == KeywordOnly {
      return hits.keyword;
    }
    if strategy == SemanticOnly {
      return hits.semantic;
    }
    hide HasId, IsOnly, ChannelsHold, Admissible, StandsFor, FusedRanking, Admitted, FoundBy;
    ghost var _ := Ids([]);
    if channels == map[] {
      NoChannels(hits, channels, k);
      return [];
    }
    if |channels| == 1 {
      var name :| name in channels;
      OnlyChannel(hits, channels, name);
      ranked := LookUp(channels[name], chunks);
      IdsOf(ranked, channels[name]);
      return;
    }
    SeveralChannels(hits, channels);
    ranked := Fuse(hits, channels, chunks, k);
  }

  method Fuse(hits: Hits, channels: Channels, chunks: Chunks, k: nat) returns (ranked: seq<Item>)
    requires ChannelsHold(channels, hits) && ChunksHold(chunks, hits)
    ensures FusedRanking(hits, k, Ids(ranked))
    ensures forall id :: HasId(ranked, id) <==> Admissible(hits, id)
    ensures forall i :: 0 <= i < |ranked| ==> StandsFor(hits, ranked[i])
  {
    hide Listed, Union, Score, HasId, Ranking, ChannelsHold, Admissible, StandsFor, Ids;
    var lists := ListChannels(channels);
    var scores := ReciprocalRankFusion(lists, k);
    var ids := SortByScore(scores);
    RankedIds(scores, ids);
    forall id
      ensures id in scores <==> Admissible(hits, id)
      ensures Score(lists, k, id) == Score(AdmittedLists(hits, NAMES), k, id)
    {
      SameScores(channels, hits, NAMES, k, id);
      ListedIds(channels, hits, NAMES, id);
      AdmissibleIsListed(hits, id);
    }
    ranked := LookUp(ids, chunks);
    IdsOf(ranked, ids);
    assert FusedScores(hits, k, scores);
  }

  lemma NoChannels(hits: Hits, channels: Channels, k: nat)
    requires ChannelsHold(channels, hits) && channels == map[]
    ensures InRankOrder(Mixed, hits, k, Ids([])) && forall id :: !HasId([], id) && !Admissible(hits, id)
  {
    forall name ensures Admitted(hits, FoundBy(hits, name)) == [] {
      assert ChannelHolds(channels, hits, name);
    }
    forall id ensures !Admissible(hits, id) {
      AdmissibleIsListed(hits, id);
    }
    hide Admissible, Admitted, FoundBy;
    var scores: map<Id, real> := map[];
    assert FusedScores(hits, k, scores) && Ranking(scores, Ids([]));
  }

  lemma OnlyChannel(hits: Hits, channels: Channels, name: ChannelName)
    requires ChannelsHold(channels, hits) && |channels| == 1 && name in channels
    ensures IsOnly(hits, name) && channels[name] == Admitted(hits, FoundBy(hits, name))
    ensures forall id :: id in channels[name] <==> Admissible(hits, id)
  {
    hide Admitted, FoundBy, Admissible;
    assert ChannelHolds(channels, hits, name);
    forall other | other != name ensures Admitted(hits, FoundBy(hits, other)) == [] {
      assert ChannelHolds(channels, hits, other);
      if other in channels {
        assert {other, name} <= channels.Keys;
        SubsetSize({other, name}, channels.Keys);
      }
    }
    forall id ensures id in channels[name] <==> Admissible(hits, id) {
      AdmissibleIsListed(hits, id);
      AllNames(name);
    }
  }

  lemma SeveralChannels(hits: Hits, channels: Channels)
    requires ChannelsHold(channels, hits) && |channels| > 1
    ensures forall name :: !IsOnly(hits, name)
  {
    hide Admitted, FoundBy;
    forall name ensures !IsOnly(hits, name) {
      assert ChannelHolds(channels, hits, name);
      if IsOnly(hits, name) {
        forall other | other in channels ensures other == name {
          assert ChannelHolds(channels, hits, other);
        }
        SubsetSize(channels.Keys, {name});
      }
    }
  }

  lemma RankedIds(scores: map<Id, real>, ids: seq<Id>)
    requires Ranking(scores, ids)
    ensures forall id :: id in ids <==> id in scores
  {
  }

  lemma IdsOf(items: seq<Item>, ids: seq<Id>)
    requires |items| == |ids| && forall i :: 0 <= i < |ids| ==> items[i].id == ids[i]
    ensures Ids(items) == ids && forall id :: HasId(items, id) <==> id in ids
  {
  }

  /** The seed chunks of a graph expansion, in fused order of the two searches. */
  method RankSeedChunks(keyword: seq<Item>, semantic: seq<Item>, k: nat) returns (ranked: seq<Item>)
    ensures forall id :: HasId(ranked, id) <==> HasId(keyword, id) || HasId(semantic, id)
    ensures exists scores: map<Id, real> ::
      && scores.Keys == Union([Ids(keyword), Ids(semantic)])
      && (forall id :: id in scores ==> scores[id] == Score([Ids(keyword), Ids(semantic)], k, id))
      && Ranking(scores, Ids(ranked))
  {
    hide Score, Union;
    var first := PutAll(map[], keyword, false);
    var chunks := PutAll(first, semantic, false);
    var lists := [Ids(keyword), Ids(semantic)];
    var scores := ReciprocalRankFusion(lists, k);
    var ids := SortByScore(scores);
    forall id
      ensures id in Union(lists) <==> id in Ids(keyword) || id in Ids(semantic)
      ensures id in chunks <==> id in Ids(keyword) || id in Ids(semantic)
    {
      UnionOfTwo(Ids(keyword), Ids(semantic), id);
      assert AddedAt(map[], keyword, false, first, id) && AddedAt(first, semantic, false, chunks, id);
    }
    ranked := LookUp(ids, chunks);
    IdsOf(ranked, ids);
  }

  lemma UnionOfTwo(a: seq<Id>, b: seq<Id>, id: Id)
    ensures id in Union([a, b]) <==> id in a || id in b
  {
    var lists := [a, b];
    if id in a {
      var r :| 0 <= r < |a| && a[r] == id;
      assert lists[0][r] == id;
    }
    if id in b {
      var r :| 0 <= r < |b| && b[r] == id;
      assert lists[1][r] == id;
    }
  }

  // ---------- The answer ----------

  ghost predicate Returned(answer: Answer, id: Id) {
    HasId(answer.chunks, id) || HasId(answer.context, id)
  }

  /** Everything shown rests on returned chunks, and nothing that does is withheld. */
  ghost predicate Grounded(answer: Answer, expansion: Expansion, claims: seq<Claim>) {
    && (forall a :: a in answer.relationships <==>
          a in expansion.relationships && Returned(answer, expansion.relationships[a].chunk))
    && (forall a :: a in answer.relationships ==> answer.relationships[a] == expansion.relationships[a])
    && (forall p :: p in answer.paths <==>
          p in expansion.paths && p.chunks != [] && forall c :: c in p.chunks ==> Returned(answer, c))
    && (forall c :: c in answer.claims <==> c in claims && Returned(answer, c.chunk))
  }

  /** A shown path has all its assertions among the shown relationships, on returned chunks. */
  lemma ShownPathsAreClosed(answer: Answer, expansion: Expansion, claims: seq<Claim>, p: Path)
    requires Provenance(expansion) && Grounded(answer, expansion, claims) && p in answer.paths
    ensures p.assertions != [] && p.hops == |p.assertions|
    ensures forall i :: 0 <= i < |p.assertions| ==>
      && p.assertions[i] in answer.relationships
      && answer.relationships[p.assertions[i]].assertion == p.assertions[i]
      && answer.relationships[p.assertions[i]].chunk in p.chunks
    ensures forall c :: c in p.chunks ==> Returned(answer, c)
  {
    hide HasId, Distinct;
    var i :| 0 <= i < |expansion.paths| && expansion.paths[i] == p;
    assert Closed(p, expansion.relationships, expansion.sources);
  }

  // ---------- The best of it ----------

  /**
   The first content evidence up to the limit: in rank order, and what is left out comes after everything that is taken
   and is left out because the limit is reached.
   */
  ghost predicate TakesBest(order: seq<Item>, limit: nat, chunks: seq<Item>) {
    exists places: seq<nat> :: TakesAt(order, limit, chunks, places)
  }

  ghost predicate TakesAt(order: seq<Item>, limit: nat, chunks: seq<Item>, places: seq<nat>) {
    && |places| == |chunks| <= limit
    && (forall i :: 0 <= i < |places| ==>
          places[i] < |order| && chunks[i] == order[places[i]] && !order[places[i]].anchor)
    && (forall i, j :: 0 <= i < j < |places| ==> places[i] < places[j])
    && (forall p :: 0 <= p < |order| && !order[p].anchor && p !in places ==>
          |chunks| == limit && forall i :: 0 <= i < |places| ==> places[i] < p)
  }

  /** The number of items that are content evidence. */
  function Evidence(items: seq<Item>): nat {
    if items == [] then 0 else Evidence(items[..|items| - 1]) + (if items[|items| - 1].anchor then 0 else 1)
  }

  method TakeEvidence(items: seq<Item>, limit: nat) returns (r: seq<Item>, more: bool)
    ensures TakesBest(items, limit, r)
    ensures more <==> Evidence(items) > limit
    ensures !more ==> forall item :: item in items && !item.anchor ==> item in r
  {
    var content := [];
    ghost var places: seq<nat> := [];
    for i := 0 to |items|
      invariant |content| == |places| == Evidence(items[..i])
      invariant forall j :: 0 <= j < |places| ==>
        places[j] < i && content[j] == items[places[j]] && !items[places[j]].anchor
      invariant forall j, m :: 0 <= j < m < |places| ==> places[j] < places[m]
      invariant forall p :: 0 <= p < i && !items[p].anchor ==> p in places
    {
      assert items[..i + 1][..i] == items[..i];
      if !items[i].anchor {
        content, places := content + [items[i]], places + [i];
      }
    }
    assert items[..|items|] == items;
    more := |content| > limit;
    r := if more then content[..limit] else content;
    FirstPlaces(items, limit, content, places, r);
    forall item | item in items && !item.anchor
      ensures item in content
    {
      var p :| 0 <= p < |items| && items[p] == item;
      assert p in places;
    }
  }

  lemma FirstPlaces(items: seq<Item>, limit: nat, content: seq<Item>, places: seq<nat>, r: seq<Item>)
    requires |places| == |content| && r == if |content| > limit then content[..limit] else content
    requires forall j :: 0 <= j < |places| ==>
      places[j] < |items| && content[j] == items[places[j]] && !items[places[j]].anchor
    requires forall j, m :: 0 <= j < m < |places| ==> places[j] < places[m]
    requires forall p :: 0 <= p < |items| && !items[p].anchor ==> p in places
    ensures TakesBest(items, limit, r)
  {
    var taken := places[..|r|];
    forall p | 0 <= p < |items| && !items[p].anchor && p !in taken
      ensures |r| == limit && forall i :: 0 <= i < |taken| ==> taken[i] < p
    {
      var m :| 0 <= m < |places| && places[m] == p;
      assert forall j :: 0 <= j < |taken| ==> places[j] in taken;
    }
    assert TakesAt(items, limit, r, taken);
  }

  // ---------- Context ----------

  function Picked(items: seq<Item>, chosen: set<Id>, anchor: bool): (r: seq<Item>)
    ensures forall item :: item in r <==>
      item in items && item.id in chosen && item.anchor == anchor && !item.navigation
  {
    if items == [] then []
    else
      var rest, last := Picked(items[..|items| - 1], chosen, anchor), items[|items| - 1];
      if last.id in chosen && last.anchor == anchor && !last.navigation then rest + [last] else rest
  }

  lemma OneMorePicked(items: seq<Item>, chosen: set<Id>, anchor: bool, i: nat)
    requires i < |items|
    ensures Picked(items[..i + 1], chosen, anchor)
      == Picked(items[..i], chosen, anchor)
         + if items[i].id in chosen && items[i].anchor == anchor && !items[i].navigation then [items[i]] else []
  {
    assert items[..i + 1][..i] == items[..i];
  }

  /** Their ids, if they are all of one document. */
  ghost function Seeds(items: seq<Item>): seq<Id> {
    if forall a, b :: a in items && b in items ==> a.document == b.document then Ids(items) else []
  }

  function DocumentsOf(items: seq<Item>): (r: set<nat>)
    ensures forall item :: item in items ==> item.document in r
    ensures forall d :: d in r ==> exists item :: item in items && item.document == d
  {
    if items == [] then {} else DocumentsOf(items[..|items| - 1]) + {items[|items| - 1].document}
  }

  lemma OneMoreDocument(items: seq<Item>, item: Item)
    ensures DocumentsOf(items + [item]) == DocumentsOf(items) + {item.document}
  {
    assert (items + [item])[..|items|] == items;
  }

  /** The ids of the chosen items, if they are all of one document. */
  method OneDocument(items: seq<Item>, chosen: set<Id>, anchor: bool) returns (ids: seq<Id>)
    ensures ids == Seeds(Picked(items, chosen, anchor))
  {
    ids := [];
    var documents: set<nat> := {};
    ghost var picked: seq<Item> := [];
    assert DocumentsOf(picked) == {} && Picked(items[..0], chosen, anchor) == picked && Ids(picked) == [];
    hide Seeds, Picked, Ids, DocumentsOf;
    for i := 0 to |items|
      invariant picked == Picked(items[..i], chosen, anchor) && ids == Ids(picked)
      invariant documents == DocumentsOf(picked)
    {
      OneMorePicked(items, chosen, anchor, i);
      if items[i].id in chosen && items[i].anchor == anchor && !items[i].navigation {
        OneMoreId(picked, items[i]);
        OneMoreDocument(picked, items[i]);
        picked := picked + [items[i]];
        ids := ids + [items[i].id];
        documents := documents + {items[i].document};
      }
    }
    assert items[..|items|] == items;
    OneOrNone(picked);
    if |documents| != 1 {
      ids := [];
    }
  }

  lemma OneOrNone(items: seq<Item>)
    ensures Seeds(items) == if |DocumentsOf(items)| != 1 then [] else Ids(items)
  {
    hide DocumentsOf, Ids;
    if items == [] {
      assert Ids(items) == [];
    } else {
      var d := items[0].document;
      assert items[0] in items && {d} <= DocumentsOf(items);
      if forall a, b :: a in items && b in items ==> a.document == b.document {
        assert DocumentsOf(items) == {d};
      } else {
        var a, b :| a in items && b in items && a.document != b.document;
        SubsetSize({a.document, b.document}, DocumentsOf(items));
      }
    }
  }

  /** The last of the first `n` items with its id. */
  ghost predicate IsLast(items: seq<Item>, n: nat, item: Item)
    requires n <= |items|
  {
    exists p :: 0 <= p < n && items[p] == item && forall q :: p < q < n ==> items[q].id != item.id
  }

  /** Context chunks beyond the answer's, each once, as found last. */
  method Beyond(items: seq<Item>, chunks: seq<Item>) returns (context: seq<Item>)
    ensures Distinct(context) && forall id :: HasId(context, id) <==> HasId(items, id) && !HasId(chunks, id)
    ensures forall i :: 0 <= i < |context| ==> IsLast(items, |items|, context[i])
  {
    context := [];
    for i := 0 to |items|
      invariant Distinct(context) && forall id :: HasId(context, id) <==> HasId(items[..i], id) && !HasId(chunks, id)
      invariant forall j :: 0 <= j < |context| ==> IsLast(items, i, context[j])
    {
      OneMoreItem(items, i);
      LastOrLater(items, i);
      hide HasId, Distinct, IsLast;
      ghost var before := context;
      if !HasId(chunks, items[i].id) {
        context := PutItem(context, items[i]);
      } else {
        NotBeyond(context, items[i].id);
      }
    }
    assert items[..|items|] == items;
  }

  lemma NotBeyond(context: seq<Item>, id: Id)
    requires !HasId(context, id)
    ensures forall item :: item in context ==> item.id != id
  {
  }

  lemma LastOrLater(items: seq<Item>, i: nat)
    requires i < |items|
    ensures IsLast(items, i + 1, items[i])
    ensures forall item :: IsLast(items, i, item) && item.id != items[i].id ==> IsLast(items, i + 1, item)
  {
  }

  /** What the documents around the anchors and around the agreed evidence and the sections around it add. */
  ghost predicate Surrounded(answer: Answer, order: seq<Item>, consensus: set<Id>, contexts: Contexts) {
    var anchors := contexts.document(Seeds(Picked(order, (set item | item in order :: item.id), true)), true).0;
    var agreed := contexts.document(Seeds(Picked(answer.chunks, consensus, false)), false).0;
    var items := anchors + agreed + contexts.section(Ids(answer.chunks));
    && Distinct(answer.context)
    && (forall id :: HasId(answer.context, id) <==> HasId(items, id) && !HasId(answer.chunks, id))
    && (forall i :: 0 <= i < |answer.context| ==> IsLast(items, |items|, answer.context[i]))
  }

  ghost predicate ContextIsCut(answer: Answer, order: seq<Item>, consensus: set<Id>, contexts: Contexts) {
    || contexts.document(Seeds(Picked(order, (set item | item in order :: item.id), true)), true).1
    || contexts.document(Seeds(Picked(answer.chunks, consensus, false)), false).1
  }

  /** Documents around the anchors and the consensus, and the sections around what is returned. */
  method Surround(order: seq<Item>, chunks: seq<Item>, consensus: set<Id>, contexts: Contexts)
    returns (context: seq<Item>, cut: bool)
    ensures forall answer: Answer :: answer.chunks == chunks && answer.context == context ==>
      && Surrounded(answer, order, consensus, contexts)
      && (cut <==> ContextIsCut(answer, order, consensus, contexts))
  {
    hide Seeds, Picked;
    var everything := set item | item in order :: item.id;
    var anchorSeeds := OneDocument(order, everything, true);
    var (anchorContext, anchorCut) := contexts.document(anchorSeeds, true);
    var documentSeeds := OneDocument(chunks, consensus, false);
    var (documentContext, documentCut) := contexts.document(documentSeeds, false);
    var sectionContext := contexts.section(Ids(chunks));
    context := Beyond(anchorContext + documentContext + sectionContext, chunks);
    cut := anchorCut || documentCut;
  }

  /** Keeps the graph evidence and the claims that rest on returned chunks. */
  method Ground(chunks: seq<Item>, context: seq<Item>, expansion: Expansion, claims: seq<Claim>, truncated: bool)
    returns (answer: Answer)
    ensures answer.chunks == chunks && answer.context == context && answer.truncated == truncated
    ensures Grounded(answer, expansion, claims)
  {
    var relationships := map a | a in expansion.relationships
      && (HasId(chunks, expansion.relationships[a].chunk) || HasId(context, expansion.relationships[a].chunk)) ::
      expansion.relationships[a];
    var paths, shown := [], [];
    for i := 0 to |expansion.paths|
      invariant forall p :: p in paths <==>
        p in expansion.paths[..i] && p.chunks != [] && forall c :: c in p.chunks ==> HasId(chunks, c) || HasId(context, c)
    {
      assert expansion.paths[..i + 1] == expansion.paths[..i] + [expansion.paths[i]];
      var path := expansion.paths[i];
      if path.chunks != [] && forall c :: c in path.chunks ==> HasId(chunks, c) || HasId(context, c) {
        paths := paths + [path];
      }
    }
    assert expansion.paths[..|expansion.paths|] == expansion.paths;
    for i := 0 to |claims|
      invariant forall c :: c in shown <==> c in claims[..i] && (HasId(chunks, c.chunk) || HasId(context, c.chunk))
    {
      assert claims[..i + 1] == claims[..i] + [claims[i]];
      if HasId(chunks, claims[i].chunk) || HasId(context, claims[i].chunk) {
        shown := shown + [claims[i]];
      }
    }
    assert claims[..|claims|] == claims;
    answer := Answer(chunks, context, relationships, paths, shown, truncated);
  }

  // ---------- One query ----------

  /**
   One query, given what the searches, the graph expansion and the claim search found. `order` ranks what is admissible;
   the answer holds the best of it that is content evidence, up to the limit. The answer is marked as truncated exactly
   if there was more, if a search, the consensus or a context left something out.
   */
  method Retrieve(strategy: Strategy, hits: Hits, claims: seq<Claim>, claimsCut: bool, contexts: Contexts, limit: nat,
                  k: nat)
    returns (answer: Answer, ghost order: seq<Item>)
    requires Provenance(hits.expansion)
    ensures InRankOrder(strategy, hits, k, Ids(order)) && TakesBest(order, limit, answer.chunks)
    ensures strategy == KeywordOnly ==> order == hits.keyword
    ensures strategy == SemanticOnly ==> order == hits.semantic
    ensures strategy == Mixed ==> forall id :: HasId(order, id) <==> Admissible(hits, id)
    ensures strategy == Mixed ==> forall i :: 0 <= i < |order| ==> StandsFor(hits, order[i])
    ensures Grounded(answer, hits.expansion, claims)
    ensures Surrounded(answer, order, PrimaryConsensus(hits.keyword, hits.semantic), contexts)
    ensures forall id :: HasId(answer.chunks, id) ==> IsFound(hits, id)
    ensures strategy == Mixed && PrimaryConsensus(hits.keyword, hits.semantic) != {} && !hits.expansion.anchored ==>
      forall id :: HasId(answer.chunks, id) ==> id in PrimaryConsensus(hits.keyword, hits.semantic)
    ensures strategy == Mixed && !answer.truncated ==>
      forall id :: IsFound(hits, id) ==> HasId(answer.chunks, id) || HasAnchor(order, id)
    ensures answer.truncated <==>
      || Evidence(order) > limit || hits.expansion.truncated || claimsCut
      || (exists id :: IsFound(hits, id) && !Admissible(hits, id))
      || ContextIsCut(answer, order, PrimaryConsensus(hits.keyword, hits.semantic), contexts)
  {
    hide HasId, Grounded, Provenance, Surrounded, ContextIsCut, TakesBest, InRankOrder, Admissible, StandsFor;
    hide PrimaryConsensus, IsFound, ChannelsHold, ChunksHold, Evidence;
    var channels, all, consensus, filtered := Select(hits);
    var ranked := Rank(strategy, hits, channels, all, k);
    var chunks, more := TakeEvidence(ranked, limit);
    var context, contextCut := Surround(ranked, chunks, consensus, contexts);
    var truncated := more || hits.expansion.truncated || claimsCut || filtered || contextCut;
    answer := Ground(chunks, context, hits.expansion, claims, truncated);
    order := ranked;
    EvidenceIsRanked(order, limit, chunks);
    if strategy == Mixed {
      ConsensusIsAll(hits);
      if !truncated {
        assert forall id :: IsFound(hits, id) ==> HasId(order, id);
        ContentOrAnchor(order, chunks);
      }
    } else {
      SearchesAreFound(hits);
    }
  }

  ghost predicate HasAnchor(items: seq<Item>, id: Id) {
    exists item :: item in items && item.id == id && item.anchor
  }

  lemma EvidenceIsRanked(order: seq<Item>, limit: nat, chunks: seq<Item>)
    requires TakesBest(order, limit, chunks)
    ensures forall id :: HasId(chunks, id) ==> HasId(order, id)
  {
    hide TakesBest;
    forall id | HasId(chunks, id) ensures HasId(order, id) {
      var i :| 0 <= i < |chunks| && chunks[i].id == id;
      var p := PlaceOf(order, limit, chunks, i);
    }
  }

  lemma PlaceOf(order: seq<Item>, limit: nat, chunks: seq<Item>, i: nat) returns (p: nat)
    requires TakesBest(order, limit, chunks) && i < |chunks|
    ensures p < |order| && order[p] == chunks[i]
  {
    var places :| TakesAt(order, limit, chunks, places);
    p := places[i];
  }

  lemma ConsensusIsAll(hits: Hits)
    ensures forall id :: Admissible(hits, id) ==> IsFound(hits, id)
    ensures PrimaryConsensus(hits.keyword, hits.semantic) != {} && !hits.expansion.anchored ==>
      forall id :: Admissible(hits, id) ==> id in PrimaryConsensus(hits.keyword, hits.semantic)
  {
    hide PrimaryConsensus, InConsensus, HasId;
    if id :| id in PrimaryConsensus(hits.keyword, hits.semantic) {
      assert InConsensus(hits.keyword, hits.semantic, id);
    }
  }

  lemma ContentOrAnchor(order: seq<Item>, chunks: seq<Item>)
    requires forall item :: item in order && !item.anchor ==> item in chunks
    ensures forall id :: HasId(order, id) ==> HasId(chunks, id) || HasAnchor(order, id)
  {
    forall id | HasId(order, id) ensures HasId(chunks, id) || HasAnchor(order, id) {
      var i :| 0 <= i < |order| && order[i].id == id;
      assert order[i] in order;
    }
  }

  lemma SearchesAreFound(hits: Hits)
    ensures forall id :: HasId(hits.keyword, id) || HasId(hits.semantic, id) ==> IsFound(hits, id)
  {
  }
}
