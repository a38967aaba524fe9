/**
 What the searches of one query found, which of it is admissible, and the channels that list it: all hits, or what the
 consensus of the keyword and the semantic search leaves of them.
 */
module RetrievalChannels {
  import opened Options
  import opened Fusion
  import opened GraphRetrieval

  /** In the order of the channels' names. */
  datatype ChannelName = ClaimChannel | EntityChannel | GraphChannel | KeywordChannel | SemanticChannel

  const NAMES := [ClaimChannel, EntityChannel, GraphChannel, KeywordChannel, SemanticChannel]

  type Channels = map<ChannelName, seq<Id>>

  type Chunks = map<Id, Item>

  /** What the two searches, the graph expansion and the claim search found. */
  datatype Hits = Hits(keyword: seq<Item>, semantic: seq<Item>, expansion: Expansion, claimChunks: seq<Item>)

  function Ids(items: seq<Item>): (r: seq<Id>)
    ensures |r| == |items| && forall i :: 0 <= i < |r| ==> r[i] == items[i].id
    ensures forall id :: id in r <==> HasId(items, id)
  {
    if items == [] then [] else Ids(items[..|items| - 1]) + [items[|items| - 1].id]
  }

  // ---------- What is admissible ----------

  ghost predicate IsFound(hits: Hits, id: Id) {
    || HasId(hits.keyword, id) || HasId(hits.semantic, id)
    || HasId(hits.expansion.sources, id) || HasId(hits.claimChunks, id)
  }

  /** A keyword hit whose semantic score is within 85 percent of every other. */
  ghost predicate InConsensus(keyword: seq<Item>, semantic: seq<Item>, id: Id) {
    HasId(keyword, id) && exists i :: 0 <= i < |semantic| && semantic[i].id == id && NearBest(semantic, i)
  }

  ghost predicate NearBest(semantic: seq<Item>, i: nat)
    requires i < |semantic|
  {
    && semantic[i].semantic.Some?
    && forall j :: 0 <= j < |semantic| && semantic[j].semantic.Some? ==>
         semantic[i].semantic.value >= semantic[j].semantic.value * 0.85
  }

  /**
   Where the two searches agree on some hits, only those are admissible, and with an explicit entity also what the graph
   and the claims found.
   */
  ghost predicate Admissible(hits: Hits, id: Id) {
    && IsFound(hits, id)
    && (|| (forall other :: !InConsensus(hits.keyword, hits.semantic, other))
        || InConsensus(hits.keyword, hits.semantic, id)
        || (hits.expansion.anchored && (HasId(hits.expansion.sources, id) || HasId(hits.claimChunks, id))))
  }

  function MaxScore(items: seq<Item>): (r: Option<real>)
    ensures forall i :: 0 <= i < |items| && items[i].semantic.Some? ==> r.Some? && items[i].semantic.value <= r.value
    ensures r.Some? ==> exists i :: 0 <= i < |items| && items[i].semantic == r
  {
    if items == [] then None
    else
      var rest, last := MaxScore(items[..|items| - 1]), items[|items| - 1].semantic;
      if last.Some? && (rest.None? || last.value > rest.value) then last else rest
  }

  /** Keyword hits whose semantic score is within 85 percent of the best. */
  function PrimaryConsensus(keyword: seq<Item>, semantic: seq<Item>): (r: set<Id>)
    ensures forall id :: id in r <==> InConsensus(keyword, semantic, id)
  {
    var best := MaxScore(semantic);
    if keyword == [] || best.None? then {}
    else set i | 0 <= i < |semantic| && semantic[i].semantic.Some? && semantic[i].semantic.value >= best.value * 0.85
                 && HasId(keyword, semantic[i].id) :: semantic[i].id
  }

  /**
   The best semantic hit is in the consensus if it is a keyword hit, unless its score is negative:
   then there is no consensus, whatever the keyword hits.
   */
  lemma ConsensusOfTheBest(keyword: seq<Item>, semantic: seq<Item>, i: nat)
    requires i < |semantic| && semantic[i].semantic.Some? && semantic[i].semantic == MaxScore(semantic)
    ensures semantic[i].semantic.value >= 0.0 && HasId(keyword, semantic[i].id) ==>
      semantic[i].id in PrimaryConsensus(keyword, semantic)
    ensures semantic[i].semantic.value < 0.0 ==> PrimaryConsensus(keyword, semantic) == {}
  {
  }

  // ---------- What the channels list ----------

  /** The entities' chunks that were hydrated, each once. */
  function Once(ids: seq<Id>, sources: seq<Item>): (r: seq<Id>)
    ensures forall id :: id in r <==> id in ids && HasId(sources, id)
    ensures forall i, j :: 0 <= i < j < |r| ==> r[i] != r[j]
  {
    if ids == [] then []
    else
      var rest, last := Once(ids[..|ids| - 1], sources), ids[|ids| - 1];
      if HasId(sources, last) && last !in rest then rest + [last] else rest
  }

  function FoundBy(hits: Hits, name: ChannelName): seq<Id> {
    match name
    case KeywordChannel => Ids(hits.keyword)
    case SemanticChannel => Ids(hits.semantic)
    case EntityChannel => Once(hits.expansion.entityChunks, hits.expansion.sources)
    case GraphChannel => Ids(hits.expansion.sources)
    case ClaimChannel => Ids(hits.claimChunks)
  }

  /** The admissible ones, in order. */
  ghost function Admitted(hits: Hits, ids: seq<Id>): (r: seq<Id>)
    ensures forall id :: id in r <==> id in ids && Admissible(hits, id)
  {
    if ids == [] then []
    else
      var rest, last := Admitted(hits, ids[..|ids| - 1]), ids[|ids| - 1];
      if Admissible(hits, last) then rest + [last] else rest
  }

  ghost function AdmittedLists(hits: Hits, names: seq<ChannelName>): (r: seq<seq<Id>>)
    ensures |r| == |names| && forall i :: 0 <= i < |names| ==> r[i] == Admitted(hits, FoundBy(hits, names[i]))
  {
    if names == [] then []
    else AdmittedLists(hits, names[..|names| - 1]) + [Admitted(hits, FoundBy(hits, names[|names| - 1]))]
  }

  /** A channel lists what its search found, as far as admissible; a channel without hits is not a channel. */
  ghost predicate ChannelsHold(channels: Channels, hits: Hits) {
    forall name :: ChannelHolds(channels, hits, name)
  }

  ghost predicate ChannelHolds(channels: Channels, hits: Hits, name: ChannelName) {
    var ids := Admitted(hits, FoundBy(hits, name));
    if ids == [] then name !in channels else name in channels && channels[name] == ids
  }

  /**
   The item that stands for an id: the graph's for an entity's chunk, else the semantic hit, the keyword hit, the graph's
   or the claim's.
   */
  ghost predicate StandsFor(hits: Hits, item: Item) {
    if item.id in FoundBy(hits, EntityChannel) then item in hits.expansion.sources
    else if HasId(hits.semantic, item.id) then item in hits.semantic
    else if HasId(hits.keyword, item.id) then item in hits.keyword
    else if HasId(hits.expansion.sources, item.id) then item in hits.expansion.sources
    else item in hits.claimChunks
  }

  /** The chunk map has exactly the admissible ids. */
  ghost predicate ChunksHold(chunks: Chunks, hits: Hits) {
    && (forall id :: id in chunks <==> Admissible(hits, id))
    && (forall id :: id in chunks ==> chunks[id].id == id && StandsFor(hits, chunks[id]))
  }

  // ---------- Building them ----------

  ghost predicate Keyed(chunks: Chunks) {
    forall id :: id in chunks ==> chunks[id].id == id
  }

  /** Items have been added to the chunk map, over known ones or not. */
  ghost predicate Added(chunks: Chunks, items: seq<Item>, keep: bool, more: Chunks) {
    Keyed(more) && forall id :: AddedAt(chunks, items, keep, more, id)
  }

  ghost predicate AddedAt(chunks: Chunks, items: seq<Item>, keep: bool, more: Chunks, id: Id) {
    && (id in more <==> id in chunks || HasId(items, id))
    && (id in more ==>
          if HasId(items, id) && (keep ==> id !in chunks) then more[id] in items
          else id in chunks && more[id] == chunks[id])
  }

  method PutAll(chunks: Chunks, items: seq<Item>, keep: bool) returns (r: Chunks)
    requires Keyed(chunks)
    ensures Added(chunks, items, keep, r)
  {
    r := chunks;
    for i := 0 to |items|
      invariant Keyed(r) && forall id :: id in r <==> id in chunks || HasId(items[..i], id)
      invariant forall id :: id in r ==>
        if HasId(items[..i], id) && (keep ==> id !in chunks) then r[id] in items else id in chunks && r[id] == chunks[id]
    {
      OneMoreItem(items, i);
      hide HasId;
      if !(keep && items[i].id in r) {
        assert items[i] in items;
        r := r[items[i].id := items[i]];
      }
    }
    assert items[..|items|] == items;
  }

  lemma OneMoreItem(items: seq<Item>, i: nat)
    requires i < |items|
    ensures forall id :: HasId(items[..i + 1], id) <==> HasId(items[..i], id) || id == items[i].id
  {
    forall id ensures HasId(items[..i + 1], id) <==> HasId(items[..i], id) || id == items[i].id {
      var before, after := items[..i], items[..i + 1];
      if j :| 0 <= j < |before| && before[j].id == id {
        assert after[j].id == id;
      }
      if id == items[i].id {
        assert after[i].id == id;
      }
      if j :| 0 <= j < |after| && after[j].id == id {
        assert j < i ==> before[j].id == id;
      }
    }
  }

  /** A channel without hits is not a channel. */
  function WithChannel(channels: Channels, name: ChannelName, ids: seq<Id>): Channels {
    if ids == [] then channels else channels[name := ids]
  }

  method AddChannel(channels: Channels, chunks: Chunks, name: ChannelName, items: seq<Item>, keep: bool)
    returns (moreChannels: Channels, moreChunks: Chunks)
    requires Keyed(chunks)
    ensures moreChannels == WithChannel(channels, name, Ids(items))
    ensures Keyed(moreChunks) && Added(chunks, items, keep, moreChunks)
  {
    moreChunks := PutAll(chunks, items, keep);
    moreChannels := if items == [] then channels else channels[name := Ids(items)];
  }

  lemma OneMoreId(items: seq<Item>, item: Item)
    ensures Ids(items + [item]) == Ids(items) + [item.id]
  {
    assert (items + [item])[..|items|] == items;
  }

  lemma OneMoreOnce(ids: seq<Id>, i: nat, sources: seq<Item>)
    requires i < |ids|
    ensures Once(ids[..i + 1], sources)
      == Once(ids[..i], sources)
         + if HasId(sources, ids[i]) && ids[i] !in Once(ids[..i], sources) then [ids[i]] else []
  {
    assert ids[..i + 1][..i] == ids[..i];
  }

  method ItemOf(items: seq<Item>, id: Id) returns (item: Item)
    requires HasId(items, id)
    ensures item in items && item.id == id
  {
    var n: nat :| n < |items| && items[n].id == id;
    item := items[n];
  }

  /** The hydrated chunks of the entities, each once. */
  method EntityItems(expansion: Expansion) returns (items: seq<Item>)
    ensures Ids(items) == Once(expansion.entityChunks, expansion.sources)
    ensures forall i :: 0 <= i < |items| ==> items[i] in expansion.sources
  {
    items := [];
    assert Ids([]) == Once([], expansion.sources);
    hide HasId, Ids, Once;
    for i := 0 to |expansion.entityChunks|
      invariant Ids(items) == Once(expansion.entityChunks[..i], expansion.sources)
      invariant forall j :: 0 <= j < |items| ==> items[j] in expansion.sources
    {
      var id := expansion.entityChunks[i];
      OneMoreOnce(expansion.entityChunks, i, expansion.sources);
      if HasId(expansion.sources, id) && !HasId(items, id) {
        var item := ItemOf(expansion.sources, id);
        OneMoreId(items, item);
        items := items + [item];
      }
    }
    assert expansion.entityChunks[..|expansion.entityChunks|] == expansion.entityChunks;
  }

  /** The channels of one query and the chunks behind them. */
  method BuildChannels(hits: Hits) returns (channels: Channels, chunks: Chunks)
    ensures forall name :: if FoundBy(hits, name) == [] then name !in channels
                           else name in channels && channels[name] == FoundBy(hits, name)
    ensures Keyed(chunks) && forall id :: id in chunks <==> IsFound(hits, id)
    ensures forall id :: id in chunks ==> StandsFor(hits, chunks[id])
  {
    hide Added, HasId, IsFound, StandsFor, WithChannel;
    channels, chunks := map[], map[];
    channels, chunks := AddChannel(channels, chunks, KeywordChannel, hits.keyword, false);
    ghost var first := chunks;
    channels, chunks := AddChannel(channels, chunks, SemanticChannel, hits.semantic, false);
    ghost var second := chunks;
    var entityItems := EntityItems(hits.expansion);
    channels, chunks := AddChannel(channels, chunks, EntityChannel, entityItems, false);
    ghost var third := chunks;
    channels, chunks := AddChannel(channels, chunks, GraphChannel, hits.expansion.sources, true);
    ghost var fourth := chunks;
    channels, chunks := AddChannel(channels, chunks, ClaimChannel, hits.claimChunks, true);
    AddedInTurn(hits, entityItems, first, second, third, fourth, chunks);
    ChannelsInTurn(hits, channels);
  }

  lemma ChannelsInTurn(hits: Hits, channels: Channels)
    requires channels == WithChannel(WithChannel(WithChannel(WithChannel(WithChannel(map[],
      KeywordChannel, FoundBy(hits, KeywordChannel)), SemanticChannel, FoundBy(hits, SemanticChannel)),
      EntityChannel, FoundBy(hits, EntityChannel)), GraphChannel, FoundBy(hits, GraphChannel)),
      ClaimChannel, FoundBy(hits, ClaimChannel))
    ensures forall name :: if FoundBy(hits, name) == [] then name !in channels
                           else name in channels && channels[name] == FoundBy(hits, name)
  {
    hide FoundBy;
    forall name
      ensures if FoundBy(hits, name) == [] then name !in channels
              else name in channels && channels[name] == FoundBy(hits, name)
    {
      match name {
        case ClaimChannel =>
        case EntityChannel =>
        case GraphChannel =>
        case KeywordChannel =>
        case SemanticChannel =>
      }
    }
  }

  lemma AddedInTurn(hits: Hits, entityItems: seq<Item>, first: Chunks, second: Chunks, third: Chunks, fourth: Chunks,
                    chunks: Chunks)
    requires Ids(entityItems) == FoundBy(hits, EntityChannel)
    requires forall i :: 0 <= i < |entityItems| ==> entityItems[i] in hits.expansion.sources
    requires Added(map[], hits.keyword, false, first) && Added(first, hits.semantic, false, second)
    requires Added(second, entityItems, false, third) && Added(third, hits.expansion.sources, true, fourth)
    requires Added(fourth, hits.claimChunks, true, chunks)
    ensures forall id :: id in chunks <==> IsFound(hits, id)
    ensures forall id :: id in chunks ==> StandsFor(hits, chunks[id])
  {
    forall id
      ensures id in chunks <==> IsFound(hits, id)
      ensures id in chunks ==> chunks[id].id == id && StandsFor(hits, chunks[id])
    {
      assert AddedAt(map[], hits.keyword, false, first, id) && AddedAt(first, hits.semantic, false, second, id);
      assert AddedAt(second, entityItems, false, third, id) && AddedAt(third, hits.expansion.sources, true, fourth, id);
      assert AddedAt(fourth, hits.claimChunks, true, chunks, id);
      hide Added;
      EntityIds(hits, entityItems, id);
      hide HasId, FoundBy;
    }
  }

  lemma EntityIds(hits: Hits, entityItems: seq<Item>, id: Id)
    requires Ids(entityItems) == FoundBy(hits, EntityChannel)
    requires forall i :: 0 <= i < |entityItems| ==> entityItems[i] in hits.expansion.sources
    ensures HasId(entityItems, id) <==> id in FoundBy(hits, EntityChannel)
    ensures HasId(entityItems, id) ==> HasId(hits.expansion.sources, id)
    ensures forall item :: item in entityItems ==> item in hits.expansion.sources
  {
    assert id in Ids(entityItems) <==> HasId(entityItems, id);
    hide HasId;
  }

  function Kept(ids: seq<Id>, allowed: set<Id>): seq<Id> {
    if ids == [] then []
    else
      var rest, last := Kept(ids[..|ids| - 1], allowed), ids[|ids| - 1];
      if last in allowed then rest + [last] else rest
  }

  method KeepAllowed(ids: seq<Id>, allowed: set<Id>) returns (r: seq<Id>)
    ensures r == Kept(ids, allowed)
  {
    r := [];
    for i := 0 to |ids|
      invariant r == Kept(ids[..i], allowed)
    {
      assert ids[..i + 1][..i] == ids[..i];
      if ids[i] in allowed {
        r := r + [ids[i]];
      }
    }
    assert ids[..|ids|] == ids;
  }

  /** Only allowed chunks stay, in the map and in every channel; an emptied channel goes. */
  method FilterAllowed(channels: Channels, chunks: Chunks, allowed: set<Id>)
    returns (fewerChannels: Channels, fewerChunks: Chunks)
    ensures forall name :: if name in channels && Kept(channels[name], allowed) != []
                           then name in fewerChannels && fewerChannels[name] == Kept(channels[name], allowed)
                           else name !in fewerChannels
    ensures forall id :: id in fewerChunks <==> id in chunks && id in allowed
    ensures forall id :: id in fewerChunks ==> fewerChunks[id] == chunks[id]
  {
    hide Kept;
    fewerChunks := map id | id in chunks && id in allowed :: chunks[id];
    fewerChannels := map[];
    var todo := channels.Keys;
    while todo != {}
      invariant todo <= channels.Keys
      invariant forall name :: if name in channels && name !in todo && Kept(channels[name], allowed) != []
                               then name in fewerChannels && fewerChannels[name] == Kept(channels[name], allowed)
                               else name !in fewerChannels
    {
      var name :| name in todo;
      todo := todo - {name};
      var kept := KeepAllowed(channels[name], allowed);
      if kept != [] {
        fewerChannels := fewerChannels[name := kept];
      }
    }
  }

  lemma {:induction false} KeptAreAdmitted(hits: Hits, ids: seq<Id>, allowed: set<Id>)
    requires forall id :: id in ids ==> (id in allowed <==> Admissible(hits, id))
    ensures Kept(ids, allowed) == Admitted(hits, ids)
  {
    hide Admissible;
    if ids != [] {
      KeptAreAdmitted(hits, ids[..|ids| - 1], allowed);
    }
  }

  lemma NothingKept(hits: Hits, allowed: set<Id>)
    ensures Kept([], allowed) == [] && Admitted(hits, []) == []
  {
  }

  lemma {:induction false} AllAreAdmitted(hits: Hits, ids: seq<Id>)
    requires forall id :: id in ids ==> Admissible(hits, id)
    ensures Admitted(hits, ids) == ids
  {
    hide Admissible;
    if ids != [] {
      AllAreAdmitted(hits, ids[..|ids| - 1]);
      assert ids == ids[..|ids| - 1] + [ids[|ids| - 1]];
    }
  }

  lemma FoundByAnyIsFound(hits: Hits, name: ChannelName)
    ensures forall id :: id in FoundBy(hits, name) ==> IsFound(hits, id)
  {
    hide HasId;
  }

  /** The channels that are ranked: all of them, or what the consensus leaves; and whether it left anything out. */
  method Select(hits: Hits) returns (channels: Channels, chunks: Chunks, consensus: set<Id>, filtered: bool)
    ensures consensus == PrimaryConsensus(hits.keyword, hits.semantic)
    ensures ChannelsHold(channels, hits) && ChunksHold(chunks, hits)
    ensures filtered <==> exists id :: IsFound(hits, id) && !Admissible(hits, id)
  {
    hide HasId, StandsFor, FoundBy, InConsensus, PrimaryConsensus, Kept, Admitted;
    channels, chunks := BuildChannels(hits);
    consensus := PrimaryConsensus(hits.keyword, hits.semantic);
    filtered := false;
    ghost var found := channels;
    var allowed := chunks.Keys;
    if consensus != {} {
      allowed := consensus;
      if hits.expansion.anchored {
        allowed := allowed + (set id | id in Ids(hits.expansion.sources)) + (set id | id in Ids(hits.claimChunks));
      }
      filtered := exists id :: id in chunks && id !in allowed;
      channels, chunks := FilterAllowed(channels, chunks, allowed);
    }
    assert forall id :: IsFound(hits, id) ==> (id in allowed <==> Admissible(hits, id));
    forall name
      ensures ChannelHolds(channels, hits, name)
    {
      assert if FoundBy(hits, name) == [] then name !in found
             else name in found && found[name] == FoundBy(hits, name);
      NothingKept(hits, allowed);
      FoundByAnyIsFound(hits, name);
      if consensus == {} {
        AllAreAdmitted(hits, FoundBy(hits, name));
      } else {
        KeptAreAdmitted(hits, FoundBy(hits, name), allowed);
      }
    }
  }

  // ---------- Scores over the channels ----------

  function Listed(channels: Channels, names: seq<ChannelName>): seq<seq<Id>> {
    if names == [] then []
    else
      var rest, last := Listed(channels, names[..|names| - 1]), names[|names| - 1];
      if last in channels then rest + [channels[last]] else rest
  }

  method ListChannels(channels: Channels) returns (lists: seq<seq<Id>>)
    ensures lists == Listed(channels, NAMES)
  {
    lists := [];
    for i := 0 to |NAMES|
      invariant lists == Listed(channels, NAMES[..i])
    {
      assert NAMES[..i + 1][..i] == NAMES[..i];
      if NAMES[i] in channels {
        lists := lists + [channels[NAMES[i]]];
      }
    }
    assert NAMES[..|NAMES|] == NAMES;
  }

  /** Leaving out the channels without hits changes no score. */
  lemma {:induction false} SameScores(channels: Channels, hits: Hits, names: seq<ChannelName>, k: nat, id: Id)
    requires ChannelsHold(channels, hits)
    ensures Score(Listed(channels, names), k, id) == Score(AdmittedLists(hits, names), k, id)
  {
    hide Admitted, FoundBy, Contribution;
    if names != [] {
      var rest, last := names[..|names| - 1], names[|names| - 1];
      SameScores(channels, hits, rest, k, id);
      assert ChannelHolds(channels, hits, last);
      var lists, all := Listed(channels, names), AdmittedLists(hits, names);
      assert all[..|all| - 1] == AdmittedLists(hits, rest);
      if last in channels {
        assert lists[..|lists| - 1] == Listed(channels, rest);
      } else {
        AbsentContributesNothing([], k, id);
      }
    }
  }

  lemma {:induction false} ListedIds(channels: Channels, hits: Hits, names: seq<ChannelName>, id: Id)
    requires ChannelsHold(channels, hits)
    ensures id in Union(Listed(channels, names)) <==>
      exists name :: name in names && id in Admitted(hits, FoundBy(hits, name))
  {
    hide Admitted, FoundBy, Union;
    if names == [] {
      NoChannelsNoIds(id);
    } else {
      var rest, last := names[..|names| - 1], names[|names| - 1];
      ListedIds(channels, hits, rest, id);
      assert forall n :: n in names <==> n in rest || n == last;
      assert ChannelHolds(channels, hits, last);
      if last in channels {
        var lists := Listed(channels, names);
        OneMoreChannel(lists, |lists| - 1);
        assert lists[..|lists| - 1] == Listed(channels, rest);
        assert lists[..|lists|] == lists;
      }
    }
  }

  lemma NoChannelsNoIds(id: Id)
    ensures id !in Union([])
  {
  }

  lemma AllNames(name: ChannelName)
    ensures name in NAMES
  {
    match name {
      case ClaimChannel => assert NAMES[0] == name;
      case EntityChannel => assert NAMES[1] == name;
      case GraphChannel => assert NAMES[2] == name;
      case KeywordChannel => assert NAMES[3] == name;
      case SemanticChannel => assert NAMES[4] == name;
    }
  }

  /** Every admissible id is in some channel. */
  lemma AdmissibleIsListed(hits: Hits, id: Id)
    ensures Admissible(hits, id) <==> exists name :: name in NAMES && id in Admitted(hits, FoundBy(hits, name))
  {
    hide InConsensus;
    if Admissible(hits, id) {
      hide HasId;
      AllNames(KeywordChannel);
      AllNames(SemanticChannel);
      AllNames(GraphChannel);
      AllNames(ClaimChannel);
      if HasId(hits.keyword, id) {
        assert id in Admitted(hits, FoundBy(hits, KeywordChannel));
      } else if HasId(hits.semantic, id) {
        assert id in Admitted(hits, FoundBy(hits, SemanticChannel));
      } else if HasId(hits.expansion.sources, id) {
        assert id in Admitted(hits, FoundBy(hits, GraphChannel));
      } else {
        assert id in Admitted(hits, FoundBy(hits, ClaimChannel));
      }
    }
  }
}
