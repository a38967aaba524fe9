/** The resolution store in its imperative form, proved against the functions of `Resolution`. */
module ResolutionStore {
  import opened Resolution

  type CandidateKey = (nat, string)  // chunk and local id of an extracted entity
  datatype Relationship = Relationship(id: nat, subjectKey: CandidateKey, objectKey: CandidateKey)
  /** A resolved entity candidate of a run: its place in the extraction and its entity. */
  datatype Mention = Mention(key: CandidateKey, candidate: CandidateId)

  ghost predicate OwnedInBucket(t: Tables) {
    forall k :: k in t.owners ==> t.owners[k] in t.entities && t.entities[t.owners[k]].bucket == k.bucket
  }

  ghost predicate StoreOk(t: Tables) {
    EntitiesOk(t) && OwnedInBucket(t)
  }

  lemma ResolvedKeepsStoreOk(t: Tables, c: Candidate)
    requires StoreOk(t)
    ensures StoreOk(Resolved(t, c))
  {
    if c.id !in t.decisions && |Matched(t, c)| <= 1 && Matched(t, c) != {} {
      var e :| e in Matched(t, c) && Resolved(t, c) == Accepted(t, c, Merged(e));
    }
  }

  lemma ResolvedWithoutMatch(t: Tables, c: Candidate)
    requires StoreOk(t) && c.id !in t.decisions && Matched(t, c) == {}
    ensures Resolved(t, c) == Accepted(WithEntity(t, c), c, Created(t.nextId))
    ensures StoreOk(WithEntity(t, c)) && Matched(WithEntity(t, c), c) == {}
  {
    hide ReviewTargets;
  }

  lemma ResolvedOtherwise(t: Tables, c: Candidate)
    ensures c.id in t.decisions ==> Resolved(t, c) == t
    ensures c.id !in t.decisions && |Matched(t, c)| > 1 ==>
      Resolved(t, c) == t.(decisions := t.decisions[c.id := Deferred])
  {
    hide ReviewTargets;
  }

  lemma ResolvedByMatch(t: Tables, c: Candidate, e: EntityId)
    requires c.id !in t.decisions && |Matched(t, c)| <= 1 && e in Matched(t, c)
    ensures Resolved(t, c) == Accepted(t, c, Merged(e))
  {
    SingleMatch(t, c, e);
  }

  lemma MatchedInBucket(t: Tables, c: Candidate, e: EntityId)
    requires StoreOk(t) && e in Matched(t, c)
    ensures e in t.entities && t.entities[e].bucket == c.bucket
  {
  }

  class ResolutionStore {
    var entities: map<EntityId, Entity>
    var created: seq<EntityId>
    var nextId: EntityId
    var owners: map<IdKey, EntityId>
    var decisions: map<CandidateId, Decision>
    var reviews: set<(CandidateId, EntityId)>
    var assertions: map<nat, (EntityId, EntityId)>
    var claims: set<nat>

    function View(): Tables
      reads this
    {
      Tables(entities, created, nextId, owners, decisions, reviews)
    }

    constructor ()
      ensures View() == NO_TABLES && assertions == map[] && claims == {}
    {
      entities, created, nextId, owners, decisions, reviews := map[], [], 0, map[], map[], {};
      assertions, claims := map[], {};
    }

    method ResolveCandidate(c: Candidate) returns (decision: Decision, reviewed: nat)
      requires StoreOk(View())
      modifies this`entities, this`created, this`nextId, this`owners, this`decisions, this`reviews
      ensures View() == Resolved(old(View()), c) && StoreOk(View())
      ensures c.id in decisions && decision == decisions[c.id]
      ensures reviewed == Added(old(reviews), reviews)
    {
      hide ReviewTargets, Resolved, Matched, StoreOk;
      ghost var before := View();
      ResolvedKeepsStoreOk(before, c);
      ResolvedOtherwise(before, c);
      if c.id in decisions {
        assert reviews - old(reviews) == {};
        return decisions[c.id], 0;
      }
      var matched := MatchIdentifiers(c);
      if |matched| > 1 {
        decision := Deferred;
        decisions := decisions[c.id := decision];
        assert reviews - old(reviews) == {};
        return decision, 0;
      }
      if matched != {} {
        var e :| e in matched;
        decision := Merged(e);
        ResolvedByMatch(before, c, e);
        SingleMatch(before, c, e);
        MatchedInBucket(before, c, e);
      } else {
        ResolvedWithoutMatch(before, c);
        decision := Created(nextId);
        entities := entities[nextId := Entity(c.bucket, c.name)];
        created := created + [nextId];
        nextId := nextId + 1;
      }
      reviewed := Accept(c, decision);
    }

    method MatchIdentifiers(c: Candidate) returns (matched: set<EntityId>)
      ensures matched == Matched(View(), c)
    {
      matched := {};
      for n := 0 to |c.identifiers|
        invariant matched == set k | k in KeysOf(c.(identifiers := c.identifiers[..n])) && k in owners :: owners[k]
      {
        var key := IdKey(c.bucket, c.identifiers[n]);
        assert KeysOf(c.(identifiers := c.identifiers[..n + 1])) == KeysOf(c.(identifiers := c.identifiers[..n])) + {key};
        if key in owners {
          matched := matched + {owners[key]};
        }
      }
      assert c.identifiers[..|c.identifiers|] == c.identifiers;
    }

    /** Adds the candidate's new identifiers, its decision, and its review suggestions. */
    method Accept(c: Candidate, d: Decision) returns (reviewed: nat)
      requires StoreOk(View()) && !d.Deferred? && Matched(View(), c) <= {d.entity}
      requires d.entity in entities && entities[d.entity].bucket == c.bucket
      modifies this`owners, this`decisions, this`reviews
      ensures View() == Accepted(old(View()), c, d)
      ensures reviewed == |reviews - old(reviews)|
    {
      hide AreOldest, ReviewTargets;
      var known := set k | k in owners && owners[k] == d.entity :: k.identifier;
      ghost var before := owners;
      for n := 0 to |c.identifiers|
        invariant reviews == old(reviews) && decisions == old(decisions)
        invariant forall k :: k in owners <==> k in before || k in KeysOf(c.(identifiers := c.identifiers[..n]))
        invariant forall k :: k in owners ==> owners[k] == if k in before then before[k] else d.entity
      {
        var key := IdKey(c.bucket, c.identifiers[n]);
        assert KeysOf(c.(identifiers := c.identifiers[..n + 1])) == KeysOf(c.(identifiers := c.identifiers[..n])) + {key};
        KnownExactlyWhenOwned(old(View()), c, d.entity, c.identifiers[n]);
        if c.identifiers[n] !in known {
          owners := owners[key := d.entity];
        }
      }
      assert c.identifiers[..|c.identifiers|] == c.identifiers;
      decisions := decisions[c.id := d];
      ghost var targets;
      reviewed, targets := Suggest(c, d.entity);
    }

    /** Suggests the oldest other entities of the same bucket and name, at most twenty of them. */
    method Suggest(c: Candidate, e: EntityId) returns (reviewed: nat, ghost targets: seq<EntityId>)
      modifies this`reviews
      ensures targets == ReviewTargets(entities, created, c, e, REVIEW_LIMIT)
      ensures AreOldest(entities, created, c, e, 20, targets)
      ensures reviews == old(reviews) + set t | t in targets :: (c.id, t)
      ensures reviewed == |reviews - old(reviews)|
    {
      hide AreOldest;
      TargetsAreOldest(entities, created, c, e, REVIEW_LIMIT);
      var chosen := ReviewTargets(entities, created, c, e, REVIEW_LIMIT);
      targets := chosen;
      ghost var before := reviews;
      reviewed := 0;
      for n := 0 to |chosen|
        invariant reviews == before + set t | t in chosen[..n] :: (c.id, t)
        invariant reviewed == |reviews - before|
      {
        var pair := (c.id, chosen[n]);
        assert chosen[..n + 1] == chosen[..n] + [chosen[n]];
        if pair !in reviews {
          assert (reviews + {pair}) - before == (reviews - before) + {pair};
          reviews := reviews + {pair};
          reviewed := reviewed + 1;
        }
      }
      assert chosen[..|chosen|] == chosen;
    }

    /** Resolves the undecided candidates of one run, in order, and counts what was decided. */
    method ResolveRun(candidates: seq<Candidate>)
      returns (createdCount: nat, mergedCount: nat, deferredCount: nat, reviewed: nat)
      requires StoreOk(View()) && DistinctIds(candidates)
      modifies this`entities, this`created, this`nextId, this`owners, this`decisions, this`reviews
      ensures var todo := Undecided(old(decisions), candidates);
        && View() == Replay(old(View()), todo)
        && Tallied(decisions, todo, |todo|, createdCount, mergedCount, deferredCount)
        && createdCount + mergedCount + deferredCount == |todo|
      ensures |entities| == |old(entities)| + createdCount
      ensures reviewed == Added(old(reviews), reviews) && old(reviews) <= reviews
      ensures forall c :: c in candidates ==> c.id in decisions
    {
      hide Replay, Resolved, Undecided, StoreOk, Tallied, Added;
      ghost var before := View();
      var todo := Undecided(decisions, candidates);
      UndecidedAreDistinct(decisions, candidates);
      ReplayStart(before, todo);
      NothingTallied(decisions, todo);
      NothingAdded(reviews);
      createdCount, mergedCount, deferredCount, reviewed := 0, 0, 0, 0;
      for n := 0 to |todo|
        invariant StoreOk(View()) && View() == Replay(before, todo[..n])
        invariant Tallied(decisions, todo, n, createdCount, mergedCount, deferredCount)
        invariant createdCount + mergedCount + deferredCount == n
        invariant |entities| == |before.entities| + createdCount
        invariant reviewed == Added(before.reviews, reviews) && before.reviews <= reviews
        invariant forall i :: 0 <= i < n ==> todo[i].id in decisions
        invariant forall i :: n <= i < |todo| ==> todo[i].id !in decisions
        invariant forall id :: id in before.decisions ==> id in decisions
      {
        ReplayNext(before, todo, n);
        ResolvedGrows(View(), todo[n]);
        ghost var known, suggested := decisions, reviews;
        var decision, more := ResolveCandidate(todo[n]);
        TallyNext(known, decisions, todo, n, createdCount, mergedCount, deferredCount);
        MoreReviews(before.reviews, suggested, reviews);
        reviewed := reviewed + more;
        match decision
        case Created(_) => createdCount := createdCount + 1;
        case Merged(_) => mergedCount := mergedCount + 1;
        case Deferred => deferredCount := deferredCount + 1;
      }
      assert todo[..|todo|] == todo;
    }

    /**
     Inserts an assertion for each relationship whose two ends were resolved in this run, and every
     claim of the run, unless they are there already.
     */
    method MaterializeAssertions(mentions: seq<Mention>, relationships: seq<Relationship>, claimIds: seq<nat>)
      returns (inserted: nat, insertedClaims: nat)
      modifies this`assertions, this`claims
      ensures assertions == Materialized(old(assertions), ResolvedKeys(decisions, mentions), relationships)
      ensures |assertions| == |old(assertions)| + inserted
      ensures claims == old(claims) + (set id | id in claimIds) && |claims| == |old(claims)| + insertedClaims
    {
      hide Materialized, ResolvedKeys;
      var resolved := ResolvedKeys(decisions, mentions);
      ghost var before := assertions;
      inserted := 0;
      MaterializedStart(before, resolved, relationships);
      for n := 0 to |relationships|
        invariant assertions == Materialized(before, resolved, relationships[..n])
        invariant |assertions| == |before| + inserted && claims == old(claims)
      {
        MaterializedNext(before, resolved, relationships, n);
        var r := relationships[n];
        if r.subjectKey in resolved && r.objectKey in resolved && r.id !in assertions {
          assertions := assertions[r.id := (resolved[r.subjectKey], resolved[r.objectKey])];
          inserted := inserted + 1;
        }
      }
      assert relationships[..|relationships|] == relationships;
      insertedClaims := InsertClaims(claimIds);
    }

    method InsertClaims(ids: seq<nat>) returns (inserted: nat)
      modifies this`claims
      ensures claims == old(claims) + (set id | id in ids) && |claims| == |old(claims)| + inserted
    {
      inserted := 0;
      assert ids[..0] == [];
      for n := 0 to |ids|
        invariant claims == old(claims) + (set id | id in ids[..n])
        invariant |claims| == |old(claims)| + inserted
      {
        assert ids[..n + 1] == ids[..n] + [ids[n]];
        if ids[n] !in claims {
          claims := claims + {ids[n]};
          inserted := inserted + 1;
        }
      }
      assert ids[..|ids|] == ids;
    }
  }

  datatype Verdict = Creates | Merges | Defers

  function VerdictOf(d: Decision): Verdict {
    match d
    case Created(_) => Creates
    case Merged(_) => Merges
    case Deferred => Defers
  }

  ghost predicate Got(decisions: map<CandidateId, Decision>, c: Candidate, verdict: Verdict) {
    c.id in decisions && VerdictOf(decisions[c.id]) == verdict
  }

  /** The places of the first `n` candidates with one verdict. */
  ghost function Places(decisions: map<CandidateId, Decision>, cs: seq<Candidate>, n: nat, verdict: Verdict): set<nat>
    requires n <= |cs|
  {
    set i: nat | i < n && Got(decisions, cs[i], verdict)
  }

  lemma PlaceOfNext(before: map<CandidateId, Decision>, after: map<CandidateId, Decision>, cs: seq<Candidate>, n: nat,
                    verdict: Verdict)
    requires n < |cs| && forall i :: 0 <= i < n ==> cs[i].id in before
    requires forall id :: id in before ==> id in after && after[id] == before[id]
    ensures |Places(after, cs, n + 1, verdict)|
      == |Places(before, cs, n, verdict)| + if Got(after, cs[n], verdict) then 1 else 0
  {
    forall i: nat | i < n ensures Got(before, cs[i], verdict) <==> Got(after, cs[i], verdict) {
      assert cs[i].id in before;
    }
    hide Got;
    var places := Places(before, cs, n, verdict);
    assert Places(after, cs, n + 1, verdict) == if Got(after, cs[n], verdict) then places + {n} else places;
  }

  /** How many of the first `n` candidates were decided in each way. */
  ghost predicate Tallied(decisions: map<CandidateId, Decision>, cs: seq<Candidate>, n: nat,
                          created: nat, merged: nat, deferred: nat)
    requires n <= |cs|
  {
    && created == |Places(decisions, cs, n, Creates)|
    && merged == |Places(decisions, cs, n, Merges)|
    && deferred == |Places(decisions, cs, n, Defers)|
  }

  lemma NothingTallied(decisions: map<CandidateId, Decision>, cs: seq<Candidate>)
    ensures Tallied(decisions, cs, 0, 0, 0, 0)
  {
    forall v: Verdict ensures Places(decisions, cs, 0, v) == {} {
    }
  }

  lemma TallyNext(before: map<CandidateId, Decision>, after: map<CandidateId, Decision>, cs: seq<Candidate>, n: nat,
                  created: nat, merged: nat, deferred: nat)
    requires n < |cs| && Tallied(before, cs, n, created, merged, deferred)
    requires forall i :: 0 <= i < n ==> cs[i].id in before
    requires forall id :: id in before ==> id in after && after[id] == before[id]
    requires cs[n].id in after
    ensures match after[cs[n].id]
      case Created(_) => Tallied(after, cs, n + 1, created + 1, merged, deferred)
      case Merged(_) => Tallied(after, cs, n + 1, created, merged + 1, deferred)
      case Deferred => Tallied(after, cs, n + 1, created, merged, deferred + 1)
  {
    PlaceOfNext(before, after, cs, n, Creates);
    PlaceOfNext(before, after, cs, n, Merges);
    PlaceOfNext(before, after, cs, n, Defers);
    hide Places;
  }

  type Reviews = set<(CandidateId, EntityId)>

  /** How many suggestions are new. */
  ghost function Added(before: Reviews, after: Reviews): nat {
    |after - before|
  }

  lemma NothingAdded(reviews: Reviews)
    ensures Added(reviews, reviews) == 0
  {
  }

  lemma MoreReviews(first: Reviews, second: Reviews, third: Reviews)
    requires first <= second <= third
    ensures Added(first, third) == Added(first, second) + Added(second, third)
  {
    assert third - first == (second - first) + (third - second);
  }

  ghost predicate DistinctIds(cs: seq<Candidate>) {
    forall i, j :: 0 <= i < j < |cs| ==> cs[i].id != cs[j].id
  }

  lemma ReplayStart(t: Tables, cs: seq<Candidate>)
    ensures Replay(t, cs[..0]) == t
  {
  }

  lemma ReplayNext(t: Tables, cs: seq<Candidate>, n: nat)
    requires n < |cs|
    ensures Replay(t, cs[..n + 1]) == Resolved(Replay(t, cs[..n]), cs[n])
  {
    hide Resolved;
    assert cs[..n + 1][..n] == cs[..n];
  }

  /** Earlier decisions stay, and an entity is added exactly for a new `Created` decision. */
  lemma ResolvedGrows(t: Tables, c: Candidate)
    requires StoreOk(t)
    ensures var u := Resolved(t, c);
            && c.id in u.decisions
            && (forall id :: id in t.decisions ==> id in u.decisions && u.decisions[id] == t.decisions[id])
            && (forall id :: id in u.decisions ==> id in t.decisions || id == c.id)
            && t.reviews <= u.reviews
            && (c.id !in t.decisions ==> |u.entities| == |t.entities| + if u.decisions[c.id].Created? then 1 else 0)
  {
    hide ReviewTargets;
    assert t.nextId !in t.entities;
  }

  /** The entity already has the identifier exactly when it owns it in the candidate's bucket. */
  lemma KnownExactlyWhenOwned(t: Tables, c: Candidate, e: EntityId, i: Identifier)
    requires StoreOk(t) && e in t.entities && t.entities[e].bucket == c.bucket
    requires Matched(t, c) <= {e} && i in c.identifiers
    ensures i in (set k | k in t.owners && t.owners[k] == e :: k.identifier) <==> IdKey(c.bucket, i) in t.owners
  {
    var key := IdKey(c.bucket, i);
    assert key in KeysOf(c);
    if key in t.owners {
      assert t.owners[key] in Matched(t, c);
      assert key.identifier == i;
    }
    if k :| k in t.owners && t.owners[k] == e && k.identifier == i {
      assert k == key;
    }
  }

  function Undecided(decisions: map<CandidateId, Decision>, cs: seq<Candidate>): (todo: seq<Candidate>)
    ensures forall c :: c in todo <==> c in cs && c.id !in decisions
  {
    if cs == [] then []
    else if cs[0].id in decisions then Undecided(decisions, cs[1..])
    else [cs[0]] + Undecided(decisions, cs[1..])
  }

  lemma {:induction false} UndecidedAreDistinct(decisions: map<CandidateId, Decision>, cs: seq<Candidate>)
    requires DistinctIds(cs)
    ensures DistinctIds(Undecided(decisions, cs))
  {
    if cs != [] {
      var rest := cs[1..];
      UndecidedAreDistinct(decisions, rest);
      var later := Undecided(decisions, rest);
      forall c | c in later ensures c.id != cs[0].id {
        assert c in rest;
      }
    }
  }

  /** Which entity stands at each place of the extraction; a later mention replaces an earlier one. */
  function ResolvedKeys(decisions: map<CandidateId, Decision>, mentions: seq<Mention>): map<CandidateKey, EntityId> {
    if mentions == [] then map[]
    else
      var last := mentions[|mentions| - 1];
      var rest := ResolvedKeys(decisions, mentions[..|mentions| - 1]);
      if last.candidate in decisions && !decisions[last.candidate].Deferred?
      then rest[last.key := decisions[last.candidate].entity]
      else rest
  }

  function Materialized(assertions: map<nat, (EntityId, EntityId)>, resolved: map<CandidateKey, EntityId>,
                        rs: seq<Relationship>): map<nat, (EntityId, EntityId)> {
    if rs == [] then assertions
    else
      var r := rs[|rs| - 1];
      var rest := Materialized(assertions, resolved, rs[..|rs| - 1]);
      if r.subjectKey in resolved && r.objectKey in resolved && r.id !in rest
      then rest[r.id := (resolved[r.subjectKey], resolved[r.objectKey])]
      else rest
  }

  ghost predicate DistinctRelationships(rs: seq<Relationship>) {
    forall i, j :: 0 <= i < j < |rs| ==> rs[i].id != rs[j].id
  }

  lemma MaterializedStart(assertions: map<nat, (EntityId, EntityId)>, resolved: map<CandidateKey, EntityId>,
                          rs: seq<Relationship>)
    ensures Materialized(assertions, resolved, rs[..0]) == assertions
  {
  }

  lemma MaterializedNext(assertions: map<nat, (EntityId, EntityId)>, resolved: map<CandidateKey, EntityId>,
                         rs: seq<Relationship>, n: nat)
    requires n < |rs|
    ensures var r, rest := rs[n], Materialized(assertions, resolved, rs[..n]);
            Materialized(assertions, resolved, rs[..n + 1]) ==
            if r.subjectKey in resolved && r.objectKey in resolved && r.id !in rest
            then rest[r.id := (resolved[r.subjectKey], resolved[r.objectKey])]
            else rest
  {
    assert rs[..n + 1][..n] == rs[..n];
  }

  /**
   Materializing keeps every earlier assertion, adds exactly the relationships whose two ends
   are resolved, and changes nothing when it is repeated.
   */
  lemma {:induction false} MaterializedExactly(before: map<nat, (EntityId, EntityId)>,
                                               resolved: map<CandidateKey, EntityId>,
                                               rs: seq<Relationship>)
    requires DistinctRelationships(rs)
    ensures var after := Materialized(before, resolved, rs);
            && (forall id :: id in before ==> id in after && after[id] == before[id])
            && (forall r :: r in rs && r.id !in before ==>
                  (r.id in after <==> r.subjectKey in resolved && r.objectKey in resolved)
                  && (r.id in after ==> after[r.id] == (resolved[r.subjectKey], resolved[r.objectKey])))
            && (forall id :: id in after && id !in before ==> exists r :: r in rs && r.id == id)
  {
    if rs != [] {
      var r, rest := rs[|rs| - 1], rs[..|rs| - 1];
      MaterializedExactly(before, resolved, rest);
      var mid, after := Materialized(before, resolved, rest), Materialized(before, resolved, rs);
      assert forall q :: q in rs <==> q == r || q in rest;
      assert r in rs && forall q :: q in rest ==> q.id != r.id;
      forall id | id in after && id !in before ensures exists q :: q in rs && q.id == id {
        if id in mid {
          var q :| q in rest && q.id == id;
          assert q in rs;
        }
      }
    }
  }

  lemma {:induction false} MaterializeTwice(after: map<nat, (EntityId, EntityId)>,
                                            resolved: map<CandidateKey, EntityId>, rs: seq<Relationship>)
    requires forall r :: r in rs && r.subjectKey in resolved && r.objectKey in resolved ==> r.id in after
    ensures Materialized(after, resolved, rs) == after
  {
    if rs != [] {
      assert rs[|rs| - 1] in rs;
      assert forall r :: r in rs[..|rs| - 1] ==> r in rs;
      MaterializeTwice(after, resolved, rs[..|rs| - 1]);
    }
  }
}
