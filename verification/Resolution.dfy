/**
 Entity resolution over strong identifiers: an incremental matcher whose specification is the
 connected components of "same vault, type and scope, and shares a normalized identifier".
 */
module Resolution {
  type EntityId = nat
  type CandidateId = nat

  datatype Bucket = Bucket(vault: nat, entityType: string, scope: string)
  datatype Identifier = Identifier(kind: string, normalized: string)
  /** An identifier is unique per bucket, so its key has one owner. */
  datatype IdKey = IdKey(bucket: Bucket, identifier: Identifier)

  datatype Candidate = Candidate(id: CandidateId, bucket: Bucket, name: string, identifiers: seq<Identifier>)
  datatype Entity = Entity(bucket: Bucket, name: string)
  datatype Decision = Created(entity: EntityId) | Merged(entity: EntityId) | Deferred

  const REVIEW_LIMIT: nat := 20

  /** `created` lists the entities by creation time; `nextId` stands for the fresh id. */
  datatype Tables = Tables(entities: map<EntityId, Entity>, created: seq<EntityId>, nextId: EntityId,
                           owners: map<IdKey, EntityId>, decisions: map<CandidateId, Decision>,
                           reviews: set<(CandidateId, EntityId)>)

  const NO_TABLES := Tables(map[], [], 0, map[], map[], {})

  function KeysOf(c: Candidate): set<IdKey> {
    set i | i in c.identifiers :: IdKey(c.bucket, i)
  }

  ghost predicate Share(a: Candidate, b: Candidate) {
    exists k :: k in KeysOf(a) && k in KeysOf(b)
  }

  // ---------- One candidate ----------

  function Matched(t: Tables, c: Candidate): set<EntityId> {
    set k | k in KeysOf(c) && k in t.owners :: t.owners[k]
  }

  /** The oldest other entities of the same bucket and name: suggestions for a human, never a merge. */
  function ReviewTargets(entities: map<EntityId, Entity>, order: seq<EntityId>, c: Candidate, self: EntityId,
                         limit: nat): seq<EntityId> {
    if order == [] || limit == 0 then []
    else if order[0] in entities && order[0] != self && entities[order[0]] == Entity(c.bucket, c.name)
      then [order[0]] + ReviewTargets(entities, order[1..], c, self, limit - 1)
      else ReviewTargets(entities, order[1..], c, self, limit)
  }

  /**
   Other entities of the candidate's bucket and name, at most `limit`; one that is left out was created after all of
   them, and then the limit is reached.
   */
  ghost predicate AreOldest(entities: map<EntityId, Entity>, order: seq<EntityId>, c: Candidate, self: EntityId,
                            limit: nat, targets: seq<EntityId>) {
    && |targets| <= limit
    && (forall e :: e in targets ==> e in order && SameName(entities, c, self, e))
    && (forall q :: 0 <= q < |order| && SameName(entities, c, self, order[q]) && order[q] !in targets ==>
          |targets| == limit && forall e :: e in targets ==> e in order[..q])
    && (Differ(order) ==> Differ(targets))
  }

  ghost predicate Differ(ids: seq<EntityId>) {
    forall p, q :: 0 <= p < q < |ids| ==> ids[p] != ids[q]
  }

  ghost predicate SameName(entities: map<EntityId, Entity>, c: Candidate, self: EntityId, e: EntityId) {
    e in entities && e != self && entities[e].bucket == c.bucket && entities[e].name == c.name
  }

  lemma {:induction false} TargetsAreOldest(entities: map<EntityId, Entity>, order: seq<EntityId>, c: Candidate,
                                            self: EntityId, limit: nat)
    ensures AreOldest(entities, order, c, self, limit, ReviewTargets(entities, order, c, self, limit))
    decreases |order|
  {
    if order != [] && limit > 0 {
      var rest, targets := order[1..], ReviewTargets(entities, order, c, self, limit);
      var taken := SameName(entities, c, self, order[0]);
      var more := ReviewTargets(entities, rest, c, self, if taken then limit - 1 else limit);
      TargetsAreOldest(entities, rest, c, self, if taken then limit - 1 else limit);
      hide ReviewTargets, SameName;
      assert targets == if taken then [order[0]] + more else more by {
        TargetsStep(entities, order, c, self, limit);
      }
      OldestFromRest(entities, order, c, self, limit, more);
    }
  }

  lemma TargetsStep(entities: map<EntityId, Entity>, order: seq<EntityId>, c: Candidate, self: EntityId, limit: nat)
    requires order != [] && limit > 0
    ensures ReviewTargets(entities, order, c, self, limit)
      == if SameName(entities, c, self, order[0])
         then [order[0]] + ReviewTargets(entities, order[1..], c, self, limit - 1)
         else ReviewTargets(entities, order[1..], c, self, limit)
  {
  }

  lemma OldestFromRest(entities: map<EntityId, Entity>, order: seq<EntityId>, c: Candidate, self: EntityId, limit: nat,
                       more: seq<EntityId>)
    requires order != [] && limit > 0
    requires var taken := SameName(entities, c, self, order[0]);
      AreOldest(entities, order[1..], c, self, if taken then limit - 1 else limit, more)
    ensures AreOldest(entities, order, c, self, limit,
                      if SameName(entities, c, self, order[0]) then [order[0]] + more else more)
  {
    hide SameName, Differ;
    var rest, taken := order[1..], SameName(entities, c, self, order[0]);
    var targets := if taken then [order[0]] + more else more;
    assert order == [order[0]] + rest;
    forall e ensures e in targets <==> e in more || (taken && e == order[0]) {
    }
    forall q | 0 <= q < |order| && SameName(entities, c, self, order[q]) && order[q] !in targets
      ensures |targets| == limit && forall e :: e in targets ==> e in order[..q]
    {
      LaterThanTargets(order, more, q);
    }
    if Differ(order) {
      DifferFromRest(order, more);
    }
  }

  lemma LaterThanTargets(order: seq<EntityId>, more: seq<EntityId>, q: nat)
    requires 0 < q < |order|
    ensures order[1..][q - 1] == order[q] && order[..q] == [order[0]] + order[1..][..q - 1]
  {
  }

  lemma DifferFromRest(order: seq<EntityId>, more: seq<EntityId>)
    requires order != [] && Differ(order) && forall e :: e in more ==> e in order[1..]
    ensures Differ(order[1..]) && (Differ(more) ==> Differ([order[0]] + more))
  {
    var targets := [order[0]] + more;
    assert forall p :: 0 <= p < |order[1..]| ==> order[1..][p] == order[p + 1];
    forall q | 0 < q < |targets|
      ensures targets[q] != order[0] && targets[q] == more[q - 1]
    {
      assert more[q - 1] in more;
    }
  }

  function WithEntity(t: Tables, c: Candidate): Tables {
    t.(entities := t.entities[t.nextId := Entity(c.bucket, c.name)],
       created := t.created + [t.nextId],
       nextId := t.nextId + 1)
  }

  /** Records an accepted decision: the entity now owns every identifier of the candidate. */
  function Accepted(t: Tables, c: Candidate, d: Decision): Tables
    requires !d.Deferred?
  {
    var targets := ReviewTargets(t.entities, t.created, c, d.entity, REVIEW_LIMIT);
    t.(owners := map k | k in t.owners.Keys + KeysOf(c) :: if k in t.owners then t.owners[k] else d.entity,
       decisions := t.decisions[c.id := d],
       reviews := t.reviews + set e | e in targets :: (c.id, e))
  }

  ghost function Resolved(t: Tables, c: Candidate): Tables {
    if c.id in t.decisions then t
    else if |Matched(t, c)| > 1 then t.(decisions := t.decisions[c.id := Deferred])
    else if Matched(t, c) == {} then Accepted(WithEntity(t, c), c, Created(t.nextId))
    else
      var e :| e in Matched(t, c);
      Accepted(t, c, Merged(e))
  }

  ghost function Replay(t: Tables, cs: seq<Candidate>): Tables {
    if cs == [] then t else Resolved(Replay(t, cs[..|cs| - 1]), cs[|cs| - 1])
  }

  // ---------- The specification: connected components ----------

  ghost predicate Chain(s: set<Candidate>, p: seq<Candidate>) {
    && |p| > 0
    && (forall c :: c in p ==> c in s)
    && (forall i: nat :: i + 1 < |p| ==> Share(p[i], p[i + 1]))
  }

  ghost predicate Linked(s: set<Candidate>, a: Candidate, b: Candidate) {
    exists p :: Chain(s, p) && p[0] == a && p[|p| - 1] == b
  }

  lemma LinkedGrows(s: set<Candidate>, t: set<Candidate>, a: Candidate, b: Candidate)
    requires Linked(s, a, b) && s <= t
    ensures Linked(t, a, b)
  {
    var p :| Chain(s, p) && p[0] == a && p[|p| - 1] == b;
    assert Chain(t, p);
  }

  lemma LinkedSelf(s: set<Candidate>, a: Candidate)
    requires a in s
    ensures Linked(s, a, a)
  {
    assert Chain(s, [a]);
  }

  lemma LinkedAround(s: set<Candidate>, a: Candidate, b: Candidate, c: Candidate)
    requires Linked(s, a, b) && Share(b, c) && c in s
    ensures Linked(s, a, c)
  {
    var p :| Chain(s, p) && p[0] == a && p[|p| - 1] == b;
    assert Chain(s, p + [c]);
    assert (p + [c])[0] == a && (p + [c])[|p + [c]| - 1] == c;
  }

  lemma LinkedBefore(s: set<Candidate>, a: Candidate, b: Candidate, c: Candidate)
    requires Linked(s, b, a) && Share(c, b) && c in s
    ensures Linked(s, c, a)
  {
    var p :| Chain(s, p) && p[0] == b && p[|p| - 1] == a;
    var q := [c] + p;
    forall i: nat | i + 1 < |q| ensures Share(q[i], q[i + 1]) {
      if i > 0 {
        assert q[i] == p[i - 1] && q[i + 1] == p[(i - 1) + 1];
      }
    }
    assert Chain(s, q) && q[0] == c && q[|q| - 1] == a;
  }

  // ---------- The invariant ----------

  ghost predicate Assigned(t: Tables, c: Candidate) {
    c.id in t.decisions && !t.decisions[c.id].Deferred?
  }

  function EntityOf(t: Tables, c: Candidate): EntityId
    requires c.id in t.decisions && !t.decisions[c.id].Deferred?
  {
    t.decisions[c.id].entity
  }

  /** The candidates of `s` that have an entity. */
  ghost function Members(t: Tables, s: set<Candidate>): set<Candidate> {
    set c | c in s && Assigned(t, c)
  }

  ghost predicate UniqueIds(s: set<Candidate>) {
    forall a, b :: a in s && b in s && a.id == b.id ==> a == b
  }

  ghost predicate EntitiesOk(t: Tables) {
    && (forall e :: e in t.entities ==> e < t.nextId)
    && (forall e :: e in t.created ==> e in t.entities)
  }

  /** Every identifier of a member is owned by its entity, and only members' identifiers are owned. */
  ghost predicate OwnersOk(t: Tables, s: set<Candidate>) {
    && (forall c, k :: c in Members(t, s) && k in KeysOf(c) ==> k in t.owners && t.owners[k] == EntityOf(t, c))
    && (forall k :: k in t.owners ==> exists c :: c in Members(t, s) && k in KeysOf(c))
  }

  ghost predicate ChainsOk(t: Tables, s: set<Candidate>) {
    && (forall c :: c in Members(t, s) ==> EntityOf(t, c) in t.entities && t.entities[EntityOf(t, c)].bucket == c.bucket)
    && (forall a, b :: a in Members(t, s) && b in Members(t, s) && EntityOf(t, a) == EntityOf(t, b) ==>
          Linked(Members(t, s), a, b))
  }

  ghost predicate Consistent(t: Tables, s: set<Candidate>) {
    && UniqueIds(s)
    && (forall id :: id in t.decisions <==> exists c :: c in s && c.id == id)
    && EntitiesOk(t) && OwnersOk(t, s) && ChainsOk(t, s)
  }

  // ---------- Steps ----------

  lemma DeferMembers(t: Tables, s: set<Candidate>, c: Candidate)
    requires UniqueIds(s + {c}) && c.id !in t.decisions
    ensures Members(t.(decisions := t.decisions[c.id := Deferred]), s + {c}) == Members(t, s)
    ensures forall a :: a in Members(t, s) ==> a.id != c.id
  {
    var u := t.(decisions := t.decisions[c.id := Deferred]);
    forall a | a in s + {c} ensures a in Members(t, s) <==> a in Members(u, s + {c}) {
      assert a.id == c.id ==> a == c;
    }
  }

  lemma DeferKeeps(t: Tables, s: set<Candidate>, c: Candidate)
    requires Consistent(t, s) && UniqueIds(s + {c}) && c.id !in t.decisions
    ensures Consistent(t.(decisions := t.decisions[c.id := Deferred]), s + {c})
  {
    DeferMembers(t, s, c);
    hide UniqueIds, Linked, KeysOf;
    var u := t.(decisions := t.decisions[c.id := Deferred]);
    assert OwnersOk(u, s + {c}) by { hide ChainsOk, EntitiesOk; }
    assert ChainsOk(u, s + {c}) by { hide OwnersOk; }
    hide OwnersOk, ChainsOk, Members;
  }

  lemma AcceptMembers(t: Tables, s: set<Candidate>, c: Candidate, d: Decision)
    requires Consistent(t, s) && UniqueIds(s + {c}) && c.id !in t.decisions && !d.Deferred?
    ensures Members(Accepted(t, c, d), s + {c}) == Members(t, s) + {c}
    ensures forall a :: a in Members(t, s) + {c} ==> Assigned(Accepted(t, c, d), a)
    ensures forall a :: a in Members(t, s) ==> EntityOf(Accepted(t, c, d), a) == EntityOf(t, a)
  {
    var u := Accepted(t, c, d);
    forall a | a in s + {c} ensures a in Members(t, s) + {c} <==> a in Members(u, s + {c}) {
      assert a.id == c.id ==> a == c;
    }
  }

  lemma AcceptOwnsIdentifiers(t: Tables, s: set<Candidate>, c: Candidate, d: Decision, a: Candidate, k: IdKey)
    requires OwnersOk(t, s) && !d.Deferred? && Matched(t, c) <= {d.entity}
    requires (a == c || a in Members(t, s)) && k in KeysOf(a)
    ensures k in Accepted(t, c, d).owners
    ensures Accepted(t, c, d).owners[k] == if a == c then d.entity else EntityOf(t, a)
  {
    hide Members, ReviewTargets;
    if a == c && k in t.owners {
      assert t.owners[k] in Matched(t, c);
    }
    hide Matched;
  }

  lemma AcceptOwnsNothingElse(t: Tables, s: set<Candidate>, c: Candidate, d: Decision, k: IdKey) returns (a: Candidate)
    requires OwnersOk(t, s) && !d.Deferred? && k in Accepted(t, c, d).owners
    ensures (a == c || a in Members(t, s)) && k in KeysOf(a)
  {
    hide Members, ReviewTargets;
    if k in t.owners {
      a :| a in Members(t, s) && k in KeysOf(a);
    } else {
      a := c;
    }
  }

  lemma AcceptKeepsOwners(t: Tables, s: set<Candidate>, c: Candidate, d: Decision)
    requires Consistent(t, s) && UniqueIds(s + {c}) && c.id !in t.decisions && !d.Deferred?
    requires Matched(t, c) <= {d.entity}
    ensures OwnersOk(Accepted(t, c, d), s + {c})
  {
    hide KeysOf, ChainsOk, EntitiesOk, UniqueIds, Matched, Members, ReviewTargets;
    AcceptMembers(t, s, c, d);
    var u := Accepted(t, c, d);
    assert OwnersOk(t, s) && EntityOf(u, c) == d.entity;
    hide Accepted, Consistent;
    forall a, k | a in Members(u, s + {c}) && k in KeysOf(a) ensures k in u.owners && u.owners[k] == EntityOf(u, a) {
      AcceptOwnsIdentifiers(t, s, c, d, a, k);
    }
    forall k | k in u.owners ensures exists a :: a in Members(u, s + {c}) && k in KeysOf(a) {
      var a := AcceptOwnsNothingElse(t, s, c, d, k);
    }
  }

  lemma CreateKeeps(t: Tables, s: set<Candidate>, c: Candidate)
    requires Consistent(t, s) && UniqueIds(s + {c}) && c.id !in t.decisions && Matched(t, c) == {}
    ensures Consistent(Accepted(WithEntity(t, c), c, Created(t.nextId)), s + {c})
  {
    var w := WithEntity(t, c);
    assert Members(w, s) == Members(t, s);
    assert Consistent(w, s);
    var u := Accepted(w, c, Created(t.nextId));
    AcceptMembers(w, s, c, Created(t.nextId));
    AcceptKeepsOwners(w, s, c, Created(t.nextId));
    var m := Members(u, s + {c});
    forall a, b | a in m && b in m && EntityOf(u, a) == EntityOf(u, b) ensures Linked(m, a, b) {
      if a == c || b == c {
        assert a == b == c;
        LinkedSelf(m, c);
      } else {
        LinkedGrows(Members(t, s), m, a, b);
      }
    }
  }

  /** A candidate that shares an identifier with member `n` is linked to whatever `n` is linked to. */
  lemma LinkedThrough(old_: set<Candidate>, m: set<Candidate>, n: Candidate, c: Candidate, a: Candidate)
    requires old_ <= m && c in m && Share(n, c) && Share(c, n)
    ensures Linked(old_, a, n) ==> Linked(m, a, c)
    ensures Linked(old_, n, a) ==> Linked(m, c, a)
  {
    if Linked(old_, a, n) {
      LinkedGrows(old_, m, a, n);
      LinkedAround(m, a, n, c);
    }
    if Linked(old_, n, a) {
      LinkedGrows(old_, m, n, a);
      LinkedBefore(m, a, n, c);
    }
  }

  lemma MergeKeepsChains(t: Tables, s: set<Candidate>, c: Candidate, e: EntityId)
    requires Consistent(t, s) && UniqueIds(s + {c}) && c.id !in t.decisions && e in Matched(t, c)
    ensures ChainsOk(Accepted(t, c, Merged(e)), s + {c})
  {
    hide Linked, Share, OwnersOk, UniqueIds;
    var u := Accepted(t, c, Merged(e));
    AcceptMembers(t, s, c, Merged(e));
    var before, m := Members(t, s), Members(u, s + {c});
    var n := OwnerOf(t, s, c, e);
    forall a, b | a in m && b in m && EntityOf(u, a) == EntityOf(u, b) ensures Linked(m, a, b) {
      if a == c && b == c {
        LinkedSelf(m, c);
      } else if b == c {
        LinkedThrough(before, m, n, c, a);
      } else if a == c {
        LinkedThrough(before, m, n, c, b);
      } else {
        LinkedGrows(before, m, a, b);
      }
    }
  }

  /** A matched entity has a member that shares an identifier with the candidate. */
  lemma OwnerOf(t: Tables, s: set<Candidate>, c: Candidate, e: EntityId) returns (n: Candidate)
    requires OwnersOk(t, s) && e in Matched(t, c)
    ensures n in Members(t, s) && EntityOf(t, n) == e && Share(n, c) && Share(c, n) && n.bucket == c.bucket
  {
    var k :| k in KeysOf(c) && k in t.owners && t.owners[k] == e;
    n :| n in Members(t, s) && k in KeysOf(n);
  }

  lemma MergeKeeps(t: Tables, s: set<Candidate>, c: Candidate, e: EntityId)
    requires Consistent(t, s) && UniqueIds(s + {c}) && c.id !in t.decisions && Matched(t, c) == {e}
    ensures Consistent(Accepted(t, c, Merged(e)), s + {c})
  {
    AcceptKeepsOwners(t, s, c, Merged(e));
    MergeKeepsChains(t, s, c, e);
    hide OwnersOk, ChainsOk;
  }

  lemma SingleMatch(t: Tables, c: Candidate, e: EntityId)
    requires |Matched(t, c)| <= 1 && e in Matched(t, c)
    ensures Matched(t, c) == {e}
  {
    var rest := Matched(t, c) - {e};
    assert |rest| == |Matched(t, c)| - 1;
    assert Matched(t, c) == rest + {e};
  }

  lemma ResolvedKeeps(t: Tables, s: set<Candidate>, c: Candidate)
    requires Consistent(t, s) && UniqueIds(s + {c})
    ensures Consistent(Resolved(t, c), s + {c})
  {
    if c.id in t.decisions {
      var a :| a in s && a.id == c.id;
      assert a in s + {c} && c in s + {c};
      assert s + {c} == s;
    } else if |Matched(t, c)| > 1 {
      DeferKeeps(t, s, c);
    } else if Matched(t, c) == {} {
      CreateKeeps(t, s, c);
    } else {
      var e :| e in Matched(t, c) && Resolved(t, c) == Accepted(t, c, Merged(e));
      SingleMatch(t, c, e);
      MergeKeeps(t, s, c, e);
    }
  }

  function SetOf(cs: seq<Candidate>): set<Candidate> {
    set c | c in cs
  }

  lemma {:induction false} ReplayIsConsistent(cs: seq<Candidate>)
    requires UniqueIds(SetOf(cs))
    ensures Consistent(Replay(NO_TABLES, cs), SetOf(cs))
  {
    if cs != [] {
      var rest := cs[..|cs| - 1];
      var c := cs[|cs| - 1];
      assert cs == rest + [c];
      assert SetOf(cs) == SetOf(rest) + {c};
      ReplayIsConsistent(rest);
      ResolvedKeeps(Replay(NO_TABLES, rest), SetOf(rest), c);
    }
  }

  // ---------- Results ----------

  lemma SharersHaveOneEntity(t: Tables, s: set<Candidate>, a: Candidate, b: Candidate)
    requires OwnersOk(t, s) && a in Members(t, s) && b in Members(t, s) && Share(a, b)
    ensures EntityOf(t, a) == EntityOf(t, b)
  {
    var k :| k in KeysOf(a) && k in KeysOf(b);
    assert t.owners[k] == EntityOf(t, a);
  }

  /** Along a chain of shared identifiers the entity does not change. */
  lemma {:induction false} ChainHasOneEntity(t: Tables, s: set<Candidate>, p: seq<Candidate>)
    requires OwnersOk(t, s) && Chain(Members(t, s), p)
    ensures p[0] in Members(t, s) && p[|p| - 1] in Members(t, s)
    ensures EntityOf(t, p[0]) == EntityOf(t, p[|p| - 1])
    decreases |p|
  {
    hide OwnersOk, Share, Members;
    assert p[0] in p && p[|p| - 1] in p;
    if |p| > 1 {
      var n: nat := |p| - 2;
      var q := p[..n + 1];
      forall i: nat | i + 1 < |q| ensures Share(q[i], q[i + 1]) {
        assert Share(p[i], p[i + 1]);
      }
      assert forall c :: c in q ==> c in p;
      ChainHasOneEntity(t, s, q);
      assert p[n] in p && Share(p[n], p[n + 1]);
      SharersHaveOneEntity(t, s, p[n], p[n + 1]);
    }
  }

  /**
   Two resolved candidates have the same entity exactly when a chain of shared identifiers
   through resolved candidates links them.
   */
  lemma SameEntityExactlyWhenLinked(cs: seq<Candidate>, a: Candidate, b: Candidate)
    requires UniqueIds(SetOf(cs))
    requires a in Members(Replay(NO_TABLES, cs), SetOf(cs)) && b in Members(Replay(NO_TABLES, cs), SetOf(cs))
    ensures EntityOf(Replay(NO_TABLES, cs), a) == EntityOf(Replay(NO_TABLES, cs), b)
       <==> Linked(Members(Replay(NO_TABLES, cs), SetOf(cs)), a, b)
  {
    var t := Replay(NO_TABLES, cs);
    ReplayIsConsistent(cs);
    if Linked(Members(t, SetOf(cs)), a, b) {
      var p :| Chain(Members(t, SetOf(cs)), p) && p[0] == a && p[|p| - 1] == b;
      ChainHasOneEntity(t, SetOf(cs), p);
    }
  }

  ghost predicate NoneDeferred(cs: seq<Candidate>) {
    forall c :: c in cs ==> Assigned(Replay(NO_TABLES, cs), c)
  }

  /** Without a deferral the entities are the connected components, whatever the order. */
  lemma GroupingDoesNotDependOnOrder(cs: seq<Candidate>, ds: seq<Candidate>, a: Candidate, b: Candidate)
    requires SetOf(cs) == SetOf(ds) && UniqueIds(SetOf(cs)) && NoneDeferred(cs) && NoneDeferred(ds)
    requires a in cs && b in cs
    ensures a in ds && b in ds
    ensures EntityOf(Replay(NO_TABLES, cs), a) == EntityOf(Replay(NO_TABLES, cs), b)
       <==> EntityOf(Replay(NO_TABLES, ds), a) == EntityOf(Replay(NO_TABLES, ds), b)
    ensures EntityOf(Replay(NO_TABLES, cs), a) == EntityOf(Replay(NO_TABLES, cs), b) <==> Linked(SetOf(cs), a, b)
  {
    assert a in SetOf(cs) && b in SetOf(cs) && a in SetOf(ds) && b in SetOf(ds);
    assert Members(Replay(NO_TABLES, cs), SetOf(cs)) == SetOf(cs);
    assert Members(Replay(NO_TABLES, ds), SetOf(ds)) == SetOf(cs);
    SameEntityExactlyWhenLinked(cs, a, b);
    SameEntityExactlyWhenLinked(ds, a, b);
  }

  ghost predicate TouchesTwoGroups(m: set<Candidate>, c: Candidate) {
    exists a, b :: a in m && b in m && Share(a, c) && Share(b, c) && !Linked(m, a, b)
  }

  lemma TwoMatchesTouchTwoGroups(cs: seq<Candidate>, c: Candidate, e: EntityId, f: EntityId)
    requires UniqueIds(SetOf(cs)) && e != f
    requires e in Matched(Replay(NO_TABLES, cs), c) && f in Matched(Replay(NO_TABLES, cs), c)
    ensures TouchesTwoGroups(Members(Replay(NO_TABLES, cs), SetOf(cs)), c)
  {
    hide Linked, Share, UniqueIds, Replay;
    ReplayIsConsistent(cs);
    var t := Replay(NO_TABLES, cs);
    var a := OwnerOf(t, SetOf(cs), c, e);
    var b := OwnerOf(t, SetOf(cs), c, f);
    SameEntityExactlyWhenLinked(cs, a, b);
  }

  lemma SharerIsMatched(t: Tables, s: set<Candidate>, a: Candidate, c: Candidate)
    requires OwnersOk(t, s) && a in Members(t, s) && Share(a, c)
    ensures EntityOf(t, a) in Matched(t, c)
  {
    var k :| k in KeysOf(a) && k in KeysOf(c);
    assert t.owners[k] == EntityOf(t, a);
  }

  lemma OneMatchTouchesOneGroup(cs: seq<Candidate>, c: Candidate)
    requires UniqueIds(SetOf(cs)) && |Matched(Replay(NO_TABLES, cs), c)| <= 1
    ensures !TouchesTwoGroups(Members(Replay(NO_TABLES, cs), SetOf(cs)), c)
  {
    hide Linked, UniqueIds, Replay, Share, OwnersOk, Matched;
    ReplayIsConsistent(cs);
    var t := Replay(NO_TABLES, cs);
    var m := Members(t, SetOf(cs));
    forall a, b | a in m && b in m && Share(a, c) && Share(b, c) ensures Linked(m, a, b) {
      SharerIsMatched(t, SetOf(cs), a, c);
      SharerIsMatched(t, SetOf(cs), b, c);
      SingleMatch(t, c, EntityOf(t, a));
    }
  }

  /**
   A new candidate is deferred exactly when it shares identifiers with two resolved
   candidates that no chain links.
   */
  lemma DeferredExactlyWhen(cs: seq<Candidate>, c: Candidate)
    requires UniqueIds(SetOf(cs)) && c.id !in Replay(NO_TABLES, cs).decisions
    ensures Resolved(Replay(NO_TABLES, cs), c).decisions[c.id].Deferred?
       <==> TouchesTwoGroups(Members(Replay(NO_TABLES, cs), SetOf(cs)), c)
  {
    hide TouchesTwoGroups, UniqueIds, Replay;
    var matched := Matched(Replay(NO_TABLES, cs), c);
    if |matched| > 1 {
      var e :| e in matched;
      assert |matched - {e}| > 0;
      var f :| f in matched - {e};
      TwoMatchesTouchTwoGroups(cs, c, e, f);
    } else {
      OneMatchTouchesOneGroup(cs, c);
    }
  }

  // ---------- The order matters only with a deferral ----------

  lemma OwnerIsMatched(t: Tables, c: Candidate, k: IdKey)
    requires k in KeysOf(c) && k in t.owners
    ensures t.owners[k] in Matched(t, c)
  {
  }

  /** What a decision does to the owners and decisions, per kind of match. */
  lemma ResolvedEffect(t: Tables, c: Candidate)
    requires c.id !in t.decisions
    ensures Matched(t, c) == {} ==>
      && Resolved(t, c).decisions == t.decisions[c.id := Created(t.nextId)]
      && Resolved(t, c).owners == t.owners + (map k | k in KeysOf(c) :: t.nextId)
      && Resolved(t, c).nextId == t.nextId + 1
    ensures forall e :: Matched(t, c) == {e} ==>
      && Resolved(t, c).decisions == t.decisions[c.id := Merged(e)]
      && Resolved(t, c).owners == t.owners + (map k | k in KeysOf(c) :: e)
    ensures |Matched(t, c)| > 1 ==> Resolved(t, c).decisions == t.decisions[c.id := Deferred]
  {
    hide ReviewTargets;
    if Matched(t, c) == {} {
      forall k | k in KeysOf(c) ensures k !in t.owners {
        if k in t.owners {
          OwnerIsMatched(t, c, k);
        }
      }
    }
    forall e | Matched(t, c) == {e}
      ensures Resolved(t, c).decisions == t.decisions[c.id := Merged(e)]
      ensures Resolved(t, c).owners == t.owners + (map k | k in KeysOf(c) :: e)
    {
      assert Resolved(t, c) == Accepted(t, c, Merged(e));
      forall k | k in KeysOf(c) && k in t.owners ensures t.owners[k] == e {
        assert t.owners[k] in Matched(t, c);
      }
    }
  }

  lemma ReplayThree(a: Candidate, b: Candidate, c: Candidate)
    ensures Replay(NO_TABLES, [a, b, c]) == Resolved(Resolved(Resolved(NO_TABLES, a), b), c)
  {
    hide Resolved;
    assert [a, b, c][..2] == [a, b] && [a, b][..1] == [a] && [a][..0] == [];
    assert Replay(NO_TABLES, [a]) == Resolved(NO_TABLES, a);
    assert Replay(NO_TABLES, [a, b]) == Resolved(Resolved(NO_TABLES, a), b);
  }

  lemma TwoKeysTwoEntities(t: Tables, c: Candidate, k: IdKey, l: IdKey)
    requires KeysOf(c) == {k, l} && k in t.owners && l in t.owners && t.owners[k] != t.owners[l]
    ensures |Matched(t, c)| == 2
  {
    assert t.owners[k] in Matched(t, c) && t.owners[l] in Matched(t, c);
    assert Matched(t, c) == {t.owners[k], t.owners[l]};
  }

  lemma OneKeyOneEntity(t: Tables, c: Candidate, k: IdKey)
    requires k in KeysOf(c) && k in t.owners && forall l :: l in KeysOf(c) && l in t.owners ==> l == k
    ensures Matched(t, c) == {t.owners[k]}
  {
    assert t.owners[k] in Matched(t, c);
  }

  /**
   With a deferral the order matters: a candidate that carries the identifiers of two others
   is deferred when it comes last, and joins the two when it comes between them.
   */
  lemma OrderMattersWithADeferral(a: Candidate, b: Candidate, c: Candidate, k: IdKey, l: IdKey)
    requires a.id != b.id && b.id != c.id && a.id != c.id && k != l
    requires KeysOf(a) == {k} && KeysOf(b) == {l} && KeysOf(c) == {k, l}
    ensures Replay(NO_TABLES, [a, b, c]).decisions == map[a.id := Created(0), b.id := Created(1), c.id := Deferred]
    ensures Replay(NO_TABLES, [a, c, b]).decisions == map[a.id := Created(0), b.id := Merged(0), c.id := Merged(0)]
  {
    CarrierLast(a, b, c, k, l);
    CarrierBetween(a, b, c, k, l);
  }

  lemma CarrierLast(a: Candidate, b: Candidate, c: Candidate, k: IdKey, l: IdKey)
    requires a.id != b.id && b.id != c.id && a.id != c.id && k != l
    requires KeysOf(a) == {k} && KeysOf(b) == {l} && KeysOf(c) == {k, l}
    ensures Replay(NO_TABLES, [a, b, c]).decisions == map[a.id := Created(0), b.id := Created(1), c.id := Deferred]
  {
    hide Resolved, Replay, Accepted, KeysOf;
    ReplayThree(a, b, c);
    ResolvedEffect(NO_TABLES, a);
    var t := Resolved(NO_TABLES, a);
    assert t.owners == map[k := 0];
    ResolvedEffect(t, b);
    var u := Resolved(t, b);
    assert u.owners == map[k := 0, l := 1];
    TwoKeysTwoEntities(u, c, k, l);
    ResolvedEffect(u, c);
  }

  lemma CarrierBetween(a: Candidate, b: Candidate, c: Candidate, k: IdKey, l: IdKey)
    requires a.id != b.id && b.id != c.id && a.id != c.id && k != l
    requires KeysOf(a) == {k} && KeysOf(b) == {l} && KeysOf(c) == {k, l}
    ensures Replay(NO_TABLES, [a, c, b]).decisions == map[a.id := Created(0), b.id := Merged(0), c.id := Merged(0)]
  {
    hide Resolved, Replay, Accepted, KeysOf;
    ReplayThree(a, c, b);
    ResolvedEffect(NO_TABLES, a);
    var t := Resolved(NO_TABLES, a);
    assert t.owners == map[k := 0];
    OneKeyOneEntity(t, c, k);
    ResolvedEffect(t, c);
    var v := Resolved(t, c);
    assert v.owners == map[k := 0, l := 0];
    OneKeyOneEntity(v, b, l);
    ResolvedEffect(v, b);
  }
}
