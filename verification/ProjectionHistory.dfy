/**
 Histories in which no chunk id returns after leaving: the invariant they keep, the agreement
 every completed incremental run then reaches, and what goes wrong in the other histories.
 */
module ProjectionHistory {
  import opened Options
  import opened ProjectionModel
  import opened ProjectionSafety
  import opened ProjectionAgreement

  ghost predicate NoReturn(s: Sys) {
    s.chunks.Keys !! s.gone
  }

  ghost predicate HasDeleteRow(db: Db, c: ChunkId) {
    exists k :: k in db.outbox && k.DeleteKey? && k.chunk == c
  }

  ghost predicate HasUpsertRow(db: Db, c: ChunkId) {
    exists k :: k in db.outbox && k.UpsertKey? && k.chunk == c
  }

  /** Every current chunk that ever had an upsert row is written or still to be written. */
  ghost predicate Covered(s: Sys) {
    forall c :: c in s.chunks && HasUpsertRow(s.db, c) ==> c in s.points || UpsertOutstanding(s.db, c)
  }

  ghost predicate BatchSettled(s: Sys) {
    && (s.worker.Writing? ==> forall i :: i in s.worker.ups ==> !HasDeleteRow(s.db, i.key.chunk))
    && (s.worker.Confirming? ==> forall i :: i in s.worker.ups ==> i.key.chunk in s.points)
    && (!s.worker.Idle? && !s.worker.Failing? ==> forall i :: i in s.worker.dels ==> i.key.chunk in s.gone)
  }

  ghost predicate Settled(s: Sys) {
    && Sound(s)
    && NoReturn(s)
    && s.db.statuses.Keys <= s.chunks.Keys + s.gone
    && (forall c :: HasDeleteRow(s.db, c) ==> c in s.gone)
    && (forall p :: p in s.points && HasDeleteRow(s.db, p) ==> DeleteOutstanding(s.db, p))
    && (!s.dropped ==> Covered(s))
    && BatchSettled(s)
  }

  lemma ChangeKeepsSettled(s: Sys, t: Sys)
    requires Settled(s) && ChangeStep(s, t) && NoReturn(t)
    ensures Settled(t)
  {
    forall c | c in t.chunks && HasUpsertRow(t.db, c) ensures c in s.chunks {
      var k :| k in t.db.outbox && k.UpsertKey? && k.chunk == c;
      assert k.chunk in s.db.statuses;
    }
  }

  lemma EnqueueKeepsSettled(s: Sys, t: Sys, vault: Option<VaultId>, token: Option<Token>)
    requires Settled(s) && EnqueueStep(s, t, vault, token)
    ensures Settled(t)
  {
    EnqueueKeepsSound(s, t, vault, token);
    OutboxAfterEnqueue(s.db, t.db, s.chunks, vault, token);
    StatusesAfterEnqueue(s.db, t.db, s.chunks, vault, token);
    EnqueuedOutstanding(s, t, vault, token);
    forall c | HasDeleteRow(t.db, c) ensures c in t.gone {
      var k :| k in t.db.outbox && k.DeleteKey? && k.chunk == c;
      assert k in s.db.outbox ==> HasDeleteRow(s.db, c);
    }
    forall p | p in t.points && HasDeleteRow(t.db, p) ensures DeleteOutstanding(t.db, p) {
      var k :| k in t.db.outbox && k.DeleteKey? && k.chunk == p;
      if k in s.db.outbox {
        assert HasDeleteRow(s.db, p);
        var m :| m in s.db.outbox && m.DeleteKey? && m.chunk == p && Outstanding(s.db, m);
        assert Outstanding(t.db, m);
      } else {
        assert Outstanding(t.db, k);
      }
    }
    if !t.dropped {
      EnqueueKeepsCovered(s, t, vault, token);
    }
  }

  /** An all-vault rebuild covers every current chunk again, whatever was dropped before. */
  lemma EnqueueKeepsCovered(s: Sys, t: Sys, vault: Option<VaultId>, token: Option<Token>)
    requires TablesOk(s.db) && EnqueueStep(s, t, vault, token) && (!s.dropped ==> Covered(s)) && !t.dropped
    ensures Covered(t)
  {
    OutboxAfterEnqueue(s.db, t.db, s.chunks, vault, token);
    EnqueuedOutstanding(s, t, vault, token);
    forall c | c in t.chunks && HasUpsertRow(t.db, c) ensures c in t.points || UpsertOutstanding(t.db, c) {
      if s.dropped {
        assert c in Scope(s.chunks, vault);
        assert UpsertKeyOf(s.chunks, c, token) !in s.db.outbox;
      } else {
        var k :| k in t.db.outbox && k.UpsertKey? && k.chunk == c;
        if k in s.db.outbox {
          assert HasUpsertRow(s.db, c);
        }
      }
    }
  }

  /** Steps that insert no outbox row keep which chunks have rows. */
  lemma SameRows(a: Db, b: Db)
    requires a.outbox.Keys == b.outbox.Keys
    ensures forall c :: HasDeleteRow(a, c) <==> HasDeleteRow(b, c)
    ensures forall c :: HasUpsertRow(a, c) <==> HasUpsertRow(b, c)
  {
    forall c ensures HasDeleteRow(a, c) <==> HasDeleteRow(b, c) {
      if HasDeleteRow(a, c) {
        var k :| k in a.outbox && k.DeleteKey? && k.chunk == c;
        assert k in b.outbox;
      }
      if HasDeleteRow(b, c) {
        var k :| k in b.outbox && k.DeleteKey? && k.chunk == c;
        assert k in a.outbox;
      }
    }
    forall c ensures HasUpsertRow(a, c) <==> HasUpsertRow(b, c) {
      if HasUpsertRow(a, c) {
        var k :| k in a.outbox && k.UpsertKey? && k.chunk == c;
        assert k in b.outbox;
      }
      if HasUpsertRow(b, c) {
        var k :| k in b.outbox && k.UpsertKey? && k.chunk == c;
        assert k in a.outbox;
      }
    }
  }

  lemma ClaimKeepsSettled(s: Sys, t: Sys, now: int, limit: nat, lease: Lease)
    requires Settled(s) && ClaimStep(s, t, now, limit, lease)
    ensures Settled(t)
  {
    ClaimKeepsSound(s, t, now, limit, lease);
    ClaimKeepsTables(s.db, now, limit, lease);
    SameKeysSameOutstanding(s.db, t.db);
    SameRows(s.db, t.db);
    var ups := if t.worker.Writing? then t.worker.ups else [];
    forall i | i in t.worker.dels ensures i.key.chunk in t.gone {
      assert i in ups + t.worker.dels;
      if i.key.DeleteKey? {
        assert HasDeleteRow(s.db, i.key.chunk);
      } else {
        assert i.key.chunk in s.db.statuses;
      }
    }
    forall i | i in ups ensures !HasDeleteRow(t.db, i.key.chunk) {
      assert i in ups + t.worker.dels;
    }
  }

  lemma TouchKeepsSettled(s: Sys, t: Sys)
    requires Settled(s) && (WriteStep(s, t) || EraseStep(s, t))
    ensures Settled(t)
  {
    if WriteStep(s, t) {
      WriteKeepsSound(s, t);
    } else {
      EraseKeepsSound(s, t);
      forall p | p in s.points && p !in t.points ensures p in s.gone {
      }
    }
  }

  lemma ConfirmKeepsSettled(s: Sys, t: Sys)
    requires Settled(s) && ConfirmStep(s, t)
    ensures Settled(t)
  {
    ConfirmKeepsSound(s, t);
    if s.worker.ups != [] {
      var item := s.worker.ups[0];
      assert item in s.worker.ups && item in Held(s.worker);
      SameRows(s.db, t.db);
      ConfirmedOutstanding(s.db, item);
      ConfirmedDeleteOutstanding(s.db, item);
    }
  }

  lemma ConfirmedDeleteOutstanding(db: Db, item: Item)
    ensures forall c :: DeleteOutstanding(db, c) && (c != item.key.chunk || item.key.UpsertKey?) ==>
      DeleteOutstanding(Confirmed(db, item), c)
  {
    forall c | DeleteOutstanding(db, c) && (c != item.key.chunk || item.key.UpsertKey?)
      ensures DeleteOutstanding(Confirmed(db, item), c)
    {
      var k :| k in db.outbox && k.DeleteKey? && k.chunk == c && Outstanding(db, k);
      assert Outstanding(Confirmed(db, item), k);
    }
  }

  lemma CloseKeepsSettled(s: Sys, t: Sys)
    requires Settled(s) && CloseStep(s, t)
    ensures Settled(t)
  {
    CloseKeepsSound(s, t);
    if s.worker.dels != [] {
      var item := s.worker.dels[0];
      assert item in s.worker.dels && item in Held(s.worker);
      SameRows(s.db, t.db);
      ConfirmedOutstanding(s.db, item);
      ConfirmedDeleteOutstanding(s.db, item);
    }
  }

  lemma FailKeepsSettled(s: Sys, t: Sys, now: int)
    requires Settled(s) && FailStep(s, t, now)
    ensures Settled(t)
  {
    FailKeepsSound(s, t, now);
    if s.worker.items != [] {
      var item := s.worker.items[0];
      assert item in Held(s.worker);
      SameRows(s.db, t.db);
      SameKeysSameOutstanding(s.db, t.db);
    }
  }

  lemma StepKeepsSettled(s: Sys, t: Sys)
    requires Settled(s) && Step(s, t) && NoReturn(t)
    ensures Settled(t)
  {
    if ChangeStep(s, t) {
      ChangeKeepsSettled(s, t);
    } else if vault, token :| EnqueueStep(s, t, vault, token) {
      EnqueueKeepsSettled(s, t, vault, token);
    } else if DropStep(s, t) {
    } else if now, limit, lease :| ClaimStep(s, t, now, limit, lease) {
      ClaimKeepsSettled(s, t, now, limit, lease);
    } else if WriteStep(s, t) || EraseStep(s, t) {
      TouchKeepsSettled(s, t);
    } else if ConfirmStep(s, t) {
      ConfirmKeepsSettled(s, t);
    } else if CloseStep(s, t) {
      CloseKeepsSettled(s, t);
    } else if now :| FailStep(s, t, now) {
      FailKeepsSettled(s, t, now);
    }
  }

  lemma {:induction false} SettledAlways(h: seq<Sys>, i: nat)
    requires History(h) && Initial(h[0]) && i < |h|
    requires forall m :: 0 <= m <= i ==> NoReturn(h[m])
    ensures Settled(h[i])
  {
    if i > 0 {
      SettledAlways(h, i - 1);
      NextStep(h, i);
      StepKeepsSettled(h[i - 1], h[i]);
    }
  }

  // ---------- Agreement ----------

  lemma SettledIsExpected(s: Sys, vault: Option<VaultId>)
    requires Settled(s) && !s.dropped
    ensures NoDeleteOfCurrent(s)
    ensures forall c :: c in Scope(s.chunks, vault) ==> c in s.chunks && Expected(s, vault, None, c)
    ensures forall c :: c in s.points * s.chunks.Keys ==> Expected(s, vault, None, c)
    ensures forall p :: p !in s.chunks ==> !Expected(s, vault, None, p)
  {
    forall c | c in s.chunks ensures !DeleteOutstanding(s.db, c) {
      if DeleteOutstanding(s.db, c) {
        assert HasDeleteRow(s.db, c);
      }
    }
    forall c | c in Scope(s.chunks, vault) ensures c in s.chunks && Expected(s, vault, None, c) {
      if UpsertKeyOf(s.chunks, c, None) in s.db.outbox {
        assert HasUpsertRow(s.db, c);
      }
    }
    forall p | p in s.points && p !in s.chunks ensures Removable(s, p) {
      if !AnyOutstanding(s.db, p) && DeleteKeyOf(s.db.statuses, p) in s.db.outbox {
        assert HasDeleteRow(s.db, p);
      }
    }
  }

  /**
   Over any history of runs, failures and crashes in which no chunk id returns, a completed
   incremental run leaves the current chunks of its scope in the collection, no other vault's
   current point lost and no point of a chunk that is not current; an all-vault run leaves
   exactly the current chunks.
   */
  lemma CompletedIncrementalRunAgrees(h: seq<Sys>, i: nat, j: nat, vault: Option<VaultId>)
    requires History(h) && Initial(h[0]) && RunSegment(h, i, j, vault, None)
    requires forall m :: 0 <= m <= i ==> NoReturn(h[m])
    requires !h[i].dropped && Drained(h[j].db)
    ensures Scope(h[j].chunks, vault) <= h[j].points <= h[j].chunks.Keys
    ensures h[i].points * h[j].chunks.Keys <= h[j].points
    ensures vault.None? ==> h[j].points == h[j].chunks.Keys
  {
    SettledAlways(h, i);
    SettledIsExpected(h[i], vault);
    CompletedRunReachesExpected(h, i, j, vault, None);
    SegmentConserves(h, i, j, vault, None);
    hide Settled, History, Expected, RunSegment;
    forall c ensures !RunContests(h[i], vault, None, c) {
    }
    if vault.None? {
      assert Scope(h[j].chunks, vault) == h[j].chunks.Keys;
    }
  }

  /** Without a rebuild the collection is never dropped. */
  lemma {:induction false} NeverDropped(h: seq<Sys>, i: nat)
    requires History(h) && Initial(h[0]) && i < |h|
    requires forall m: nat :: m < i && m + 1 < |h| ==> !DropStep(h[m], h[m + 1])
    ensures !h[i].dropped
  {
    if i > 0 {
      NeverDropped(h, i - 1);
      NextStep(h, i);
      assert !DropStep(h[i - 1], h[i - 1 + 1]);
    }
  }

  // ---------- What goes wrong otherwise ----------

  /** The chunk was erased, or its collection dropped, after its generation had been written. */
  ghost predicate Missing(s: Sys, c: ChunkId, generation: int) {
    UpsertKey(c, generation, None) in s.db.outbox && !UpsertOutstanding(s.db, c) && c !in s.points
  }

  /** The step inserts a write of the chunk for a rebuild. */
  ghost predicate Rebuilt(s: Sys, t: Sys, c: ChunkId) {
    exists k :: k in t.db.outbox && k !in s.db.outbox && k.UpsertKey? && k.chunk == c && k.rebuild.Some?
  }

  lemma EnqueueKeepsMissing(s: Sys, t: Sys, vault: Option<VaultId>, token: Option<Token>, c: ChunkId, generation: int)
    requires Sound(s) && EnqueueStep(s, t, vault, token) && Missing(s, c, generation) && !Rebuilt(s, t, c)
    requires c in s.chunks ==> s.chunks[c].generation == generation
    ensures Missing(t, c, generation)
  {
    OutboxAfterEnqueue(s.db, t.db, s.chunks, vault, token);
    forall k | k in t.db.outbox && k.UpsertKey? && k.chunk == c
      ensures k in s.db.outbox && t.db.outbox[k] == s.db.outbox[k] && !Outstanding(s.db, k)
    {
    }
  }

  lemma StepKeepsMissing(s: Sys, t: Sys, c: ChunkId, generation: int)
    requires Sound(s) && Step(s, t) && Missing(s, c, generation) && !Rebuilt(s, t, c)
    requires c in s.chunks ==> s.chunks[c].generation == generation
    ensures Missing(t, c, generation)
  {
    if vault, token :| EnqueueStep(s, t, vault, token) {
      EnqueueKeepsMissing(s, t, vault, token, c, generation);
    } else if now, limit, lease :| ClaimStep(s, t, now, limit, lease) {
      ClaimKeepsTables(s.db, now, limit, lease);
      SameKeysSameOutstanding(s.db, t.db);
    } else if WriteStep(s, t) {
      forall i | i in s.worker.ups ensures i.key.chunk != c {
        assert i in Held(s.worker);
        HeldIsOutstanding(s, i);
      }
    } else if now :| FailStep(s, t, now) {
      FailKeepsMissing(s, t, now, c, generation);
    } else if ConfirmStep(s, t) || CloseStep(s, t) {
      MarkKeepsMissing(s, t, c, generation);
    }
  }

  lemma FailKeepsMissing(s: Sys, t: Sys, now: int, c: ChunkId, generation: int)
    requires Sound(s) && FailStep(s, t, now) && Missing(s, c, generation)
    ensures Missing(t, c, generation)
  {
    if s.worker.items != [] {
      assert s.worker.items[0] in Held(s.worker);
      SameKeysSameOutstanding(s.db, t.db);
    }
  }

  lemma MarkKeepsMissing(s: Sys, t: Sys, c: ChunkId, generation: int)
    requires Sound(s) && (ConfirmStep(s, t) || CloseStep(s, t)) && Missing(s, c, generation)
    ensures Missing(t, c, generation)
  {
    hide TablesOk, Tracked;
    var items := if s.worker.Confirming? then s.worker.ups else s.worker.dels;
    if items != [] {
      assert items[0] in Held(s.worker);
      ConfirmedOutstanding(s.db, items[0]);
    }
  }

  /**
   A chunk that is missing although its generation was written once, as after a file was reverted
   or a rebuild crashed between its two halves, stays missing in every later state, whatever runs
   complete, until a rebuild writes it or its generation changes.
   */
  lemma {:induction false} MissingChunkStaysMissing(h: seq<Sys>, i: nat, j: nat, c: ChunkId, generation: int)
    requires History(h) && Initial(h[0]) && i <= j < |h| && Missing(h[i], c, generation)
    requires forall m :: i <= m < j && c in h[m].chunks ==> h[m].chunks[c].generation == generation
    requires forall m :: i < m <= j ==> !Rebuilt(h[m - 1], h[m], c)
    ensures Missing(h[j], c, generation)
    decreases j
  {
    hide Missing, Rebuilt;
    if i < j {
      MissingChunkStaysMissing(h, i, j - 1, c, generation);
      SoundAlways(h, j - 1);
      NextStep(h, j);
      StepKeepsMissing(h[j - 1], h[j], c, generation);
    }
  }

  /**
   A chunk id that returns with its old generation, as when a file is reverted, is not
   written again: whatever incremental runs complete later, its point is missing.
   */
  lemma ReturnedChunkStaysMissing(h: seq<Sys>, i: nat, j: nat, c: ChunkId)
    requires History(h) && Initial(h[0]) && i <= j < |h|
    requires Drained(h[i].db) && c !in h[i].points
    requires c in h[i].chunks && UpsertKeyOf(h[i].chunks, c, None) in h[i].db.outbox
    requires forall m :: i <= m <= j && c in h[m].chunks ==> h[m].chunks[c].generation == h[i].chunks[c].generation
    requires forall m :: i < m <= j ==> !Rebuilt(h[m - 1], h[m], c)
    ensures c !in h[j].points && !UpsertOutstanding(h[j].db, c)
  {
    MissingChunkStaysMissing(h, i, j, c, h[i].chunks[c].generation);
  }

  /** A point without outstanding rows whose next delete key was used. */
  ghost predicate Stranded(s: Sys, p: ChunkId) {
    && p in s.points && p in s.db.statuses && !AnyOutstanding(s.db, p)
    && DeleteKeyOf(s.db.statuses, p) in s.db.outbox
  }

  /** No row is inserted for a chunk that is not current and whose delete key was used. */
  lemma EnqueueLeavesAlone(s: Sys, t: Sys, vault: Option<VaultId>, token: Option<Token>, p: ChunkId)
    requires EnqueueStep(s, t, vault, token) && p !in s.chunks && p in s.db.statuses
    requires DeleteKeyOf(s.db.statuses, p) in s.db.outbox
    ensures p in t.db.statuses && t.db.statuses[p] == s.db.statuses[p]
    ensures DeleteKeyOf(s.db.statuses, p) in t.db.outbox
  {
    assert p !in NewUpserts(s.db, s.chunks, vault, token) && p !in NewDeletes(s.db, s.chunks);
    hide NewUpserts, NewDeletes, Ordered;
  }

  lemma EnqueueKeepsStranded(s: Sys, t: Sys, vault: Option<VaultId>, token: Option<Token>, p: ChunkId)
    requires Sound(s) && EnqueueStep(s, t, vault, token) && Stranded(s, p) && p !in s.chunks
    ensures Stranded(t, p)
  {
    hide Enqueued, AnyOutstanding, FreshToken, Sound;
    assert !Removable(s, p) && t.points == s.points;
    hide EnqueueStep, Removable;
    EnqueueLeavesAlone(s, t, vault, token, p);
    StaysUnremovable(s, t, vault, token, p);
  }

  lemma StaysUnremovable(s: Sys, t: Sys, vault: Option<VaultId>, token: Option<Token>, p: ChunkId)
    requires Sound(s) && EnqueueStep(s, t, vault, token) && p !in s.chunks && !Removable(s, p)
    ensures !AnyOutstanding(t.db, p)
  {
    EnqueuedOutstanding(s, t, vault, token);
    hide EnqueueStep, UpsertOutstanding, DeleteOutstanding, AnyOutstanding, WillWrite, Removable, Sound;
  }

  lemma StepKeepsStranded(s: Sys, t: Sys, p: ChunkId)
    requires Sound(s) && Step(s, t) && Stranded(s, p) && p !in s.chunks && !DropStep(s, t)
    ensures Stranded(t, p)
  {
    if vault, token :| EnqueueStep(s, t, vault, token) {
      EnqueueKeepsStranded(s, t, vault, token, p);
    } else if now, limit, lease :| ClaimStep(s, t, now, limit, lease) {
      ClaimKeepsTables(s.db, now, limit, lease);
      SameKeysSameOutstanding(s.db, t.db);
    } else if EraseStep(s, t) {
      forall i | i in s.worker.dels ensures i.key.chunk != p {
        assert i in Held(s.worker);
        HeldIsOutstanding(s, i);
      }
    } else if now :| FailStep(s, t, now) {
      FailKeepsStranded(s, t, now, p);
    } else if ConfirmStep(s, t) || CloseStep(s, t) {
      MarkKeepsStranded(s, t, p);
    }
  }

  lemma FailKeepsStranded(s: Sys, t: Sys, now: int, p: ChunkId)
    requires Sound(s) && FailStep(s, t, now) && Stranded(s, p)
    ensures Stranded(t, p)
  {
    hide TablesOk, Tracked;
    if s.worker.items != [] {
      assert s.worker.items[0] in Held(s.worker);
      HeldIsOutstanding(s, s.worker.items[0]);
      SameKeysSameOutstanding(s.db, t.db);
    }
  }

  lemma MarkKeepsStranded(s: Sys, t: Sys, p: ChunkId)
    requires Sound(s) && (ConfirmStep(s, t) || CloseStep(s, t)) && Stranded(s, p)
    ensures Stranded(t, p)
  {
    hide TablesOk, Tracked;
    var items := if s.worker.Confirming? then s.worker.ups else s.worker.dels;
    if items != [] {
      assert items[0] in Held(s.worker);
      HeldIsOutstanding(s, items[0]);
      ConfirmedOutstanding(s.db, items[0]);
    }
  }

  /**
   A chunk that leaves again after a rebuild had restored it keeps its point, because the delete
   key of its generation was used when it left the first time: the point stays in every later
   state, whatever runs complete, until the chunk is current again or the collection is deleted.
   */
  lemma {:induction false} SecondDepartureKeepsStalePoint(h: seq<Sys>, i: nat, j: nat, p: ChunkId)
    requires History(h) && Initial(h[0]) && i <= j < |h| && Stranded(h[i], p)
    requires forall m :: i <= m < j ==> p !in h[m].chunks
    requires forall m :: i < m <= j ==> !DropStep(h[m - 1], h[m])
    ensures Stranded(h[j], p)
    decreases j
  {
    hide Stranded, DropStep;
    if i < j {
      SecondDepartureKeepsStalePoint(h, i, j - 1, p);
      SoundAlways(h, j - 1);
      NextStep(h, j);
      StepKeepsStranded(h[j - 1], h[j], p);
    }
  }

  /**
   A rebuild that crashes after deleting the collection and before enqueueing is not repaired
   by incremental runs: the next one completes with an empty collection.
   */
  lemma CrashedRebuildLeavesEmptyCollection(h: seq<Sys>, i: nat, j: nat)
    requires History(h) && Initial(h[0]) && 0 < i < |h| && RunSegment(h, i, j, None, None)
    requires Drained(h[i - 1].db) && DropStep(h[i - 1], h[i])
    requires forall c :: c in h[i].chunks ==> UpsertKeyOf(h[i].chunks, c, None) in h[i].db.outbox
    requires Drained(h[j].db)
    ensures h[j].points == {}
  {
    forall d ensures !UpsertOutstanding(h[i].db, d) && !DeleteOutstanding(h[i].db, d) {
    }
    CompletedRunReachesExpected(h, i, j, None, None);
    forall c ensures c !in h[j].points {
      assert !RunContests(h[i], None, None, c);
    }
  }
}
