/**
 Agreement of the collection with PostgreSQL: a quantity that draining conserves, the exact
 collection a completed run ends with, and the histories for which that is the current set.
 */
module ProjectionAgreement {
  import opened Options
  import opened ProjectionModel
  import opened ProjectionSafety

  /** The worker's snapshot of what is current still holds, and what it confirms is written. */
  ghost predicate Accurate(s: Sys) {
    && (!s.worker.Failing? ==> forall i :: i in Held(s.worker) ==> (i.isCurrent <==> i.key.chunk in s.chunks))
    && (s.worker.Confirming? ==> ChunksOf(s.worker.ups) <= s.points)
  }

  ghost predicate Calm(s: Sys) {
    Sound(s) && Accurate(s)
  }

  /** Both a write and a delete of a current chunk are outstanding: the order of the claims decides. */
  ghost predicate Contested(s: Sys, c: ChunkId) {
    c in s.chunks && UpsertOutstanding(s.db, c) && DeleteOutstanding(s.db, c)
  }

  /** The chunk will be in the collection when nothing is outstanding, if it is not contested. */
  ghost predicate Prospective(s: Sys, c: ChunkId) {
    if c in s.chunks then !DeleteOutstanding(s.db, c) && (c in s.points || UpsertOutstanding(s.db, c))
    else c in s.points && !AnyOutstanding(s.db, c)
  }

  // ---------- Draining conserves the prospect ----------

  /** Two databases in which the same chunks have outstanding rows. */
  ghost predicate SameOutstanding(a: Db, b: Db) {
    && (forall c :: AnyOutstanding(a, c) <==> AnyOutstanding(b, c))
    && (forall c :: UpsertOutstanding(a, c) <==> UpsertOutstanding(b, c))
    && (forall c :: DeleteOutstanding(a, c) <==> DeleteOutstanding(b, c))
  }

  lemma SameKeysSameOutstanding(a: Db, b: Db)
    requires a.outbox.Keys == b.outbox.Keys
    requires forall k :: k in a.outbox ==> (a.outbox[k].state.Succeeded? <==> b.outbox[k].state.Succeeded?)
    ensures SameOutstanding(a, b)
  {
    forall k ensures Outstanding(a, k) <==> Outstanding(b, k) {
    }
    forall c ensures UpsertOutstanding(a, c) <==> UpsertOutstanding(b, c) {
      if UpsertOutstanding(a, c) {
        var k :| k in a.outbox && k.UpsertKey? && k.chunk == c && Outstanding(a, k);
        assert k in b.outbox;
      }
      if UpsertOutstanding(b, c) {
        var k :| k in b.outbox && k.UpsertKey? && k.chunk == c && Outstanding(b, k);
        assert k in a.outbox;
      }
    }
    forall c ensures DeleteOutstanding(a, c) <==> DeleteOutstanding(b, c) {
      if DeleteOutstanding(a, c) {
        var k :| k in a.outbox && k.DeleteKey? && k.chunk == c && Outstanding(a, k);
        assert k in b.outbox;
      }
      if DeleteOutstanding(b, c) {
        var k :| k in b.outbox && k.DeleteKey? && k.chunk == c && Outstanding(b, k);
        assert k in a.outbox;
      }
    }
    forall c ensures AnyOutstanding(a, c) <==> AnyOutstanding(b, c) {
      if AnyOutstanding(a, c) {
        var k :| k in a.outbox && k.chunk == c && Outstanding(a, k);
        assert k in b.outbox;
      }
      if AnyOutstanding(b, c) {
        var k :| k in b.outbox && k.chunk == c && Outstanding(b, k);
        assert k in a.outbox;
      }
    }
  }

  /** Marking a row as succeeded touches the outstanding rows of its own chunk and kind only. */
  lemma ConfirmedOutstanding(db: Db, item: Item)
    requires item.key in db.outbox && db.outbox[item.key].state.Processing?
    ensures forall c :: c != item.key.chunk ==> (AnyOutstanding(db, c) <==> AnyOutstanding(Confirmed(db, item), c))
    ensures forall c :: c != item.key.chunk || item.key.DeleteKey? ==>
      (UpsertOutstanding(db, c) <==> UpsertOutstanding(Confirmed(db, item), c))
    ensures forall c :: c != item.key.chunk || item.key.UpsertKey? ==>
      (DeleteOutstanding(db, c) <==> DeleteOutstanding(Confirmed(db, item), c))
    ensures forall c :: UpsertOutstanding(Confirmed(db, item), c) ==> UpsertOutstanding(db, c)
    ensures forall c :: DeleteOutstanding(Confirmed(db, item), c) ==> DeleteOutstanding(db, c)
    ensures AnyOutstanding(db, item.key.chunk)
    ensures item.key.UpsertKey? ==> UpsertOutstanding(db, item.key.chunk)
    ensures item.key.DeleteKey? ==> DeleteOutstanding(db, item.key.chunk)
  {
    var post := Confirmed(db, item);
    assert Outstanding(db, item.key);
    forall k | k in db.outbox && k != item.key ensures Outstanding(db, k) <==> Outstanding(post, k) {
    }
    forall c | c != item.key.chunk ensures AnyOutstanding(db, c) <==> AnyOutstanding(post, c) {
      if AnyOutstanding(db, c) {
        var k :| k in db.outbox && k.chunk == c && Outstanding(db, k);
        assert k in post.outbox;
      }
    }
    forall c | UpsertOutstanding(db, c) && (c != item.key.chunk || item.key.DeleteKey?)
      ensures UpsertOutstanding(post, c)
    {
      var k :| k in db.outbox && k.UpsertKey? && k.chunk == c && Outstanding(db, k);
      assert k in post.outbox;
    }
    forall c | DeleteOutstanding(db, c) && (c != item.key.chunk || item.key.UpsertKey?)
      ensures DeleteOutstanding(post, c)
    {
      var k :| k in db.outbox && k.DeleteKey? && k.chunk == c && Outstanding(db, k);
      assert k in post.outbox;
    }
  }

  /** What is not contested stays so, and stays what it will be. */
  ghost predicate Conserved(s: Sys, t: Sys) {
    && t.chunks == s.chunks && t.gone == s.gone && t.dropped == s.dropped && Calm(t)
    && forall c :: !Contested(s, c) ==> !Contested(t, c) && (Prospective(t, c) <==> Prospective(s, c))
  }

  /** A row the worker holds is outstanding. */
  lemma HeldIsOutstanding(s: Sys, i: Item)
    requires WorkerOk(s) && i in Held(s.worker)
    ensures AnyOutstanding(s.db, i.key.chunk)
    ensures i.key.UpsertKey? ==> UpsertOutstanding(s.db, i.key.chunk)
    ensures i.key.DeleteKey? ==> DeleteOutstanding(s.db, i.key.chunk)
  {
    assert Outstanding(s.db, i.key);
  }

  lemma ClaimConserves(s: Sys, t: Sys, now: int, limit: nat, lease: Lease)
    requires Calm(s) && ClaimStep(s, t, now, limit, lease)
    ensures Conserved(s, t)
  {
    ClaimKeepsSound(s, t, now, limit, lease);
    ClaimKeepsTables(s.db, now, limit, lease);
    SameKeysSameOutstanding(s.db, t.db);
    var ups := if t.worker.Writing? then t.worker.ups else [];
    assert Held(t.worker) == ups + t.worker.dels;
  }

  lemma WriteConserves(s: Sys, t: Sys)
    requires Calm(s) && WriteStep(s, t)
    ensures Conserved(s, t)
  {
    WriteKeepsSound(s, t);
    forall c | c in t.points && c !in s.points ensures UpsertOutstanding(s.db, c) && c in s.chunks {
      var i :| i in s.worker.ups && i.key.chunk == c;
      assert i in Held(s.worker);
      HeldIsOutstanding(s, i);
    }
    assert t.worker.Confirming? ==> Held(t.worker) == Held(s.worker);
  }

  lemma EraseConserves(s: Sys, t: Sys)
    requires Calm(s) && EraseStep(s, t)
    ensures Conserved(s, t)
  {
    EraseKeepsSound(s, t);
    forall p | p in s.points && p !in t.points
      ensures AnyOutstanding(s.db, p) && (p in s.chunks ==> DeleteOutstanding(s.db, p))
    {
      var i :| i in s.worker.dels && i.key.chunk == p;
      assert i in Held(s.worker);
      HeldIsOutstanding(s, i);
    }
  }

  lemma ConfirmConserves(s: Sys, t: Sys)
    requires Calm(s) && ConfirmStep(s, t)
    ensures Conserved(s, t)
  {
    hide AnyOutstanding, UpsertOutstanding, DeleteOutstanding, Tracked, TablesOk, DistinctKeys, Confirmed;
    ConfirmKeepsSound(s, t);
    HeldShrinks(s, t);
    if s.worker.ups != [] {
      var item := s.worker.ups[0];
      assert item in s.worker.ups && item in Held(s.worker);
      assert item.key.chunk in ChunksOf(s.worker.ups);
      ConfirmedOutstanding(s.db, item);
      assert ChunksOf(s.worker.ups[1..]) <= ChunksOf(s.worker.ups);
    }
  }

  lemma CloseConserves(s: Sys, t: Sys)
    requires Calm(s) && CloseStep(s, t)
    ensures Conserved(s, t)
  {
    hide AnyOutstanding, UpsertOutstanding, DeleteOutstanding, Tracked, TablesOk, DistinctKeys, Confirmed;
    CloseKeepsSound(s, t);
    HeldShrinks(s, t);
    if s.worker.dels != [] {
      var item := s.worker.dels[0];
      assert item in s.worker.dels && item in Held(s.worker);
      ConfirmedOutstanding(s.db, item);
    }
  }

  lemma FailConserves(s: Sys, t: Sys, now: int)
    requires Calm(s) && FailStep(s, t, now)
    ensures Conserved(s, t)
  {
    FailKeepsSound(s, t, now);
    if s.worker.items != [] {
      var item := s.worker.items[0];
      assert item in Held(s.worker);
      SameKeysSameOutstanding(s.db, t.db);
    }
  }

  /** Claims, writes, failed writes, deletes, marks, retries and crashes all conserve it. */
  lemma DrainConservesProspect(s: Sys, t: Sys)
    requires Calm(s) && DrainStep(s, t)
    ensures Conserved(s, t)
  {
    if now, limit, lease :| ClaimStep(s, t, now, limit, lease) {
      ClaimConserves(s, t, now, limit, lease);
    } else if WriteStep(s, t) {
      WriteConserves(s, t);
    } else if EraseStep(s, t) {
      EraseConserves(s, t);
    } else if ConfirmStep(s, t) {
      ConfirmConserves(s, t);
    } else if CloseStep(s, t) {
      CloseConserves(s, t);
    } else if now :| FailStep(s, t, now) {
      FailConserves(s, t, now);
    }
  }

  lemma DrainedMeansReached(s: Sys)
    requires Drained(s.db)
    ensures forall c :: !Contested(s, c) && (c in s.points <==> Prospective(s, c))
  {
    forall c ensures !AnyOutstanding(s.db, c) && !UpsertOutstanding(s.db, c) && !DeleteOutstanding(s.db, c) {
    }
  }

  // ---------- What a completed run ends with ----------

  /** A write of the chunk is outstanding, or the enqueue of the run inserts one. */
  ghost predicate WillWrite(s: Sys, vault: Option<VaultId>, token: Option<Token>, c: ChunkId)
    requires c in s.chunks
  {
    || UpsertOutstanding(s.db, c)
    || (c in Scope(s.chunks, vault) && UpsertKeyOf(s.chunks, c, token) !in s.db.outbox)
  }

  /** The run will have to write a current chunk that it also has to delete. */
  ghost predicate RunContests(s: Sys, vault: Option<VaultId>, token: Option<Token>, c: ChunkId) {
    c in s.chunks && DeleteOutstanding(s.db, c) && WillWrite(s, vault, token, c)
  }

  /** A point of no current chunk that the next run will remove. */
  ghost predicate Removable(s: Sys, p: ChunkId) {
    || AnyOutstanding(s.db, p)
    || (Stale(s.db, s.chunks, p) && DeleteKeyOf(s.db.statuses, p) !in s.db.outbox)
  }

  /** Membership in the final collection as a function of the state in which the run enqueues. */
  ghost predicate Expected(s: Sys, vault: Option<VaultId>, token: Option<Token>, c: ChunkId) {
    if c in s.chunks then !DeleteOutstanding(s.db, c) && (c in s.points || WillWrite(s, vault, token, c))
    else c in s.points && !Removable(s, c)
  }

  lemma EnqueuedOutstanding(s: Sys, t: Sys, vault: Option<VaultId>, token: Option<Token>)
    requires TablesOk(s.db) && EnqueueStep(s, t, vault, token)
    ensures forall c :: c in s.chunks ==> (UpsertOutstanding(t.db, c) <==> WillWrite(s, vault, token, c))
    ensures forall c :: c in s.chunks ==> (DeleteOutstanding(t.db, c) <==> DeleteOutstanding(s.db, c))
    ensures forall p :: p !in s.chunks ==> (AnyOutstanding(t.db, p) <==> Removable(s, p))
  {
    OutboxAfterEnqueue(s.db, t.db, s.chunks, vault, token);
    forall k | k in s.db.outbox ensures Outstanding(s.db, k) <==> Outstanding(t.db, k) {
    }
    forall k | k in t.db.outbox && k !in s.db.outbox ensures Outstanding(t.db, k) {
    }
    forall c | c in s.chunks ensures UpsertOutstanding(t.db, c) <==> WillWrite(s, vault, token, c) {
      if UpsertOutstanding(s.db, c) {
        var k :| k in s.db.outbox && k.UpsertKey? && k.chunk == c && Outstanding(s.db, k);
        assert k in t.db.outbox;
      }
      if c in Scope(s.chunks, vault) && UpsertKeyOf(s.chunks, c, token) !in s.db.outbox {
        assert UpsertKeyOf(s.chunks, c, token) in t.db.outbox;
      }
    }
    forall c | c in s.chunks ensures DeleteOutstanding(t.db, c) <==> DeleteOutstanding(s.db, c) {
      if DeleteOutstanding(s.db, c) {
        var k :| k in s.db.outbox && k.DeleteKey? && k.chunk == c && Outstanding(s.db, k);
        assert k in t.db.outbox;
      }
    }
    forall p | p !in s.chunks ensures AnyOutstanding(t.db, p) <==> Removable(s, p) {
      if AnyOutstanding(s.db, p) {
        var k :| k in s.db.outbox && k.chunk == p && Outstanding(s.db, k);
        assert k in t.db.outbox;
      }
      if Stale(s.db, s.chunks, p) && DeleteKeyOf(s.db.statuses, p) !in s.db.outbox {
        assert DeleteKeyOf(s.db.statuses, p) in t.db.outbox;
      }
    }
  }

  lemma EnqueueSetsProspect(s: Sys, t: Sys, vault: Option<VaultId>, token: Option<Token>)
    requires Sound(s) && EnqueueStep(s, t, vault, token)
    ensures Calm(t) && t.chunks == s.chunks
    ensures forall c :: Contested(t, c) <==> RunContests(s, vault, token, c)
    ensures forall c :: Prospective(t, c) <==> Expected(s, vault, token, c)
  {
    EnqueueKeepsSound(s, t, vault, token);
    EnqueuedOutstanding(s, t, vault, token);
    hide UpsertOutstanding, DeleteOutstanding, AnyOutstanding, WillWrite, Removable, Sound;
  }

  /** `h[i]` enqueues and everything after it up to `h[j]` is one run draining the outbox. */
  ghost predicate RunSegment(h: seq<Sys>, i: nat, j: nat, vault: Option<VaultId>, token: Option<Token>) {
    && i < j < |h|
    && EnqueueStep(h[i], h[i + 1], vault, token)
    && (forall m: nat :: i < m && m + 1 <= j ==> Drains(h, m))
  }

  ghost predicate Drains(h: seq<Sys>, m: nat) {
    m + 1 < |h| && DrainStep(h[m], h[m + 1])
  }

  lemma {:induction false} SegmentConserves(h: seq<Sys>, i: nat, j: nat, vault: Option<VaultId>, token: Option<Token>)
    requires RunSegment(h, i, j, vault, token) && Sound(h[i])
    ensures Calm(h[j]) && h[j].chunks == h[i].chunks
    ensures forall c :: !RunContests(h[i], vault, token, c) ==>
      !Contested(h[j], c) && (Prospective(h[j], c) <==> Expected(h[i], vault, token, c))
    decreases j
  {
    hide Calm, Contested, Prospective, RunContests, Expected, EnqueueStep, DrainStep;
    if j == i + 1 {
      EnqueueSetsProspect(h[i], h[j], vault, token);
    } else {
      SegmentConserves(h, i, j - 1, vault, token);
      assert Drains(h, j - 1);
      DrainConservesProspect(h[j - 1], h[j]);
    }
  }

  /**
   However a run was interrupted and resumed, once nothing is outstanding the collection holds
   exactly what is `Expected` in the state in which the run enqueued its rows, but for the chunks
   that have both a write and a delete outstanding then.
   */
  lemma CompletedRunReachesExpected(h: seq<Sys>, i: nat, j: nat, vault: Option<VaultId>, token: Option<Token>)
    requires History(h) && Initial(h[0]) && RunSegment(h, i, j, vault, token) && Drained(h[j].db)
    ensures forall c :: !RunContests(h[i], vault, token, c) ==>
      (c in h[j].points <==> Expected(h[i], vault, token, c))
  {
    SoundAlways(h, i);
    SegmentConserves(h, i, j, vault, token);
    DrainedMeansReached(h[j]);
  }

  /**
   No current chunk has a delete outstanding, each is in the collection or will be written, and each
   point of no current chunk can be removed.
   */
  ghost predicate WillAgree(s: Sys, vault: Option<VaultId>, token: Option<Token>) {
    && (forall c :: c in s.chunks ==>
          !DeleteOutstanding(s.db, c) && (c in s.points || WillWrite(s, vault, token, c)))
    && (forall p :: p in s.points && p !in s.chunks ==> Removable(s, p))
  }

  /** Exactly when a completed run makes the collection equal to the current chunks. */
  lemma AgreesExactlyWhen(h: seq<Sys>, i: nat, j: nat, vault: Option<VaultId>, token: Option<Token>)
    requires History(h) && Initial(h[0]) && RunSegment(h, i, j, vault, token) && Drained(h[j].db)
    requires forall c :: !RunContests(h[i], vault, token, c)
    ensures h[j].points == h[j].chunks.Keys <==> WillAgree(h[i], vault, token)
  {
    SoundAlways(h, i);
    SegmentConserves(h, i, j, vault, token);
    CompletedRunReachesExpected(h, i, j, vault, token);
    hide History, RunSegment, WillWrite, Removable, DeleteOutstanding, RunContests;
    if h[j].points == h[j].chunks.Keys {
      forall c | c in h[i].chunks
        ensures !DeleteOutstanding(h[i].db, c) && (c in h[i].points || WillWrite(h[i], vault, token, c))
      {
        assert c in h[j].points;
      }
      forall p | p in h[i].points && p !in h[i].chunks ensures Removable(h[i], p) {
        assert p !in h[j].points;
      }
    }
  }

  /**
   A chunk that is current again while its delete is outstanding, and that the run does not write
   anew, is erased: the completed run leaves it without a point.
   */
  lemma CurrentChunkIsErased(h: seq<Sys>, i: nat, j: nat, vault: Option<VaultId>, token: Option<Token>, c: ChunkId)
    requires History(h) && Initial(h[0]) && RunSegment(h, i, j, vault, token) && Drained(h[j].db)
    requires c in h[i].chunks && DeleteOutstanding(h[i].db, c) && !WillWrite(h[i], vault, token, c)
    ensures c in h[j].chunks && c !in h[j].points
  {
    SoundAlways(h, i);
    SegmentConserves(h, i, j, vault, token);
    CompletedRunReachesExpected(h, i, j, vault, token);
  }

  // ---------- Full rebuild ----------

  /** No outstanding delete row targets a current chunk. */
  ghost predicate NoDeleteOfCurrent(s: Sys) {
    forall c :: c in s.chunks ==> !DeleteOutstanding(s.db, c)
  }

  /**
   A completed all-vault rebuild leaves exactly the current chunks, for every past history,
   chunks that left and came back included.
   */
  lemma CompletedRebuildAgrees(h: seq<Sys>, i: nat, j: nat, token: Token)
    requires History(h) && Initial(h[0]) && 0 < i < |h|
    requires DropStep(h[i - 1], h[i]) && RunSegment(h, i, j, None, Some(token))
    requires NoDeleteOfCurrent(h[i]) && Drained(h[j].db)
    ensures h[j].points == h[j].chunks.Keys
  {
    forall c | c in h[i].chunks ensures WillWrite(h[i], None, Some(token), c) {
      assert FreshToken(h[i].db, Some(token));
      assert c in Scope(h[i].chunks, None);
    }
    AgreesExactlyWhen(h, i, j, None, Some(token));
  }
}
