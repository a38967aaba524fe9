/**
 What every step keeps, for every history: retries, failures that reach any part of the
 collection, crashes between any two steps, and chunks that leave and come back.
 */
module ProjectionSafety {
  import opened Options
  import opened ProjectionModel

  ghost predicate RowOk(row: Row) {
    && row.attempts <= row.maxAttempts
    && (row.state.Pending? ==> row.attempts < row.maxAttempts)
    && (row.state.Failed? ==> row.attempts == row.maxAttempts)
    && (row.state.Processing? <==> row.lease.Some?)
  }

  ghost predicate TablesOk(db: Db) {
    && Ordered(db)
    && (forall k :: k in db.outbox ==> RowOk(db.outbox[k]))
    && (forall k :: k in db.outbox ==> k.chunk in db.statuses)
  }

  /** The point can be found again: its status row is live or a row for it is outstanding. */
  ghost predicate Tracked(db: Db, p: ChunkId) {
    && p in db.statuses
    && (!db.statuses[p].kind.StatusDeleted? || AnyOutstanding(db, p))
  }

  function Held(w: Worker): seq<Item> {
    match w
    case Idle => []
    case Writing(ups, dels) => ups + dels
    case Confirming(ups, dels) => ups + dels
    case Erasing(dels) => dels
    case Closing(dels) => dels
    case Failing(items) => items
  }

  ghost predicate WorkerOk(s: Sys) {
    && DistinctKeys(Held(s.worker))
    && (forall i :: i in Held(s.worker) ==> i.key in s.db.outbox && s.db.outbox[i.key].state.Processing?)
    && (s.worker.Writing? || s.worker.Confirming? ==>
          (forall i :: i in s.worker.ups ==> i.Writes()) && (forall i :: i in s.worker.dels ==> !i.Writes()))
    && (s.worker.Erasing? || s.worker.Closing? ==> forall i :: i in s.worker.dels ==> !i.Writes())
    && (s.worker.Closing? ==> forall i :: i in s.worker.dels ==> i.key.chunk !in s.points)
  }

  ghost predicate Sound(s: Sys) {
    && TablesOk(s.db)
    && (forall p :: p in s.points ==> Tracked(s.db, p))
    && WorkerOk(s)
  }

  // ---------- Transactions ----------

  /** The rows and status rows that one enqueue adds. */
  lemma OutboxAfterEnqueue(pre: Db, post: Db, chunks: Chunks, vault: Option<VaultId>, token: Option<Token>)
    requires Enqueued(pre, post, chunks, vault, token)
    ensures forall k :: k in pre.outbox ==> k in post.outbox && post.outbox[k] == pre.outbox[k]
    ensures forall k :: k in post.outbox && k !in pre.outbox ==> post.outbox[k] == FRESH_ROW
    ensures forall k :: k in post.outbox && k !in pre.outbox && k.UpsertKey? ==>
      k.chunk in Scope(chunks, vault) && k.chunk in chunks && k == UpsertKeyOf(chunks, k.chunk, token)
    ensures forall k :: k in post.outbox && k !in pre.outbox && k.DeleteKey? ==>
      Stale(pre, chunks, k.chunk) && k == DeleteKeyOf(pre.statuses, k.chunk)
    ensures forall c :: c in Scope(chunks, vault) ==> c in chunks && UpsertKeyOf(chunks, c, token) in post.outbox
    ensures forall c :: Stale(pre, chunks, c) ==> DeleteKeyOf(pre.statuses, c) in post.outbox
  {
    RowsAdded(pre, post, chunks, vault, token);
    RowsWanted(pre, post, chunks, vault, token);
  }

  lemma RowsAdded(pre: Db, post: Db, chunks: Chunks, vault: Option<VaultId>, token: Option<Token>)
    requires Enqueued(pre, post, chunks, vault, token)
    ensures forall k :: k in pre.outbox ==> k in post.outbox && post.outbox[k] == pre.outbox[k]
    ensures forall k :: k in post.outbox && k !in pre.outbox ==> post.outbox[k] == FRESH_ROW
    ensures forall k :: k in post.outbox && k !in pre.outbox && k.UpsertKey? ==>
      k.chunk in Scope(chunks, vault) && k.chunk in chunks && k == UpsertKeyOf(chunks, k.chunk, token)
    ensures forall k :: k in post.outbox && k !in pre.outbox && k.DeleteKey? ==>
      Stale(pre, chunks, k.chunk) && k == DeleteKeyOf(pre.statuses, k.chunk)
  {
    hide Ordered, Scope;
  }

  lemma RowsWanted(pre: Db, post: Db, chunks: Chunks, vault: Option<VaultId>, token: Option<Token>)
    requires Enqueued(pre, post, chunks, vault, token)
    ensures forall c :: c in Scope(chunks, vault) ==> c in chunks && UpsertKeyOf(chunks, c, token) in post.outbox
    ensures forall c :: Stale(pre, chunks, c) ==> DeleteKeyOf(pre.statuses, c) in post.outbox
  {
    hide Ordered;
    var ups, dels := NewUpserts(pre, chunks, vault, token), NewDeletes(pre, chunks);
    forall c | c in Scope(chunks, vault) ensures c in chunks && UpsertKeyOf(chunks, c, token) in post.outbox {
      assert c in ups || UpsertKeyOf(chunks, c, token) in pre.outbox;
    }
    forall c | Stale(pre, chunks, c) ensures DeleteKeyOf(pre.statuses, c) in post.outbox {
      assert c in dels || DeleteKeyOf(pre.statuses, c) in pre.outbox;
    }
  }

  lemma StatusesAfterEnqueue(pre: Db, post: Db, chunks: Chunks, vault: Option<VaultId>, token: Option<Token>)
    requires Enqueued(pre, post, chunks, vault, token)
    ensures forall c :: c in pre.statuses ==> c in post.statuses
    ensures forall c :: c in Scope(chunks, vault) && c in chunks && UpsertKeyOf(chunks, c, token) !in pre.outbox ==>
      c in post.statuses
    ensures forall c :: c in post.statuses ==> c in pre.statuses || c in chunks
    ensures forall c :: c in pre.statuses ==>
      post.statuses[c] == pre.statuses[c] || post.statuses[c].kind.StatusPending?
  {
  }

  lemma EnqueueKeepsTables(pre: Db, post: Db, chunks: Chunks, vault: Option<VaultId>, token: Option<Token>)
    requires TablesOk(pre) && Enqueued(pre, post, chunks, vault, token)
    ensures TablesOk(post)
  {
    OutboxAfterEnqueue(pre, post, chunks, vault, token);
    StatusesAfterEnqueue(pre, post, chunks, vault, token);
  }

  lemma {:induction false} DueKeysAreDue(outbox: map<Key, Row>, order: seq<Key>, now: int, limit: nat)
    ensures forall k :: k in DueKeys(outbox, order, now, limit) ==> k in order && k in outbox && Due(outbox[k], now)
  {
    if order != [] && limit > 0 {
      DueKeysAreDue(outbox, order[1..], now, limit);
      DueKeysAreDue(outbox, order[1..], now, limit - 1);
    }
  }

  lemma ClaimKeepsTables(db: Db, now: int, limit: nat, lease: Lease)
    requires TablesOk(db)
    ensures TablesOk(WithLeases(db, DueKeys(db.outbox, db.order, now, limit), lease))
    ensures forall k :: k in DueKeys(db.outbox, db.order, now, limit) ==> k in db.outbox && Due(db.outbox[k], now)
  {
    DueKeysAreDue(db.outbox, db.order, now, limit);
  }

  lemma MarkKeepsTables(db: Db, item: Item, now: int)
    requires TablesOk(db)
    ensures TablesOk(Confirmed(db, item)) && TablesOk(Rejected(db, item, now))
  {
  }

  // ---------- Steps ----------

  lemma EnqueueKeepsSound(s: Sys, t: Sys, vault: Option<VaultId>, token: Option<Token>)
    requires Sound(s) && EnqueueStep(s, t, vault, token)
    ensures Sound(t)
  {
    OutboxAfterEnqueue(s.db, t.db, s.chunks, vault, token);
    StatusesAfterEnqueue(s.db, t.db, s.chunks, vault, token);
    EnqueueKeepsTables(s.db, t.db, s.chunks, vault, token);
    forall p | p in t.points ensures Tracked(t.db, p) {
      if AnyOutstanding(s.db, p) {
        var k :| k in s.db.outbox && k.chunk == p && Outstanding(s.db, k);
        assert Outstanding(t.db, k);
      }
    }
  }

  lemma ClaimKeepsSound(s: Sys, t: Sys, now: int, limit: nat, lease: Lease)
    requires Sound(s) && ClaimStep(s, t, now, limit, lease)
    ensures Sound(t)
  {
    ClaimKeepsTables(s.db, now, limit, lease);
    forall p | p in t.points ensures Tracked(t.db, p) {
      if AnyOutstanding(s.db, p) {
        var k :| k in s.db.outbox && k.chunk == p && Outstanding(s.db, k);
        assert Outstanding(t.db, k);
      }
    }
    var keys := DueKeys(s.db.outbox, s.db.order, now, limit);
    forall i | i in Held(t.worker) ensures i.key in t.db.outbox && t.db.outbox[i.key].state.Processing? {
      var ups := if t.worker.Writing? then t.worker.ups else [];
      assert i in ups + t.worker.dels;
      assert i.key in keys;
    }
    var ups := if t.worker.Writing? then t.worker.ups else [];
    assert Held(t.worker) == ups + t.worker.dels;
  }

  lemma WriteKeepsSound(s: Sys, t: Sys)
    requires Sound(s) && WriteStep(s, t)
    ensures Sound(t)
  {
    forall p | p in t.points && p !in s.points ensures Tracked(t.db, p) {
      var i :| i in s.worker.ups && i.key.chunk == p;
      assert i in Held(s.worker);
      assert Outstanding(t.db, i.key);
    }
    FirstPartDistinct(s.worker.ups, s.worker.dels);
  }

  lemma FirstPartDistinct(a: seq<Item>, b: seq<Item>)
    requires DistinctKeys(a + b)
    ensures DistinctKeys(a) && DistinctKeys(b)
    ensures a != [] ==> DistinctKeys(a[1..] + b) && forall i :: i in a[1..] + b ==> i.key != a[0].key
  {
    forall i, j | 0 <= i < j < |a| ensures a[i].key != a[j].key {
      assert (a + b)[i] == a[i] && (a + b)[j] == a[j];
    }
    forall i, j | 0 <= i < j < |b| ensures b[i].key != b[j].key {
      assert (a + b)[|a| + i] == b[i] && (a + b)[|a| + j] == b[j];
    }
    if a != [] {
      assert (a + b)[1..] == a[1..] + b;
      assert (a + b)[0] == a[0];
    }
  }

  lemma EraseKeepsSound(s: Sys, t: Sys)
    requires Sound(s) && EraseStep(s, t)
    ensures Sound(t)
  {
  }

  /** Marking an item that wrote its point, or whose point is gone, leaves no point untracked. */
  lemma ConfirmedKeepsTracked(db: Db, item: Item, points: set<ChunkId>)
    requires forall p :: p in points ==> Tracked(db, p)
    requires item.Writes() || item.key.chunk !in points
    ensures forall p :: p in points ==> Tracked(Confirmed(db, item), p)
  {
    var post := Confirmed(db, item);
    forall p | p in points ensures Tracked(post, p) {
      if p != item.key.chunk && AnyOutstanding(db, p) {
        var k :| k in db.outbox && k.chunk == p && Outstanding(db, k);
        assert Outstanding(post, k);
      }
    }
  }

  lemma ConfirmKeepsSound(s: Sys, t: Sys)
    requires Sound(s) && ConfirmStep(s, t)
    ensures Sound(t)
  {
    hide Tracked, TablesOk, DistinctKeys;
    FirstPartDistinct(s.worker.ups, s.worker.dels);
    if s.worker.ups != [] {
      ConfirmingOneKeepsSound(s, t);
    }
  }

  lemma ConfirmingOneKeepsSound(s: Sys, t: Sys)
    requires Sound(s) && ConfirmStep(s, t) && s.worker.ups != []
    requires DistinctKeys(s.worker.ups[1..] + s.worker.dels)
    requires forall i :: i in s.worker.ups[1..] + s.worker.dels ==> i.key != s.worker.ups[0].key
    ensures Sound(t)
  {
    hide Tracked, TablesOk, DistinctKeys;
    var item := s.worker.ups[0];
    MarkKeepsTables(s.db, item, 0);
    ConfirmedKeepsTracked(s.db, item, s.points);
    assert item in Held(s.worker);
    forall i | i in Held(t.worker) ensures i in Held(s.worker) && i.key != item.key {
      assert i in s.worker.ups[1..] + s.worker.dels;
    }
  }

  lemma CloseKeepsSound(s: Sys, t: Sys)
    requires Sound(s) && CloseStep(s, t)
    ensures Sound(t)
  {
    hide Tracked, TablesOk, DistinctKeys;
    if s.worker.dels != [] {
      var item := s.worker.dels[0];
      assert s.worker.dels + [] == s.worker.dels && s.worker.dels[1..] + [] == s.worker.dels[1..];
      FirstPartDistinct(s.worker.dels, []);
      MarkKeepsTables(s.db, item, 0);
      ConfirmedKeepsTracked(s.db, item, s.points);
    }
  }

  lemma RejectedKeepsTracked(db: Db, item: Item, now: int, points: set<ChunkId>)
    requires forall p :: p in points ==> Tracked(db, p)
    ensures forall p :: p in points ==> Tracked(Rejected(db, item, now), p)
  {
    var post := Rejected(db, item, now);
    forall p | p in points ensures Tracked(post, p) {
      if AnyOutstanding(db, p) {
        var k :| k in db.outbox && k.chunk == p && Outstanding(db, k);
        assert Outstanding(post, k);
      }
    }
  }

  lemma FailKeepsSound(s: Sys, t: Sys, now: int)
    requires Sound(s) && FailStep(s, t, now)
    ensures Sound(t)
  {
    hide Tracked, TablesOk;
    if s.worker.items != [] {
      var item := s.worker.items[0];
      assert s.worker.items + [] == s.worker.items && s.worker.items[1..] + [] == s.worker.items[1..];
      FirstPartDistinct(s.worker.items, []);
      hide DistinctKeys;
      MarkKeepsTables(s.db, item, now);
      RejectedKeepsTracked(s.db, item, now, s.points);
      assert item in Held(s.worker);
    }
  }

  lemma DrainKeepsSound(s: Sys, t: Sys)
    requires Sound(s) && DrainStep(s, t)
    ensures Sound(t)
  {
    if now, limit, lease :| ClaimStep(s, t, now, limit, lease) {
      ClaimKeepsSound(s, t, now, limit, lease);
    } else if WriteStep(s, t) {
      WriteKeepsSound(s, t);
    } else if EraseStep(s, t) {
      EraseKeepsSound(s, t);
    } else if ConfirmStep(s, t) {
      ConfirmKeepsSound(s, t);
    } else if CloseStep(s, t) {
      CloseKeepsSound(s, t);
    } else if now :| FailStep(s, t, now) {
      FailKeepsSound(s, t, now);
    }
  }

  lemma StepKeepsSound(s: Sys, t: Sys)
    requires Sound(s) && Step(s, t)
    ensures Sound(t)
  {
    if vault, token :| EnqueueStep(s, t, vault, token) {
      EnqueueKeepsSound(s, t, vault, token);
    } else if DrainStep(s, t) {
      DrainKeepsSound(s, t);
    }
  }

  lemma NextStep(h: seq<Sys>, i: nat)
    requires History(h) && 0 < i < |h|
    ensures Step(h[i - 1], h[i])
  {
    assert Adjacent(h, i - 1);
  }

  lemma {:induction false} SoundAlways(h: seq<Sys>, i: nat)
    requires History(h) && Initial(h[0]) && i < |h|
    ensures Sound(h[i])
  {
    if i > 0 {
      SoundAlways(h, i - 1);
      NextStep(h, i);
      StepKeepsSound(h[i - 1], h[i]);
    }
  }

  /**
   In every reachable state every point of the collection is tracked, every pending row has
   attempts left, and only a row being processed carries a lease.
   */
  lemma EveryPointIsTracked(h: seq<Sys>, i: nat)
    requires History(h) && Initial(h[0]) && i < |h|
    ensures forall p :: p in h[i].points ==> Tracked(h[i].db, p)
    ensures forall k :: k in h[i].db.outbox ==> RowOk(h[i].db.outbox[k])
  {
    SoundAlways(h, i);
  }

  /** Between claims the worker takes up no further rows. */
  lemma HeldShrinks(s: Sys, t: Sys)
    requires WriteStep(s, t) || EraseStep(s, t) || ConfirmStep(s, t) || CloseStep(s, t)
          || (exists now :: FailStep(s, t, now)) || CrashStep(s, t)
    ensures forall i :: i in Held(t.worker) ==> i in Held(s.worker)
  {
  }
}
