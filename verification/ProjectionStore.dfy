/** The projection store in its imperative form: the insert loops, the claim and the marks. */
module ProjectionStore {
  import opened Backoff
  import opened Collections
  import opened Options
  import opened ProjectionModel
  import opened ProjectionSafety
  import opened ProjectionBatch

  // ---------- Row by row ----------

  /** The tables while an enqueue is still inserting rows. */
  ghost predicate Inserted(pre: Db, db: Db, chunks: Chunks, token: Option<Token>, ups: set<ChunkId>,
                           dels: set<ChunkId>) {
    && ups <= chunks.Keys && dels <= pre.statuses.Keys
    && pre.order <= db.order
    && Ordered(db)
    && db == WithRows(pre, chunks, token, ups, dels, db.order)
  }

  lemma NothingInserted(pre: Db, chunks: Chunks, token: Option<Token>)
    requires Ordered(pre)
    ensures Inserted(pre, pre, chunks, token, {}, {})
  {
    assert pre == WithRows(pre, chunks, token, {}, {}, pre.order);
  }

  function WithRow(db: Db, key: Key, status: Status): Db {
    Db(db.outbox[key := FRESH_ROW], db.order + [key], db.statuses[key.chunk := status])
  }

  lemma WithRowIsOrdered(db: Db, key: Key, status: Status)
    requires Ordered(db) && key !in db.outbox
    ensures Ordered(WithRow(db, key, status))
  {
  }

  lemma AddUpsertRow(pre: Db, db: Db, chunks: Chunks, token: Option<Token>, ups: set<ChunkId>, c: ChunkId)
    requires Inserted(pre, db, chunks, token, ups, {}) && c in chunks && c !in ups
    ensures var key := UpsertKeyOf(chunks, c, token);
            && (key in db.outbox <==> key in pre.outbox)
            && (key !in db.outbox ==>
                  Inserted(pre, WithRow(db, key, Status(chunks[c].generation, StatusPending)), chunks, token, ups + {c}, {}))
  {
    hide Ordered, WithRows;
    var key := UpsertKeyOf(chunks, c, token);
    OneMoreUpsert(pre, chunks, token, ups, c, db.order, db.order + [key]);
    if key !in db.outbox {
      var post := WithRow(db, key, Status(chunks[c].generation, StatusPending));
      WithRowIsOrdered(db, key, post.statuses[c]);
    }
  }

  lemma OneMoreUpsert(pre: Db, chunks: Chunks, token: Option<Token>, ups: set<ChunkId>, c: ChunkId,
                      order: seq<Key>, longer: seq<Key>)
    requires ups <= chunks.Keys && c in chunks && c !in ups
    ensures var key, rows := UpsertKeyOf(chunks, c, token), WithRows(pre, chunks, token, ups, {}, order);
      && (key in rows.outbox <==> key in pre.outbox)
      && (key !in rows.outbox ==>
            WithRows(pre, chunks, token, ups + {c}, {}, longer)
            == Db(rows.outbox[key := FRESH_ROW], longer, rows.statuses[c := Status(chunks[c].generation, StatusPending)]))
  {
    OneMoreRow(pre, chunks, token, ups, c, order, longer);
    OneMoreStatus(pre, chunks, token, ups, c, order, longer);
    assert WithRows(pre, chunks, token, ups + {c}, {}, longer).order == longer;
    hide WithRows;
  }

  lemma OneMoreRow(pre: Db, chunks: Chunks, token: Option<Token>, ups: set<ChunkId>, c: ChunkId,
                   order: seq<Key>, longer: seq<Key>)
    requires ups <= chunks.Keys && c in chunks && c !in ups
    ensures var key, rows := UpsertKeyOf(chunks, c, token), WithRows(pre, chunks, token, ups, {}, order);
      && (key in rows.outbox <==> key in pre.outbox)
      && (key !in rows.outbox ==>
            WithRows(pre, chunks, token, ups + {c}, {}, longer).outbox == rows.outbox[key := FRESH_ROW])
  {
    OneMoreKey(chunks, token, ups, c);
    var key, rows := UpsertKeyOf(chunks, c, token), WithRows(pre, chunks, token, ups, {}, order);
    if key !in rows.outbox {
      assert WithRows(pre, chunks, token, ups + {c}, {}, longer).outbox == rows.outbox[key := FRESH_ROW];
    }
  }

  lemma OneMoreKey(chunks: Chunks, token: Option<Token>, ups: set<ChunkId>, c: ChunkId)
    requires ups <= chunks.Keys && c in chunks
    ensures (set d | d in ups + {c} :: UpsertKeyOf(chunks, d, token))
      == (set d | d in ups :: UpsertKeyOf(chunks, d, token)) + {UpsertKeyOf(chunks, c, token)}
  {
  }

  lemma OneMoreStatus(pre: Db, chunks: Chunks, token: Option<Token>, ups: set<ChunkId>, c: ChunkId,
                      order: seq<Key>, longer: seq<Key>)
    requires ups <= chunks.Keys && c in chunks && c !in ups
    ensures WithRows(pre, chunks, token, ups + {c}, {}, longer).statuses
      == WithRows(pre, chunks, token, ups, {}, order).statuses[c := Status(chunks[c].generation, StatusPending)]
  {
  }

  lemma DeleteRowIsNew(pre: Db, db: Db, chunks: Chunks, token: Option<Token>, ups: set<ChunkId>, dels: set<ChunkId>,
                       c: ChunkId)
    requires Inserted(pre, db, chunks, token, ups, dels)
    requires c in pre.statuses && c !in dels && c !in chunks
    ensures c in db.statuses && db.statuses[c] == pre.statuses[c]
    ensures DeleteKeyOf(pre.statuses, c) in db.outbox <==> DeleteKeyOf(pre.statuses, c) in pre.outbox
  {
    hide Ordered;
  }

  lemma AddDeleteRow(pre: Db, db: Db, chunks: Chunks, token: Option<Token>, ups: set<ChunkId>, dels: set<ChunkId>,
                     c: ChunkId)
    requires Inserted(pre, db, chunks, token, ups, dels)
    requires c in pre.statuses && c !in dels && c !in chunks && DeleteKeyOf(pre.statuses, c) !in db.outbox
    ensures var key := DeleteKeyOf(pre.statuses, c);
            Inserted(pre, WithRow(db, key, Status(key.generation, StatusPending)), chunks, token, ups, dels + {c})
  {
    hide Ordered, WithRows;
    var key := DeleteKeyOf(pre.statuses, c);
    OneMoreDelete(pre, chunks, token, ups, dels, c, db.order, db.order + [key]);
    WithRowIsOrdered(db, key, Status(key.generation, StatusPending));
  }

  lemma OneMoreDelete(pre: Db, chunks: Chunks, token: Option<Token>, ups: set<ChunkId>, dels: set<ChunkId>, c: ChunkId,
                      order: seq<Key>, longer: seq<Key>)
    requires ups <= chunks.Keys && dels <= pre.statuses.Keys && c in pre.statuses && c !in dels && c !in chunks
    ensures var key, rows := DeleteKeyOf(pre.statuses, c), WithRows(pre, chunks, token, ups, dels, order);
      key !in rows.outbox ==>
        WithRows(pre, chunks, token, ups, dels + {c}, longer)
        == Db(rows.outbox[key := FRESH_ROW], longer, rows.statuses[c := Status(key.generation, StatusPending)])
  {
    OneMoreDeleteRow(pre, chunks, token, ups, dels, c, order, longer);
    OneMoreDeleteStatus(pre, chunks, token, ups, dels, c, order, longer);
    assert WithRows(pre, chunks, token, ups, dels + {c}, longer).order == longer;
    hide WithRows;
  }

  lemma OneMoreDeleteRow(pre: Db, chunks: Chunks, token: Option<Token>, ups: set<ChunkId>, dels: set<ChunkId>,
                         c: ChunkId,
                         order: seq<Key>, longer: seq<Key>)
    requires ups <= chunks.Keys && dels <= pre.statuses.Keys && c in pre.statuses && c !in dels && c !in chunks
    ensures var key, rows := DeleteKeyOf(pre.statuses, c), WithRows(pre, chunks, token, ups, dels, order);
      key !in rows.outbox ==>
        WithRows(pre, chunks, token, ups, dels + {c}, longer).outbox == rows.outbox[key := FRESH_ROW]
  {
    OneMoreDeleteKey(pre, dels, c);
    var key, rows := DeleteKeyOf(pre.statuses, c), WithRows(pre, chunks, token, ups, dels, order);
    if key !in rows.outbox {
      assert WithRows(pre, chunks, token, ups, dels + {c}, longer).outbox == rows.outbox[key := FRESH_ROW];
    }
  }

  lemma OneMoreDeleteKey(pre: Db, dels: set<ChunkId>, c: ChunkId)
    requires dels <= pre.statuses.Keys && c in pre.statuses
    ensures (set d | d in dels + {c} :: DeleteKeyOf(pre.statuses, d))
      == (set d | d in dels :: DeleteKeyOf(pre.statuses, d)) + {DeleteKeyOf(pre.statuses, c)}
  {
  }

  lemma OneMoreDeleteStatus(pre: Db, chunks: Chunks, token: Option<Token>, ups: set<ChunkId>, dels: set<ChunkId>,
                            c: ChunkId, order: seq<Key>, longer: seq<Key>)
    requires ups <= chunks.Keys && dels <= pre.statuses.Keys && c in pre.statuses && c !in dels && c !in chunks
    ensures WithRows(pre, chunks, token, ups, dels + {c}, longer).statuses
      == WithRows(pre, chunks, token, ups, dels, order).statuses
           [c := Status(DeleteKeyOf(pre.statuses, c).generation, StatusPending)]
  {
  }

  ghost predicate UpsertsInserted(pre: Db, db: Db, chunks: Chunks, vault: Option<VaultId>, token: Option<Token>,
                                  todo: set<ChunkId>) {
    todo <= Scope(chunks, vault) && Inserted(pre, db, chunks, token, NewUpserts(pre, chunks, vault, token) - todo, {})
  }

  ghost predicate DeletesInserted(pre: Db, db: Db, chunks: Chunks, token: Option<Token>, ups: set<ChunkId>,
                                  todo: set<ChunkId>) {
    && todo <= (set c | c in pre.statuses && Stale(pre, chunks, c))
    && Inserted(pre, db, chunks, token, ups, NewDeletes(pre, chunks) - todo)
  }

  /** The rows inserted while `todo` is left. */
  ghost function UpsertsDone(pre: Db, chunks: Chunks, vault: Option<VaultId>, token: Option<Token>,
                             todo: set<ChunkId>): set<ChunkId> {
    NewUpserts(pre, chunks, vault, token) - todo
  }

  ghost function DeletesDone(pre: Db, chunks: Chunks, todo: set<ChunkId>): set<ChunkId> {
    NewDeletes(pre, chunks) - todo
  }

  lemma InsertUpsert(pre: Db, db: Db, chunks: Chunks, vault: Option<VaultId>, token: Option<Token>,
                     todo: set<ChunkId>, c: ChunkId)
    requires UpsertsInserted(pre, db, chunks, vault, token, todo) && c in todo
    ensures c in chunks
    ensures var key := UpsertKeyOf(chunks, c, token);
            var done := |UpsertsDone(pre, chunks, vault, token, todo)|;
            var rest := |UpsertsDone(pre, chunks, vault, token, todo - {c})|;
            && (key in db.outbox ==>
                  rest == done && UpsertsInserted(pre, db, chunks, vault, token, todo - {c}))
            && (key !in db.outbox ==>
                  && rest == done + 1
                  && UpsertsInserted(pre, WithRow(db, key, Status(chunks[c].generation, StatusPending)), chunks, vault, token,
                                     todo - {c}))
  {
    hide WithRows, Ordered;
    var all := NewUpserts(pre, chunks, vault, token);
    var key := UpsertKeyOf(chunks, c, token);
    AddUpsertRow(pre, db, chunks, token, all - todo, c);
    if key in db.outbox {
      assert all - (todo - {c}) == all - todo;
    } else {
      assert c in all;
      assert all - (todo - {c}) == (all - todo) + {c};
    }
  }

  lemma InsertDelete(pre: Db, db: Db, chunks: Chunks, token: Option<Token>, ups: set<ChunkId>, todo: set<ChunkId>,
                     c: ChunkId)
    requires DeletesInserted(pre, db, chunks, token, ups, todo) && c in todo
    ensures c in pre.statuses && c in db.statuses && db.statuses[c] == pre.statuses[c]
    ensures var key := DeleteKeyOf(db.statuses, c);
            var done, rest := |DeletesDone(pre, chunks, todo)|, |DeletesDone(pre, chunks, todo - {c})|;
            && (key in db.outbox ==>
                  rest == done && DeletesInserted(pre, db, chunks, token, ups, todo - {c}))
            && (key !in db.outbox ==>
                  && rest == done + 1
                  && DeletesInserted(pre, WithRow(db, key, Status(key.generation, StatusPending)), chunks, token, ups,
                                     todo - {c}))
  {
    hide WithRows, Ordered;
    var all := NewDeletes(pre, chunks);
    DeleteRowIsNew(pre, db, chunks, token, ups, all - todo, c);
    if DeleteKeyOf(pre.statuses, c) in db.outbox {
      assert all - (todo - {c}) == all - todo;
    } else {
      AddDeleteRow(pre, db, chunks, token, ups, all - todo, c);
      assert c in all;
      assert all - (todo - {c}) == (all - todo) + {c};
    }
  }

  lemma UpsertsStart(pre: Db, chunks: Chunks, vault: Option<VaultId>, token: Option<Token>)
    requires Ordered(pre)
    ensures UpsertsInserted(pre, pre, chunks, vault, token, Scope(chunks, vault))
    ensures UpsertsDone(pre, chunks, vault, token, Scope(chunks, vault)) == {}
    ensures UpsertsDone(pre, chunks, vault, token, {}) == NewUpserts(pre, chunks, vault, token)
  {
    NothingInserted(pre, chunks, token);
    assert NewUpserts(pre, chunks, vault, token) - Scope(chunks, vault) == {};
  }

  lemma DeletesStart(pre: Db, db: Db, chunks: Chunks, vault: Option<VaultId>, token: Option<Token>)
    requires UpsertsInserted(pre, db, chunks, vault, token, {})
    ensures var stale := set c | c in db.statuses && !db.statuses[c].kind.StatusDeleted? && c !in chunks;
            && DeletesInserted(pre, db, chunks, token, NewUpserts(pre, chunks, vault, token), stale)
            && DeletesDone(pre, chunks, stale) == {}
            && DeletesDone(pre, chunks, {}) == NewDeletes(pre, chunks)
  {
    var stale := set c | c in db.statuses && !db.statuses[c].kind.StatusDeleted? && c !in chunks;
    var ups := NewUpserts(pre, chunks, vault, token);
    assert ups - {} == ups;
    assert stale == (set c | c in pre.statuses && Stale(pre, chunks, c));
    assert NewDeletes(pre, chunks) - stale == {};
  }

  lemma AllInserted(pre: Db, db: Db, chunks: Chunks, vault: Option<VaultId>, token: Option<Token>)
    requires DeletesInserted(pre, db, chunks, token, NewUpserts(pre, chunks, vault, token), {})
    ensures Enqueued(pre, db, chunks, vault, token)
  {
    assert NewDeletes(pre, chunks) - {} == NewDeletes(pre, chunks);
  }

  class ProjectionStore {
    var chunks: Chunks
    var outbox: map<Key, Row>
    var order: seq<Key>
    var statuses: map<ChunkId, Status>

    function View(): Db
      reads this
    {
      Db(outbox, order, statuses)
    }

    constructor ()
      ensures chunks == map[] && View() == Db(map[], [], map[])
    {
      chunks, outbox, order, statuses := map[], map[], [], map[];
    }

    method EnqueueCurrentChunks(vault: Option<VaultId>, token: Option<Token>) returns (upserts: nat, deletes: nat)
      requires Ordered(View())
      modifies this`outbox, this`order, this`statuses
      ensures Enqueued(old(View()), View(), chunks, vault, token)
      ensures upserts == |NewUpserts(old(View()), chunks, vault, token)|
      ensures deletes == |NewDeletes(old(View()), chunks)|
    {
      ghost var pre := View();
      upserts := InsertUpserts(vault, token);
      DeletesStart(pre, View(), chunks, vault, token);
      deletes := InsertDeletes(pre, NewUpserts(pre, chunks, vault, token), token);
      AllInserted(pre, View(), chunks, vault, token);
    }

    method InsertUpserts(vault: Option<VaultId>, token: Option<Token>) returns (inserted: nat)
      requires Ordered(View())
      modifies this`outbox, this`order, this`statuses
      ensures UpsertsInserted(old(View()), View(), chunks, vault, token, {})
      ensures inserted == |NewUpserts(old(View()), chunks, vault, token)|
    {
      hide UpsertsInserted, NewUpserts, UpsertsDone;
      ghost var pre := View();
      inserted := 0;
      var todo := Scope(chunks, vault);
      UpsertsStart(pre, chunks, vault, token);
      while todo != {}
        invariant UpsertsInserted(pre, Db(outbox, order, statuses), chunks, vault, token, todo)
        invariant inserted == |UpsertsDone(pre, chunks, vault, token, todo)|
        decreases todo
      {
        var c :| c in todo;
        InsertUpsert(pre, View(), chunks, vault, token, todo, c);
        todo := todo - {c};
        var key := UpsertKeyOf(chunks, c, token);
        if key !in outbox {
          outbox := outbox[key := FRESH_ROW];
          order := order + [key];
          statuses := statuses[c := Status(chunks[c].generation, StatusPending)];
          inserted := inserted + 1;
        }
      }
    }

    method InsertDeletes(ghost pre: Db, ghost ups: set<ChunkId>, ghost token: Option<Token>) returns (inserted: nat)
      requires var stale := set c | c in statuses && !statuses[c].kind.StatusDeleted? && c !in chunks;
               && DeletesInserted(pre, View(), chunks, token, ups, stale)
               && DeletesDone(pre, chunks, stale) == {} && DeletesDone(pre, chunks, {}) == NewDeletes(pre, chunks)
      modifies this`outbox, this`order, this`statuses
      ensures DeletesInserted(pre, View(), chunks, token, ups, {})
      ensures inserted == |NewDeletes(pre, chunks)|
    {
      hide DeletesInserted, NewDeletes, DeletesDone;
      inserted := 0;
      var stale := set c | c in statuses && !statuses[c].kind.StatusDeleted? && c !in chunks;
      while stale != {}
        invariant DeletesInserted(pre, Db(outbox, order, statuses), chunks, token, ups, stale)
        invariant inserted == |DeletesDone(pre, chunks, stale)|
        decreases stale
      {
        var c :| c in stale;
        InsertDelete(pre, View(), chunks, token, ups, stale, c);
        stale := stale - {c};
        var generation := statuses[c].generation + 1;
        var key := DeleteKey(c, generation);
        if key !in outbox {
          outbox := outbox[key := FRESH_ROW];
          order := order + [key];
          statuses := statuses[c := Status(generation, StatusPending)];
          inserted := inserted + 1;
        }
      }
    }

    method ClaimBatch(owner: string, now: int, limit: nat, leaseSeconds: nat) returns (items: seq<Item>)
      requires Ordered(View())
      modifies this`outbox
      ensures var keys := DueKeys(old(outbox), order, now, limit);
              && View() == WithLeases(old(View()), keys, Lease(owner, now + leaseSeconds))
              && |items| == |keys|
              && (forall n :: 0 <= n < |items| ==> keys[n] in outbox && items[n] == ItemOf(View(), keys[n], chunks))
    {
      var rows := DueKeys(outbox, order, now, limit);
      DueKeysAreDue(outbox, order, now, limit);
      DueKeysDistinct(outbox, order, now, limit);
      items := LeaseRows(rows, Lease(owner, now + leaseSeconds));
    }

    method LeaseRows(keys: seq<Key>, lease: Lease) returns (items: seq<Item>)
      requires NoDuplicates(keys)
      requires forall k :: k in keys ==> k in outbox
      modifies this`outbox
      ensures View() == WithLeases(old(View()), keys, lease)
      ensures |items| == |keys|
      ensures forall n :: 0 <= n < |items| ==> keys[n] in outbox && items[n] == ItemOf(View(), keys[n], chunks)
    {
      ghost var pre := View();
      items := [];
      var n := 0;
      while n < |keys|
        invariant 0 <= n <= |keys| && |items| == n
        invariant outbox.Keys == pre.outbox.Keys
        invariant forall k :: k in keys[..n] ==> outbox[k] == Leased(pre.outbox[k], lease)
        invariant forall k :: k in outbox && k !in keys[..n] ==> outbox[k] == pre.outbox[k]
        invariant forall m :: 0 <= m < n ==>
          items[m] == Item(keys[m], keys[m].chunk in chunks, pre.outbox[keys[m]].attempts + 1)
      {
        var row := outbox[keys[n]];
        assert keys[n] !in keys[..n];
        assert keys[..n + 1] == keys[..n] + [keys[n]];
        outbox := outbox[keys[n] := Leased(row, lease)];
        items := items + [Item(keys[n], keys[n].chunk in chunks, row.attempts + 1)];
        n := n + 1;
      }
      assert keys[..n] == keys;
    }

    method OutstandingCounts() returns (pending: nat, failed: nat)
      ensures pending == |set k | k in outbox && (outbox[k].state.Pending? || outbox[k].state.Processing?)|
      ensures failed == |set k | k in outbox && outbox[k].state.Failed?|
    {
      var waiting := set k | k in outbox && (outbox[k].state.Pending? || outbox[k].state.Processing?);
      var broken := set k | k in outbox && outbox[k].state.Failed?;
      pending, failed := |waiting|, |broken|;
    }

    method MarkSucceeded(item: Item)
      modifies this`outbox, this`statuses
      ensures View() == Confirmed(old(View()), item)
    {
      var kind := if item.key.DeleteKey? || !item.isCurrent then StatusDeleted else StatusCurrent;
      if item.key in outbox && outbox[item.key].state.Processing? {
        outbox := outbox[item.key := outbox[item.key].(state := Succeeded, lease := None)];
      }
      if item.key.chunk in statuses {
        statuses := statuses[item.key.chunk := Status(item.key.generation, kind)];
      }
    }

    method MarkFailed(item: Item, now: int)
      modifies this`outbox, this`statuses
      ensures View() == Rejected(old(View()), item, now)
    {
      var delay := RetryDelay(item.attempts);
      if item.key !in outbox {
        return;
      }
      var row := outbox[item.key];
      var retryable := row.attempts < row.maxAttempts;
      row := row.(state := if retryable then Pending else Failed,
                  nextAttempt := if retryable then Some(now + delay) else None,
                  lease := None);
      outbox := outbox[item.key := row];
      var c := item.key.chunk;
      if c in statuses {
        statuses := statuses[c := statuses[c].(kind := if retryable then StatusPending else StatusFailed)];
      }
    }
  }
}
