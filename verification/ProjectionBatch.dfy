/** A claimed batch: its keys are distinct, and it is split into points to write and points to delete. */
module ProjectionBatch {
  import opened Backoff
  import opened Collections
  import opened Options
  import opened ProjectionModel
  import opened ProjectionSafety

  lemma {:induction false} DueKeysDistinct(outbox: map<Key, Row>, order: seq<Key>, now: int, limit: nat)
    requires NoDuplicates(order)
    ensures NoDuplicates(DueKeys(outbox, order, now, limit))
  {
    if |order| > 0 && limit > 0 {
      var rest := order[1..];
      assert order[0] !in rest;
      if order[0] in outbox && Due(outbox[order[0]], now) {
        DueKeysDistinct(outbox, rest, now, limit - 1);
        DueKeysAreDue(outbox, rest, now, limit - 1);
      } else {
        DueKeysDistinct(outbox, rest, now, limit);
      }
    }
  }

  lemma {:induction false} AllAreDue(outbox: map<Key, Row>, order: seq<Key>, now: int, limit: nat, k: Key)
    requires k in order && k in outbox && Due(outbox[k], now) && limit >= |order|
    ensures k in DueKeys(outbox, order, now, limit)
  {
    if k != order[0] {
      AllAreDue(outbox, order[1..], now,
                if order[0] in outbox && Due(outbox[order[0]], now) then limit - 1 else limit, k);
    }
  }

  /** A claim that finds nothing means that no row is due. */
  lemma {:induction false} NothingClaimed(outbox: map<Key, Row>, order: seq<Key>, now: int, limit: nat, k: Key)
    requires limit > 0 && DueKeys(outbox, order, now, limit) == [] && k in order && k in outbox
    ensures !Due(outbox[k], now)
  {
    if k != order[0] {
      NothingClaimed(outbox, order[1..], now, limit, k);
    }
  }

  /** Due rows are taken in order, and all of them as long as the limit is not reached. */
  lemma {:induction false} FirstDueTaken(outbox: map<Key, Row>, order: seq<Key>, now: int, limit: nat, i: nat)
    requires NoDuplicates(order) && i < |order| && order[i] in outbox && Due(outbox[order[i]], now)
    ensures |DueKeys(outbox, order, now, limit)| <= limit
    ensures order[i] !in DueKeys(outbox, order, now, limit) ==>
      && |DueKeys(outbox, order, now, limit)| == limit
      && forall j :: i < j < |order| ==> order[j] !in DueKeys(outbox, order, now, limit)
  {
    if limit > 0 {
      var rest := order[1..];
      assert order[0] !in rest;
      forall j | 0 < j < |order| ensures order[j] == rest[j - 1] && order[j] in rest {
      }
      var taken := order[0] in outbox && Due(outbox[order[0]], now);
      if i > 0 {
        FirstDueTaken(outbox, rest, now, if taken then limit - 1 else limit, i - 1);
      } else {
        DueKeysFit(outbox, rest, now, limit - 1);
      }
    }
  }

  lemma {:induction false} DueKeysFit(outbox: map<Key, Row>, order: seq<Key>, now: int, limit: nat)
    ensures |DueKeys(outbox, order, now, limit)| <= limit
  {
    if order != [] && limit > 0 {
      DueKeysFit(outbox, order[1..], now, limit - 1);
      DueKeysFit(outbox, order[1..], now, limit);
    }
  }

  /** The row waits for its next attempt, holds a live lease, is settled or has no attempts left. */
  predicate LeftAlone(row: Row, now: int) {
    || row.attempts >= row.maxAttempts
    || row.state.Succeeded? || row.state.Failed?
    || (row.state.Pending? && row.nextAttempt.Some? && now < row.nextAttempt.value)
    || (row.state.Processing? && (row.lease.None? || now <= row.lease.value.expires))
  }

  /**
   A claim takes the first rows that are not to be left alone, up to its limit: they are leased and
   use one attempt. Every other row stays as it is.
   */
  lemma ClaimTakesExactly(db: Db, now: int, limit: nat, lease: Lease)
    requires Ordered(db)
    ensures var keys, post := DueKeys(db.outbox, db.order, now, limit),
                              WithLeases(db, DueKeys(db.outbox, db.order, now, limit), lease);
      && post.outbox.Keys == db.outbox.Keys && post.order == db.order && post.statuses == db.statuses
      && |keys| <= limit && NoDuplicates(keys)
      && (forall k :: k in db.outbox && k !in keys ==> post.outbox[k] == db.outbox[k])
      && (forall k :: k in keys ==>
            && k in db.outbox && !LeftAlone(db.outbox[k], now)
            && var row := db.outbox[k];
            && post.outbox[k] == row.(state := Processing, attempts := row.attempts + 1, lease := Some(lease)))
      && (forall i :: 0 <= i < |db.order| && db.order[i] !in keys && !LeftAlone(db.outbox[db.order[i]], now) ==>
            |keys| == limit && forall j :: i < j < |db.order| ==> db.order[j] !in keys)
  {
    var keys := DueKeys(db.outbox, db.order, now, limit);
    DueKeysAreDue(db.outbox, db.order, now, limit);
    DueKeysDistinct(db.outbox, db.order, now, limit);
    DueKeysFit(db.outbox, db.order, now, limit);
    forall i: nat | i < |db.order| && db.order[i] !in keys && !LeftAlone(db.outbox[db.order[i]], now)
      ensures |keys| == limit && forall j :: i < j < |db.order| ==> db.order[j] !in keys
    {
      assert db.order[i] in db.order;
      FirstDueTaken(db.outbox, db.order, now, limit, i);
    }
    hide DueKeys;
  }

  /** Splits a batch into the items whose points are written and those whose points are deleted. */
  function Split(items: seq<Item>): (seq<Item>, seq<Item>) {
    if items == [] then ([], [])
    else
      var rest := Split(items[1..]);
      if items[0].Writes() then ([items[0]] + rest.0, rest.1) else (rest.0, [items[0]] + rest.1)
  }

  lemma {:induction false} SplitParts(items: seq<Item>)
    ensures forall i :: i in items <==> i in Split(items).0 || i in Split(items).1
    ensures (forall i :: i in Split(items).0 ==> i.Writes()) && (forall i :: i in Split(items).1 ==> !i.Writes())
    ensures DistinctKeys(items) ==> DistinctKeys(Split(items).0) && DistinctKeys(Split(items).1)
  {
    if items != [] {
      var rest := items[1..];
      SplitParts(rest);
      assert forall i :: i in items <==> i == items[0] || i in rest;
      if DistinctKeys(items) {
        assert forall i :: i in rest ==> i.key != items[0].key;
      }
    }
  }

  /** Splitting keeps the items and their keys apart. */
  lemma SplitDistinct(items: seq<Item>)
    requires DistinctKeys(items)
    ensures DistinctKeys(Split(items).0 + Split(items).1)
  {
    SplitParts(items);
    hide Split;
    var ups, dels := Split(items).0, Split(items).1;
    var all := ups + dels;
    forall i, j | 0 <= i < j < |all| ensures all[i].key != all[j].key {
      if i < |ups| <= j {
        assert all[i] in ups && all[j] in dels;
        assert all[i] in items && all[j] in items && all[i] != all[j];
      }
    }
  }

  lemma ClaimIsDrain(s: Sys, t: Sys, now: int, limit: nat, lease: Lease)
    requires s.worker.Idle? && DueKeys(s.db.outbox, s.db.order, now, limit) != []
    requires t == s.(db := WithLeases(s.db, DueKeys(s.db.outbox, s.db.order, now, limit), lease), worker := t.worker)
    requires SplitBatch(t.db, DueKeys(s.db.outbox, s.db.order, now, limit), s.chunks, t.worker)
    ensures DrainStep(s, t)
  {
    hide SplitBatch, DueKeys, WithLeases;
    assert ClaimStep(s, t, now, limit, lease);
  }

  /** Steps that follow a claim, one kind at a time. */
  lemma TouchIsDrain(s: Sys, t: Sys)
    requires WriteStep(s, t) || EraseStep(s, t)
    ensures DrainStep(s, t)
  {
  }

  lemma ConfirmIsDrain(s: Sys, t: Sys)
    requires ConfirmStep(s, t) || CloseStep(s, t)
    ensures DrainStep(s, t)
  {
  }

  lemma FailIsDrain(s: Sys, t: Sys, now: int)
    requires FailStep(s, t, now)
    ensures DrainStep(s, t)
  {
  }

  lemma {:induction false} SplitIsBatch(db: Db, keys: seq<Key>, chunks: Chunks, items: seq<Item>)
    requires NoDuplicates(keys) && |items| == |keys| > 0
    requires forall n :: 0 <= n < |items| ==> keys[n] in db.outbox && items[n] == ItemOf(db, keys[n], chunks)
    ensures var ups, dels := Split(items).0, Split(items).1;
      SplitBatch(db, keys, chunks, if ups != [] then Writing(ups, dels) else Erasing(dels)) && ups + dels != []
  {
    forall i, j | 0 <= i < j < |items| ensures items[i].key != items[j].key {
      assert keys[i] != keys[j];
    }
    SplitParts(items);
    SplitDistinct(items);
    hide Split, NoDuplicates;
    var ups, dels := Split(items).0, Split(items).1;
    hide DistinctKeys;
    assert ups == [] ==> [] + dels == ups + dels;
    forall k ensures k in keys <==> exists i: Item :: i in ups + dels && i.key == k {
      if k in keys {
        var n :| 0 <= n < |keys| && keys[n] == k;
        assert items[n] in items && items[n].key == k;
      }
      if i: Item :| i in ups + dels && i.key == k {
        assert i in items;
        var n :| 0 <= n < |items| && items[n] == i;
      }
    }
  }

  /** A row whose point is written, as long as its chunk stays as it is. */
  predicate IsWrite(k: Key, chunks: Chunks) {
    k.UpsertKey? && k.chunk in chunks
  }

  function KeysOf(items: seq<Item>): set<Key> {
    set i | i in items :: i.key
  }

  lemma {:induction false} KeysCount(items: seq<Item>)
    requires DistinctKeys(items)
    ensures |KeysOf(items)| == |items|
  {
    if items != [] {
      var rest := items[1..];
      KeysCount(rest);
      assert KeysOf(items) == KeysOf(rest) + {items[0].key};
    }
  }

  /** As many items are written as there are keys of writes, and likewise for the others. */
  lemma SplitCounts(items: seq<Item>, chunks: Chunks)
    requires DistinctKeys(items) && forall i :: i in items ==> (i.isCurrent <==> i.key.chunk in chunks)
    ensures |Split(items).0| == |set k | k in KeysOf(items) && IsWrite(k, chunks)|
    ensures |Split(items).1| == |set k | k in KeysOf(items) && !IsWrite(k, chunks)|
  {
    SplitParts(items);
    hide Split, DistinctKeys;
    KeysCount(Split(items).0);
    KeysCount(Split(items).1);
    assert KeysOf(Split(items).0) == set k | k in KeysOf(items) && IsWrite(k, chunks);
    assert KeysOf(Split(items).1) == set k | k in KeysOf(items) && !IsWrite(k, chunks);
  }

  /** The outbox after every item of a batch was marked as succeeded. */
  function AllConfirmed(db: Db, items: seq<Item>): Db
    decreases |items|
  {
    if items == [] then db else AllConfirmed(Confirmed(db, items[0]), items[1..])
  }

  lemma {:induction false} AllConfirmedRows(db: Db, items: seq<Item>)
    requires forall i :: i in items ==>
      i.key in db.outbox && (db.outbox[i.key].state.Processing? || db.outbox[i.key].state.Succeeded?)
    ensures AllConfirmed(db, items).outbox.Keys == db.outbox.Keys
    ensures forall i :: i in items ==> AllConfirmed(db, items).outbox[i.key].state.Succeeded?
    ensures forall k :: k in db.outbox && k !in KeysOf(items) ==> AllConfirmed(db, items).outbox[k] == db.outbox[k]
    ensures AllConfirmed(db, items).order == db.order
    decreases |items|
  {
    if items != [] {
      var next := Confirmed(db, items[0]);
      forall i | i in items[1..]
        ensures i.key in next.outbox && (next.outbox[i.key].state.Processing? || next.outbox[i.key].state.Succeeded?)
      {
        assert i in items;
      }
      assert KeysOf(items) == KeysOf(items[1..]) + {items[0].key};
      AllConfirmedRows(next, items[1..]);
    }
  }

  /** Marks the items as failed one by one, each at the next reading of the clock. */
  function AllRejected(db: Db, items: seq<Item>, clock: nat -> int, reading: nat): Db
    decreases |items|
  {
    if items == [] then db else AllRejected(Rejected(db, items[0], clock(reading)), items[1..], clock, reading + 1)
  }

  /**
   Every row of the batch waits for its backoff from its own mark on, or has failed without attempts left; the other rows
   stay.
   */
  lemma AllRejectedRows(db: Db, items: seq<Item>, clock: nat -> int, reading: nat)
    requires DistinctKeys(items) && forall i :: i in items ==> i.key in db.outbox
    ensures AllRejected(db, items, clock, reading).outbox.Keys == db.outbox.Keys
    ensures AllRejected(db, items, clock, reading).order == db.order
    ensures forall n :: 0 <= n < |items| ==>
      WaitsOrFailed(db.outbox[items[n].key], AllRejected(db, items, clock, reading).outbox[items[n].key],
                    clock(reading + n) + RetryDelay(items[n].attempts))
    ensures forall k :: k in db.outbox && k !in KeysOf(items) ==>
      AllRejected(db, items, clock, reading).outbox[k] == db.outbox[k]
  {
    hide AllRejected, WaitsOrFailed, KeysOf, RetryDelay;
    RejectedKeys(db, items, clock, reading);
    forall n | 0 <= n < |items|
      ensures WaitsOrFailed(db.outbox[items[n].key], AllRejected(db, items, clock, reading).outbox[items[n].key],
                            clock(reading + n) + RetryDelay(items[n].attempts))
    {
      assert items[n] in items;
      RejectedRow(db, items, clock, reading, n);
    }
    forall k | k in db.outbox && k !in KeysOf(items)
      ensures AllRejected(db, items, clock, reading).outbox[k] == db.outbox[k]
    {
      OtherRow(db, items, clock, reading, k);
    }
  }

  lemma {:induction false} RejectedKeys(db: Db, items: seq<Item>, clock: nat -> int, reading: nat)
    ensures (forall i :: i in items ==> i.key in db.outbox) ==>
      AllRejected(db, items, clock, reading).outbox.Keys == db.outbox.Keys
    ensures AllRejected(db, items, clock, reading).order == db.order
    decreases |items|
  {
    if items != [] {
      RejectedKeys(Rejected(db, items[0], clock(reading)), items[1..], clock, reading + 1);
      assert forall i :: i in items[1..] ==> i in items;
    }
  }

  lemma {:induction false} OtherRow(db: Db, items: seq<Item>, clock: nat -> int, reading: nat, k: Key)
    requires k in db.outbox && k !in KeysOf(items)
    ensures k in AllRejected(db, items, clock, reading).outbox
    ensures AllRejected(db, items, clock, reading).outbox[k] == db.outbox[k]
    decreases |items|
  {
    if items != [] {
      assert items[0] in items;
      assert forall i :: i in items[1..] ==> i in items;
      OtherRow(Rejected(db, items[0], clock(reading)), items[1..], clock, reading + 1, k);
    }
  }

  lemma {:induction false} RejectedRow(db: Db, items: seq<Item>, clock: nat -> int, reading: nat, n: nat)
    requires DistinctKeys(items) && n < |items| && items[n].key in db.outbox
    ensures items[n].key in AllRejected(db, items, clock, reading).outbox
    ensures WaitsOrFailed(db.outbox[items[n].key], AllRejected(db, items, clock, reading).outbox[items[n].key],
                          clock(reading + n) + RetryDelay(items[n].attempts))
    decreases n
  {
    var next, rest := Rejected(db, items[0], clock(reading)), items[1..];
    if n == 0 {
      OneRejected(db, items[0], clock(reading));
      hide Rejected, WaitsOrFailed;
      forall i | i in rest ensures i.key != items[0].key {
        var m :| 0 <= m < |rest| && rest[m] == i;
        assert items[m + 1] == i;
      }
      OtherRow(next, rest, clock, reading + 1, items[0].key);
    } else {
      assert rest[n - 1] == items[n];
      assert forall m :: 0 <= m < |rest| ==> rest[m] == items[m + 1];
      RejectedRow(next, rest, clock, reading + 1, n - 1);
      hide WaitsOrFailed;
    }
  }

  lemma OneRejected(db: Db, item: Item, now: int)
    requires item.key in db.outbox
    ensures var post := Rejected(db, item, now);
      && post.outbox.Keys == db.outbox.Keys && post.order == db.order
      && WaitsOrFailed(db.outbox[item.key], post.outbox[item.key], now + RetryDelay(item.attempts))
      && forall k :: k in db.outbox && k != item.key ==> post.outbox[k] == db.outbox[k]
  {
    hide RetryDelay;
  }

  lemma NoneRejected(db: Db, items: seq<Item>, clock: nat -> int, reading: nat)
    ensures AllRejected(db, items[|items|..], clock, reading) == db
  {
  }

  lemma NextRejected(db: Db, items: seq<Item>, n: nat, clock: nat -> int, reading: nat)
    requires n < |items|
    ensures AllRejected(db, items[n..], clock, reading)
      == AllRejected(Rejected(db, items[n], clock(reading)), items[n + 1..], clock, reading + 1)
  {
    assert items[n..][1..] == items[n + 1..];
  }

  /** A claimed row after its mark: it gives up its lease and waits up to `ready`, or has failed. */
  ghost predicate WaitsOrFailed(was: Row, row: Row, ready: int) {
    && row.attempts == was.attempts && row.maxAttempts == was.maxAttempts && row.lease.None?
    && if was.attempts < was.maxAttempts then row.state.Pending? && row.nextAttempt == Some(ready)
       else row.state.Failed?
  }
}
