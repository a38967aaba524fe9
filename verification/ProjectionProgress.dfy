/**
 When the outbox can still be drained: paths of drain steps, the rows that stop every later run,
 and the exact condition under which a run can complete.
 */
module ProjectionProgress {
  import opened Collections
  import opened Options
  import opened ProjectionModel
  import opened ProjectionSafety
  import opened ProjectionAgreement
  import opened ProjectionBatch

  // ---------- Paths ----------

  ghost predicate DrainPath(p: seq<Sys>, s: Sys, t: Sys) {
    && |p| > 0 && p[0] == s && p[|p| - 1] == t
    && forall m: nat :: m + 1 < |p| ==> Drains(p, m)
  }

  ghost predicate DrainsTo(s: Sys, t: Sys) {
    exists p :: DrainPath(p, s, t)
  }

  ghost predicate Reachable(s: Sys) {
    exists h :: HistoryTo(h, s)
  }

  ghost predicate HistoryTo(h: seq<Sys>, s: Sys) {
    History(h) && Initial(h[0]) && h[|h| - 1] == s
  }

  lemma DrainsToSelf(s: Sys)
    ensures DrainsTo(s, s)
  {
    assert DrainPath([s], s, s);
  }

  lemma DrainsOneMore(s: Sys, t: Sys, u: Sys)
    requires DrainsTo(s, t) && DrainStep(t, u)
    ensures DrainsTo(s, u)
  {
    hide DrainStep;
    var p :| DrainPath(p, s, t);
    var q := p + [u];
    forall m: nat | m + 1 < |q| ensures Drains(q, m) {
      if m + 1 < |p| {
        assert Drains(p, m);
      }
    }
    assert DrainPath(q, s, u);
  }

  lemma PathPrefix(p: seq<Sys>, s: Sys, t: Sys) returns (q: seq<Sys>, u: Sys)
    requires DrainPath(p, s, t) && |p| > 1
    ensures |q| == |p| - 1 && DrainPath(q, s, u) && DrainStep(u, t)
  {
    hide DrainStep;
    var n: nat := |p| - 2;
    q, u := p[..n + 1], p[n];
    assert Drains(p, n);
    forall m: nat | m + 1 < |q| ensures Drains(q, m) {
      assert Drains(p, m);
    }
  }

  lemma {:induction false} DrainsOn(s: Sys, t: Sys, u: Sys, p: seq<Sys>)
    requires DrainsTo(s, t) && DrainPath(p, t, u)
    ensures DrainsTo(s, u)
    decreases |p|
  {
    if |p| > 1 {
      var q, r := PathPrefix(p, t, u);
      DrainsOn(s, t, r, q);
      DrainsOneMore(s, r, u);
    }
  }

  lemma DrainsThrough(s: Sys, t: Sys, u: Sys)
    requires DrainsTo(s, t) && DrainsTo(t, u)
    ensures DrainsTo(s, u)
  {
    var p :| DrainPath(p, t, u);
    DrainsOn(s, t, u, p);
  }

  lemma HistoryOneMore(h: seq<Sys>, s: Sys, t: Sys)
    requires HistoryTo(h, s) && Step(s, t)
    ensures HistoryTo(h + [t], t)
  {
    hide Step;
    var g := h + [t];
    forall m: nat | m + 1 < |g| ensures Adjacent(g, m) {
      if m + 1 < |h| {
        assert Adjacent(h, m);
      }
    }
  }

  lemma ReachOneMore(s: Sys, t: Sys)
    requires Reachable(s) && Step(s, t)
    ensures Reachable(t)
  {
    hide Step, HistoryTo;
    var h :| HistoryTo(h, s);
    HistoryOneMore(h, s, t);
  }

  lemma {:induction false} ReachOn(s: Sys, t: Sys, p: seq<Sys>)
    requires Reachable(s) && DrainPath(p, s, t)
    ensures Reachable(t)
    decreases |p|
  {
    if |p| > 1 {
      var q, r := PathPrefix(p, s, t);
      ReachOn(s, r, q);
      ReachOneMore(r, t);
    }
  }

  lemma ReachThrough(s: Sys, t: Sys)
    requires Reachable(s) && DrainsTo(s, t)
    ensures Reachable(t)
  {
    var p :| DrainPath(p, s, t);
    ReachOn(s, t, p);
  }

  lemma ReachableIsSound(s: Sys)
    requires Reachable(s)
    ensures Sound(s)
  {
    var h :| HistoryTo(h, s);
    SoundAlways(h, |h| - 1);
  }

  /** A run that starts in `s` with an enqueue, completes in `t`, and is part of a history. */
  ghost predicate CompletedRun(h: seq<Sys>, i: nat, j: nat, vault: Option<VaultId>, token: Option<Token>, s: Sys,
                               t: Sys) {
    && History(h) && Initial(h[0]) && RunSegment(h, i, j, vault, token) && Drained(h[j].db)
    && h[i] == s && h[j] == t
  }

  /** The same run, with the state before its enqueue. */
  ghost predicate CompletedRunAfter(h: seq<Sys>, i: nat, j: nat, vault: Option<VaultId>, token: Option<Token>,
                                    r: Sys, s: Sys, t: Sys) {
    0 < i < |h| && h[i - 1] == r && CompletedRun(h, i, j, vault, token, s, t)
  }

  lemma RunOnHistory(h: seq<Sys>, s: Sys, u: Sys, t: Sys, vault: Option<VaultId>, token: Option<Token>)
    returns (g: seq<Sys>, j: nat)
    requires HistoryTo(h, s) && EnqueueStep(s, u, vault, token) && DrainsTo(u, t) && Drained(t.db)
    ensures h <= g && CompletedRun(g, |h| - 1, j, vault, token, s, t)
  {
    hide EnqueueStep, DrainStep, Drained, Initial;
    var p :| DrainPath(p, u, t);
    g, j := h + p, |h| + |p| - 1;
    forall m: nat | m + 1 < |g| ensures Adjacent(g, m) {
      if m + 1 < |h| {
        assert Adjacent(h, m);
      } else if m >= |h| {
        assert Drains(p, m - |h|);
      }
    }
    forall m: nat | |h| - 1 < m && m + 1 <= j ensures Drains(g, m) {
      assert Drains(p, m - |h|);
    }
  }

  lemma RunIsPossible(s: Sys, u: Sys, t: Sys, vault: Option<VaultId>, token: Option<Token>)
    requires Reachable(s) && EnqueueStep(s, u, vault, token) && DrainsTo(u, t) && Drained(t.db)
    ensures exists h, i, j :: CompletedRun(h, i, j, vault, token, s, t)
  {
    hide EnqueueStep, DrainsTo, Drained, CompletedRun;
    var h :| HistoryTo(h, s);
    var g, j := RunOnHistory(h, s, u, t, vault, token);
  }

  lemma RunIsPossibleAfter(r: Sys, s: Sys, u: Sys, t: Sys, vault: Option<VaultId>, token: Option<Token>)
    requires Reachable(r) && Step(r, s) && EnqueueStep(s, u, vault, token) && DrainsTo(u, t) && Drained(t.db)
    ensures exists h, i, j :: CompletedRunAfter(h, i, j, vault, token, r, s, t)
  {
    hide EnqueueStep, DrainsTo, Drained, Step, CompletedRun;
    var h :| HistoryTo(h, r);
    var k := h + [s];
    HistoryOneMore(h, r, s);
    var g, j := RunOnHistory(k, s, u, t, vault, token);
    assert k[|h| - 1] == r;
    assert CompletedRunAfter(g, |k| - 1, j, vault, token, r, s, t);
  }

  // ---------- Rows that are never claimed again ----------

  /** An outstanding row without attempts left that the worker does not hold: failed, or left by a crash. */
  ghost predicate Exhausted(s: Sys, k: Key) {
    && k in s.db.outbox && Outstanding(s.db, k)
    && s.db.outbox[k].attempts >= s.db.outbox[k].maxAttempts
    && (forall i :: i in Held(s.worker) ==> i.key != k)
  }

  lemma ClaimLeavesExhausted(s: Sys, t: Sys, k: Key, now: int, limit: nat, lease: Lease)
    requires Sound(s) && Exhausted(s, k) && ClaimStep(s, t, now, limit, lease)
    ensures Exhausted(t, k)
  {
    ClaimKeepsTables(s.db, now, limit, lease);
    var keys := DueKeys(s.db.outbox, s.db.order, now, limit);
    assert k !in keys;
    var ups := if t.worker.Writing? then t.worker.ups else [];
    assert Held(t.worker) == ups + t.worker.dels;
  }

  lemma StepLeavesExhausted(s: Sys, t: Sys, k: Key)
    requires Sound(s) && Exhausted(s, k) && Step(s, t)
    ensures Exhausted(t, k)
  {
    if vault, token :| EnqueueStep(s, t, vault, token) {
      OutboxAfterEnqueue(s.db, t.db, s.chunks, vault, token);
    } else if now, limit, lease :| ClaimStep(s, t, now, limit, lease) {
      ClaimLeavesExhausted(s, t, k, now, limit, lease);
    } else if !ChangeStep(s, t) && !DropStep(s, t) {
      HeldShrinks(s, t);
    }
  }

  lemma {:induction false} ExhaustedAlways(h: seq<Sys>, i: nat, j: nat, k: Key)
    requires History(h) && Initial(h[0]) && i <= j < |h| && Exhausted(h[i], k)
    ensures Exhausted(h[j], k)
    decreases j
  {
    hide Exhausted, Sound, Step, Initial;
    if i < j {
      ExhaustedAlways(h, i, j - 1, k);
      SoundAlways(h, j - 1);
      NextStep(h, j);
      StepLeavesExhausted(h[j - 1], h[j], k);
    }
  }

  /**
   A row that used its last attempt without succeeding, because it failed or because the worker
   crashed while it held the row, is outstanding in every later state: no later run completes.
   */
  lemma ExhaustedRowBlocksEveryLaterRun(h: seq<Sys>, i: nat, j: nat, k: Key)
    requires History(h) && Initial(h[0]) && i <= j < |h| && h[i].worker.Idle?
    requires k in h[i].db.outbox && Outstanding(h[i].db, k)
    requires h[i].db.outbox[k].attempts >= h[i].db.outbox[k].maxAttempts
    ensures Outstanding(h[j].db, k) && !Drained(h[j].db)
  {
    ExhaustedAlways(h, i, j, k);
  }

  lemma {:induction false} ExhaustedOnPath(s: Sys, t: Sys, p: seq<Sys>, k: Key)
    requires Sound(s) && Exhausted(s, k) && DrainPath(p, s, t)
    ensures Sound(t) && Exhausted(t, k)
    decreases |p|
  {
    hide Sound, Exhausted, DrainStep;
    if |p| > 1 {
      var q, r := PathPrefix(p, s, t);
      ExhaustedOnPath(s, r, q, k);
      DrainKeepsSound(r, t);
      StepLeavesExhausted(r, t, k);
    }
  }

  // ---------- One row at a time ----------

  /** A row is claimed alone, its external operation succeeds, and it is marked. */
  function Processed(s: Sys, k: Key, lease: Lease): Sys
    requires k in s.db.outbox
  {
    var claimed := WithLeases(s.db, [k], lease);
    var item := ItemOf(claimed, k, s.chunks);
    s.(db := Confirmed(claimed, item),
       points := if item.Writes() then s.points + {k.chunk} else s.points - {k.chunk})
  }

  lemma BatchOfOne(db: Db, k: Key, item: Item, chunks: Chunks, w: Worker)
    requires k in db.outbox && item == ItemOf(db, k, chunks)
    requires w == if item.Writes() then Writing([item], []) else Erasing([item])
    ensures SplitBatch(db, [k], chunks, w)
  {
    var ups := if w.Writing? then w.ups else [];
    assert ups + w.dels == [item];
    assert item in ups + w.dels && item.key == k;
  }

  lemma ClaimsOne(s: Sys, k: Key, now: int, lease: Lease) returns (t: Sys)
    requires s.worker.Idle? && k in s.db.outbox && DueKeys(s.db.outbox, s.db.order, now, 1) == [k]
    ensures var db := WithLeases(s.db, [k], lease); var item := ItemOf(db, k, s.chunks);
      t == s.(db := db, worker := if item.Writes() then Writing([item], []) else Erasing([item]))
    ensures DrainStep(s, t)
  {
    var db := WithLeases(s.db, [k], lease);
    var item := ItemOf(db, k, s.chunks);
    t := s.(db := db, worker := if item.Writes() then Writing([item], []) else Erasing([item]));
    BatchOfOne(db, k, item, s.chunks, t.worker);
    assert ClaimStep(s, t, now, 1, lease);
  }

  lemma WritesOne(s: Sys, item: Item)
    requires s.worker == Writing([item], [])
    ensures DrainsTo(s, s.(db := Confirmed(s.db, item), points := s.points + {item.key.chunk}, worker := Idle))
  {
    assert ChunksOf([item]) == {item.key.chunk};
    var a := s.(points := s.points + {item.key.chunk}, worker := Confirming([item], []));
    assert WriteStep(s, a);
    var b := a.(db := Confirmed(s.db, item), worker := Confirming([], []));
    assert [item][1..] == [];
    assert ConfirmStep(a, b);
    var c := b.(worker := Idle);
    assert ConfirmStep(b, c);
    DrainsToSelf(s);
    hide DrainStep, DrainsTo, Confirmed;
    DrainsInThree(s, a, b, c);
  }

  lemma DrainsInThree(s: Sys, a: Sys, b: Sys, c: Sys)
    requires DrainStep(s, a) && DrainStep(a, b) && DrainStep(b, c)
    ensures DrainsTo(s, c)
  {
    hide DrainStep, DrainsTo;
    DrainsToSelf(s);
    DrainsOneMore(s, s, a);
    DrainsOneMore(s, a, b);
    DrainsOneMore(s, b, c);
  }

  lemma ErasesOne(s: Sys, item: Item)
    requires s.worker == Erasing([item])
    ensures DrainsTo(s, s.(db := Confirmed(s.db, item), points := s.points - {item.key.chunk}, worker := Idle))
  {
    assert ChunksOf([item]) == {item.key.chunk};
    var a := s.(points := s.points - {item.key.chunk}, worker := Closing([item]));
    assert EraseStep(s, a);
    var b := a.(db := Confirmed(s.db, item), worker := Closing([]));
    assert [item][1..] == [];
    assert CloseStep(a, b);
    var c := b.(worker := Idle);
    assert CloseStep(b, c);
    DrainsInThree(s, a, b, c);
  }

  lemma ProcessesOne(s: Sys, k: Key, now: int, lease: Lease)
    requires s.worker.Idle? && k in s.db.outbox && DueKeys(s.db.outbox, s.db.order, now, 1) == [k]
    ensures DrainsTo(s, Processed(s, k, lease))
  {
    hide DrainStep, DrainsTo, DueKeys;
    var t := ClaimsOne(s, k, now, lease);
    var item := ItemOf(t.db, k, s.chunks);
    DrainsToSelf(s);
    DrainsOneMore(s, s, t);
    if item.Writes() {
      WritesOne(t, item);
    } else {
      ErasesOne(t, item);
    }
    DrainsThrough(s, t, Processed(s, k, lease));
  }

  // ---------- Draining everything ----------

  /** A time at which nothing waits for its next attempt and every lease has expired. */
  function Late(outbox: map<Key, Row>, order: seq<Key>): int {
    if order == [] then 0
    else
      var rest := Late(outbox, order[1..]);
      if order[0] !in outbox then rest
      else
        var row := outbox[order[0]];
        var a := if row.nextAttempt.Some? && row.nextAttempt.value > rest then row.nextAttempt.value else rest;
        if row.lease.Some? && row.lease.value.expires >= a then row.lease.value.expires + 1 else a
  }

  lemma {:induction false} LateIsLate(outbox: map<Key, Row>, order: seq<Key>, k: Key)
    requires k in order && k in outbox
    ensures outbox[k].nextAttempt.Some? ==> outbox[k].nextAttempt.value <= Late(outbox, order)
    ensures outbox[k].lease.Some? ==> outbox[k].lease.value.expires < Late(outbox, order)
  {
    if k != order[0] {
      LateIsLate(outbox, order[1..], k);
    }
  }

  ghost predicate AttemptsLeft(s: Sys) {
    forall k :: k in s.db.outbox && Outstanding(s.db, k) ==> s.db.outbox[k].attempts < s.db.outbox[k].maxAttempts
  }

  lemma {:induction false} ConfirmsAll(s: Sys, ups: seq<Item>, dels: seq<Item>)
    requires s.worker == Confirming(ups, dels)
    ensures DrainsTo(s, s.(db := AllConfirmed(s.db, ups), worker := AfterUpserts(dels)))
    decreases |ups|
  {
    hide DrainsTo, DrainStep;
    DrainsToSelf(s);
    if ups == [] {
      var t := s.(worker := AfterUpserts(dels));
      assert DrainStep(s, t) by { ConfirmIsDrain(s, t); }
      DrainsOneMore(s, s, t);
    } else {
      var t := s.(db := Confirmed(s.db, ups[0]), worker := Confirming(ups[1..], dels));
      ConfirmIsDrain(s, t);
      DrainsOneMore(s, s, t);
      ConfirmsAll(t, ups[1..], dels);
      DrainsThrough(s, t, s.(db := AllConfirmed(s.db, ups), worker := AfterUpserts(dels)));
    }
  }

  lemma {:induction false} ClosesAll(s: Sys, dels: seq<Item>)
    requires s.worker == Closing(dels)
    ensures DrainsTo(s, s.(db := AllConfirmed(s.db, dels), worker := Idle))
    decreases |dels|
  {
    hide DrainsTo, DrainStep;
    DrainsToSelf(s);
    if dels == [] {
      var t := s.(worker := Idle);
      ConfirmIsDrain(s, t);
      DrainsOneMore(s, s, t);
    } else {
      var t := s.(db := Confirmed(s.db, dels[0]), worker := Closing(dels[1..]));
      ConfirmIsDrain(s, t);
      DrainsOneMore(s, s, t);
      ClosesAll(t, dels[1..]);
      DrainsThrough(s, t, s.(db := AllConfirmed(s.db, dels), worker := Idle));
    }
  }

  lemma WritesAll(s: Sys, ups: seq<Item>, dels: seq<Item>)
    requires s.worker == Writing(ups, dels)
    ensures DrainsTo(s, s.(db := AllConfirmed(s.db, ups), points := s.points + ChunksOf(ups),
                           worker := AfterUpserts(dels)))
  {
    var t := s.(points := s.points + ChunksOf(ups), worker := Confirming(ups, dels));
    assert WriteStep(s, t);
    assert DrainStep(s, t);
    hide DrainsTo, DrainStep;
    DrainsToSelf(s);
    DrainsOneMore(s, s, t);
    ConfirmsAll(t, ups, dels);
    DrainsThrough(s, t, t.(db := AllConfirmed(s.db, ups), worker := AfterUpserts(dels)));
  }

  lemma ErasesAll(s: Sys, dels: seq<Item>)
    requires s.worker == Erasing(dels)
    ensures DrainsTo(s, s.(db := AllConfirmed(s.db, dels), points := s.points - ChunksOf(dels), worker := Idle))
  {
    var t := s.(points := s.points - ChunksOf(dels), worker := Closing(dels));
    assert EraseStep(s, t);
    assert DrainStep(s, t);
    hide DrainsTo, DrainStep;
    DrainsToSelf(s);
    DrainsOneMore(s, s, t);
    ClosesAll(t, dels);
    DrainsThrough(s, t, t.(db := AllConfirmed(s.db, dels), worker := Idle));
  }

  /** A claimed batch is written, then erased, without anything going wrong. */
  lemma FinishesBatch(s: Sys, ups: seq<Item>, dels: seq<Item>) returns (t: Sys)
    requires s.worker == if ups != [] then Writing(ups, dels) else Erasing(dels)
    ensures DrainsTo(s, t) && t.worker.Idle?
    ensures t.chunks == s.chunks && t.db == AllConfirmed(AllConfirmed(s.db, ups), dels)
    ensures forall c :: c in ChunksOf(dels) ==> c !in t.points
  {
    hide DrainsTo;
    if ups == [] {
      ErasesAll(s, dels);
      t := s.(db := AllConfirmed(s.db, dels), points := s.points - ChunksOf(dels), worker := Idle);
    } else {
      WritesAll(s, ups, dels);
      t := s.(db := AllConfirmed(s.db, ups), points := s.points + ChunksOf(ups), worker := AfterUpserts(dels));
      if dels != [] {
        ErasesAll(t, dels);
        var u := t.(db := AllConfirmed(t.db, dels), points := t.points - ChunksOf(dels), worker := Idle);
        DrainsThrough(s, t, u);
        t := u;
      }
    }
  }

  function ItemsOf(db: Db, keys: seq<Key>, chunks: Chunks): (items: seq<Item>)
    requires forall k :: k in keys ==> k in db.outbox
    ensures |items| == |keys| && forall n :: 0 <= n < |keys| ==> items[n] == ItemOf(db, keys[n], chunks)
  {
    if keys == [] then [] else [ItemOf(db, keys[0], chunks)] + ItemsOf(db, keys[1..], chunks)
  }

  /** At a late time exactly the outstanding rows are due. */
  lemma LateKeys(s: Sys) returns (now: int, keys: seq<Key>)
    requires Sound(s) && AttemptsLeft(s)
    ensures keys == DueKeys(s.db.outbox, s.db.order, now, |s.db.order|) && NoDuplicates(keys)
    ensures forall k :: k in keys <==> k in s.db.outbox && Outstanding(s.db, k)
  {
    hide Tracked, WorkerOk;
    now := Late(s.db.outbox, s.db.order);
    keys := DueKeys(s.db.outbox, s.db.order, now, |s.db.order|);
    forall k | k in s.db.outbox && Outstanding(s.db, k) ensures k in keys {
      LateIsLate(s.db.outbox, s.db.order, k);
      AllAreDue(s.db.outbox, s.db.order, now, |s.db.order|, k);
    }
    hide DueKeys;
    DueKeysAreDue(s.db.outbox, s.db.order, now, |s.db.order|);
    DueKeysDistinct(s.db.outbox, s.db.order, now, |s.db.order|);
  }

  /** One late claim takes all outstanding rows. */
  lemma ClaimsAll(s: Sys) returns (t: Sys, ups: seq<Item>, dels: seq<Item>)
    requires Sound(s) && s.worker.Idle? && AttemptsLeft(s) && !Drained(s.db)
    ensures DrainsTo(s, t) && t.worker == (if ups != [] then Writing(ups, dels) else Erasing(dels))
    ensures t.chunks == s.chunks && t.db.outbox.Keys == s.db.outbox.Keys
    ensures forall k :: k in s.db.outbox && Outstanding(s.db, k) ==> exists i: Item :: i in ups + dels && i.key == k
    ensures forall k :: k in s.db.outbox && !Outstanding(s.db, k) ==> t.db.outbox[k] == s.db.outbox[k]
    ensures forall i :: i in ups + dels ==> i.key in t.db.outbox && t.db.outbox[i.key].state.Processing?
    ensures forall i :: i in ups ==> i.key.UpsertKey?
  {
    var now, keys := LateKeys(s);
    hide DueKeys, Sound, AttemptsLeft, DrainsTo, DrainStep, Split;
    var lease := ProjectionModel.Lease("", now + 1);
    var db := WithLeases(s.db, keys, lease);
    var items := ItemsOf(db, keys, s.chunks);
    SplitIsBatch(db, keys, s.chunks, items);
    ups, dels := Split(items).0, Split(items).1;
    t := s.(db := db, worker := if ups != [] then Writing(ups, dels) else Erasing(dels));
    ClaimIsDrain(s, t, now, |s.db.order|, lease);
    DrainsToSelf(s);
    DrainsOneMore(s, s, t);
    SplitParts(items);
    hide WithLeases;
    LeasedRows(s.db, keys, lease);
  }

  lemma LeasedRows(db: Db, keys: seq<Key>, lease: Lease)
    ensures WithLeases(db, keys, lease).outbox.Keys == db.outbox.Keys
    ensures forall k :: k in db.outbox && k !in keys ==> WithLeases(db, keys, lease).outbox[k] == db.outbox[k]
    ensures forall k :: k in db.outbox && k in keys ==> WithLeases(db, keys, lease).outbox[k].state.Processing?
  {
  }

  /**
   While every outstanding row has attempts left the outbox can be drained: all rows are claimed in
   one batch, after every wait and lease. Such a batch erases the current chunks it also writes.
   */
  lemma DrainsAll(s: Sys) returns (t: Sys)
    requires Sound(s) && s.worker.Idle? && AttemptsLeft(s)
    ensures DrainsTo(s, t) && Drained(t.db) && t.chunks == s.chunks
    ensures forall c :: DeleteOutstanding(s.db, c) ==> c !in t.points
  {
    hide DrainsTo, Sound;
    if Drained(s.db) {
      t := s;
      DrainsToSelf(s);
    } else {
      var u, ups, dels := ClaimsAll(s);
      t := FinishesBatch(u, ups, dels);
      DrainsThrough(s, u, t);
      BatchIsConfirmed(s, u.db, ups, dels);
      forall c | DeleteOutstanding(s.db, c) ensures c in ChunksOf(dels) {
        var k :| k in s.db.outbox && k.DeleteKey? && k.chunk == c && Outstanding(s.db, k);
        var i: Item :| i in ups + dels && i.key == k;
        assert i in dels;
      }
    }
  }

  lemma BatchIsConfirmed(s: Sys, db: Db, ups: seq<Item>, dels: seq<Item>)
    requires db.outbox.Keys == s.db.outbox.Keys
    requires forall k :: k in s.db.outbox && Outstanding(s.db, k) ==> exists i: Item :: i in ups + dels && i.key == k
    requires forall k :: k in s.db.outbox && !Outstanding(s.db, k) ==> db.outbox[k] == s.db.outbox[k]
    requires forall i :: i in ups + dels ==> i.key in db.outbox && db.outbox[i.key].state.Processing?
    ensures Drained(AllConfirmed(AllConfirmed(db, ups), dels))
  {
    assert forall i :: i in ups || i in dels ==> i in ups + dels;
    AllConfirmedRows(db, ups);
    var mid := AllConfirmed(db, ups);
    AllConfirmedRows(mid, dels);
    var end := AllConfirmed(mid, dels);
    forall k | k in end.outbox ensures !Outstanding(end, k) {
      if Outstanding(s.db, k) {
        var i: Item :| i in ups + dels && i.key == k;
        assert i in ups || i in dels;
      }
    }
  }

  ghost predicate CanDrain(s: Sys) {
    exists t :: DrainsTo(s, t) && Drained(t.db)
  }

  /**
   With an idle worker, draining can still complete if and only if every outstanding row has
   attempts left. "Only if": an exhausted row stays. "If": claims that come late enough.
   */
  lemma CanDrainExactlyWhen(h: seq<Sys>, i: nat)
    requires History(h) && Initial(h[0]) && i < |h| && h[i].worker.Idle?
    ensures CanDrain(h[i]) <==> AttemptsLeft(h[i])
  {
    var s := h[i];
    SoundAlways(h, i);
    hide History, Sound, DrainsTo;
    if AttemptsLeft(s) {
      var t := DrainsAll(s);
    } else {
      var k :| k in s.db.outbox && Outstanding(s.db, k) && s.db.outbox[k].attempts >= s.db.outbox[k].maxAttempts;
      forall t | DrainsTo(s, t) ensures !Drained(t.db) {
        NeverDrained(s, t, k);
      }
    }
  }

  lemma NeverDrained(s: Sys, t: Sys, k: Key)
    requires Sound(s) && Exhausted(s, k) && DrainsTo(s, t)
    ensures !Drained(t.db)
  {
    var p :| DrainPath(p, s, t);
    ExhaustedOnPath(s, t, p, k);
  }

  // ---------- Every run from a state ----------

  lemma {:induction false} ListOf(keys: set<Key>) returns (list: seq<Key>)
    ensures forall k :: k in list <==> k in keys
    ensures forall i, j :: 0 <= i < j < |list| ==> list[i] != list[j]
  {
    if keys == {} {
      list := [];
    } else {
      var k :| k in keys;
      var rest := ListOf(keys - {k});
      list := rest + [k];
    }
  }

  lemma RowsWithoutOrder(db: Db, chunks: Chunks, vault: Option<VaultId>, token: Option<Token>, order: seq<Key>)
    ensures NewUpserts(db, chunks, vault, token) <= chunks.Keys && NewDeletes(db, chunks) <= db.statuses.Keys
    ensures var ups, dels := NewUpserts(db, chunks, vault, token), NewDeletes(db, chunks);
      && WithRows(db, chunks, token, ups, dels, order) == WithRows(db, chunks, token, ups, dels, []).(order := order)
      && db.outbox.Keys <= WithRows(db, chunks, token, ups, dels, []).outbox.Keys
  {
  }

  lemma LongerOrder(db: Db, more: Db, list: seq<Key>)
    requires Ordered(db) && db.outbox.Keys <= more.outbox.Keys && more.order == db.order + list
    requires forall k :: k in list <==> k in more.outbox.Keys - db.outbox.Keys
    requires forall i, j :: 0 <= i < j < |list| ==> list[i] != list[j]
    ensures Ordered(more)
  {
    forall i, j | 0 <= i < j < |more.order| ensures more.order[i] != more.order[j] {
      if i < |db.order| <= j {
        assert more.order[i] in db.order && more.order[j] in list;
      }
    }
    assert forall k :: k in more.order <==> k in db.order || k in list;
  }

  /** An idle worker can always enqueue. */
  lemma CanEnqueue(s: Sys, vault: Option<VaultId>, token: Option<Token>) returns (t: Sys)
    requires Sound(s) && s.worker.Idle? && FreshToken(s.db, token)
    ensures EnqueueStep(s, t, vault, token)
  {
    hide NewUpserts, NewDeletes, WithRows, FreshToken;
    assert Ordered(s.db);
    hide Sound, Ordered;
    RowsWithoutOrder(s.db, s.chunks, vault, token, []);
    var rows := WithRows(s.db, s.chunks, token, NewUpserts(s.db, s.chunks, vault, token), NewDeletes(s.db, s.chunks), []);
    var list := ListOf(rows.outbox.Keys - s.db.outbox.Keys);
    var db := rows.(order := s.db.order + list);
    RowsWithoutOrder(s.db, s.chunks, vault, token, db.order);
    LongerOrder(s.db, db, list);
    t := s.(db := db, dropped := s.dropped && (token.None? || vault.Some?));
  }

  lemma FreshRowsHaveAttempts(s: Sys, t: Sys, vault: Option<VaultId>, token: Option<Token>)
    requires AttemptsLeft(s) && EnqueueStep(s, t, vault, token)
    ensures AttemptsLeft(t)
  {
    OutboxAfterEnqueue(s.db, t.db, s.chunks, vault, token);
    hide Enqueued;
    forall k | k in t.db.outbox && Outstanding(t.db, k) ensures t.db.outbox[k].attempts < t.db.outbox[k].maxAttempts {
      if k in s.db.outbox {
        assert Outstanding(s.db, k);
      }
    }
  }

  /** However the run goes, once it is complete the collection is the current chunks. */
  ghost predicate EveryRunAgrees(s: Sys, vault: Option<VaultId>, token: Option<Token>) {
    forall h, i, j, t :: CompletedRun(h, i, j, vault, token, s, t) ==> t.points == t.chunks.Keys
  }

  /**
   From a reachable state whose outstanding rows have attempts left, every completed run makes the
   collection equal to the current chunks if and only if the condition of `AgreesExactlyWhen` holds.
   A chunk to be both written and deleted violates it: the run that takes all rows in one batch loses it.
   */
  lemma EveryRunAgreesExactlyWhen(s: Sys, vault: Option<VaultId>, token: Option<Token>)
    requires Reachable(s) && s.worker.Idle? && AttemptsLeft(s) && FreshToken(s.db, token)
    ensures EveryRunAgrees(s, vault, token) <==> WillAgree(s, vault, token)
    ensures WillAgree(s, vault, token) ==> forall c :: !RunContests(s, vault, token, c)
  {
    hide AttemptsLeft, FreshToken, Reachable, WillWrite, Removable, DeleteOutstanding;
    if WillAgree(s, vault, token) {
      forall h, i, j, t | CompletedRun(h, i, j, vault, token, s, t) ensures t.points == t.chunks.Keys {
        AgreesExactlyWhen(h, i, j, vault, token);
      }
    } else if EveryRunAgrees(s, vault, token) {
      hide WillAgree;
      var t := SomeRunDisagrees(s, vault, token);
      assert false;
    }
  }

  lemma SomeRunDisagrees(s: Sys, vault: Option<VaultId>, token: Option<Token>) returns (t: Sys)
    requires Reachable(s) && s.worker.Idle? && AttemptsLeft(s) && FreshToken(s.db, token)
    requires !WillAgree(s, vault, token)
    ensures t.points != t.chunks.Keys && exists h, i, j :: CompletedRun(h, i, j, vault, token, s, t)
  {
    hide AttemptsLeft, FreshToken, Reachable, WillAgree, DeleteOutstanding, WillWrite, Sound, DrainsTo, EnqueueStep;
    ReachableIsSound(s);
    var u := CanEnqueue(s, vault, token);
    EnqueueKeepsRun(s, u, vault, token);
    t := DrainsAll(u);
    hide Drained;
    RunIsPossible(s, u, t, vault, token);
    var h, i, j :| CompletedRun(h, i, j, vault, token, s, t);
    if c :| RunContests(s, vault, token, c) {
      assert c in t.chunks && c !in t.points;
    } else {
      AgreesExactlyWhen(h, i, j, vault, token);
    }
  }

  lemma EnqueueKeepsRun(s: Sys, u: Sys, vault: Option<VaultId>, token: Option<Token>)
    requires Sound(s) && AttemptsLeft(s) && EnqueueStep(s, u, vault, token)
    ensures Sound(u) && u.worker.Idle? && AttemptsLeft(u) && u.chunks == s.chunks
    ensures forall c :: c in s.chunks && DeleteOutstanding(s.db, c) ==> DeleteOutstanding(u.db, c)
  {
    EnqueueKeepsSound(s, u, vault, token);
    FreshRowsHaveAttempts(s, u, vault, token);
    EnqueuedOutstanding(s, u, vault, token);
    hide Sound, AttemptsLeft, Enqueued, FreshToken, DeleteOutstanding, UpsertOutstanding, AnyOutstanding;
  }
}
