/**
 The Qdrant projection outbox as values: PostgreSQL's current chunks, the outbox and status
 tables of one embedding profile, the collection's point ids, and the one worker that drains
 the outbox. Every transaction is one function or relation on `Db`.
 */
module ProjectionModel {
  import opened Backoff
  import opened Options

  type ChunkId = nat
  type VaultId = nat
  type Token = nat

  const MAX_ATTEMPTS: nat := 5

  /** A chunk of the current version of an active document. */
  datatype ChunkRow = ChunkRow(vault: VaultId, generation: int)
  type Chunks = map<ChunkId, ChunkRow>

  /** The idempotency key, which is unique in the outbox and so identifies a row. */
  datatype Key =
    | UpsertKey(chunk: ChunkId, generation: int, rebuild: Option<Token>)
    | DeleteKey(chunk: ChunkId, generation: int)

  datatype RowState = Pending | Processing | Succeeded | Failed
  datatype Lease = Lease(owner: string, expires: int)
  datatype Row = Row(state: RowState, attempts: nat, maxAttempts: nat,
                     nextAttempt: Option<int>, lease: Option<Lease>)

  datatype StatusKind = StatusPending | StatusCurrent | StatusFailed | StatusDeleted
  datatype Status = Status(generation: int, kind: StatusKind)

  /** `order` lists the outbox keys by creation time, the order in which rows are claimed. */
  datatype Db = Db(outbox: map<Key, Row>, order: seq<Key>, statuses: map<ChunkId, Status>)

  /** A claimed row together with the snapshot taken when it was claimed. */
  datatype Item = Item(key: Key, isCurrent: bool, attempts: nat) {
    predicate Writes() {
      key.UpsertKey? && isCurrent
    }
  }

  // ---------- Enqueue ----------

  function Scope(chunks: Chunks, vault: Option<VaultId>): set<ChunkId> {
    set c | c in chunks && (vault.None? || chunks[c].vault == vault.value)
  }

  function UpsertKeyOf(chunks: Chunks, c: ChunkId, token: Option<Token>): Key
    requires c in chunks
  {
    UpsertKey(c, chunks[c].generation, token)
  }

  function DeleteKeyOf(statuses: map<ChunkId, Status>, c: ChunkId): Key
    requires c in statuses
  {
    DeleteKey(c, statuses[c].generation + 1)
  }

  ghost function NewUpserts(db: Db, chunks: Chunks, vault: Option<VaultId>, token: Option<Token>): set<ChunkId> {
    set c | c in Scope(chunks, vault) && c in chunks && UpsertKeyOf(chunks, c, token) !in db.outbox
  }

  ghost predicate Stale(db: Db, chunks: Chunks, c: ChunkId) {
    c in db.statuses && !db.statuses[c].kind.StatusDeleted? && c !in chunks
  }

  ghost function NewDeletes(db: Db, chunks: Chunks): set<ChunkId> {
    set c | c in db.statuses && Stale(db, chunks, c) && DeleteKeyOf(db.statuses, c) !in db.outbox
  }

  const FRESH_ROW := Row(Pending, 0, MAX_ATTEMPTS, None, None)

  /** The tables after the upsert rows of `ups` and the delete rows of `dels` were inserted. */
  ghost function WithRows(db: Db, chunks: Chunks, token: Option<Token>,
                          ups: set<ChunkId>, dels: set<ChunkId>, order: seq<Key>): Db
    requires ups <= chunks.Keys && dels <= db.statuses.Keys
  {
    var upKeys := set c | c in ups :: UpsertKeyOf(chunks, c, token);
    var delKeys := set c | c in dels :: DeleteKeyOf(db.statuses, c);
    Db(map k | k in db.outbox.Keys + upKeys + delKeys ::
         if k in db.outbox then db.outbox[k] else FRESH_ROW,
       order,
       map c | c in db.statuses.Keys + ups ::
         if c in ups then Status(chunks[c].generation, StatusPending)
         else if c in dels then Status(db.statuses[c].generation + 1, StatusPending)
         else db.statuses[c])
  }

  ghost predicate Ordered(db: Db) {
    && (forall i, j :: 0 <= i < j < |db.order| ==> db.order[i] != db.order[j])
    && (forall k :: k in db.order <==> k in db.outbox)
  }

  /** What one enqueue transaction does. */
  ghost predicate Enqueued(pre: Db, post: Db, chunks: Chunks, vault: Option<VaultId>, token: Option<Token>) {
    && pre.order <= post.order
    && Ordered(post)
    && post == WithRows(pre, chunks, token, NewUpserts(pre, chunks, vault, token),
                        NewDeletes(pre, chunks), post.order)
  }

  // ---------- Claim ----------

  predicate Due(row: Row, now: int) {
    && row.attempts < row.maxAttempts
    && (|| (row.state.Pending? && (row.nextAttempt.None? || row.nextAttempt.value <= now))
        || (row.state.Processing? && row.lease.Some? && row.lease.value.expires < now))
  }

  /** The first `limit` due keys in creation order. */
  function DueKeys(outbox: map<Key, Row>, order: seq<Key>, now: int, limit: nat): seq<Key> {
    if |order| == 0 || limit == 0 then []
    else if order[0] in outbox && Due(outbox[order[0]], now)
      then [order[0]] + DueKeys(outbox, order[1..], now, limit - 1)
      else DueKeys(outbox, order[1..], now, limit)
  }

  function Leased(row: Row, lease: Lease): Row {
    row.(state := Processing, attempts := row.attempts + 1, lease := Some(lease))
  }

  function WithLeases(db: Db, keys: seq<Key>, lease: Lease): Db {
    db.(outbox := map k | k in db.outbox :: if k in keys then Leased(db.outbox[k], lease) else db.outbox[k])
  }

  function ItemOf(db: Db, k: Key, chunks: Chunks): Item
    requires k in db.outbox
  {
    Item(k, k.chunk in chunks, db.outbox[k].attempts)
  }

  // ---------- Mark ----------

  function Confirmed(db: Db, item: Item): Db {
    var kind := if item.Writes() then StatusCurrent else StatusDeleted;
    var c := item.key.chunk;
    db.(outbox := if item.key in db.outbox && db.outbox[item.key].state.Processing?
                  then db.outbox[item.key := db.outbox[item.key].(state := Succeeded, lease := None)]
                  else db.outbox,
        statuses := if c in db.statuses
                    then db.statuses[c := Status(item.key.generation, kind)]
                    else db.statuses)
  }

  function Rejected(db: Db, item: Item, now: int): Db {
    if item.key !in db.outbox then db
    else
      var row := db.outbox[item.key];
      var retry := row.attempts < row.maxAttempts;
      var c := item.key.chunk;
      Db(db.outbox[item.key := Row(if retry then Pending else Failed, row.attempts, row.maxAttempts,
                                   if retry then Some(now + RetryDelay(item.attempts)) else None, None)],
         db.order,
         if c in db.statuses
         then db.statuses[c := db.statuses[c].(kind := if retry then StatusPending else StatusFailed)]
         else db.statuses)
  }

  // ---------- The whole system ----------

  /** Where the one worker is inside a claimed batch. */
  datatype Worker =
    | Idle
    | Writing(ups: seq<Item>, dels: seq<Item>)     // about to write the points of `ups`
    | Confirming(ups: seq<Item>, dels: seq<Item>)  // written; `ups` are still to be marked
    | Erasing(dels: seq<Item>)                     // about to delete the points of `dels`
    | Closing(dels: seq<Item>)                     // deleted; `dels` are still to be marked
    | Failing(items: seq<Item>)                    // the external call failed; `items` to be marked

  /** `gone` remembers every chunk id that ever left the current set; `dropped` says that the
      collection was deleted and no all-vault rebuild has been enqueued since. */
  datatype Sys = Sys(chunks: Chunks, gone: set<ChunkId>, db: Db, points: set<ChunkId>,
                     worker: Worker, dropped: bool)

  function ChunksOf(items: seq<Item>): set<ChunkId> {
    set i | i in items :: i.key.chunk
  }

  ghost predicate Initial(s: Sys) {
    && s.gone == {} && s.points == {} && s.worker.Idle? && !s.dropped
    && s.db == Db(map[], [], map[])
  }

  /** PostgreSQL's current chunks change in any way, at any time. */
  ghost predicate ChangeStep(s: Sys, t: Sys) {
    t == s.(chunks := t.chunks, gone := s.gone + (s.chunks.Keys - t.chunks.Keys))
  }

  ghost predicate FreshToken(db: Db, token: Option<Token>) {
    token.Some? ==> forall k :: k in db.outbox && k.UpsertKey? ==> k.rebuild != token
  }

  ghost predicate EnqueueStep(s: Sys, t: Sys, vault: Option<VaultId>, token: Option<Token>) {
    && s.worker.Idle?
    && FreshToken(s.db, token)
    && Enqueued(s.db, t.db, s.chunks, vault, token)
    && t == s.(db := t.db, dropped := s.dropped && (token.None? || vault.Some?))
  }

  /** The first half of a rebuild. */
  ghost predicate DropStep(s: Sys, t: Sys) {
    && s.worker.Idle?
    && t == s.(points := {}, dropped := true)
  }

  ghost predicate ClaimStep(s: Sys, t: Sys, now: int, limit: nat, lease: Lease) {
    && s.worker.Idle?
    && var keys := DueKeys(s.db.outbox, s.db.order, now, limit);
    && keys != []
    && t == s.(db := WithLeases(s.db, keys, lease), worker := t.worker)
    && SplitBatch(t.db, keys, s.chunks, t.worker)
  }

  /** The claimed items, split into points to write and points to delete. */
  ghost predicate SplitBatch(db: Db, keys: seq<Key>, chunks: Chunks, w: Worker) {
    && (w.Writing? || w.Erasing?)
    && (w.Writing? ==> w.ups != [])
    && var ups := if w.Writing? then w.ups else [];
    && DistinctKeys(ups + w.dels)
    && (forall k :: k in keys <==> exists i :: i in ups + w.dels && i.key == k)
    && (forall i :: i in ups + w.dels ==> i.key in db.outbox && i == ItemOf(db, i.key, chunks))
    && (forall i :: i in ups ==> i.Writes())
    && (forall i :: i in w.dels ==> !i.Writes())
  }

  ghost predicate DistinctKeys(items: seq<Item>) {
    forall i, j :: 0 <= i < j < |items| ==> items[i].key != items[j].key
  }

  function AfterUpserts(dels: seq<Item>): Worker {
    if dels == [] then Idle else Erasing(dels)
  }

  /** A write that succeeds, or fails after reaching any part of the batch. */
  ghost predicate WriteStep(s: Sys, t: Sys) {
    && s.worker.Writing?
    && var ids := ChunksOf(s.worker.ups);
    && t == s.(points := t.points, worker := t.worker)
    && (|| (t.points == s.points + ids && t.worker == Confirming(s.worker.ups, s.worker.dels))
        || (s.points <= t.points <= s.points + ids && t.worker == Failing(s.worker.ups)))
  }

  ghost predicate EraseStep(s: Sys, t: Sys) {
    && s.worker.Erasing?
    && var ids := ChunksOf(s.worker.dels);
    && t == s.(points := t.points, worker := t.worker)
    && (|| (t.points == s.points - ids && t.worker == Closing(s.worker.dels))
        || (s.points - ids <= t.points <= s.points && t.worker == Failing(s.worker.dels)))
  }

  /** Marking the next item, or moving on when there is none. */
  ghost predicate ConfirmStep(s: Sys, t: Sys) {
    && s.worker.Confirming?
    && if s.worker.ups == [] then t == s.(worker := AfterUpserts(s.worker.dels))
       else t == s.(db := Confirmed(s.db, s.worker.ups[0]),
                    worker := Confirming(s.worker.ups[1..], s.worker.dels))
  }

  ghost predicate CloseStep(s: Sys, t: Sys) {
    && s.worker.Closing?
    && if s.worker.dels == [] then t == s.(worker := Idle)
       else t == s.(db := Confirmed(s.db, s.worker.dels[0]), worker := Closing(s.worker.dels[1..]))
  }

  ghost predicate FailStep(s: Sys, t: Sys, now: int) {
    && s.worker.Failing?
    && if s.worker.items == [] then t == s.(worker := Idle)
       else t == s.(db := Rejected(s.db, s.worker.items[0], now), worker := Failing(s.worker.items[1..]))
  }

  ghost predicate CrashStep(s: Sys, t: Sys) {
    t == s.(worker := Idle)
  }

  /** The steps of a worker that is draining the outbox, and its crash. */
  ghost predicate DrainStep(s: Sys, t: Sys) {
    || (exists now, limit, lease :: ClaimStep(s, t, now, limit, lease))
    || WriteStep(s, t) || EraseStep(s, t) || ConfirmStep(s, t) || CloseStep(s, t)
    || (exists now :: FailStep(s, t, now))
    || CrashStep(s, t)
  }

  ghost predicate Step(s: Sys, t: Sys) {
    || ChangeStep(s, t)
    || (exists vault, token :: EnqueueStep(s, t, vault, token))
    || DropStep(s, t)
    || DrainStep(s, t)
  }

  ghost predicate Adjacent(h: seq<Sys>, i: nat)
    requires i + 1 < |h|
  {
    Step(h[i], h[i + 1])
  }

  ghost predicate History(h: seq<Sys>) {
    && |h| > 0
    && (forall i: nat :: i + 1 < |h| ==> Adjacent(h, i))
  }

  // ---------- What is outstanding ----------

  ghost predicate Outstanding(db: Db, k: Key) {
    k in db.outbox && !db.outbox[k].state.Succeeded?
  }

  ghost predicate AnyOutstanding(db: Db, c: ChunkId) {
    exists k :: k in db.outbox && k.chunk == c && Outstanding(db, k)
  }

  ghost predicate UpsertOutstanding(db: Db, c: ChunkId) {
    exists k :: k in db.outbox && k.UpsertKey? && k.chunk == c && Outstanding(db, k)
  }

  ghost predicate DeleteOutstanding(db: Db, c: ChunkId) {
    exists k :: k in db.outbox && k.DeleteKey? && k.chunk == c && Outstanding(db, k)
  }

  ghost predicate Drained(db: Db) {
    forall k :: k in db.outbox ==> !Outstanding(db, k)
  }
}
