/**
 Concrete histories of one chunk, from the empty tables, in which things go wrong: each shows that
 the conditions of the results about runs can be met, or cannot be dropped.
 */
module ProjectionWitness {
  import opened Options
  import opened ProjectionModel
  import opened ProjectionAgreement
  import opened ProjectionHistory
  import opened ProjectionProgress

  const CHUNKS: Chunks := map[0 := ChunkRow(0, 1)]
  const TOKEN: Token := 7
  const UP := UpsertKey(0, 1, None)
  const DOWN := DeleteKey(0, 2)
  const AGAIN := UpsertKey(0, 1, Some(TOKEN))
  const LEASE := ProjectionModel.Lease("worker", 100)
  const DONE := Row(Succeeded, 1, MAX_ATTEMPTS, None, None)

  const EMPTY_DB := Db(map[], [], map[])
  const TO_WRITE := Db(map[UP := FRESH_ROW], [UP], map[0 := Status(1, StatusPending)])
  const WRITTEN := Db(map[UP := DONE], [UP], map[0 := Status(1, StatusCurrent)])
  const TO_ERASE := Db(map[UP := DONE, DOWN := FRESH_ROW], [UP, DOWN], map[0 := Status(2, StatusPending)])
  const ERASED := Db(map[UP := DONE, DOWN := DONE], [UP, DOWN], map[0 := Status(2, StatusDeleted)])
  const TO_RESTORE :=
    Db(map[UP := DONE, DOWN := DONE, AGAIN := FRESH_ROW], [UP, DOWN, AGAIN], map[0 := Status(1, StatusPending)])
  const RESTORED :=
    Db(map[UP := DONE, DOWN := DONE, AGAIN := DONE], [UP, DOWN, AGAIN], map[0 := Status(1, StatusCurrent)])
  const CONTESTED :=
    Db(map[UP := DONE, DOWN := FRESH_ROW, AGAIN := FRESH_ROW], [UP, DOWN, AGAIN], map[0 := Status(1, StatusPending)])
  const ERASED_FIRST :=
    Db(map[UP := DONE, DOWN := DONE, AGAIN := FRESH_ROW], [UP, DOWN, AGAIN], map[0 := Status(2, StatusDeleted)])
  const ERASED_LAST :=
    Db(map[UP := DONE, DOWN := DONE, AGAIN := DONE], [UP, DOWN, AGAIN], map[0 := Status(2, StatusDeleted)])

  /** The chunk was written while it was current. */
  const CURRENT := Sys(CHUNKS, {}, WRITTEN, {0}, Idle, false)
  /** It left, and a run enqueued its delete. */
  const LEAVING := Sys(map[], {0}, TO_ERASE, {0}, Idle, false)
  /** It came back before the delete was drained, or after. */
  const BACK_EARLY := Sys(CHUNKS, {0}, TO_ERASE, {0}, Idle, false)
  const BACK_LATE := Sys(CHUNKS, {0}, ERASED, {}, Idle, false)

  // ---------- Steps ----------

  lemma Changes(s: Sys, chunks: Chunks, gone: set<ChunkId>)
    requires Reachable(s) && gone == s.gone + (s.chunks.Keys - chunks.Keys)
    ensures Reachable(s.(chunks := chunks, gone := gone))
  {
    var t := s.(chunks := chunks, gone := gone);
    assert ChangeStep(s, t);
    ReachOneMore(s, t);
  }

  lemma Drops(s: Sys)
    requires Reachable(s) && s.worker.Idle?
    ensures Reachable(s.(points := {}, dropped := true))
  {
    var t := s.(points := {}, dropped := true);
    assert DropStep(s, t);
    ReachOneMore(s, t);
  }

  lemma Enqueues(s: Sys, t: Sys, token: Option<Token>)
    requires Reachable(s) && EnqueueStep(s, t, None, token)
    ensures Reachable(t)
  {
    hide Reachable;
    ReachOneMore(s, t);
  }

  lemma Processes(s: Sys, k: Key)
    requires Reachable(s) && s.worker.Idle? && k in s.db.outbox && DueKeys(s.db.outbox, s.db.order, 0, 1) == [k]
    ensures DrainsTo(s, Processed(s, k, LEASE)) && Reachable(Processed(s, k, LEASE))
  {
    hide Reachable, DrainsTo, DueKeys, Processed;
    ProcessesOne(s, k, 0, LEASE);
    ReachThrough(s, Processed(s, k, LEASE));
  }

  /** The keys of every row were used before: the enqueue has nothing to do. */
  lemma EnqueuesNothing(s: Sys)
    requires s.worker.Idle? && Ordered(s.db)
    requires NewUpserts(s.db, s.chunks, None, None) == {} && NewDeletes(s.db, s.chunks) == {}
    ensures EnqueueStep(s, s, None, None)
  {
    hide NewUpserts, NewDeletes, Ordered;
    var rows := WithRows(s.db, s.chunks, None, {}, {}, s.db.order);
    assert rows.outbox == s.db.outbox && rows.statuses == s.db.statuses;
  }

  // ---------- Enqueues ----------

  lemma FirstWriteIsEnqueued()
    ensures EnqueueStep(Sys(CHUNKS, {}, EMPTY_DB, {}, Idle, false), Sys(CHUNKS, {}, TO_WRITE, {}, Idle, false), None, None)
  {
    assert NewUpserts(EMPTY_DB, CHUNKS, None, None) == {0} && NewDeletes(EMPTY_DB, CHUNKS) == {};
    var rows := WithRows(EMPTY_DB, CHUNKS, None, {0}, {}, [UP]);
    assert rows.outbox == TO_WRITE.outbox && rows.statuses == TO_WRITE.statuses;
    hide NewUpserts, NewDeletes, WithRows;
  }

  lemma DeleteIsEnqueued()
    ensures EnqueueStep(LEAVING.(db := WRITTEN), LEAVING, None, None)
  {
    var chunks: Chunks := map[];
    assert NewUpserts(WRITTEN, chunks, None, None) == {} && NewDeletes(WRITTEN, chunks) == {0};
    var rows := WithRows(WRITTEN, chunks, None, {}, {0}, [UP, DOWN]);
    assert rows.outbox == TO_ERASE.outbox && rows.statuses == TO_ERASE.statuses;
    assert [UP] <= [UP, DOWN];
    hide NewUpserts, NewDeletes, WithRows;
  }

  /** A rebuild writes the chunk anew, whatever became of its delete. */
  lemma RebuildIsEnqueued(row: Row, status: Status)
    ensures EnqueueStep(
      Sys(CHUNKS, {0}, Db(map[UP := DONE, DOWN := row], [UP, DOWN], map[0 := status]), {}, Idle, true),
      Sys(CHUNKS, {0}, Db(map[UP := DONE, DOWN := row, AGAIN := FRESH_ROW], [UP, DOWN, AGAIN],
                          map[0 := Status(1, StatusPending)]), {}, Idle, false),
      None, Some(TOKEN))
  {
    var pre := Db(map[UP := DONE, DOWN := row], [UP, DOWN], map[0 := status]);
    assert NewUpserts(pre, CHUNKS, None, Some(TOKEN)) == {0} && NewDeletes(pre, CHUNKS) == {};
    hide NewUpserts, NewDeletes;
    RebuildRows(row, status);
    assert [UP, DOWN] <= [UP, DOWN, AGAIN];
    hide WithRows;
  }

  lemma RebuildRows(row: Row, status: Status)
    ensures WithRows(Db(map[UP := DONE, DOWN := row], [UP, DOWN], map[0 := status]), CHUNKS, Some(TOKEN), {0}, {},
                     [UP, DOWN, AGAIN])
      == Db(map[UP := DONE, DOWN := row, AGAIN := FRESH_ROW], [UP, DOWN, AGAIN], map[0 := Status(1, StatusPending)])
  {
    var pre := Db(map[UP := DONE, DOWN := row], [UP, DOWN], map[0 := status]);
    var rows := WithRows(pre, CHUNKS, Some(TOKEN), {0}, {}, [UP, DOWN, AGAIN]);
    assert rows.outbox == map[UP := DONE, DOWN := row, AGAIN := FRESH_ROW];
    assert rows.statuses == map[0 := Status(1, StatusPending)];
  }

  // ---------- Rows ----------

  lemma DueFirst(outbox: map<Key, Row>, order: seq<Key>, k: Key)
    requires order != [] && order[0] == k && k in outbox && Due(outbox[k], 0)
    ensures DueKeys(outbox, order, 0, 1) == [k]
  {
    assert DueKeys(outbox, order[1..], 0, 0) == [];
  }

  lemma DueNext(outbox: map<Key, Row>, order: seq<Key>, limit: nat)
    requires order != [] && order[0] in outbox && outbox[order[0]].state.Succeeded?
    ensures DueKeys(outbox, order, 0, limit) == DueKeys(outbox, order[1..], 0, limit)
  {
  }

  lemma WritesTheChunk()
    ensures DueKeys(TO_WRITE.outbox, TO_WRITE.order, 0, 1) == [UP]
    ensures Processed(Sys(CHUNKS, {}, TO_WRITE, {}, Idle, false), UP, LEASE) == CURRENT
  {
    DueFirst(TO_WRITE.outbox, TO_WRITE.order, UP);
    var t := Processed(Sys(CHUNKS, {}, TO_WRITE, {}, Idle, false), UP, LEASE);
    assert t.db.outbox == WRITTEN.outbox && t.db.statuses == WRITTEN.statuses;
  }

  lemma ErasesTheChunk(s: Sys)
    requires s == LEAVING || s == BACK_EARLY
    ensures DueKeys(s.db.outbox, s.db.order, 0, 1) == [DOWN]
    ensures Processed(s, DOWN, LEASE) == s.(db := ERASED, points := {})
  {
    assert [UP, DOWN][1..] == [DOWN];
    DueNext(s.db.outbox, s.db.order, 1);
    DueFirst(s.db.outbox, [DOWN], DOWN);
    var t := Processed(s, DOWN, LEASE);
    assert t.db.outbox == ERASED.outbox && t.db.statuses == ERASED.statuses;
  }

  lemma RestoresTheChunk(s: Sys)
    requires s == Sys(CHUNKS, {0}, TO_RESTORE, {}, Idle, false) || s == Sys(CHUNKS, {0}, ERASED_FIRST, {}, Idle, false)
    ensures DueKeys(s.db.outbox, s.db.order, 0, 1) == [AGAIN]
    ensures Processed(s, AGAIN, LEASE) == s.(db := RESTORED, points := {0})
  {
    assert [UP, DOWN, AGAIN][1..] == [DOWN, AGAIN] && [DOWN, AGAIN][1..] == [AGAIN];
    DueNext(s.db.outbox, s.db.order, 1);
    DueNext(s.db.outbox, [DOWN, AGAIN], 1);
    DueFirst(s.db.outbox, [AGAIN], AGAIN);
    var t := Processed(s, AGAIN, LEASE);
    assert t.db.outbox == RESTORED.outbox && t.db.statuses == RESTORED.statuses;
  }

  lemma ErasesFirst(s: Sys)
    requires s == Sys(CHUNKS, {0}, CONTESTED, {}, Idle, false)
    ensures DueKeys(s.db.outbox, s.db.order, 0, 1) == [DOWN]
    ensures Processed(s, DOWN, LEASE) == s.(db := ERASED_FIRST)
  {
    assert [UP, DOWN, AGAIN][1..] == [DOWN, AGAIN];
    DueNext(s.db.outbox, s.db.order, 1);
    DueFirst(s.db.outbox, [DOWN, AGAIN], DOWN);
    var t := Processed(s, DOWN, LEASE);
    assert t.db.outbox == ERASED_FIRST.outbox && t.db.statuses == ERASED_FIRST.statuses;
  }

  // ---------- States on the way ----------

  lemma StartIsReachable()
    ensures Reachable(Sys(map[], {}, EMPTY_DB, {}, Idle, false))
  {
    var s := Sys(map[], {}, EMPTY_DB, {}, Idle, false);
    assert HistoryTo([s], s);
  }

  lemma WaitingIsReachable()
    ensures Reachable(Sys(CHUNKS, {}, TO_WRITE, {}, Idle, false))
  {
    hide Reachable, EnqueueStep;
    StartIsReachable();
    Changes(Sys(map[], {}, EMPTY_DB, {}, Idle, false), CHUNKS, {});
    FirstWriteIsEnqueued();
    Enqueues(Sys(CHUNKS, {}, EMPTY_DB, {}, Idle, false), Sys(CHUNKS, {}, TO_WRITE, {}, Idle, false), None);
  }

  lemma CurrentIsReachable()
    ensures Reachable(CURRENT)
  {
    hide Reachable, DrainsTo, Processed, DueKeys;
    WaitingIsReachable();
    WritesTheChunk();
    Processes(Sys(CHUNKS, {}, TO_WRITE, {}, Idle, false), UP);
  }

  lemma LeavingIsReachable()
    ensures Reachable(LEAVING)
  {
    hide Reachable, EnqueueStep;
    CurrentIsReachable();
    var none: Chunks := map[];
    assert CURRENT.chunks.Keys == {0} && none.Keys == {};
    Changes(CURRENT, none, {0});
    DeleteIsEnqueued();
    Enqueues(LEAVING.(db := WRITTEN), LEAVING, None);
  }

  lemma BackEarlyIsReachable()
    ensures Reachable(BACK_EARLY)
  {
    hide Reachable;
    LeavingIsReachable();
    Changes(LEAVING, CHUNKS, {0});
  }

  lemma BackLateIsReachable()
    ensures Reachable(BACK_LATE)
  {
    hide Reachable, DrainsTo, Processed, DueKeys;
    LeavingIsReachable();
    ErasesTheChunk(LEAVING);
    Processes(LEAVING, DOWN);
    Changes(LEAVING.(db := ERASED, points := {}), CHUNKS, {0});
  }

  // ---------- A reverted file ----------

  /**
   The file was reverted after its delete had been drained: a completed all-vault run leaves the
   chunk current and its point missing.
   */
  lemma RevertedChunkIsLost()
    ensures exists h, i, j :: CompletedRun(h, i, j, None, None, BACK_LATE, BACK_LATE)
    ensures Missing(BACK_LATE, 0, 1) && BACK_LATE.chunks.Keys == {0} && BACK_LATE.points == {}
  {
    assert NewUpserts(ERASED, CHUNKS, None, None) == {} && NewDeletes(ERASED, CHUNKS) == {};
    assert Drained(ERASED);
    EnqueuesNothing(BACK_LATE);
    hide Reachable, EnqueueStep, DrainsTo, CompletedRun;
    BackLateIsReachable();
    DrainsToSelf(BACK_LATE);
    RunIsPossible(BACK_LATE, BACK_LATE, BACK_LATE, None, None);
  }

  /**
   The file was reverted before its delete was drained: everything current has its point when the
   all-vault run starts, the run enqueues nothing, and it erases the point of the current chunk.
   */
  lemma EarlyRevertErasesCurrentChunk()
    ensures exists h, i, j :: CompletedRun(h, i, j, None, None, BACK_EARLY, BACK_LATE)
    ensures BACK_EARLY.points == BACK_EARLY.chunks.Keys && DeleteOutstanding(BACK_EARLY.db, 0)
    ensures !WillWrite(BACK_EARLY, None, None, 0)
    ensures BACK_LATE.chunks.Keys == {0} && BACK_LATE.points == {}
  {
    hide WillWrite, DeleteOutstanding, CompletedRun, EnqueueStep;
    NothingIsWritten();
    EarlyRevertCompletes();
  }

  lemma EarlyRevertCompletes()
    requires EnqueueStep(BACK_EARLY, BACK_EARLY, None, None)
    ensures exists h, i, j :: CompletedRun(h, i, j, None, None, BACK_EARLY, BACK_LATE)
  {
    assert Drained(ERASED);
    hide Reachable, EnqueueStep, DrainsTo, CompletedRun, Processed, DueKeys, Drained;
    ErasesTheChunk(BACK_EARLY);
    BackEarlyIsReachable();
    Processes(BACK_EARLY, DOWN);
    RunIsPossible(BACK_EARLY, BACK_EARLY, BACK_LATE, None, None);
  }

  /** The upsert key was used, the delete is outstanding: the run enqueues nothing. */
  lemma NothingIsWritten()
    ensures EnqueueStep(BACK_EARLY, BACK_EARLY, None, None)
    ensures DeleteOutstanding(BACK_EARLY.db, 0) && !WillWrite(BACK_EARLY, None, None, 0)
  {
    assert Outstanding(TO_ERASE, DOWN);
    assert NewUpserts(TO_ERASE, CHUNKS, None, None) == {} && NewDeletes(TO_ERASE, CHUNKS) == {};
    hide NewUpserts, NewDeletes;
    EnqueuesNothing(BACK_EARLY);
  }

  // ---------- The order of claims ----------

  /** A rebuild over a delete that is still outstanding, with batches of one and of two rows. */
  const REBUILDING := Sys(CHUNKS, {0}, TO_ERASE, {}, Idle, true)
  const RACING := Sys(CHUNKS, {0}, CONTESTED, {}, Idle, false)
  const KEPT := Sys(CHUNKS, {0}, RESTORED, {0}, Idle, false)
  const LOST := Sys(CHUNKS, {0}, ERASED_LAST, {}, Idle, false)

  lemma RebuildingIsReachable()
    ensures Reachable(REBUILDING)
  {
    hide Reachable;
    BackEarlyIsReachable();
    Drops(BACK_EARLY);
  }

  lemma BatchesOfOneKeep()
    ensures DrainsTo(RACING, KEPT)
  {
    hide DrainsTo, Processed, DueKeys, Reachable, EnqueueStep;
    RebuildingIsReachable();
    RebuildIsEnqueued(FRESH_ROW, Status(2, StatusPending));
    Enqueues(REBUILDING, RACING, Some(TOKEN));
    ErasesFirst(RACING);
    Processes(RACING, DOWN);
    var s := RACING.(db := ERASED_FIRST);
    RestoresTheChunk(s);
    Processes(s, AGAIN);
    DrainsThrough(RACING, s, KEPT);
  }

  const HELD := Row(Processing, 1, MAX_ATTEMPTS, None, Some(LEASE))
  const BOTH := Db(map[UP := DONE, DOWN := HELD, AGAIN := HELD], [UP, DOWN, AGAIN], map[0 := Status(1, StatusPending)])
  const HALF := Db(map[UP := DONE, DOWN := HELD, AGAIN := DONE], [UP, DOWN, AGAIN], map[0 := Status(1, StatusCurrent)])
  const WRITE := Item(AGAIN, true, 1)
  const ERASE := Item(DOWN, true, 1)

  lemma BothAreDue()
    ensures DueKeys(CONTESTED.outbox, CONTESTED.order, 0, 2) == [DOWN, AGAIN]
  {
    assert [UP, DOWN, AGAIN][1..] == [DOWN, AGAIN] && [DOWN, AGAIN][1..] == [AGAIN];
    DueNext(CONTESTED.outbox, [UP, DOWN, AGAIN], 2);
    DueFirst(CONTESTED.outbox, [AGAIN], AGAIN);
  }

  lemma BothAreClaimed()
    ensures DrainStep(RACING, RACING.(db := BOTH, worker := Writing([WRITE], [ERASE])))
  {
    hide DueKeys;
    var t := RACING.(db := BOTH, worker := Writing([WRITE], [ERASE]));
    BothAreDue();
    assert WithLeases(CONTESTED, [DOWN, AGAIN], LEASE).outbox == BOTH.outbox;
    assert [WRITE] + [ERASE] == [WRITE, ERASE];
    assert WRITE in [WRITE, ERASE] && ERASE in [WRITE, ERASE];
    assert SplitBatch(BOTH, [DOWN, AGAIN], CHUNKS, t.worker);
    hide SplitBatch;
    assert ClaimStep(RACING, t, 0, 2, LEASE);
  }

  lemma BothAreWritten()
    ensures DrainsTo(RACING.(db := BOTH, worker := Writing([WRITE], [ERASE])),
                     RACING.(db := HALF, points := {0}, worker := Erasing([ERASE])))
  {
    var s := RACING.(db := BOTH, worker := Writing([WRITE], [ERASE]));
    assert ChunksOf([WRITE]) == {0};
    var a := s.(points := {0}, worker := Confirming([WRITE], [ERASE]));
    assert WriteStep(s, a);
    var b := a.(db := HALF, worker := Confirming([], [ERASE]));
    assert Confirmed(BOTH, WRITE).outbox == HALF.outbox && Confirmed(BOTH, WRITE).statuses == HALF.statuses;
    assert [WRITE][1..] == [];
    assert ConfirmStep(a, b);
    var c := b.(worker := Erasing([ERASE]));
    assert ConfirmStep(b, c);
    DrainsInThree(s, a, b, c);
  }

  lemma BatchOfTwoLoses()
    ensures DrainsTo(RACING, LOST)
  {
    var s := RACING.(db := BOTH, worker := Writing([WRITE], [ERASE]));
    var t := RACING.(db := HALF, points := {0}, worker := Erasing([ERASE]));
    assert Confirmed(HALF, ERASE).outbox == ERASED_LAST.outbox && Confirmed(HALF, ERASE).statuses == ERASED_LAST.statuses;
    assert {0} - {0} == {};
    hide DrainsTo, DrainStep, Confirmed;
    BothAreClaimed();
    DrainsToSelf(RACING);
    DrainsOneMore(RACING, RACING, s);
    BothAreWritten();
    DrainsThrough(RACING, s, t);
    ErasesOne(t, ERASE);
    DrainsThrough(RACING, t, LOST);
  }

  /**
   With a write and a delete of a current chunk outstanding, the order of the claims decides. From
   one state a full rebuild completes with the chunk's point if it claims one row at a time, and
   without it if it claims both rows in one batch: the proviso of the rebuild theorem is needed.
   */
  lemma ClaimOrderDecides()
    ensures RunContests(REBUILDING, None, Some(TOKEN), 0)
    ensures DropStep(BACK_EARLY, REBUILDING)
    ensures exists h, i, j :: CompletedRunAfter(h, i, j, None, Some(TOKEN), BACK_EARLY, REBUILDING, KEPT)
    ensures exists h, i, j :: CompletedRunAfter(h, i, j, None, Some(TOKEN), BACK_EARLY, REBUILDING, LOST)
    ensures KEPT.chunks == LOST.chunks && KEPT.points == KEPT.chunks.Keys && LOST.points == {}
  {
    assert Outstanding(TO_ERASE, DOWN);
    assert Scope(CHUNKS, None) == {0};
    assert RunContests(REBUILDING, None, Some(TOKEN), 0);
    assert Drained(RESTORED) && Drained(ERASED_LAST);
    assert DropStep(BACK_EARLY, REBUILDING) && Step(BACK_EARLY, REBUILDING);
    hide DrainsTo, EnqueueStep, Reachable, CompletedRunAfter, RunContests, Step;
    BackEarlyIsReachable();
    RebuildIsEnqueued(FRESH_ROW, Status(2, StatusPending));
    BatchesOfOneKeep();
    BatchOfTwoLoses();
    RunIsPossibleAfter(BACK_EARLY, REBUILDING, RACING, KEPT, None, Some(TOKEN));
    RunIsPossibleAfter(BACK_EARLY, REBUILDING, RACING, LOST, None, Some(TOKEN));
  }

  // ---------- A second departure ----------

  const GONE_AGAIN := Sys(map[], {0}, RESTORED, {0}, Idle, false)

  lemma GoneAgainIsReachable()
    ensures Reachable(GONE_AGAIN)
  {
    hide DrainsTo, Processed, DueKeys, Reachable, EnqueueStep;
    BackLateIsReachable();
    Drops(BACK_LATE);
    RebuildIsEnqueued(DONE, Status(2, StatusDeleted));
    var s := Sys(CHUNKS, {0}, TO_RESTORE, {}, Idle, false);
    Enqueues(BACK_LATE.(dropped := true), s, Some(TOKEN));
    RestoresTheChunk(s);
    Processes(s, AGAIN);
    Changes(KEPT, map[], {0});
  }

  /** The chunk left, came back, was restored by a full rebuild, and left again: its point stays. */
  lemma StalePointIsKept()
    ensures exists h, i, j :: CompletedRun(h, i, j, None, None, GONE_AGAIN, GONE_AGAIN)
    ensures Stranded(GONE_AGAIN, 0) && GONE_AGAIN.chunks == map[] && GONE_AGAIN.points == {0}
  {
    var chunks: Chunks := map[];
    assert NewUpserts(RESTORED, chunks, None, None) == {} && NewDeletes(RESTORED, chunks) == {};
    assert Drained(RESTORED);
    EnqueuesNothing(GONE_AGAIN);
    hide Reachable, EnqueueStep, DrainsTo, CompletedRun;
    GoneAgainIsReachable();
    DrainsToSelf(GONE_AGAIN);
    RunIsPossible(GONE_AGAIN, GONE_AGAIN, GONE_AGAIN, None, None);
  }

  // ---------- A rebuild that crashes ----------

  const DROPPED := Sys(CHUNKS, {}, WRITTEN, {}, Idle, true)

  /** The collection was deleted and nothing enqueued: the next incremental run completes with nothing. */
  lemma CrashedRebuildIsNotRepaired()
    ensures DropStep(CURRENT, DROPPED)
    ensures exists h, i, j :: CompletedRunAfter(h, i, j, None, None, CURRENT, DROPPED, DROPPED)
    ensures DROPPED.chunks.Keys == {0} && DROPPED.points == {}
  {
    assert NewUpserts(WRITTEN, CHUNKS, None, None) == {} && NewDeletes(WRITTEN, CHUNKS) == {};
    assert Drained(WRITTEN);
    EnqueuesNothing(DROPPED);
    assert DropStep(CURRENT, DROPPED) && Step(CURRENT, DROPPED);
    hide Reachable, EnqueueStep, DrainsTo, CompletedRunAfter, Step;
    CurrentIsReachable();
    DrainsToSelf(DROPPED);
    RunIsPossibleAfter(CURRENT, DROPPED, DROPPED, DROPPED, None, None);
  }

  // ---------- The last attempt ----------

  /** The n-th claim comes at time 101 * (n - 1) and leases the row for 100. */
  function LeaseOf(n: nat): Lease {
    ProjectionModel.Lease("worker", 101 * n - 1)
  }

  function AfterCrashes(n: nat): Db {
    if n == 0 then TO_WRITE
    else Db(map[UP := Row(Processing, n, MAX_ATTEMPTS, None, Some(LeaseOf(n)))], [UP], map[0 := Status(1, StatusPending)])
  }

  /** The row is claimed once its lease has expired, and the worker crashes before it does anything. */
  lemma ClaimAndCrash(n: nat)
    requires n < MAX_ATTEMPTS && Reachable(Sys(CHUNKS, {}, AfterCrashes(n), {}, Idle, false))
    ensures Reachable(Sys(CHUNKS, {}, AfterCrashes(n + 1), {}, Idle, false))
  {
    var s, t := Sys(CHUNKS, {}, AfterCrashes(n), {}, Idle, false), Sys(CHUNKS, {}, AfterCrashes(n + 1), {}, Idle, false);
    var now, held := 101 * n, Writing([Item(UP, true, n + 1)], []);
    assert LeaseOf(n + 1).expires == now + 100;
    assert DueKeys(s.db.outbox, [UP][1..], now, 0) == [];
    assert DueKeys(s.db.outbox, [UP], now, 1) == [UP];
    assert WithLeases(s.db, [UP], LeaseOf(n + 1)).outbox == t.db.outbox;
    var c := ClaimsOne(s, UP, now, LeaseOf(n + 1));
    assert c == t.(worker := held);
    assert CrashStep(c, t);
    hide Reachable, DrainStep;
    ReachOneMore(s, c);
    ReachOneMore(c, t);
  }

  lemma {:induction false} CrashesAreReachable(n: nat)
    requires n <= MAX_ATTEMPTS
    ensures Reachable(Sys(CHUNKS, {}, AfterCrashes(n), {}, Idle, false))
  {
    hide Reachable;
    if n == 0 {
      WaitingIsReachable();
    } else {
      CrashesAreReachable(n - 1);
      ClaimAndCrash(n - 1);
    }
  }

  /** Five claims that end in a crash: the row is outstanding without attempts left. */
  lemma FiveCrashesBlockEveryRun()
    ensures var s := Sys(CHUNKS, {}, AfterCrashes(MAX_ATTEMPTS), {}, Idle, false);
      Reachable(s) && Exhausted(s, UP) && !CanDrain(s)
  {
    var s := Sys(CHUNKS, {}, AfterCrashes(MAX_ATTEMPTS), {}, Idle, false);
    CrashesAreReachable(MAX_ATTEMPTS);
    assert Exhausted(s, UP);
    var h :| HistoryTo(h, s);
    hide HistoryTo, CanDrain, Exhausted;
    CanDrainExactlyWhen(h, |h| - 1);
  }
}
