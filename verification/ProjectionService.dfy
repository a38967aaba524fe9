/**
 The vector index and the drain loop in their imperative form. What the outside does is a script that
 the service consumes; the service object also carries its whole history as a ghost trace, so that
 the results about histories apply to it.
 */
module ProjectionService {
  import opened Collections
  import opened Options
  import opened ProjectionModel
  import opened ProjectionSafety
  import opened ProjectionAgreement
  import opened ProjectionBatch
  import opened ProjectionStore

  /**
   How one external call or transaction ends: it works, it raises, or the process dies in it. A call to
   the index that does not work may have reached some of its points.
   */
  datatype Answer = Works | Fails(reached: set<ChunkId>) | Dies(reached: set<ChunkId>)

  /** Qdrant. */
  class VectorIndex {
    var points: set<ChunkId>
    var aliased: bool

    constructor ()
      ensures points == {} && !aliased
    {
      points, aliased := {}, false;
    }

    method DeleteCollection(answer: Answer)
      modifies this`points
      ensures points == if answer.Works? || answer.reached != {} then {} else old(points)
    {
      if answer.Works? || answer.reached != {} {
        points := {};
      }
    }

    method Upsert(ids: set<ChunkId>, answer: Answer)
      modifies this`points
      ensures points == old(points) + if answer.Works? then ids else ids * answer.reached
    {
      points := points + if answer.Works? then ids else ids * answer.reached;
    }

    method Delete(ids: set<ChunkId>, answer: Answer)
      modifies this`points
      ensures points == old(points) - if answer.Works? then ids else ids * answer.reached
    {
      points := points - if answer.Works? then ids else ids * answer.reached;
    }

    method SwitchAlias(answer: Answer)
      modifies this`aliased
      ensures aliased <==> answer.Works? || old(aliased)
    {
      aliased := aliased || answer.Works?;
    }
  }

  // ---------- Termination of the drain loop ----------

  function AttemptsLeft(outbox: map<Key, Row>, k: Key): nat {
    if k in outbox && (outbox[k].state.Pending? || outbox[k].state.Processing?)
       && outbox[k].attempts < outbox[k].maxAttempts
    then outbox[k].maxAttempts - outbox[k].attempts else 0
  }

  /** The attempts left over all rows that can still be claimed. */
  function Remaining(outbox: map<Key, Row>, order: seq<Key>): nat {
    if order == [] then 0 else AttemptsLeft(outbox, order[0]) + Remaining(outbox, order[1..])
  }

  lemma {:induction false} RemainingFalls(a: map<Key, Row>, b: map<Key, Row>, order: seq<Key>)
    requires forall k :: AttemptsLeft(b, k) <= AttemptsLeft(a, k)
    ensures Remaining(b, order) <= Remaining(a, order)
    ensures (exists k :: k in order && AttemptsLeft(b, k) < AttemptsLeft(a, k)) ==>
      Remaining(b, order) < Remaining(a, order)
  {
    if order != [] {
      RemainingFalls(a, b, order[1..]);
      assert forall k :: k in order ==> k == order[0] || k in order[1..];
    }
  }

  /** Every batch uses up attempts, and marking gives none back. */
  lemma ClaimUsesAttempts(db: Db, now: int, limit: nat, lease: Lease)
    requires TablesOk(db) && DueKeys(db.outbox, db.order, now, limit) != []
    ensures var post := WithLeases(db, DueKeys(db.outbox, db.order, now, limit), lease);
            Remaining(post.outbox, post.order) < Remaining(db.outbox, db.order)
  {
    ClaimKeepsTables(db, now, limit, lease);
    var keys := DueKeys(db.outbox, db.order, now, limit);
    var post := WithLeases(db, keys, lease);
    assert keys[0] in keys && keys[0] in db.order;
    assert AttemptsLeft(post.outbox, keys[0]) < AttemptsLeft(db.outbox, keys[0]);
    RemainingFalls(db.outbox, post.outbox, db.order);
  }

  lemma MarkGivesNoAttempts(db: Db, item: Item)
    ensures Confirmed(db, item).order == db.order
    ensures Remaining(Confirmed(db, item).outbox, db.order) <= Remaining(db.outbox, db.order)
  {
    RemainingFalls(db.outbox, Confirmed(db, item).outbox, db.order);
  }

  lemma RejectGivesNoAttempts(db: Db, item: Item, now: int)
    requires item.key in db.outbox ==> db.outbox[item.key].state.Processing?
    ensures Rejected(db, item, now).order == db.order
    ensures Remaining(Rejected(db, item, now).outbox, db.order) <= Remaining(db.outbox, db.order)
  {
    RemainingFalls(db.outbox, Rejected(db, item, now).outbox, db.order);
  }

  lemma NothingOutstanding(db: Db)
    requires |set k | k in db.outbox && (db.outbox[k].state.Pending? || db.outbox[k].state.Processing?)| == 0
    requires |set k | k in db.outbox && db.outbox[k].state.Failed?| == 0
    ensures Drained(db)
  {
    var waiting := set k | k in db.outbox && (db.outbox[k].state.Pending? || db.outbox[k].state.Processing?);
    var broken := set k | k in db.outbox && db.outbox[k].state.Failed?;
    forall k | k in db.outbox ensures !Outstanding(db, k) {
      assert k !in waiting && k !in broken;
    }
  }

  // ---------- The service ----------

  function Last(h: seq<Sys>): Sys
    requires |h| > 0
  {
    h[|h| - 1]
  }

  /** Every step from index `i` on drains the outbox. */
  ghost predicate DrainsFrom(h: seq<Sys>, i: nat) {
    forall m: nat :: i <= m && m + 1 < |h| ==> Drains(h, m)
  }

  lemma Extend(h: seq<Sys>, t: Sys)
    requires History(h) && Step(Last(h), t)
    ensures History(h + [t])
  {
    hide Step;
    forall i: nat | i + 1 < |h + [t]| ensures Adjacent(h + [t], i) {
      if i + 1 < |h| {
        assert Adjacent(h, i);
      }
    }
  }

  lemma RunIsSegment(h: seq<Sys>, start: nat, vault: Option<VaultId>, token: Option<Token>)
    requires start + 1 < |h| && EnqueueStep(h[start], h[start + 1], vault, token) && DrainsFrom(h, start + 1)
    ensures RunSegment(h, start, |h| - 1, vault, token)
  {
    forall m: nat | start < m && m + 1 <= |h| - 1 ensures Drains(h, m) {
    }
  }

  lemma NothingDrainedYet(h: seq<Sys>)
    requires |h| > 0
    ensures DrainsFrom(h, |h| - 1)
  {
  }

  /** Deleting the collection changes no outbox row. */
  lemma SameDeletes(s: Sys, t: Sys)
    requires t == s || DropStep(s, t)
    ensures NoDeleteOfCurrent(s) <==> NoDeleteOfCurrent(t)
  {
  }

  lemma ExtendDrain(h: seq<Sys>, t: Sys, i: nat)
    requires |h| > 0 && DrainsFrom(h, i) && DrainStep(Last(h), t)
    ensures DrainsFrom(h + [t], i)
  {
    hide DrainStep;
    forall m: nat | i <= m && m + 1 < |h + [t]| ensures Drains(h + [t], m) {
      if m + 1 < |h| {
        assert Drains(h, m);
      }
    }
  }

  lemma NoKeysNoLease(db: Db, lease: Lease)
    ensures WithLeases(db, [], lease) == db
  {
  }

  datatype Outcome =
    | Completed(enqueuedUpserts: nat, enqueuedDeletes: nat, projectedUpserts: nat, projectedDeletes: nat)
    | Raised
    | Crashed

  /** An outstanding row has attempts left and is past its wait or its lease. */
  predicate PastWait(row: Row, now: int) {
    && row.attempts < row.maxAttempts
    && match row.state
       case Pending => row.nextAttempt.None? || row.nextAttempt.value <= now
       case Processing => row.lease.Some? && row.lease.value.expires < now
       case Succeeded => true
       case Failed => false
  }

  ghost predicate RowsPastWait(outbox: map<Key, Row>, now: int) {
    forall k :: k in outbox ==> PastWait(outbox[k], now)
  }

  /** Rows of a batch are done, the others are as they were. */
  ghost predicate Settles(before: map<Key, Row>, after: map<Key, Row>, keys: set<Key>) {
    && after.Keys == before.Keys
    && (forall k :: k in keys ==> k in before && !before[k].state.Succeeded? && after[k].state.Succeeded?)
    && (forall k :: k in before && k !in keys ==> after[k] == before[k])
  }

  lemma SettlesMore(first: map<Key, Row>, second: map<Key, Row>, third: map<Key, Row>, a: set<Key>, b: set<Key>,
                    chunks: Chunks)
    requires Settles(first, second, a) && Settles(second, third, b)
    ensures Settles(first, third, a + b)
    ensures |set k | k in a + b && IsWrite(k, chunks)|
      == |set k | k in a && IsWrite(k, chunks)| + |set k | k in b && IsWrite(k, chunks)|
    ensures |set k | k in a + b && !IsWrite(k, chunks)|
      == |set k | k in a && !IsWrite(k, chunks)| + |set k | k in b && !IsWrite(k, chunks)|
  {
    assert a !! b;
    assert (set k | k in a + b && IsWrite(k, chunks))
        == (set k | k in a && IsWrite(k, chunks)) + (set k | k in b && IsWrite(k, chunks));
    assert (set k | k in a + b && !IsWrite(k, chunks))
        == (set k | k in a && !IsWrite(k, chunks)) + (set k | k in b && !IsWrite(k, chunks));
  }

  /** What is left outstanding was not past its wait at a reading at which nothing was due. */
  lemma AllSettled(before: map<Key, Row>, after: map<Key, Row>, keys: set<Key>, now: int)
    requires Settles(before, after, keys)
    requires forall k :: k in after ==> LeftAlone(after[k], now)
    requires RowsPastWait(before, now)
    ensures forall k :: k in after ==> after[k].state.Succeeded?
  {
  }

  class ChunkProjectionService {
    const store: ProjectionStore
    const vectors: VectorIndex
    const owner: string
    const batchSize: nat
    const leaseSeconds: nat
    /** The script: how each call and transaction ends, and what each look at the clock shows. */
    const answers: nat -> Answer
    const clock: nat -> int
    var calls: nat
    var readings: nat
    /** Everything that happened to the system since it was set up. */
    ghost var trace: seq<Sys>

    ghost predicate Valid()
      reads this, store, vectors
    {
      && batchSize > 0
      && |trace| > 0 && Initial(trace[0]) && History(trace)
      && Last(trace).chunks == store.chunks
      && Last(trace).db == store.View()
      && Last(trace).points == vectors.points
    }

    ghost function Now(): Sys
      requires |trace| > 0
      reads this
    {
      Last(trace)
    }

    /** The outcome follows from the script entries from `i` to `j`: it raised or crashed only with one that did. */
    ghost predicate Explained(outcome: Outcome, i: nat, j: nat) {
      && i <= j
      && (outcome.Completed? ==> AllWork(i, j))
      && (outcome.Raised? ==> SomeFails(i, j))
      && (outcome.Crashed? ==> SomeDies(i, j))
    }

    ghost predicate AllWork(i: nat, j: nat) {
      forall n: nat :: i <= n < j ==> answers(n).Works?
    }

    ghost predicate SomeFails(i: nat, j: nat) {
      exists n: nat :: i <= n < j && answers(n).Fails?
    }

    ghost predicate SomeDies(i: nat, j: nat) {
      exists n: nat :: i <= n < j && answers(n).Dies?
    }

    constructor (owner: string, batchSize: nat, leaseSeconds: nat, answers: nat -> Answer, clock: nat -> int)
      requires batchSize > 0
      ensures Valid() && fresh(store) && fresh(vectors) && Now().worker.Idle?
      ensures this.answers == answers && this.clock == clock
    {
      var s := new ProjectionStore();
      var v := new VectorIndex();
      store, vectors := s, v;
      this.owner, this.batchSize, this.leaseSeconds := owner, batchSize, leaseSeconds;
      this.answers, this.clock, calls, readings := answers, clock, 0, 0;
      trace := [Sys(map[], {}, Db(map[], [], map[]), {}, Idle, false)];
    }

    lemma NowIsSound()
      requires Valid()
      ensures Sound(Now())
    {
      SoundAlways(trace, |trace| - 1);
    }

    method NextAnswer() returns (answer: Answer)
      modifies this`calls
      ensures answer == answers(old(calls)) && calls == old(calls) + 1
    {
      answer := answers(calls);
      calls := calls + 1;
    }

    method ReadClock() returns (now: int)
      modifies this`readings
      ensures now == clock(old(readings)) && readings == old(readings) + 1
    {
      now := clock(readings);
      readings := readings + 1;
    }

    /** One step of the whole system enters the history. */
    ghost method Record(t: Sys)
      requires |trace| > 0 && History(trace) && Step(Now(), t)
      modifies this`trace
      ensures trace == old(trace) + [t] && History(trace) && Now() == t
    {
      Extend(trace, t);
      trace := trace + [t];
    }

    ghost method RecordDrain(t: Sys, from: nat)
      requires |trace| > 0 && History(trace) && DrainStep(Now(), t) && DrainsFrom(trace, from)
      modifies this`trace
      ensures trace == old(trace) + [t] && History(trace) && Now() == t && DrainsFrom(trace, from)
    {
      hide DrainStep;
      ExtendDrain(trace, t, from);
      assert Step(Now(), t);
      Record(t);
    }

    /** PostgreSQL's current chunks change between runs. */
    method ReplaceChunks(chunks: Chunks)
      requires Valid()
      modifies this`trace, store`chunks
      ensures Valid() && store.chunks == chunks && Now() == old(Now()).(chunks := chunks, gone := Now().gone)
    {
      ghost var t := Now().(chunks := chunks, gone := Now().gone + (Now().chunks.Keys - chunks.Keys));
      assert ChangeStep(Now(), t);
      Record(t);
      store.chunks := chunks;
    }

    /** The worker gives up what it holds: the process died, or a transaction raised. */
    method Abandon(ghost from: nat)
      requires Valid() && DrainsFrom(trace, from)
      modifies this`trace
      ensures Valid() && DrainsFrom(trace, from) && Now() == old(Now()).(worker := Idle)
      ensures old(trace) <= trace
    {
      RecordDrain(Now().(worker := Idle), from);
    }

    /** The next transaction on the store: it works, or ends the run without an effect. */
    method Proceed(ghost from: nat) returns (outcome: Outcome)
      requires Valid() && DrainsFrom(trace, from)
      modifies this`trace, this`calls
      ensures Valid() && DrainsFrom(trace, from) && old(trace) <= trace
      ensures Explained(outcome, old(calls), calls) && calls == old(calls) + 1
      ensures outcome.Completed? ==> trace == old(trace)
      ensures !outcome.Completed? ==> Now() == old(Now()).(worker := Idle)
    {
      var answer := NextAnswer();
      outcome := Completed(0, 0, 0, 0);
      if !answer.Works? {
        Abandon(from);
        outcome := if answer.Fails? then Raised else Crashed;
      }
    }

    /** Embeds and writes the points of one batch, then marks its rows. */
    method ProjectUpserts(items: seq<Item>, ghost from: nat) returns (outcome: Outcome)
      requires Valid() && DrainsFrom(trace, from)
      requires Now().worker.Writing? && Now().worker.ups == items
      modifies this`trace, this`calls, this`readings, store`outbox, store`statuses, vectors`points
      ensures Valid() && DrainsFrom(trace, from) && old(trace) <= trace
      ensures Explained(outcome, old(calls), calls) && readings >= old(readings)
      ensures outcome.Completed? ==> store.View() == AllConfirmed(old(store.View()), items) && readings == old(readings)
      ensures var call := old(calls) + if answers(old(calls)).Works? then 1 else 0;
        answers(call).Fails? && AllWork(call + 1, calls) ==>
          outcome.Raised? && store.View() == AllRejected(old(store.View()), items, clock, old(readings))
      ensures Remaining(store.outbox, store.order) <= old(Remaining(store.outbox, store.order))
      ensures Now().worker == if outcome.Completed? then AfterUpserts(old(Now().worker.dels)) else Idle
    {
      hide History, Initial, DrainStep, AllConfirmed, AllRejected, DrainsFrom, Remaining;
      var answer := NextAnswer();
      if answer.Works? {
        answer := NextAnswer();
        vectors.Upsert(ChunksOf(items), answer);
      }
      ghost var dels := Now().worker.dels;
      ghost var t := Now().(points := vectors.points,
                            worker := if answer.Works? then Confirming(items, dels) else Failing(items));
      TouchIsDrain(Now(), t);
      RecordDrain(t, from);
      if answer.Works? {
        outcome := ConfirmAll(items, dels, from);
      } else {
        outcome := GiveUp(items, answer, from);
      }
    }

    method ConfirmAll(items: seq<Item>, ghost dels: seq<Item>, ghost from: nat) returns (outcome: Outcome)
      requires Valid() && DrainsFrom(trace, from) && Now().worker == Confirming(items, dels)
      modifies this`trace, this`calls, store`outbox, store`statuses
      ensures Valid() && DrainsFrom(trace, from) && old(trace) <= trace
      ensures Explained(outcome, old(calls), calls)
      ensures outcome.Completed? ==> store.View() == AllConfirmed(old(store.View()), items)
      ensures Remaining(store.outbox, store.order) <= old(Remaining(store.outbox, store.order))
      ensures Now().worker == if outcome.Completed? then AfterUpserts(dels) else Idle
    {
      hide History, Initial, DrainStep, DrainsFrom, Remaining;
      for n := 0 to |items|
        invariant Valid() && DrainsFrom(trace, from) && old(trace) <= trace
        invariant Now().worker == Confirming(items[n..], dels)
        invariant AllWork(old(calls), calls) && old(calls) <= calls
        invariant AllConfirmed(store.View(), items[n..]) == AllConfirmed(old(store.View()), items)
        invariant Remaining(store.outbox, store.order) <= old(Remaining(store.outbox, store.order))
      {
        outcome := Proceed(from);
        if !outcome.Completed? {
          return;
        }
        MarkGivesNoAttempts(store.View(), items[n]);
        store.MarkSucceeded(items[n]);
        assert items[n..][1..] == items[n + 1..];
        ghost var t := Now().(db := store.View(), worker := Confirming(items[n + 1..], dels));
        ConfirmIsDrain(Now(), t);
        RecordDrain(t, from);
      }
      ConfirmIsDrain(Now(), Now().(worker := AfterUpserts(dels)));
      RecordDrain(Now().(worker := AfterUpserts(dels)), from);
      outcome := Completed(0, 0, 0, 0);
    }

    /** After a call that did not work: the process is dead, or every item is marked as failed. */
    method GiveUp(items: seq<Item>, answer: Answer, ghost from: nat) returns (outcome: Outcome)
      requires Valid() && DrainsFrom(trace, from) && Now().worker == Failing(items) && !answer.Works?
      modifies this`trace, this`calls, this`readings, store`outbox, store`statuses
      ensures Valid() && DrainsFrom(trace, from) && old(trace) <= trace && Now().worker.Idle?
      ensures !outcome.Completed? && calls >= old(calls) && readings >= old(readings)
      ensures outcome.Raised? ==> answer.Fails?
      ensures outcome.Crashed? ==> answer.Dies? || SomeDies(old(calls), calls)
      ensures answer.Fails? && AllWork(old(calls), calls) ==>
        outcome.Raised? && store.View() == AllRejected(old(store.View()), items, clock, old(readings))
      ensures vectors.points == old(vectors.points)
      ensures Remaining(store.outbox, store.order) <= old(Remaining(store.outbox, store.order))
    {
      hide History, Initial, DrainsFrom, Remaining, AllRejected;
      if answer.Dies? {
        Abandon(from);
        return Crashed;
      }
      outcome := MarkAllFailed(items, from);
    }

    /** Marks every item as failed and raises, unless a mark itself does not work. */
    method MarkAllFailed(items: seq<Item>, ghost from: nat) returns (outcome: Outcome)
      requires Valid() && DrainsFrom(trace, from)
      requires Now().worker == Failing(items)
      modifies this`trace, this`calls, this`readings, store`outbox, store`statuses
      ensures Valid() && DrainsFrom(trace, from) && old(trace) <= trace
      ensures !outcome.Completed? && Now().worker.Idle?
      ensures calls >= old(calls) && readings >= old(readings)
      ensures outcome.Crashed? ==> SomeDies(old(calls), calls)
      ensures AllWork(old(calls), calls) ==>
        outcome.Raised? && store.View() == AllRejected(old(store.View()), items, clock, old(readings))
      ensures vectors.points == old(vectors.points)
      ensures Remaining(store.outbox, store.order) <= old(Remaining(store.outbox, store.order))
    {
      hide History, Initial, DrainStep, DrainsFrom, Remaining, TablesOk, Tracked, DistinctKeys, AllRejected, Rejected;
      assert AllRejected(store.View(), items, clock, readings) == AllRejected(store.View(), items[0..], clock, readings);
      for n := 0 to |items|
        invariant Valid() && DrainsFrom(trace, from) && old(trace) <= trace
        invariant Now().worker == Failing(items[n..])
        invariant AllWork(old(calls), calls) && calls >= old(calls) && readings == old(readings) + n
        invariant AllRejected(store.View(), items[n..], clock, readings)
          == AllRejected(old(store.View()), items, clock, old(readings))
        invariant Remaining(store.outbox, store.order) <= old(Remaining(store.outbox, store.order))
      {
        outcome := Proceed(from);
        if !outcome.Completed? {
          return;
        }
        var now := ReadClock();
        NowIsSound();
        assert items[n] in Held(Now().worker);
        RejectGivesNoAttempts(store.View(), items[n], now);
        NextRejected(store.View(), items, n, clock, readings - 1);
        store.MarkFailed(items[n], now);
        assert items[n..][1..] == items[n + 1..];
        ghost var t := Now().(db := store.View(), worker := Failing(items[n + 1..]));
        FailIsDrain(Now(), t, now);
        RecordDrain(t, from);
      }
      NoneRejected(store.View(), items, clock, readings);
      ghost var t := Now().(worker := Idle);
      FailIsDrain(Now(), t, 0);
      RecordDrain(t, from);
      outcome := Raised;
    }

    method ProjectDeletes(items: seq<Item>, ghost from: nat) returns (outcome: Outcome)
      requires Valid() && DrainsFrom(trace, from)
      requires Now().worker == Erasing(items)
      modifies this`trace, this`calls, this`readings, store`outbox, store`statuses, vectors`points
      ensures Valid() && DrainsFrom(trace, from) && old(trace) <= trace
      ensures Explained(outcome, old(calls), calls) && readings >= old(readings)
      ensures outcome.Completed? ==> store.View() == AllConfirmed(old(store.View()), items) && readings == old(readings)
      ensures answers(old(calls)).Fails? && AllWork(old(calls) + 1, calls) ==>
        outcome.Raised? && store.View() == AllRejected(old(store.View()), items, clock, old(readings))
      ensures Remaining(store.outbox, store.order) <= old(Remaining(store.outbox, store.order))
      ensures Now().worker.Idle?
    {
      hide History, Initial, DrainStep, AllConfirmed, AllRejected, DrainsFrom, Remaining;
      var answer := NextAnswer();
      vectors.Delete(ChunksOf(items), answer);
      ghost var t := Now().(points := vectors.points, worker := if answer.Works? then Closing(items) else Failing(items));
      TouchIsDrain(Now(), t);
      RecordDrain(t, from);
      if answer.Works? {
        outcome := CloseAll(items, from);
      } else {
        outcome := GiveUp(items, answer, from);
      }
    }

    method CloseAll(items: seq<Item>, ghost from: nat) returns (outcome: Outcome)
      requires Valid() && DrainsFrom(trace, from) && Now().worker == Closing(items)
      modifies this`trace, this`calls, store`outbox, store`statuses
      ensures Valid() && DrainsFrom(trace, from) && old(trace) <= trace && Now().worker.Idle?
      ensures Explained(outcome, old(calls), calls)
      ensures outcome.Completed? ==> store.View() == AllConfirmed(old(store.View()), items)
      ensures Remaining(store.outbox, store.order) <= old(Remaining(store.outbox, store.order))
    {
      hide History, Initial, DrainStep, DrainsFrom, Remaining;
      for n := 0 to |items|
        invariant Valid() && DrainsFrom(trace, from) && old(trace) <= trace
        invariant Now().worker == Closing(items[n..])
        invariant AllWork(old(calls), calls) && old(calls) <= calls
        invariant AllConfirmed(store.View(), items[n..]) == AllConfirmed(old(store.View()), items)
        invariant Remaining(store.outbox, store.order) <= old(Remaining(store.outbox, store.order))
      {
        outcome := Proceed(from);
        if !outcome.Completed? {
          return;
        }
        MarkGivesNoAttempts(store.View(), items[n]);
        store.MarkSucceeded(items[n]);
        assert items[n..][1..] == items[n + 1..];
        ghost var t := Now().(db := store.View(), worker := Closing(items[n + 1..]));
        ConfirmIsDrain(Now(), t);
        RecordDrain(t, from);
      }
      ConfirmIsDrain(Now(), Now().(worker := Idle));
      RecordDrain(Now().(worker := Idle), from);
      outcome := Completed(0, 0, 0, 0);
    }

    /**
     Claims one batch, splits it, and projects both parts: a batch that completes settles exactly its
     rows and counts its writes and deletes. With nothing to claim nothing was due.
     */
    method ProjectBatch(ghost from: nat) returns (empty: bool, outcome: Outcome, ghost keys: set<Key>)
      requires Valid() && DrainsFrom(trace, from) && Now().worker.Idle?
      modifies this`trace, this`calls, this`readings, store`outbox, store`statuses, vectors`points
      ensures Valid() && DrainsFrom(trace, from) && old(trace) <= trace && Now().worker.Idle?
      ensures outcome.Completed? ==> readings > old(readings)
      ensures Explained(outcome, old(calls), calls) && readings >= old(readings)
      ensures !empty && outcome.Completed? ==>
        Remaining(store.outbox, store.order) < old(Remaining(store.outbox, store.order))
      ensures empty ==> outcome.Completed? && trace == old(trace) && Now() == old(Now())
      ensures empty ==> readings > 0 && forall k :: k in store.outbox ==> LeftAlone(store.outbox[k], clock(readings - 1))
      ensures outcome.Completed? ==>
        && Settles(old(store.outbox), store.outbox, keys) && store.order == old(store.order)
        && outcome.projectedUpserts == |set k | k in keys && IsWrite(k, store.chunks)|
        && outcome.projectedDeletes == |set k | k in keys && !IsWrite(k, store.chunks)|
    {
      hide History, Initial, DistinctKeys, DueKeys, WithLeases, DrainsFrom, Tracked, WorkerOk, RowOk, LeftAlone;
      hide ClaimStep, DrainStep, SplitBatch, Split, Settles, AllConfirmed, KeysOf, IsWrite, Remaining;
      empty, keys := false, {};
      outcome := Proceed(from);
      if !outcome.Completed? {
        return;
      }
      var now := ReadClock();
      NowIsSound();
      ghost var before := store.View();
      ghost var due := DueKeys(store.outbox, store.order, now, batchSize);
      ghost var lease := Lease(owner, now + leaseSeconds);
      DueKeysDistinct(store.outbox, store.order, now, batchSize);
      var items := store.ClaimBatch(owner, now, batchSize, leaseSeconds);
      if items == [] {
        NoKeysNoLease(before, lease);
        NothingIsDue(before, now, batchSize);
        NothingSettled(before.outbox, store.chunks);
        return true, Completed(0, 0, 0, 0), {};
      }
      ClaimUsesAttempts(before, now, batchSize, lease);
      BatchSettles(before, now, batchSize, lease, items, store.chunks);
      var ups, dels := Split(items).0, Split(items).1;
      ghost var t := Now().(db := store.View(), worker := if ups != [] then Writing(ups, dels) else Erasing(dels));
      SplitIsBatch(store.View(), due, store.chunks, items);
      ClaimIsDrain(Now(), t, now, batchSize, lease);
      RecordDrain(t, from);
      outcome := ProjectParts(ups, dels, from);
      if outcome.Completed? {
        outcome, keys := Completed(0, 0, |ups|, |dels|), KeysOf(items);
      }
    }

    /** Writes come before deletes. */
    method ProjectParts(ups: seq<Item>, dels: seq<Item>, ghost from: nat) returns (outcome: Outcome)
      requires Valid() && DrainsFrom(trace, from) && ups + dels != []
      requires Now().worker == if ups != [] then Writing(ups, dels) else Erasing(dels)
      modifies this`trace, this`calls, this`readings, store`outbox, store`statuses, vectors`points
      ensures Valid() && DrainsFrom(trace, from) && old(trace) <= trace && Now().worker.Idle?
      ensures Explained(outcome, old(calls), calls) && readings >= old(readings)
      ensures outcome.Completed? ==> readings == old(readings)
      ensures outcome.Completed? ==> store.View() == AllConfirmed(AllConfirmed(old(store.View()), ups), dels)
      ensures Remaining(store.outbox, store.order) <= old(Remaining(store.outbox, store.order))
    {
      hide History, Initial, DrainsFrom, Remaining;
      outcome := Completed(0, 0, 0, 0);
      if ups != [] {
        outcome := ProjectUpserts(ups, from);
        if !outcome.Completed? {
          return;
        }
      }
      if dels != [] {
        outcome := ProjectDeletes(dels, from);
      }
    }

    /** Checks the provider, deletes the collection when rebuilding, and makes sure there is one. */
    method OpenCollection(rebuild: bool) returns (outcome: Outcome)
      requires Valid() && Now().worker.Idle?
      modifies this`trace, this`calls, vectors`points
      ensures Valid() && Now().worker.Idle? && old(trace) <= trace
      ensures Explained(outcome, old(calls), calls) && calls > old(calls)
      ensures outcome.Completed? && !rebuild ==> trace == old(trace)
      ensures outcome.Completed? && rebuild ==>
        |trace| == |old(trace)| + 1 && DropStep(old(Now()), Now()) && Now().db == old(Now()).db
    {
      hide History, Initial;
      var profile := NextAnswer();
      if !profile.Works? {
        return if profile.Fails? then Raised else Crashed;
      }
      if rebuild {
        var deletion := NextAnswer();
        vectors.DeleteCollection(deletion);
        if vectors.points == {} {
          RecordDrop();
        }
        if !deletion.Works? {
          return if deletion.Fails? then Raised else Crashed;
        }
      }
      var collection := NextAnswer();
      outcome := if collection.Works? then Completed(0, 0, 0, 0) else if collection.Fails? then Raised else Crashed;
    }

    /** Deletes the collection when rebuilding, and enqueues the rows of the run. */
    method Prepare(vault: Option<VaultId>, rebuild: Option<Token>) returns (outcome: Outcome, ghost start: nat)
      requires Valid() && Now().worker.Idle? && FreshToken(store.View(), rebuild)
      modifies this`trace, this`calls, store`outbox, store`order, store`statuses, vectors`points
      ensures Valid() && Now().worker.Idle? && old(trace) <= trace
      ensures Explained(outcome, old(calls), calls) && calls > old(calls)
      ensures outcome.Completed? ==>
        && start == |old(trace)| - 1 + (if rebuild.Some? then 1 else 0)
        && |trace| == start + 2 && EnqueueStep(trace[start], Now(), vault, rebuild)
        && (rebuild.None? ==> trace[start] == old(Now()))
        && (rebuild.Some? ==> DropStep(old(Now()), trace[start]))
        && outcome.enqueuedUpserts == |NewUpserts(old(store.View()), store.chunks, vault, rebuild)|
        && outcome.enqueuedDeletes == |NewDeletes(old(store.View()), store.chunks)|
    {
      hide History, Initial, NewUpserts, NewDeletes, Enqueued, Tracked, WorkerOk;
      outcome := OpenCollection(rebuild.Some?);
      start := |trace| - 1;
      if !outcome.Completed? {
        return;
      }
      var transaction := NextAnswer();
      if !transaction.Works? {
        return if transaction.Fails? then Raised else Crashed, start;
      }
      NowIsSound();
      var upserts, deletes := store.EnqueueCurrentChunks(vault, rebuild);
      ghost var t := Now().(db := store.View(), dropped := Now().dropped && (rebuild.None? || vault.Some?));
      RecordEnqueue(t, vault, rebuild);
      outcome := Completed(upserts, deletes, 0, 0);
    }

    ghost method RecordDrop()
      requires |trace| > 0 && History(trace) && Now().worker.Idle?
      modifies this`trace
      ensures History(trace) && trace == old(trace) + [old(Now()).(points := {}, dropped := true)]
      ensures DropStep(old(Now()), Now())
    {
      ghost var t := Now().(points := {}, dropped := true);
      assert DropStep(Now(), t);
      Record(t);
    }

    ghost method RecordEnqueue(t: Sys, vault: Option<VaultId>, token: Option<Token>)
      requires |trace| > 0 && History(trace) && EnqueueStep(Now(), t, vault, token)
      modifies this`trace
      ensures History(trace) && trace == old(trace) + [t]
    {
      Record(t);
    }

    /**
     The drain loop. It raises or crashes only after a script entry that does; otherwise it goes on
     until nothing is due at its last reading of the clock, and has settled exactly the rows it counts.
     */
    method Drain(ghost from: nat) returns (outcome: Outcome, ghost keys: set<Key>)
      requires Valid() && Now().worker.Idle? && DrainsFrom(trace, from)
      modifies this`trace, this`calls, this`readings, store`outbox, store`statuses, vectors`points
      ensures Valid() && Now().worker.Idle? && DrainsFrom(trace, from) && old(trace) <= trace
      ensures Explained(outcome, old(calls), calls) && readings >= old(readings)
      ensures outcome.Completed? ==>
        && readings > old(readings)
        && (forall k :: k in store.outbox ==> LeftAlone(store.outbox[k], clock(readings - 1)))
        && Settles(old(store.outbox), store.outbox, keys)
        && outcome.projectedUpserts == |set k | k in keys && IsWrite(k, store.chunks)|
        && outcome.projectedDeletes == |set k | k in keys && !IsWrite(k, store.chunks)|
    {
      hide History, Initial, DrainsFrom, Step, Settles, IsWrite, LeftAlone;
      var upserts, deletes := 0, 0;
      keys := {};
      NothingSettled(store.outbox, store.chunks);
      while true
        invariant Valid() && Now().worker.Idle? && DrainsFrom(trace, from) && old(trace) <= trace
        invariant AllWork(old(calls), calls) && old(calls) <= calls && old(readings) <= readings
        invariant Settles(old(store.outbox), store.outbox, keys)
        invariant upserts == |set k | k in keys && IsWrite(k, store.chunks)|
        invariant deletes == |set k | k in keys && !IsWrite(k, store.chunks)|
        decreases Remaining(store.outbox, store.order)
      {
        ghost var middle := store.outbox;
        var empty, result, batch := ProjectBatch(from);
        if !result.Completed? {
          return result, keys;
        }
        SettlesMore(old(store.outbox), middle, store.outbox, keys, batch, store.chunks);
        upserts, deletes := upserts + result.projectedUpserts, deletes + result.projectedDeletes;
        keys := keys + batch;
        if empty {
          return Completed(0, 0, upserts, deletes), keys;
        }
      }
    }

    /** Drains the outbox, checks that nothing is left, and only then switches the alias. */
    method Finish(ghost from: nat) returns (outcome: Outcome, ghost keys: set<Key>)
      requires Valid() && Now().worker.Idle? && DrainsFrom(trace, from)
      modifies this`trace, this`calls, this`readings, store`outbox, store`statuses, vectors
      ensures Valid() && Now().worker.Idle? && DrainsFrom(trace, from) && old(trace) <= trace
      ensures calls >= old(calls) && readings >= old(readings)
      ensures outcome.Completed? ==> AllWork(old(calls), calls)
      ensures outcome.Raised? ==> SomeFails(old(calls), calls) || !Drained(store.View())
      ensures outcome.Crashed? ==> SomeDies(old(calls), calls)
      ensures AllWork(old(calls), calls) && WaitsAreOver(old(store.outbox), old(readings), readings) ==> outcome.Completed?
      ensures outcome.Completed? ==>
        && Drained(store.View()) && vectors.aliased && Settles(old(store.outbox), store.outbox, keys)
        && outcome.projectedUpserts == |set k | k in keys && IsWrite(k, store.chunks)|
        && outcome.projectedDeletes == |set k | k in keys && !IsWrite(k, store.chunks)|
      ensures vectors.aliased && !old(vectors.aliased) ==> Drained(store.View())
    {
      hide Step, History, Initial, Drains, DrainsFrom, Drained, LeftAlone, IsWrite, Settles, RowsPastWait;
      ghost var rows := store.outbox;
      outcome, keys := Drain(from);
      if !outcome.Completed? {
        return;
      }
      var projected := outcome;
      ghost var last := clock(readings - 1);
      if RowsPastWait(rows, last) {
        AllSettled(rows, store.outbox, keys, last);
      }
      outcome := Raised;
      var pending, failed := store.OutstandingCounts();
      if failed > 0 || pending > 0 {
        SomeOutstanding(store.View());
        return;
      }
      NothingOutstanding(store.View());
      var switching := NextAnswer();
      vectors.SwitchAlias(switching);
      if !switching.Works? {
        outcome := if switching.Fails? then Raised else Crashed;
        return;
      }
      var activation := NextAnswer();
      outcome := if activation.Works? then projected else if activation.Fails? then Raised else Crashed;
    }

    /** At each of these readings every outstanding row is past its wait or lease, with attempts left. */
    ghost predicate WaitsAreOver(outbox: map<Key, Row>, i: nat, j: nat) {
      forall n: nat :: i <= n < j ==> RowsPastWait(outbox, clock(n))
    }

    /**
     One projection run; `rebuild` carries the token of a full rebuild. It raises or crashes only after
     a script entry that does, or when rows are left outstanding. If every entry it consumes works and
     the waits are over at each reading of the clock, it completes.
     */
    method Run(vault: Option<VaultId>, rebuild: Option<Token>) returns (outcome: Outcome, ghost start: nat)
      requires Valid() && Now().worker.Idle? && FreshToken(store.View(), rebuild)
      modifies this`trace, this`calls, this`readings, store`outbox, store`order, store`statuses, vectors
      ensures Valid() && Now().worker.Idle? && old(trace) <= trace
      ensures calls > old(calls) && readings >= old(readings)
      ensures outcome.Completed? ==> AllWork(old(calls), calls)
      ensures outcome.Raised? ==> SomeFails(old(calls), calls) || !Drained(store.View())
      ensures outcome.Crashed? ==> SomeDies(old(calls), calls)
      ensures AllWork(old(calls), calls) && WaitsAreOver(old(store.outbox), old(readings), readings) ==> outcome.Completed?
      ensures outcome.Completed? ==>
        && RunSegment(trace, start, |trace| - 1, vault, rebuild) && Drained(store.View())
        && start == |old(trace)| - 1 + (if rebuild.Some? then 1 else 0)
        && (rebuild.None? ==> trace[start] == old(Now()))
        && (rebuild.Some? ==> DropStep(old(Now()), trace[start]))
        && outcome.enqueuedUpserts == |NewUpserts(old(store.View()), store.chunks, vault, rebuild)|
        && outcome.enqueuedDeletes == |NewDeletes(old(store.View()), store.chunks)|
        && outcome.projectedUpserts == |set k | k in OutstandingAt(trace[start + 1]) && IsWrite(k, store.chunks)|
        && outcome.projectedDeletes == |set k | k in OutstandingAt(trace[start + 1]) && !IsWrite(k, store.chunks)|
        && vectors.aliased
      ensures outcome.Completed? ==> forall c :: !RunContests(trace[start], vault, rebuild, c) ==>
        (c in vectors.points <==> Expected(trace[start], vault, rebuild, c))
      ensures outcome.Completed? && NoDeleteOfCurrent(old(Now())) && rebuild.Some? && vault.None? ==>
        vectors.points == store.chunks.Keys
      ensures vectors.aliased && !old(vectors.aliased) ==> Drained(store.View())
    {
      hide Step, EnqueueStep, Expected, RunContests, History, Initial, Drains, DrainsFrom, NewUpserts, NewDeletes;
      hide NoDeleteOfCurrent, Drained, RowsPastWait, IsWrite, Settles;
      outcome, start := Prepare(vault, rebuild);
      if !outcome.Completed? {
        return;
      }
      var enqueued := outcome;
      NothingDrainedYet(trace);
      ghost var prepared := trace;
      FreshRowsArePastWait(trace[start], Now(), vault, rebuild);
      ghost var keys;
      outcome, keys := Finish(start + 1);
      if !outcome.Completed? {
        return;
      }
      outcome := Completed(enqueued.enqueuedUpserts, enqueued.enqueuedDeletes,
                           outcome.projectedUpserts, outcome.projectedDeletes);
      assert trace[start] == prepared[start] && trace[start + 1] == prepared[start + 1];
      SettledAreOutstanding(prepared[start + 1], store.View(), keys);
      RunIsSegment(trace, start, vault, rebuild);
      SameDeletes(old(Now()), trace[start]);
      CompletedRunReachesExpected(trace, start, |trace| - 1, vault, rebuild);
      if NoDeleteOfCurrent(old(Now())) && rebuild.Some? && vault.None? {
        CompletedRebuildAgrees(trace, start, |trace| - 1, rebuild.value);
      }
    }
  }

  ghost function OutstandingAt(s: Sys): set<Key> {
    set k | k in s.db.outbox && Outstanding(s.db, k)
  }

  lemma NothingSettled(outbox: map<Key, Row>, chunks: Chunks)
    ensures Settles(outbox, outbox, {})
    ensures |set k | k in {} && IsWrite(k, chunks)| == 0 && |set k | k in {} && !IsWrite(k, chunks)| == 0
  {
    assert (set k | k in {} && IsWrite(k, chunks)) == {} && (set k | k in {} && !IsWrite(k, chunks)) == {};
  }

  /** When everything is drained, the settled rows are all that was outstanding. */
  lemma SettledAreOutstanding(s: Sys, db: Db, keys: set<Key>)
    requires Settles(s.db.outbox, db.outbox, keys) && Drained(db)
    ensures keys == OutstandingAt(s)
  {
    forall k | k in s.db.outbox && Outstanding(s.db, k) ensures k in keys {
      assert !Outstanding(db, k);
    }
  }

  lemma NothingIsDue(db: Db, now: int, limit: nat)
    requires TablesOk(db) && limit > 0 && DueKeys(db.outbox, db.order, now, limit) == []
    ensures forall k :: k in db.outbox ==> LeftAlone(db.outbox[k], now)
  {
    forall k | k in db.outbox ensures LeftAlone(db.outbox[k], now) {
      NothingClaimed(db.outbox, db.order, now, limit, k);
    }
  }

  /** A batch whose items were all marked settles its rows. */
  lemma BatchSettles(db: Db, now: int, limit: nat, lease: Lease, items: seq<Item>, chunks: Chunks)
    requires TablesOk(db)
    requires ItemsOfKeys(WithLeases(db, DueKeys(db.outbox, db.order, now, limit), lease),
                         DueKeys(db.outbox, db.order, now, limit), items, chunks)
    ensures var leased, parts := WithLeases(db, DueKeys(db.outbox, db.order, now, limit), lease), Split(items);
      && Settles(db.outbox, AllConfirmed(AllConfirmed(leased, parts.0), parts.1).outbox, KeysOf(items))
      && AllConfirmed(AllConfirmed(leased, parts.0), parts.1).order == db.order
      && |parts.0| == |set k | k in KeysOf(items) && IsWrite(k, chunks)|
      && |parts.1| == |set k | k in KeysOf(items) && !IsWrite(k, chunks)|
  {
    var keys := DueKeys(db.outbox, db.order, now, limit);
    var leased := WithLeases(db, keys, lease);
    ClaimTakesExactly(db, now, limit, lease);
    hide DueKeys, WithLeases, TablesOk, Split, AllConfirmed, IsWrite;
    ItemsHaveKeys(leased, keys, items, chunks);
    hide ItemsOfKeys, KeysOf;
    SplitCounts(items, chunks);
    SplitParts(items);
    hide DistinctKeys;
    SplitSettles(leased, items, Split(items).0, Split(items).1);
  }

  ghost predicate ItemsOfKeys(db: Db, keys: seq<Key>, items: seq<Item>, chunks: Chunks) {
    && |items| == |keys|
    && forall n :: 0 <= n < |items| ==> keys[n] in db.outbox && items[n] == ItemOf(db, keys[n], chunks)
  }

  lemma ItemsHaveKeys(db: Db, keys: seq<Key>, items: seq<Item>, chunks: Chunks)
    requires ItemsOfKeys(db, keys, items, chunks) && NoDuplicates(keys)
    ensures DistinctKeys(items)
    ensures forall k :: k in KeysOf(items) <==> k in keys
    ensures forall i :: i in items ==> i.key in keys && (i.isCurrent <==> i.key.chunk in chunks)
  {
    forall i, j | 0 <= i < j < |items| ensures items[i].key != items[j].key {
      assert keys[i] != keys[j];
    }
    forall k ensures k in KeysOf(items) <==> k in keys {
      if k in keys {
        var n :| 0 <= n < |keys| && keys[n] == k;
        assert items[n] in items && items[n].key == k;
      }
    }
  }

  lemma SplitSettles(leased: Db, items: seq<Item>, ups: seq<Item>, dels: seq<Item>)
    requires forall i :: i in items <==> i in ups || i in dels
    requires forall i :: i in items ==> i.key in leased.outbox && leased.outbox[i.key].state.Processing?
    ensures var post := AllConfirmed(AllConfirmed(leased, ups), dels);
      && post.order == leased.order && post.outbox.Keys == leased.outbox.Keys
      && (forall k :: k in KeysOf(items) ==> k in post.outbox && post.outbox[k].state.Succeeded?)
      && (forall k :: k in leased.outbox && k !in KeysOf(items) ==> post.outbox[k] == leased.outbox[k])
  {
    hide Confirmed;
    AllConfirmedRows(leased, ups);
    var middle := AllConfirmed(leased, ups);
    forall i | i in dels ensures i.key in middle.outbox
      && (middle.outbox[i.key].state.Processing? || middle.outbox[i.key].state.Succeeded?)
    {
      assert i in items;
    }
    AllConfirmedRows(middle, dels);
    hide AllConfirmed;
    forall k | k in KeysOf(items) ensures k in KeysOf(ups) || k in KeysOf(dels) {
    }
  }

  lemma SomeOutstanding(db: Db)
    requires |set k | k in db.outbox && (db.outbox[k].state.Pending? || db.outbox[k].state.Processing?)| > 0
          || |set k | k in db.outbox && db.outbox[k].state.Failed?| > 0
    ensures !Drained(db)
  {
    var waiting := set k | k in db.outbox && (db.outbox[k].state.Pending? || db.outbox[k].state.Processing?);
    var broken := set k | k in db.outbox && db.outbox[k].state.Failed?;
    if waiting != {} {
      var k :| k in waiting;
      assert Outstanding(db, k);
    } else {
      var k :| k in broken;
      assert Outstanding(db, k);
    }
  }

  lemma FreshRowsArePastWait(s: Sys, t: Sys, vault: Option<VaultId>, token: Option<Token>)
    requires EnqueueStep(s, t, vault, token)
    ensures forall now :: RowsPastWait(s.db.outbox, now) ==> RowsPastWait(t.db.outbox, now)
  {
    OutboxAfterEnqueue(s.db, t.db, s.chunks, vault, token);
    hide Enqueued;
  }
}
