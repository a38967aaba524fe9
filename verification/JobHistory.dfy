/** What holds in every interleaving of the job queue's events. */
module JobHistory {
  import opened Backoff
  import opened Options
  import opened JobModel

  lemma {:induction false} ReachableInv(s: Sys, events: seq<Event>, t: Sys)
    requires Inv(s) && Reaches(s, events, t)
    ensures Inv(t)
    decreases |events|
  {
    hide Inv, Next, Enabled;
    if events != [] {
      NextKeepsInv(s, events[0]);
      ReachableInv(Next(s, events[0]), events[1..], t);
    }
  }

  /**
   In every interleaving the lease is set exactly while a job runs, `finished_at` exactly when
   it is terminal, and a queued job has attempts left.
   */
  lemma JobsAreConsistent(events: seq<Event>, t: Sys, id: JobId)
    requires Reaches(START, events, t) && id in t.jobs
    ensures t.jobs[id].state.Running? <==> t.jobs[id].lease.Some?
    ensures t.jobs[id].state.Terminal() <==> t.jobs[id].finishedAt.Some?
    ensures t.jobs[id].state.Queued? ==> t.jobs[id].attempts < t.jobs[id].maxAttempts
  {
    ReachableInv(START, events, t);
  }

  lemma TerminalStays(s: Sys, e: Event, id: JobId)
    requires Enabled(s, e) && id in s.jobs && s.jobs[id].state.Terminal()
    ensures id in Next(s, e).jobs && Next(s, e).jobs[id] == s.jobs[id]
  {
  }

  /** Terminal states never change. */
  lemma {:induction false} TerminalIsFinal(s: Sys, events: seq<Event>, t: Sys, id: JobId)
    requires Reaches(s, events, t) && id in s.jobs && s.jobs[id].state.Terminal()
    ensures id in t.jobs && t.jobs[id] == s.jobs[id]
    decreases |events|
  {
    hide Next, Enabled;
    if events != [] {
      TerminalStays(s, events[0], id);
      TerminalIsFinal(Next(s, events[0]), events[1..], t, id);
    }
  }

  /**
   A succeed or fail that the queue accepts comes from the worker that holds the job's latest
   attempt, and that claim was not closed before; no claim is closed twice.
   */
  lemma AcceptedCloseIsTheLatestClaim(events: seq<Event>, s: Sys, worker: WorkerId)
    requires Reaches(START, events, s) && worker in s.slots
    ensures s.slots[worker].job in s.jobs
    ensures OwnedBy(s.jobs[s.slots[worker].job], worker) ==>
      s.slots[worker].attempt == s.jobs[s.slots[worker].job].attempts && s.slots[worker] !in s.closed
    ensures forall i, j :: 0 <= i < j < |s.closed| ==> s.closed[i] != s.closed[j]
  {
    ReachableInv(START, events, s);
  }

  // ---------- How a job ends ----------

  /** A worker's report is accepted when its job still runs under its lease. */
  ghost predicate Holds(s: Sys, worker: WorkerId, id: JobId) {
    && worker in s.slots && s.slots[worker].job == id && id in s.jobs
    && s.jobs[id].state == Running && s.jobs[id].lease.Some? && s.jobs[id].lease.value.owner == worker
  }

  ghost predicate Succeeds(s: Sys, e: Event, id: JobId) {
    e.Succeed? && Holds(s, e.worker, id)
  }

  /** An attempt fails by its worker's report, or by a recovery after its lease expired. */
  ghost predicate AttemptFails(s: Sys, e: Event, id: JobId) {
    || (e.Fail? && Holds(s, e.worker, id))
    || (e.Recover? && id in s.jobs && s.jobs[id].state == Running && s.jobs[id].lease.Some?
        && s.jobs[id].lease.value.expires < e.now)
  }

  ghost predicate CancelsQueued(s: Sys, e: Event, id: JobId) {
    e.Cancel? && e.id == id && id in s.jobs && s.jobs[id].state == Queued
  }

  /** What one event makes of a job's status. */
  ghost predicate StatusFollows(s: Sys, e: Event, id: JobId, job: Job, after: Job) {
    && (after.state == Succeeded <==> job.state == Succeeded || Succeeds(s, e, id))
    && (after.state == Cancelled <==> job.state == Cancelled || CancelsQueued(s, e, id))
    && (after.state == Failed <==> job.state == Failed || (AttemptFails(s, e, id) && job.attempts == job.maxAttempts))
    && (after.state == Running <==>
          if job.state == Running then !Succeeds(s, e, id) && !AttemptFails(s, e, id) else e.Take? && e.id == id)
  }

  /** What it makes of the rest: a failed attempt with attempts left is put off, and only a claim starts another one. */
  ghost predicate RestFollows(s: Sys, e: Event, id: JobId, job: Job, after: Job) {
    && after.maxAttempts == job.maxAttempts && after.priority == job.priority && after.createdAt == job.createdAt
    && after.attempts == job.attempts + (if e.Take? && e.id == id then 1 else 0)
    && (AttemptFails(s, e, id) && job.attempts < job.maxAttempts ==>
          after.state == Queued && after.nextAttempt == Some(e.now + (if e.Fail? then RetryDelay(job.attempts) else 0)))
    && (job.state == Queued && !(e.Take? && e.id == id) && !CancelsQueued(s, e, id) ==> after == job)
    && (job.state == Running && after.state == Running ==>
          job.lease.Some? && after.lease.Some? && after.lease.value.owner == job.lease.value.owner)
    && (e.Take? && e.id == id ==>
          && job.state == Queued && (job.nextAttempt.Some? ==> job.nextAttempt.value <= e.now)
          && after.lease == Some(Lease(e.worker, e.now + e.leaseFor, e.now)))
  }

  lemma EventDecides(s: Sys, e: Event, id: JobId)
    requires Inv(s) && Enabled(s, e)
    ensures id in Next(s, e).jobs <==> id in s.jobs || (e.Enqueue? && e.id == id)
    ensures id in Next(s, e).jobs && id !in s.jobs ==> Next(s, e).jobs[id].state == Queued
    ensures id in s.jobs ==>
      && StatusFollows(s, e, id, s.jobs[id], Next(s, e).jobs[id])
      && RestFollows(s, e, id, s.jobs[id], Next(s, e).jobs[id])
  {
    if id in s.jobs {
      HolderIsLatest(s, e, id);
      EventDecidesStatus(s, e, id);
      EventDecidesRest(s, e, id);
    }
    hide StatusFollows, RestFollows, Inv, RetryDelay, Before, Renewed, Returned, Finished, CancelRequested, Recovered;
  }

  ghost predicate HeldLatest(s: Sys, e: Event, id: JobId)
    requires id in s.jobs
  {
    && JobOk(s.jobs[id])
    && (e.Fail? && Holds(s, e.worker, id) ==> s.slots[e.worker].attempt == s.jobs[id].attempts)
  }

  lemma HolderIsLatest(s: Sys, e: Event, id: JobId)
    requires Inv(s) && id in s.jobs
    ensures HeldLatest(s, e, id)
  {
    hide LogOk, SumDelays, MovesLeft, Backoffs;
  }

  lemma EventDecidesStatus(s: Sys, e: Event, id: JobId)
    requires id in s.jobs && HeldLatest(s, e, id) && Enabled(s, e)
    ensures id in Next(s, e).jobs && StatusFollows(s, e, id, s.jobs[id], Next(s, e).jobs[id])
  {
    hide RetryDelay, Before;
  }

  lemma EventDecidesRest(s: Sys, e: Event, id: JobId)
    requires id in s.jobs && HeldLatest(s, e, id) && Enabled(s, e)
    ensures id in Next(s, e).jobs && RestFollows(s, e, id, s.jobs[id], Next(s, e).jobs[id])
  {
    hide RetryDelay, Before;
  }

  /** The states that the events go through, one by one. */
  ghost predicate Trace(states: seq<Sys>, events: seq<Event>) {
    && |states| == |events| + 1 && states[0] == START
    && forall i :: 0 <= i < |events| ==> StepAt(states, events, i)
  }

  ghost predicate StepAt(states: seq<Sys>, events: seq<Event>, i: nat)
    requires |states| == |events| + 1 && i < |events|
  {
    Enabled(states[i], events[i]) && states[i + 1] == Next(states[i], events[i])
  }

  lemma {:induction false} TraceInv(states: seq<Sys>, events: seq<Event>, n: nat)
    requires Trace(states, events) && n <= |events|
    ensures Inv(states[n])
  {
    hide Inv, Next, Enabled;
    if n == 0 {
      StartInv();
    } else {
      TraceInv(states, events, n - 1);
      assert StepAt(states, events, n - 1);
      NextKeepsInv(states[n - 1], events[n - 1]);
    }
  }

  lemma StartInv()
    ensures Inv(START)
  {
  }

  /**
   After any events a job has succeeded exactly if a report of success was accepted, it is cancelled exactly if it was
   cancelled while queued, and it has failed exactly if its last attempt failed.
   */
  lemma {:induction false} EndsExactlyWhen(states: seq<Sys>, events: seq<Event>, n: nat, id: JobId)
    requires Trace(states, events) && n <= |events| && id in states[n].jobs
    ensures states[n].jobs[id].state == Succeeded <==> exists i :: 0 <= i < n && Succeeds(states[i], events[i], id)
    ensures states[n].jobs[id].state == Cancelled <==> exists i :: 0 <= i < n && CancelsQueued(states[i], events[i], id)
    ensures states[n].jobs[id].state == Failed <==> exists i :: 0 <= i < n && LastAttemptFails(states[i], events[i], id)
  {
    hide Inv, Next, Enabled, Succeeds, AttemptFails, CancelsQueued;
    if n > 0 {
      assert StepAt(states, events, n - 1);
      TraceInv(states, events, n - 1);
      EventDecides(states[n - 1], events[n - 1], id);
      if id in states[n - 1].jobs {
        EndsExactlyWhen(states, events, n - 1, id);
      } else {
        NothingBefore(states, events, n - 1, id);
        NotNow(states[n - 1], events[n - 1], id);
      }
    }
  }

  ghost predicate LastAttemptFails(s: Sys, e: Event, id: JobId) {
    AttemptFails(s, e, id) && id in s.jobs && s.jobs[id].attempts == s.jobs[id].maxAttempts
  }

  lemma NotNow(s: Sys, e: Event, id: JobId)
    requires id !in s.jobs
    ensures !Succeeds(s, e, id) && !CancelsQueued(s, e, id) && !AttemptFails(s, e, id)
  {
  }

  /** Nothing happens to a job that does not exist yet. */
  lemma {:induction false} NothingBefore(states: seq<Sys>, events: seq<Event>, n: nat, id: JobId)
    requires Trace(states, events) && n <= |events| && id !in states[n].jobs
    ensures forall i :: 0 <= i < n ==>
      && !Succeeds(states[i], events[i], id) && !CancelsQueued(states[i], events[i], id)
      && !AttemptFails(states[i], events[i], id) && !(events[i].Take? && events[i].id == id)
  {
    hide Inv, Next, Enabled, Succeeds, AttemptFails, CancelsQueued;
    if n > 0 {
      assert StepAt(states, events, n - 1);
      TraceInv(states, events, n - 1);
      EventDecides(states[n - 1], events[n - 1], id);
      NothingBefore(states, events, n - 1, id);
      NotNow(states[n - 1], events[n - 1], id);
      TakenExists(states[n - 1], events[n - 1], id);
    }
  }

  /** The accepted report of success closes the job's last claim: no attempt follows. */
  lemma {:induction false} SuccessClosesTheLastClaim(states: seq<Sys>, events: seq<Event>, i: nat, n: nat, id: JobId)
    requires Trace(states, events) && i < n <= |events| && Succeeds(states[i], events[i], id)
    ensures events[i].worker in states[i].slots && id in states[n].jobs
    ensures states[i].slots[events[i].worker] == Claim(id, states[n].jobs[id].attempts)
    ensures Claim(id, states[n].jobs[id].attempts) in states[n].closed
  {
    assert StepAt(states, events, i);
    TraceInv(states, events, i);
    hide Next;
    ClosesItsClaim(states[i], events[i], id);
    EventDecides(states[i], events[i], id);
    ClosedStays(states, events, i + 1, n, id);
  }

  lemma ClosesItsClaim(s: Sys, e: Event, id: JobId)
    requires Inv(s) && Enabled(s, e) && Succeeds(s, e, id)
    ensures s.slots[e.worker] == Claim(id, s.jobs[id].attempts)
    ensures Claim(id, s.jobs[id].attempts) in Next(s, e).closed
  {
    hide LogOk, CountsOk;
  }

  lemma {:induction false} ClosedStays(states: seq<Sys>, events: seq<Event>, i: nat, n: nat, id: JobId)
    requires Trace(states, events) && i <= n <= |events| && id in states[i].jobs && states[i].jobs[id].state == Succeeded
    ensures id in states[n].jobs && states[n].jobs[id].state == Succeeded
    ensures states[n].jobs[id].attempts == states[i].jobs[id].attempts
    ensures forall c :: c in states[i].closed ==> c in states[n].closed
    decreases n - i
  {
    hide Next, Enabled, Inv;
    if i < n {
      assert StepAt(states, events, i);
      TraceInv(states, events, i);
      EventDecides(states[i], events[i], id);
      LogGrows(states[i], events[i]);
      ClosedStays(states, events, i + 1, n, id);
    }
  }

  lemma LogGrows(s: Sys, e: Event)
    requires Enabled(s, e)
    ensures forall c :: c in s.closed ==> c in Next(s, e).closed
  {
  }

  /** A job runs exactly if it was claimed and that attempt has not ended since, under the lease of who claimed it. */
  lemma {:induction false} RunsExactlyWhen(states: seq<Sys>, events: seq<Event>, n: nat, id: JobId)
    requires Trace(states, events) && n <= |events| && id in states[n].jobs
    ensures states[n].jobs[id].state == Running <==> exists i :: 0 <= i < n && OpenSince(states, events, i, n, id)
    ensures forall i :: 0 <= i < n && OpenSince(states, events, i, n, id) ==>
      states[n].jobs[id].lease.Some? && states[n].jobs[id].lease.value.owner == events[i].worker
  {
    hide Inv, Next, Enabled, Succeeds, AttemptFails, CancelsQueued;
    if n > 0 {
      assert StepAt(states, events, n - 1);
      TraceInv(states, events, n - 1);
      TraceInv(states, events, n);
      EventDecides(states[n - 1], events[n - 1], id);
      forall i | 0 <= i < n - 1
        ensures OpenSince(states, events, i, n, id) <==>
          && OpenSince(states, events, i, n - 1, id)
          && !Succeeds(states[n - 1], events[n - 1], id) && !AttemptFails(states[n - 1], events[n - 1], id)
      {
      }
      LeaseWhileRunning(states[n - 1], id);
      LeaseWhileRunning(states[n], id);
      if id in states[n - 1].jobs {
        RunsExactlyWhen(states, events, n - 1, id);
        if states[n].jobs[id].state == Running {
          if states[n - 1].jobs[id].state == Running {
            var i :| 0 <= i < n - 1 && OpenSince(states, events, i, n - 1, id);
            assert OpenSince(states, events, i, n, id);
          } else {
            assert OpenSince(states, events, n - 1, n, id);
          }
        }
      } else {
        NothingBefore(states, events, n - 1, id);
        TakenExists(states[n - 1], events[n - 1], id);
      }
    }
  }

  lemma TakenExists(s: Sys, e: Event, id: JobId)
    requires Enabled(s, e) && id !in s.jobs
    ensures !(e.Take? && e.id == id)
  {
  }

  lemma LeaseWhileRunning(s: Sys, id: JobId)
    requires Inv(s)
    ensures id in s.jobs && s.jobs[id].state == Running ==> s.jobs[id].lease.Some?
  {
  }

  /** Event `i` claimed the job, and no event since has ended the attempt. */
  ghost predicate OpenSince(states: seq<Sys>, events: seq<Event>, i: nat, n: nat, id: JobId)
    requires |states| == |events| + 1 && i < n < |states|
  {
    && events[i].Take? && events[i].id == id
    && forall j :: i < j < n ==> !Succeeds(states[j], events[j], id) && !AttemptFails(states[j], events[j], id)
  }

  /**
   A failed attempt of a job with attempts left puts it back in the queue; it is not claimed again before its backoff
   has passed, or the recovery's own time.
   */
  lemma {:induction false} RetryWaits(states: seq<Sys>, events: seq<Event>, i: nat, n: nat, id: JobId)
    requires Trace(states, events) && i < n <= |events| && AttemptFails(states[i], events[i], id)
    requires id in states[i].jobs && states[i].jobs[id].attempts < states[i].jobs[id].maxAttempts
    requires forall j :: i < j < n ==> !(events[j].Take? && events[j].id == id)
    ensures id in states[n].jobs
    ensures states[n].jobs[id].state == Queued || states[n].jobs[id].state == Cancelled
    ensures var ready := events[i].now + (if events[i].Fail? then RetryDelay(states[i].jobs[id].attempts) else 0);
      && (states[n].jobs[id].state == Queued ==> states[n].jobs[id].nextAttempt == Some(ready))
      && (n < |events| && events[n].Take? && events[n].id == id ==> events[n].now >= ready)
    decreases n
  {
    hide Inv, Next, Enabled, Succeeds, AttemptFails, CancelsQueued;
    assert StepAt(states, events, n - 1);
    TraceInv(states, events, n - 1);
    EventDecides(states[n - 1], events[n - 1], id);
    if i < n - 1 {
      RetryWaits(states, events, i, n - 1, id);
    }
    if n < |events| {
      assert StepAt(states, events, n);
      TraceInv(states, events, n);
      EventDecides(states[n], events[n], id);
    }
  }

  /** Recovery leaves no expired running job and touches no other job. */
  lemma RecoveryIsComplete(s: Sys, now: int)
    ensures var t := Next(s, Recover(now));
            && (forall id :: id in t.jobs ==> !Expired(t.jobs[id], now))
            && (forall id :: id in s.jobs && !Expired(s.jobs[id], now) ==> t.jobs[id] == s.jobs[id])
            && (forall id :: id in s.jobs && Expired(s.jobs[id], now) ==>
                  (t.jobs[id].state.Queued? <==> s.jobs[id].attempts < s.jobs[id].maxAttempts)
                  && (t.jobs[id].state.Failed? <==> s.jobs[id].attempts >= s.jobs[id].maxAttempts))
  {
  }

  // ---------- Bounds ----------

  function Takes(events: seq<Event>, id: JobId): nat {
    if events == [] then 0
    else (if events[0].Take? && events[0].id == id then 1 else 0) + Takes(events[1..], id)
  }

  function AttemptsOf(s: Sys, id: JobId): nat {
    if id in s.jobs then s.jobs[id].attempts else 0
  }

  lemma EventCountsAttempts(s: Sys, e: Event, id: JobId)
    requires Enabled(s, e)
    ensures AttemptsOf(Next(s, e), id) == AttemptsOf(s, id) + (if e.Take? && e.id == id then 1 else 0)
  {
  }

  lemma {:induction false} TakesAreAttempts(s: Sys, events: seq<Event>, t: Sys, id: JobId)
    requires Reaches(s, events, t)
    ensures AttemptsOf(t, id) == AttemptsOf(s, id) + Takes(events, id)
    decreases |events|
  {
    hide Next, Enabled, AttemptsOf;
    if events != [] {
      EventCountsAttempts(s, events[0], id);
      TakesAreAttempts(Next(s, events[0]), events[1..], t, id);
    }
  }

  /**
   Every job is claimed at most `maxAttempts` times, makes at most twice as many claim, retry
   and finish transitions, and waits at most the backoffs of all but its last attempt.
   */
  lemma WorkPerJobIsBounded(events: seq<Event>, t: Sys, id: JobId)
    requires Reaches(START, events, t) && id in t.jobs
    ensures Takes(events, id) <= t.jobs[id].maxAttempts
    ensures id in t.moves && t.moves[id] <= 2 * t.jobs[id].maxAttempts
    ensures id in t.delays && t.jobs[id].maxAttempts > 0 && t.delays[id] <= SumDelays(t.jobs[id].maxAttempts - 1)
  {
    ReachableInv(START, events, t);
    TakesAreAttempts(START, events, t, id);
    SumDelaysGrows(Backoffs(t.jobs[id]), t.jobs[id].maxAttempts - 1);
  }

  /** The backoffs over `m` attempts, in seconds: the cap of 300 is never reached. */
  lemma {:induction false} BackoffTotal(m: nat)
    requires m > 0
    ensures m <= 9 ==> SumDelays(m - 1) == Power2(m) - 2
    ensures m >= 9 ==> SumDelays(m - 1) == 510 + 256 * (m - 9)
  {
    if m > 1 {
      BackoffTotal(m - 1);
      PowersUpTo8(m - 1);
    }
    PowersUpTo8(0);
    PowersUpTo8(8);
  }

  lemma PowersUpTo8(n: nat)
    ensures RetryDelay(n) == if n <= 8 then Power2(n) else 256
    ensures Power2(8) == 256
  {
    assert Power2(4) == 16;
    assert Power2(8) == 256;
    if n <= 8 {
      PowerGrows(n, 8);
    }
  }

  lemma {:induction false} PowerGrows(m: nat, n: nat)
    requires m <= n
    ensures Power2(m) <= Power2(n)
    decreases n
  {
    if m < n {
      PowerGrows(m, n - 1);
    }
  }
}
