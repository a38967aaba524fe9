/** The job queue's transactions and the worker loop in their imperative form. */
module JobQueue {
  import opened Backoff
  import opened Options
  import opened JobModel

  lemma BeforeIsTransitive(a: Job, b: Job, c: Job)
    requires Before(a, b) && Before(b, c)
    ensures Before(a, c)
  {
  }

  lemma BeforeIsTotal(a: Job, b: Job)
    ensures Before(a, b) || Before(b, a)
  {
  }

  /** A queued job whose time has come and which has attempts left. */
  ghost predicate IsWaiting(job: Job, now: int) {
    && job.state == Queued && job.attempts < job.maxAttempts
    && (job.nextAttempt.Some? ==> job.nextAttempt.value <= now)
  }

  /**
   No job taken after another has a higher priority; of two with the same priority the one without a next attempt or
   with the earlier one is taken first, and then the older one.
   */
  ghost predicate ComesFirst(a: Job, b: Job) {
    && b.priority <= a.priority
    && (b.priority == a.priority && a.nextAttempt.Some? ==>
          b.nextAttempt.Some? && a.nextAttempt.value <= b.nextAttempt.value)
    && (b.priority == a.priority && a.nextAttempt == b.nextAttempt ==> a.createdAt <= b.createdAt)
  }

  lemma BeforeComesFirst(jobs: Jobs, now: int)
    ensures forall a: Job, b: Job :: Before(a, b) ==> ComesFirst(a, b)
    ensures forall id :: id in jobs ==> (Claimable(jobs[id], now) <==> IsWaiting(jobs[id], now))
  {
  }

  class SqlAlchemyJobQueue {
    var jobs: Jobs

    constructor ()
      ensures jobs == map[]
    {
      jobs := map[];
    }

    /** The table refuses a job without attempts. */
    method Enqueue(id: JobId, priority: int, maxAttempts: int, now: int) returns (ok: bool)
      requires id !in jobs
      modifies this
      ensures ok <==> maxAttempts > 0
      ensures jobs == if ok then old(jobs)[id := NewJob(priority, maxAttempts, now)] else old(jobs)
    {
      ok := maxAttempts > 0;
      if ok {
        jobs := jobs[id := NewJob(priority, maxAttempts, now)];
      }
    }

    /** `locked` are the jobs whose rows other transactions hold: they are skipped. */
    method Claim(worker: WorkerId, now: int, leaseFor: int, locked: set<JobId>) returns (claimed: Option<JobId>)
      modifies this
      ensures claimed.None? ==> jobs == old(jobs) && forall id :: id in jobs && id !in locked ==> !Claimable(jobs[id], now)
      ensures claimed.None? ==> forall id :: id in jobs && id !in locked ==> !IsWaiting(jobs[id], now)
      ensures claimed.Some? ==>
        && claimed.value in old(jobs) && claimed.value !in locked && IsWaiting(old(jobs)[claimed.value], now)
        && forall id :: id in old(jobs) && id !in locked && IsWaiting(old(jobs)[id], now) ==>
             ComesFirst(old(jobs)[claimed.value], old(jobs)[id])
      ensures claimed.Some? ==>
        && claimed.value in jobs && jobs[claimed.value].state == Running
        && jobs[claimed.value].lease == Some(Lease(worker, now + leaseFor, now))
        && jobs[claimed.value].attempts == old(jobs)[claimed.value].attempts + 1
      ensures claimed.Some? ==>
        && FirstClaimable(old(jobs), claimed.value, now, locked)
        && jobs == old(jobs)[claimed.value := Claimed(old(jobs)[claimed.value], worker, now, leaseFor)]
    {
      hide Before, ComesFirst, IsWaiting;
      BeforeComesFirst(jobs, now);
      claimed := None;
      var visible := jobs.Keys - locked;
      var todo := visible;
      while todo != {}
        invariant jobs == old(jobs) && todo <= visible
        invariant claimed.None? ==> forall id :: id in visible - todo ==> !Claimable(jobs[id], now)
        invariant claimed.Some? ==>
          && claimed.value in visible && Claimable(jobs[claimed.value], now)
          && forall id :: id in visible - todo && Claimable(jobs[id], now) ==> Before(jobs[claimed.value], jobs[id])
        decreases todo
      {
        var id :| id in todo;
        todo := todo - {id};
        if Claimable(jobs[id], now) {
          BeforeIsTotal(jobs[id], jobs[id]);
          if claimed.None? {
            claimed := Some(id);
          } else {
            BeforeIsTotal(jobs[id], jobs[claimed.value]);
            if Before(jobs[id], jobs[claimed.value]) {
              forall other | other in visible - todo && Claimable(jobs[other], now)
                ensures Before(jobs[id], jobs[other])
              {
                if other != id {
                  BeforeIsTransitive(jobs[id], jobs[claimed.value], jobs[other]);
                }
              }
              claimed := Some(id);
            }
          }
        }
      }
      if claimed.Some? {
        var job := jobs[claimed.value];
        jobs := jobs[claimed.value := job.(state := Running, lease := Some(Lease(worker, now + leaseFor, now)),
                                           attempts := job.attempts + 1,
                                           startedAt := if job.startedAt.Some? then job.startedAt else Some(now))];
      }
    }

    method Heartbeat(id: JobId, worker: WorkerId, now: int, leaseFor: int) returns (renewed: bool)
      modifies this
      ensures renewed <==> id in old(jobs) && OwnedBy(old(jobs)[id], worker) && old(jobs)[id].lease.value.expires > now
      ensures jobs == if id in old(jobs) then old(jobs)[id := Renewed(old(jobs)[id], worker, now, leaseFor)] else old(jobs)
      ensures renewed ==> jobs[id] == old(jobs)[id].(lease := Some(Lease(worker, now + leaseFor, now)))
      ensures !renewed ==> jobs == old(jobs)
    {
      renewed := id in jobs && OwnedBy(jobs[id], worker) && jobs[id].lease.value.expires > now;
      if renewed {
        jobs := jobs[id := jobs[id].(lease := Some(Lease(worker, now + leaseFor, now)))];
      }
    }

    method Succeed(id: JobId, worker: WorkerId, now: int) returns (accepted: bool)
      modifies this
      ensures accepted <==> id in old(jobs) && OwnedBy(old(jobs)[id], worker)
      ensures jobs == if accepted then old(jobs)[id := Finished(old(jobs)[id], now)] else old(jobs)
      ensures accepted ==> jobs[id].state == Succeeded && jobs[id].finishedAt == Some(now) && jobs[id].lease.None?
    {
      accepted := id in jobs && OwnedBy(jobs[id], worker);
      if accepted {
        jobs := jobs[id := jobs[id].(state := Succeeded, finishedAt := Some(now), lease := None, error := None)];
      }
    }

    method Fail(id: JobId, worker: WorkerId, now: int, error: string, delay: int) returns (accepted: bool)
      modifies this
      ensures accepted <==> id in old(jobs) && OwnedBy(old(jobs)[id], worker)
      ensures jobs == if accepted then old(jobs)[id := Returned(old(jobs)[id], now, delay, error)] else old(jobs)
      ensures accepted ==>
        && jobs[id].lease.None? && jobs[id].error == Some(error)
        && if old(jobs)[id].attempts < old(jobs)[id].maxAttempts
           then jobs[id].state == Queued && jobs[id].nextAttempt == Some(now + delay) && jobs[id].finishedAt.None?
           else jobs[id].state == Failed && jobs[id].finishedAt == Some(now)
    {
      accepted := id in jobs && OwnedBy(jobs[id], worker);
      if accepted {
        var job := jobs[id];
        var retry := job.attempts < job.maxAttempts;
        job := job.(state := if retry then Queued else Failed,
                    nextAttempt := if retry then Some(now + delay) else None,
                    finishedAt := if retry then None else Some(now),
                    lease := None, error := Some(error));
        jobs := jobs[id := job];
      }
    }

    method RequestCancel(id: JobId, now: int) returns (accepted: bool)
      modifies this
      ensures accepted <==> id in old(jobs) && !old(jobs)[id].state.Terminal()
      ensures jobs == if id in old(jobs) then old(jobs)[id := CancelRequested(old(jobs)[id], now)] else old(jobs)
      ensures accepted ==>
        && jobs[id].cancelRequested == Some(now)
        && if old(jobs)[id].state == Queued then jobs[id].state == Cancelled && jobs[id].finishedAt == Some(now)
           else jobs[id].state == Running && jobs[id].lease == old(jobs)[id].lease
      ensures !accepted ==> jobs == old(jobs)
    {
      if id in jobs && jobs[id].state.Queued? {
        jobs := jobs[id := jobs[id].(state := Cancelled, cancelRequested := Some(now), finishedAt := Some(now))];
        return true;
      }
      accepted := id in jobs && jobs[id].state.Running?;
      if accepted {
        jobs := jobs[id := jobs[id].(cancelRequested := Some(now))];
      }
    }

    /** Two updates: expired jobs with attempts left are queued again, the others fail. */
    method RecoverExpiredLeases(now: int) returns (recovered: nat)
      modifies this
      ensures jobs == map id | id in old(jobs) :: Recovered(old(jobs)[id], now)
      ensures forall id :: id in jobs ==> !Expired(jobs[id], now)
      ensures recovered == |set id | id in old(jobs) && Expired(old(jobs)[id], now)|
      ensures forall id :: id in old(jobs) ==> IsRecovered(old(jobs)[id], jobs[id], now)
    {
      hide IsRecovered;
      ghost var before := jobs;
      var retryable := set id | id in jobs && Expired(jobs[id], now) && jobs[id].attempts < jobs[id].maxAttempts;
      jobs := map id | id in jobs ::
        if id in retryable
        then jobs[id].(state := Queued, nextAttempt := Some(now), lease := None, error := Some("lease_expired"))
        else jobs[id];
      ghost var between := jobs;
      var exhausted := set id | id in jobs && Expired(jobs[id], now) && jobs[id].attempts >= jobs[id].maxAttempts;
      jobs := map id | id in jobs ::
        if id in exhausted
        then jobs[id].(state := Failed, finishedAt := Some(now), lease := None, error := Some("lease_expired"))
        else jobs[id];
      recovered := |retryable| + |exhausted|;
      TwoPassesRecover(before, between, jobs, now);
      ExpiredAreCounted(before, between, retryable, exhausted, now);
    }
  }

  /** A job whose lease has expired is queued for now or, without attempts left, fails; any other job stays. */
  ghost predicate IsRecovered(was: Job, job: Job, now: int) {
    if was.state == Running && was.lease.Some? && was.lease.value.expires < now then
      && job.lease.None?
      && if was.attempts < was.maxAttempts then job.state == Queued && job.nextAttempt == Some(now)
         else job.state == Failed && job.finishedAt == Some(now)
    else job == was
  }

  /** Requeueing the expired jobs with attempts left, then failing the others, recovers all of them. */
  lemma TwoPassesRecover(before: Jobs, between: Jobs, after: Jobs, now: int)
    requires between == map id | id in before ::
      if Expired(before[id], now) && before[id].attempts < before[id].maxAttempts
      then before[id].(state := Queued, nextAttempt := Some(now), lease := None, error := Some("lease_expired"))
      else before[id]
    requires after == map id | id in between ::
      if Expired(between[id], now) && between[id].attempts >= between[id].maxAttempts
      then between[id].(state := Failed, finishedAt := Some(now), lease := None, error := Some("lease_expired"))
      else between[id]
    ensures after == map id | id in before :: Recovered(before[id], now)
    ensures forall id :: id in after ==> !Expired(after[id], now)
    ensures forall id :: id in before ==> IsRecovered(before[id], after[id], now)
  {
    forall id | id in before ensures after[id] == Recovered(before[id], now) && !Expired(after[id], now) {
    }
  }

  lemma ExpiredAreCounted(before: Jobs, between: Jobs, retryable: set<JobId>, exhausted: set<JobId>, now: int)
    requires retryable == set id | id in before && Expired(before[id], now) && before[id].attempts < before[id].maxAttempts
    requires between.Keys == before.Keys
    requires forall id :: id in before && id !in retryable ==> between[id] == before[id]
    requires forall id :: id in retryable ==> !Expired(between[id], now)
    requires exhausted
      == set id | id in between && Expired(between[id], now) && between[id].attempts >= between[id].maxAttempts
    ensures |set id | id in before && Expired(before[id], now)| == |retryable| + |exhausted|
  {
    hide Expired;
    assert (set id | id in before && Expired(before[id], now)) == retryable + exhausted;
    assert retryable !! exhausted;
  }

  // ---------- The worker ----------

  predicate NotBy(e: Event, worker: WorkerId) {
    match e
    case Take(w, _, _, _, _) => w != worker
    case Succeed(w, _) => w != worker
    case Fail(w, _, _) => w != worker
    case Die(w) => w != worker
    case _ => true
  }

  ghost predicate NoneBy(events: seq<Event>, worker: WorkerId) {
    forall e :: e in events ==> NotBy(e, worker)
  }

  /** What others do leaves a worker's claim in place and unclosed. */
  lemma {:induction false} OthersLeaveTheClaim(s: Sys, events: seq<Event>, t: Sys, worker: WorkerId)
    requires Inv(s) && Reaches(s, events, t) && NoneBy(events, worker) && worker in s.slots
    ensures Inv(t) && worker in t.slots && t.slots[worker] == s.slots[worker]
    decreases |events|
  {
    hide Inv, Next, Enabled;
    if events != [] {
      assert events[0] in events;
      OneEventLeavesTheClaim(s, events[0], worker);
      NextKeepsInv(s, events[0]);
      assert forall e :: e in events[1..] ==> e in events;
      OthersLeaveTheClaim(Next(s, events[0]), events[1..], t, worker);
    }
  }

  lemma OneEventLeavesTheClaim(s: Sys, e: Event, worker: WorkerId)
    requires Enabled(s, e) && NotBy(e, worker) && worker in s.slots
    ensures worker in Next(s, e).slots && Next(s, e).slots[worker] == s.slots[worker]
  {
  }

  lemma HeldJobsExist(s: Sys)
    requires Inv(s)
    ensures forall w :: w in s.slots ==> s.slots[w].job in s.jobs
  {
  }

  lemma HeldIsOpen(s: Sys, worker: WorkerId)
    requires Inv(s) && worker in s.slots
    ensures s.slots[worker].job in s.jobs && s.slots[worker] !in s.closed
  {
  }

  lemma ClaimedAttempts(job: Job, worker: WorkerId, now: int, leaseFor: int)
    ensures Claimed(job, worker, now, leaseFor).attempts == job.attempts + 1
  {
  }

  lemma {:induction false} ReachesOneMore(s: Sys, events: seq<Event>, t: Sys, e: Event)
    requires Reaches(s, events, t) && Enabled(t, e)
    ensures Reaches(s, events + [e], Next(t, e))
    decreases |events|
  {
    hide Next, Enabled;
    if events == [] {
      assert ([] + [e])[1..] == [];
    } else {
      assert (events + [e])[1..] == events[1..] + [e];
      ReachesOneMore(Next(s, events[0]), events[1..], t, e);
    }
  }

  /** The queue together with what each worker process remembers of the job it handles. */
  class JobSystem {
    const queue: SqlAlchemyJobQueue
    var slots: map<WorkerId, Claim>
    ghost var sys: Sys

    ghost predicate Valid()
      reads this, queue
    {
      sys.jobs == queue.jobs && sys.slots == slots && Inv(sys)
    }

    constructor ()
      ensures Valid() && fresh(queue) && sys == START
    {
      queue := new SqlAlchemyJobQueue();
      slots := map[];
      sys := START;
    }

    /** Tries one event; the claiming worker gets the job the queue picks. */
    method Perform(e: Event) returns (accepted: bool, ghost done: Option<Event>)
      requires Valid()
      modifies this, queue
      ensures Valid()
      ensures done.None? ==> sys == old(sys) && !Enabled(old(sys), e)
      ensures done.Some? ==> Enabled(old(sys), done.value) && sys == Next(old(sys), done.value)
      ensures e.Take? ==> (accepted <==> done.Some?)
      ensures done.Some? && !e.Take? ==> done.value == e
      ensures done.Some? && e.Take? ==>
        done.value.Take? && done.value == Take(e.worker, done.value.id, e.now, e.leaseFor, e.locked)
      ensures done.Some? && (e.Succeed? || e.Fail?) ==>
        (accepted <==> OwnedBy(old(sys).jobs[old(sys).slots[e.worker].job], e.worker))
    {
      hide Before, RetryDelay, Inv, Claimed, Renewed, Finished, Returned, CancelRequested, Recovered;
      HeldJobsExist(sys);
      accepted, done := true, Some(e);
      match e {
        case Enqueue(id, priority, maxAttempts, now) =>
          if id in queue.jobs {
            return false, None;
          }
          var ok := queue.Enqueue(id, priority, maxAttempts, now);
          if !ok {
            return false, None;
          }
        case Take(worker, id, now, leaseFor, locked) =>
          if worker in slots {
            return false, None;
          }
          var claimed := queue.Claim(worker, now, leaseFor, locked);
          if claimed.None? {
            return false, None;
          }
          slots := slots[worker := Claim(claimed.value, queue.jobs[claimed.value].attempts)];
          done := Some(Take(worker, claimed.value, now, leaseFor, locked));
          ClaimedAttempts(sys.jobs[claimed.value], worker, now, leaseFor);
        case Beat(worker, now, leaseFor) =>
          if worker !in slots {
            return false, None;
          }
          accepted := queue.Heartbeat(slots[worker].job, worker, now, leaseFor);
        case Succeed(worker, now) =>
          if worker !in slots {
            return false, None;
          }
          accepted := queue.Succeed(slots[worker].job, worker, now);
          slots := slots - {worker};
        case Fail(worker, now, error) =>
          if worker !in slots {
            return false, None;
          }
          accepted := queue.Fail(slots[worker].job, worker, now, error, RetryDelay(slots[worker].attempt));
          slots := slots - {worker};
        case Cancel(id, now) =>
          if id !in queue.jobs {
            return false, None;
          }
          accepted := queue.RequestCancel(id, now);
        case Recover(now) =>
          var recovered := queue.RecoverExpiredLeases(now);
        case Die(worker) =>
          if worker !in slots {
            return false, None;
          }
          slots := slots - {worker};
      }
      Advance(done.value);
    }

    ghost method Advance(e: Event)
      requires Inv(sys) && Enabled(sys, e)
      modifies this`sys
      ensures sys == Next(old(sys), e) && Inv(sys)
    {
      NextKeepsInv(sys, e);
      sys := Next(sys, e);
    }

    /** Any number of events while `worker` runs its handler, its own heartbeats among them. */
    method Interfere(worker: WorkerId) returns (ghost events: seq<Event>)
      requires Valid() && worker in slots
      modifies this, queue
      ensures Valid() && NoneBy(events, worker) && Reaches(old(sys), events, sys)
    {
      hide Inv, Next, Enabled;
      events := [];
      var rounds: nat := *;
      while rounds > 0
        invariant Valid() && NoneBy(events, worker) && Reaches(old(sys), events, sys)
      {
        var e: Event := *;
        if NotBy(e, worker) {
          ghost var before := sys;
          var _, done := Perform(e);
          if done.Some? {
            ReachesOneMore(old(sys), events, before, done.value);
            events := events + [done.value];
          }
        }
        rounds := rounds - 1;
      }
    }

    /**
     Claims one job, runs its handler while anything else happens, and reports the result. `left` is what the report
     finds. The queue accepts it exactly if the job still runs under this worker's lease; the claim is closed then, and
     the job has succeeded, failed or waits for its backoff as reported. Otherwise every job stays as the others left it.
     */
    method RunOnce(worker: WorkerId, leaseFor: int)
      returns (report: Report, accepted: bool, ghost claim: Claim, ghost left: Sys)
      requires Valid() && worker !in slots
      modifies this, queue
      ensures Valid() && worker !in slots
      ensures report.Idle? ==> sys == old(sys) && !accepted
      ensures !report.Idle? ==>
        && claim.job in old(sys).jobs && claim.attempt == old(sys).jobs[claim.job].attempts + 1
        && claim !in old(sys).closed && (accepted <==> claim in sys.closed)
        && claim.job in left.jobs && claim.job in sys.jobs
        && (accepted <==> left.jobs[claim.job].state == Running && left.jobs[claim.job].lease.Some?
                          && left.jobs[claim.job].lease.value.owner == worker)
        && (!accepted ==> sys.jobs == left.jobs)
        && (accepted ==> sys.jobs == left.jobs[claim.job := sys.jobs[claim.job]]
                         && Reported(report, claim, left.jobs[claim.job], sys.jobs[claim.job]))
    {
      hide Before, RetryDelay, Claimed, Finished, Returned, Inv, Recovered, Renewed, CancelRequested, Reported;
      claim := Claim(0, 0);
      accepted := false;
      var now: int := *;
      ghost var before := sys;
      left := sys;
      var locked: set<JobId> := *;
      var found, done := Perform(Take(worker, 0, now, leaseFor, locked));
      if !found {
        return Idle, false, claim, left;
      }
      claim := slots[worker];
      HeldIsOpen(sys, worker);
      assert sys.closed == before.closed;
      ghost var taken := sys;
      ghost var events := Interfere(worker);
      OthersLeaveTheClaim(taken, events, sys, worker);
      HeldIsOpen(sys, worker);
      left := sys;
      var handled: bool := *;
      now := *;
      if handled {
        report := Success(now);
        accepted, done := Perform(Succeed(worker, now));
      } else {
        report := Failure(now, "error");
        accepted, done := Perform(Fail(worker, now, "error"));
      }
      if accepted {
        ReportTakesEffect(left, done.value, worker, report);
      }
    }
  }

  /** What a worker reports about the job it claimed. */
  datatype Report = Idle | Success(at: int) | Failure(at: int, error: string)

  /** An accepted report of success ends the job; one of failure ends it or, with attempts left, puts it off. */
  ghost predicate Reported(report: Report, claim: Claim, was: Job, job: Job) {
    && job.lease.None? && job.attempts == claim.attempt
    && match report
       case Idle => true
       case Success(at) => job.state == Succeeded && job.finishedAt == Some(at)
       case Failure(at, error) =>
         && job.error == Some(error)
         && if job.attempts < was.maxAttempts
            then job.state == Queued && job.nextAttempt == Some(at + RetryDelay(claim.attempt))
            else job.state == Failed && job.finishedAt == Some(at)
  }

  lemma ReportTakesEffect(s: Sys, e: Event, worker: WorkerId, report: Report)
    requires Inv(s) && Enabled(s, e) && worker in s.slots && s.slots[worker].job in s.jobs
    requires OwnedBy(s.jobs[s.slots[worker].job], worker)
    requires || (report.Success? && e == Event.Succeed(worker, report.at))
             || (report.Failure? && e == Event.Fail(worker, report.at, report.error))
    ensures var claim := s.slots[worker];
      && claim.job in Next(s, e).jobs && Next(s, e).jobs == s.jobs[claim.job := Next(s, e).jobs[claim.job]]
      && Reported(report, claim, s.jobs[claim.job], Next(s, e).jobs[claim.job])
  {
    hide LogOk, CountsOk, RetryDelay;
  }
}
