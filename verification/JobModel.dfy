/**
 The durable job queue as a state machine: claims, heartbeats, completions, failures,
 cancellations, lease recovery and crashing workers, in any interleaving.
 */
module JobModel {
  import opened Backoff
  import opened Options

  type JobId = nat
  type WorkerId = string

  datatype JobState = Queued | Running | Succeeded | Failed | Cancelled {
    predicate Terminal() {
      Succeeded? || Failed? || Cancelled?
    }
  }

  datatype Lease = Lease(owner: WorkerId, expires: int, heartbeat: int)

  datatype Job = Job(state: JobState, priority: int, createdAt: int, attempts: nat, maxAttempts: nat,
                     nextAttempt: Option<int>, lease: Option<Lease>, cancelRequested: Option<int>,
                     startedAt: Option<int>, finishedAt: Option<int>, error: Option<string>)

  type Jobs = map<JobId, Job>

  // ---------- One job, one transition ----------

  function NewJob(priority: int, maxAttempts: nat, now: int): Job {
    Job(Queued, priority, now, 0, maxAttempts, None, None, None, None, None, None)
  }

  predicate Claimable(job: Job, now: int) {
    job.state.Queued? && (job.nextAttempt.None? || job.nextAttempt.value <= now) && job.attempts < job.maxAttempts
  }

  function Claimed(job: Job, worker: WorkerId, now: int, leaseFor: int): Job {
    job.(state := Running, lease := Some(Lease(worker, now + leaseFor, now)), attempts := job.attempts + 1,
         startedAt := if job.startedAt.Some? then job.startedAt else Some(now))
  }

  predicate OwnedBy(job: Job, worker: WorkerId) {
    job.state.Running? && job.lease.Some? && job.lease.value.owner == worker
  }

  function Renewed(job: Job, worker: WorkerId, now: int, leaseFor: int): Job {
    if OwnedBy(job, worker) && job.lease.value.expires > now
    then job.(lease := Some(Lease(worker, now + leaseFor, now))) else job
  }

  function Finished(job: Job, now: int): Job {
    job.(state := Succeeded, finishedAt := Some(now), lease := None, error := None)
  }

  function Returned(job: Job, now: int, delay: int, error: string): Job {
    var retry := job.attempts < job.maxAttempts;
    job.(state := if retry then Queued else Failed,
         nextAttempt := if retry then Some(now + delay) else None,
         finishedAt := if retry then None else Some(now),
         lease := None, error := Some(error))
  }

  function CancelRequested(job: Job, now: int): Job {
    match job.state
    case Queued => job.(state := Cancelled, cancelRequested := Some(now), finishedAt := Some(now))
    case Running => job.(cancelRequested := Some(now))
    case _ => job
  }

  predicate Expired(job: Job, now: int) {
    job.state.Running? && job.lease.Some? && job.lease.value.expires < now
  }

  function Recovered(job: Job, now: int): Job {
    if !Expired(job, now) then job
    else if job.attempts < job.maxAttempts
      then job.(state := Queued, nextAttempt := Some(now), lease := None, error := Some("lease_expired"))
      else job.(state := Failed, finishedAt := Some(now), lease := None, error := Some("lease_expired"))
  }

  /** Claim order: higher priority, then earlier next attempt with none first, then older. */
  predicate Before(a: Job, b: Job) {
    || a.priority > b.priority
    || (a.priority == b.priority && NextBefore(a.nextAttempt, b.nextAttempt))
    || (a.priority == b.priority && a.nextAttempt == b.nextAttempt && a.createdAt <= b.createdAt)
  }

  predicate NextBefore(a: Option<int>, b: Option<int>) {
    (a.None? && b.Some?) || (a.Some? && b.Some? && a.value < b.value)
  }

  /** The first job to claim for a transaction that skips the rows others have locked. */
  predicate FirstClaimable(jobs: Jobs, id: JobId, now: int, locked: set<JobId>) {
    && id in jobs && id !in locked && Claimable(jobs[id], now)
    && (forall other :: other in jobs && other !in locked && Claimable(jobs[other], now) ==> Before(jobs[id], jobs[other]))
  }

  // ---------- Backoff ----------

  /** The delays after attempts 1 to `n`. */
  function SumDelays(n: nat): nat {
    if n == 0 then 0 else SumDelays(n - 1) + RetryDelay(n)
  }

  // ---------- The system ----------

  /** A worker's claim: the job and the attempt number it was given. */
  datatype Claim = Claim(job: JobId, attempt: nat)

  /** `closed` logs every claim whose succeed or fail was accepted, `moves` counts the claim,
      retry and finish transitions of a job and `delays` sums its failure backoffs. */
  datatype Sys = Sys(jobs: Jobs, slots: map<WorkerId, Claim>, closed: seq<Claim>,
                     moves: map<JobId, nat>, delays: map<JobId, nat>)

  datatype Event =
    | Enqueue(id: JobId, priority: int, maxAttempts: nat, now: int)
    | Take(worker: WorkerId, id: JobId, now: int, leaseFor: int, locked: set<JobId>)
    | Beat(worker: WorkerId, now: int, leaseFor: int)
    | Succeed(worker: WorkerId, now: int)
    | Fail(worker: WorkerId, now: int, error: string)
    | Cancel(id: JobId, now: int)
    | Recover(now: int)
    | Die(worker: WorkerId)

  /** A worker claims only when it holds nothing, and finishes only what it holds. */
  ghost predicate Enabled(s: Sys, e: Event) {
    match e
    case Enqueue(id, _, maxAttempts, _) => id !in s.jobs && maxAttempts > 0
    case Take(worker, id, now, _, locked) => worker !in s.slots && FirstClaimable(s.jobs, id, now, locked)
    case Beat(worker, _, _) => worker in s.slots && s.slots[worker].job in s.jobs
    case Succeed(worker, _) => worker in s.slots && s.slots[worker].job in s.jobs
    case Fail(worker, _, _) => worker in s.slots && s.slots[worker].job in s.jobs
    case Cancel(id, _) => id in s.jobs
    case Recover(_) => true
    case Die(worker) => worker in s.slots
  }

  /** One job changes, making `moved` transitions and asking for `delay` seconds of backoff. */
  function Put(s: Sys, id: JobId, job: Job, moved: nat, delay: nat): Sys {
    s.(jobs := s.jobs[id := job],
       moves := s.moves[id := (if id in s.moves then s.moves[id] else 0) + moved],
       delays := s.delays[id := (if id in s.delays then s.delays[id] else 0) + delay])
  }

  function Released(s: Sys, worker: WorkerId): Sys {
    s.(slots := s.slots - {worker})
  }

  /** A worker lets go of its claim, and logs it as closed when the queue accepted the end. */
  function Closed(s: Sys, worker: WorkerId): Sys
    requires worker in s.slots
  {
    Released(s, worker).(closed := s.closed + [s.slots[worker]])
  }

  ghost function Next(s: Sys, e: Event): Sys
    requires Enabled(s, e)
  {
    match e
    case Enqueue(id, priority, maxAttempts, now) => Put(s, id, NewJob(priority, maxAttempts, now), 0, 0)
    case Take(worker, id, now, leaseFor, locked) =>
      Put(s, id, Claimed(s.jobs[id], worker, now, leaseFor), 1, 0)
        .(slots := s.slots[worker := Claim(id, s.jobs[id].attempts + 1)])
    case Beat(worker, now, leaseFor) =>
      var id := s.slots[worker].job;
      Put(s, id, Renewed(s.jobs[id], worker, now, leaseFor), 0, 0)
    case Succeed(worker, now) =>
      var id := s.slots[worker].job;
      if OwnedBy(s.jobs[id], worker) then Put(Closed(s, worker), id, Finished(s.jobs[id], now), 1, 0)
      else Released(s, worker)
    case Fail(worker, now, error) =>
      var id := s.slots[worker].job;
      var delay := RetryDelay(s.slots[worker].attempt);
      if OwnedBy(s.jobs[id], worker)
      then Put(Closed(s, worker), id, Returned(s.jobs[id], now, delay, error), 1,
               if s.jobs[id].attempts < s.jobs[id].maxAttempts then delay else 0)
      else Released(s, worker)
    case Cancel(id, now) =>
      Put(s, id, CancelRequested(s.jobs[id], now), if s.jobs[id].state.Queued? then 1 else 0, 0)
    case Recover(now) =>
      s.(jobs := map id | id in s.jobs :: Recovered(s.jobs[id], now),
         moves := map id | id in s.moves ::
           s.moves[id] + (if id in s.jobs && Expired(s.jobs[id], now) then 1 else 0))
    case Die(worker) => Released(s, worker)
  }

  const START := Sys(map[], map[], [], map[], map[])

  /** The states reached by doing the events in order. */
  ghost predicate Reaches(s: Sys, events: seq<Event>, t: Sys)
    decreases |events|
  {
    if events == [] then s == t
    else Enabled(s, events[0]) && Reaches(Next(s, events[0]), events[1..], t)
  }

  // ---------- Invariants ----------

  ghost predicate JobOk(job: Job) {
    && job.maxAttempts > 0
    && job.attempts <= job.maxAttempts
    && (job.state.Queued? ==> job.attempts < job.maxAttempts)
    && (job.state.Running? ==> job.attempts > 0)
    && (job.state.Running? <==> job.lease.Some?)
    && (job.state.Terminal() <==> job.finishedAt.Some?)
  }

  /** The transitions a job can still make. */
  function MovesLeft(job: Job): nat
    requires job.attempts <= job.maxAttempts
  {
    if job.state.Terminal() then 0
    else 2 * (job.maxAttempts - job.attempts) + (if job.state.Running? then 1 else 0)
  }

  /** How many attempts of a job may have been followed by a backoff. */
  function Backoffs(job: Job): nat
    requires job.maxAttempts > 0
  {
    if job.state.Running? then (if job.attempts > 0 then job.attempts - 1 else 0)
    else if job.attempts < job.maxAttempts then job.attempts else job.maxAttempts - 1
  }

  ghost predicate SlotsOk(s: Sys) {
    forall w :: w in s.slots ==>
      && s.slots[w].job in s.jobs
      && 1 <= s.slots[w].attempt <= s.jobs[s.slots[w].job].attempts
      && (OwnedBy(s.jobs[s.slots[w].job], w) ==> s.slots[w].attempt == s.jobs[s.slots[w].job].attempts)
      && (forall v :: v in s.slots && s.slots[v] == s.slots[w] ==> v == w)
  }

  ghost predicate LogOk(s: Sys) {
    && (forall i, j :: 0 <= i < j < |s.closed| ==> s.closed[i] != s.closed[j])
    && (forall c :: c in s.closed ==>
          && c.job in s.jobs && c.attempt <= s.jobs[c.job].attempts
          && (c.attempt == s.jobs[c.job].attempts ==> !s.jobs[c.job].state.Running?)
          && (forall w :: w in s.slots ==> s.slots[w] != c))
  }

  ghost predicate CountsOk(s: Sys) {
    && s.moves.Keys == s.jobs.Keys && s.delays.Keys == s.jobs.Keys
    && (forall id :: id in s.jobs ==>
          && JobOk(s.jobs[id])
          && s.moves[id] + MovesLeft(s.jobs[id]) <= 2 * s.jobs[id].maxAttempts
          && s.delays[id] <= SumDelays(Backoffs(s.jobs[id])))
  }

  ghost predicate Inv(s: Sys) {
    SlotsOk(s) && LogOk(s) && CountsOk(s)
  }

  lemma {:induction false} SumDelaysGrows(m: nat, n: nat)
    requires m <= n
    ensures SumDelays(m) <= SumDelays(n)
    decreases n
  {
    if m < n {
      SumDelaysGrows(m, n - 1);
    }
  }

  // ---------- One job ----------

  /** What any transition of one job keeps. */
  ghost predicate Follows(a: Job, b: Job, moved: nat, delay: nat)
    requires JobOk(a)
  {
    && JobOk(b) && b.maxAttempts == a.maxAttempts && a.attempts <= b.attempts
    && MovesLeft(b) + moved <= MovesLeft(a)
    && SumDelays(Backoffs(a)) + delay <= SumDelays(Backoffs(b))
    && (a.state.Terminal() ==> b == a)
  }

  lemma TransitionsFollow(job: Job, worker: WorkerId, now: int, leaseFor: int, error: string)
    requires JobOk(job)
    ensures Claimable(job, now) ==> Follows(job, Claimed(job, worker, now, leaseFor), 1, 0)
    ensures Follows(job, Renewed(job, worker, now, leaseFor), 0, 0)
    ensures job.state.Running? ==> Follows(job, Finished(job, now), 1, 0)
    ensures Follows(job, CancelRequested(job, now), if job.state.Queued? then 1 else 0, 0)
    ensures Follows(job, Recovered(job, now), if Expired(job, now) then 1 else 0, 0)
  {
    hide RetryDelay;
    SumDelaysGrows(Backoffs(job), Backoffs(Finished(job, now)));
    SumDelaysGrows(Backoffs(job), Backoffs(Recovered(job, now)));
    if job.attempts > 0 {
      SumDelaysGrows(job.attempts - 1, job.attempts);
    }
  }

  lemma ReturnFollows(job: Job, now: int, error: string)
    requires JobOk(job) && job.state.Running?
    ensures var delay := RetryDelay(job.attempts);
            Follows(job, Returned(job, now, delay, error), 1, if job.attempts < job.maxAttempts then delay else 0)
  {
    hide RetryDelay;
  }

  // ---------- Events ----------

  lemma PutKeepsCounts(s: Sys, id: JobId, job: Job, moved: nat, delay: nat)
    requires CountsOk(s) && id in s.jobs && Follows(s.jobs[id], job, moved, delay)
    ensures CountsOk(Put(s, id, job, moved, delay))
  {
    hide SumDelays, JobOk;
  }

  lemma CountsKept(s: Sys, e: Event)
    requires Inv(s) && Enabled(s, e)
    ensures CountsOk(Next(s, e))
  {
    hide Follows, Claimed, Renewed, Finished, CancelRequested, Returned, RetryDelay, Before, LogOk, SumDelays;
    hide MovesLeft, Backoffs;
    match e {
      case Enqueue(id, priority, maxAttempts, now) =>
        EnqueueKeepsCounts(s, id, priority, maxAttempts, now);
      case Take(worker, id, now, leaseFor, locked) =>
        TransitionsFollow(s.jobs[id], worker, now, leaseFor, "");
        PutKeepsCounts(s, id, Claimed(s.jobs[id], worker, now, leaseFor), 1, 0);
      case Beat(worker, now, leaseFor) =>
        var id := s.slots[worker].job;
        TransitionsFollow(s.jobs[id], worker, now, leaseFor, "");
        PutKeepsCounts(s, id, Renewed(s.jobs[id], worker, now, leaseFor), 0, 0);
      case Succeed(_, _) =>
        CloseKeepsCounts(s, e);
      case Fail(_, _, _) =>
        CloseKeepsCounts(s, e);
      case Cancel(id, now) =>
        TransitionsFollow(s.jobs[id], "", now, 0, "");
        PutKeepsCounts(s, id, CancelRequested(s.jobs[id], now), if s.jobs[id].state.Queued? then 1 else 0, 0);
      case Recover(now) =>
        RecoverKeepsCounts(s, now);
      case Die(worker) =>
    }
  }

  lemma EnqueueKeepsCounts(s: Sys, id: JobId, priority: int, maxAttempts: nat, now: int)
    requires CountsOk(s) && id !in s.jobs && maxAttempts > 0
    ensures CountsOk(Put(s, id, NewJob(priority, maxAttempts, now), 0, 0))
  {
    hide SumDelays;
  }

  lemma CloseKeepsCounts(s: Sys, e: Event)
    requires SlotsOk(s) && CountsOk(s) && (e.Succeed? || e.Fail?) && Enabled(s, e)
    ensures CountsOk(Next(s, e))
  {
    hide Follows, Claimed, Finished, Returned, RetryDelay, SumDelays, MovesLeft, Backoffs;
    var id := s.slots[e.worker].job;
    var job, delay := s.jobs[id], RetryDelay(s.slots[e.worker].attempt);
    if OwnedBy(job, e.worker) {
      TransitionsFollow(job, e.worker, e.now, 0, "");
      if e.Succeed? {
        PutKeepsCounts(Closed(s, e.worker), id, Finished(job, e.now), 1, 0);
      } else {
        ReturnFollows(job, e.now, e.error);
        PutKeepsCounts(Closed(s, e.worker), id, Returned(job, e.now, delay, e.error), 1,
                       if job.attempts < job.maxAttempts then delay else 0);
      }
    }
  }

  lemma RecoverKeepsCounts(s: Sys, now: int)
    requires CountsOk(s)
    ensures CountsOk(Next(s, Recover(now)))
  {
    hide SumDelays, MovesLeft, Backoffs, Recovered;
    var t := Next(s, Recover(now));
    forall id | id in t.jobs
      ensures JobOk(t.jobs[id]) && t.moves[id] + MovesLeft(t.jobs[id]) <= 2 * t.jobs[id].maxAttempts
           && t.delays[id] <= SumDelays(Backoffs(t.jobs[id]))
    {
      TransitionsFollow(s.jobs[id], "", now, 0, "");
    }
  }

  /** A job whose attempt number did not change did not start running again. */
  ghost predicate Quiet(a: Job, b: Job) {
    && a.attempts == b.attempts
    && (b.state.Running? ==> a.state.Running?)
    && (forall w :: OwnedBy(b, w) ==> OwnedBy(a, w))
  }

  lemma QuietKeepsSlotsAndLog(s: Sys, t: Sys)
    requires SlotsOk(s) && LogOk(s) && t.jobs.Keys == s.jobs.Keys
    requires forall id :: id in s.jobs ==> Quiet(s.jobs[id], t.jobs[id])
    requires t.slots.Keys <= s.slots.Keys && forall w :: w in t.slots ==> t.slots[w] == s.slots[w]
    requires t.closed == s.closed
    ensures SlotsOk(t) && LogOk(t)
  {
  }

  /** Closing a claim that is still owned logs it once, because its job stops running. */
  lemma ClosingKeepsSlotsAndLog(s: Sys, t: Sys, worker: WorkerId)
    requires SlotsOk(s) && LogOk(s) && worker in s.slots && t.jobs.Keys == s.jobs.Keys
    requires OwnedBy(s.jobs[s.slots[worker].job], worker) && !t.jobs[s.slots[worker].job].state.Running?
    requires forall id :: id in s.jobs ==> Quiet(s.jobs[id], t.jobs[id])
    requires t.slots == s.slots - {worker} && t.closed == s.closed + [s.slots[worker]]
    ensures SlotsOk(t) && LogOk(t)
  {
    var c := s.slots[worker];
    assert c !in s.closed;
    forall d | d in t.closed
      ensures d.job in t.jobs && d.attempt <= t.jobs[d.job].attempts
           && (d.attempt == t.jobs[d.job].attempts ==> !t.jobs[d.job].state.Running?)
           && (forall w :: w in t.slots ==> t.slots[w] != d)
    {
      assert d == c || d in s.closed;
    }
  }

  lemma TakeKeepsSlotsAndLog(s: Sys, worker: WorkerId, id: JobId, now: int, leaseFor: int, locked: set<JobId>)
    requires SlotsOk(s) && LogOk(s) && Enabled(s, Take(worker, id, now, leaseFor, locked))
    ensures SlotsOk(Next(s, Take(worker, id, now, leaseFor, locked)))
    ensures LogOk(Next(s, Take(worker, id, now, leaseFor, locked)))
  {
    hide Before;
    var t := Next(s, Take(worker, id, now, leaseFor, locked));
    forall c | c in t.closed
      ensures c.job in t.jobs && c.attempt <= t.jobs[c.job].attempts
           && (c.attempt == t.jobs[c.job].attempts ==> !t.jobs[c.job].state.Running?)
           && (forall w :: w in t.slots ==> t.slots[w] != c)
    {
      assert c in s.closed;
    }
  }

  lemma SlotsAndLogKept(s: Sys, e: Event)
    requires Inv(s) && Enabled(s, e)
    ensures SlotsOk(Next(s, e)) && LogOk(Next(s, e))
  {
    hide SumDelays, RetryDelay, Before, CountsOk, SlotsOk, LogOk;
    var t := Next(s, e);
    match e {
      case Enqueue(id, _, _, _) =>
        EnqueueKeepsSlotsAndLog(s, e);
      case Take(worker, id, now, leaseFor, locked) =>
        TakeKeepsSlotsAndLog(s, worker, id, now, leaseFor, locked);
      case Succeed(worker, now) =>
        if OwnedBy(s.jobs[s.slots[worker].job], worker) {
          ClosingKeepsSlotsAndLog(s, t, worker);
        } else {
          QuietKeepsSlotsAndLog(s, t);
        }
      case Fail(worker, now, error) =>
        if OwnedBy(s.jobs[s.slots[worker].job], worker) {
          ClosingKeepsSlotsAndLog(s, t, worker);
        } else {
          QuietKeepsSlotsAndLog(s, t);
        }
      case _ =>
        QuietKeepsSlotsAndLog(s, t);
    }
  }

  lemma EnqueueKeepsSlotsAndLog(s: Sys, e: Event)
    requires SlotsOk(s) && LogOk(s) && Enabled(s, e) && e.Enqueue?
    ensures SlotsOk(Next(s, e)) && LogOk(Next(s, e))
  {
  }

  /** Every event keeps the invariant, in whatever order events come. */
  lemma NextKeepsInv(s: Sys, e: Event)
    requires Inv(s) && Enabled(s, e)
    ensures Inv(Next(s, e))
  {
    hide Next, Inv;
    SlotsAndLogKept(s, e);
    CountsKept(s, e);
    InvFromParts(Next(s, e));
  }

  lemma InvFromParts(s: Sys)
    requires SlotsOk(s) && LogOk(s) && CountsOk(s)
    ensures Inv(s)
  {
  }
}
