/** The durable maintenance queue and its worker
    (src/core/maintenance/repository.py, scheduler.py). */
module Maintenance {
  import opened Common

  type JobId = nat
  type Time = nat

  datatype JobStatus = Pending | Running | Succeeded | Failed

  datatype Job = Job(
    id: JobId, dedupe: string, kind: string, priority: int, created: Time, status: JobStatus,
    attempts: nat, maxAttempts: nat, nextAttempt: Time, lease: Option<Time>)

  datatype JobSpec = JobSpec(dedupe: string, kind: string, priority: int, maxAttempts: Option<int>)

  datatype Settings = Settings(leaseSeconds: nat, defaultMaxAttempts: nat, maxRetryDelay: nat)

  function Pow2(n: nat): nat { if n == 0 then 1 else 2 * Pow2(n - 1) }

  /** Bounded exponential backoff after the given attempt. */
  function Delay(cap: nat, attempts: nat): nat { Min(cap, Pow2(Max(0, attempts - 1))) }

  lemma {:induction false} DelaysGrow(cap: nat, k: nat)
    ensures Delay(cap, k) <= Delay(cap, k + 1) <= cap
    ensures 1 <= cap ==> 1 <= Delay(cap, k)
  {
    PowPositive(Max(0, k - 1));
  }

  /** The delay starts at one second and doubles with every attempt until it reaches the cap. */
  lemma DelayDoubles(cap: nat, k: nat)
    requires k >= 1
    ensures Delay(cap, 1) == Min(cap, 1)
    ensures Delay(cap, k + 1) == Min(cap, 2 * Delay(cap, k))
  {
    PowPositive(k - 1);
  }

  lemma {:induction false} PowPositive(n: nat)
    ensures Pow2(n) >= 1
  {
    if n > 0 { PowPositive(n - 1); }
  }

  /* ---- What one statement does to one row ---- */

  predicate Ready(j: Job, now: Time) { j.status == Pending && j.nextAttempt <= now }

  predicate Expired(j: Job, now: Time) { j.status == Running && j.lease.Some? && j.lease.value <= now }

  function ExpireRow(j: Job, now: Time): Job {
    if Expired(j, now) then j.(status := Pending, lease := None) else j
  }

  function ClaimRow(j: Job, now: Time, lease: nat): Job {
    j.(status := Running, attempts := j.attempts + 1, lease := Some(now + Max(1, lease)))
  }

  function SucceedRow(j: Job): Job { j.(status := Succeeded, lease := None) }

  /** `fail` decides by the attempt number the holder claimed, not by the stored one. */
  function FailRow(j: Job, attempts: nat, maxAttempts: nat, now: Time, cap: nat): Job {
    j.(status := if attempts >= maxAttempts then Failed else Pending, lease := None,
       nextAttempt := now + Delay(cap, attempts))
  }

  function RequeueRow(j: Job, now: Time): Job {
    j.(status := Pending, attempts := 0, nextAttempt := now, lease := None)
  }

  /** ORDER BY priority DESC, created_at, job_id. */
  predicate Before(a: Job, b: Job) {
    || a.priority > b.priority
    || (a.priority == b.priority && a.created < b.created)
    || (a.priority == b.priority && a.created == b.created && a.id < b.id)
  }

  function ExpireAll(jobs: seq<Job>, now: Time): seq<Job> {
    seq(|jobs|, i requires 0 <= i < |jobs| => ExpireRow(jobs[i], now))
  }

  /** Row i is the one that a claim at this time returns. */
  ghost predicate IsNext(jobs: seq<Job>, i: nat, now: Time) {
    && i < |jobs| && Ready(jobs[i], now)
    && forall j :: 0 <= j < |jobs| && j != i && Ready(jobs[j], now) ==> Before(jobs[i], jobs[j])
  }

  /** UNIQUE(dedupe_key) and PRIMARY KEY(job_id). */
  ghost predicate Distinct(jobs: seq<Job>) {
    forall i, j :: 0 <= i < j < |jobs| ==> jobs[i].dedupe != jobs[j].dedupe && jobs[i].id != jobs[j].id
  }

  predicate Queued(jobs: seq<Job>, dedupe: string) {
    exists i :: 0 <= i < |jobs| && jobs[i].dedupe == dedupe
  }

  /** The first row after its insertion. */
  function NewJob(spec: JobSpec, id: JobId, now: Time, defaultMaxAttempts: nat): Job {
    Job(id, spec.dedupe, spec.kind, spec.priority, now, Pending, 0,
        Max(1, if spec.maxAttempts.Some? && spec.maxAttempts.value != 0 then spec.maxAttempts.value
               else defaultMaxAttempts),
        now, None)
  }

  /** A new job is pending at once, with as many attempts as its spec asks for, or the default, and at
      least one. */
  lemma NewJobIsReady(spec: JobSpec, id: JobId, now: Time, defaultMaxAttempts: nat)
    ensures
      var j := NewJob(spec, id, now, defaultMaxAttempts);
      && Ready(j, now) && j.attempts == 0 < j.maxAttempts && j.lease.None? && j.created == now
      && j.id == id && j.dedupe == spec.dedupe && j.kind == spec.kind && j.priority == spec.priority
      && (spec.maxAttempts.Some? && spec.maxAttempts.value >= 1 ==> j.maxAttempts == spec.maxAttempts.value)
      && (spec.maxAttempts.None? && defaultMaxAttempts >= 1 ==> j.maxAttempts == defaultMaxAttempts)
  {
  }

  /** A requeued job starts over: it is ready, and may be claimed as often as a new one. */
  lemma RequeueStartsOver(j: Job, now: Time)
    ensures
      var r := RequeueRow(j, now);
      && Ready(r, now) && r.attempts == 0 && r.lease.None?
      && r.(status := j.status, attempts := j.attempts, nextAttempt := j.nextAttempt, lease := j.lease) == j
  {
  }

  /** The claimed job is one of the highest priority and among these one of the oldest; no other job
      is next at the same time. */
  lemma NextIsFirst(jobs: seq<Job>, i: nat, j: nat, now: Time)
    requires IsNext(jobs, i, now) && j < |jobs| && Ready(jobs[j], now)
    ensures jobs[i].priority >= jobs[j].priority
    ensures jobs[i].priority == jobs[j].priority ==> jobs[i].created <= jobs[j].created
    ensures jobs[i].priority == jobs[j].priority && jobs[i].created == jobs[j].created ==> jobs[i].id <= jobs[j].id
    ensures IsNext(jobs, j, now) ==> i == j
  {
  }

  class MaintenanceRepository {
    var jobs: seq<Job>
    const settings: Settings

    constructor (settings: Settings)
      ensures jobs == [] && this.settings == settings
    {
      this.settings := settings;
      jobs := [];
    }

    /** An id no job uses, as uuid4 supplies it. */
    method FreshId() returns (id: JobId)
      ensures forall i :: 0 <= i < |jobs| ==> jobs[i].id != id
    {
      id := 0;
      for i := 0 to |jobs|
        invariant forall j :: 0 <= j < i ==> jobs[j].id < id
      {
        if jobs[i].id >= id {
          id := jobs[i].id + 1;
        }
      }
    }

    method Find(dedupe: string) returns (index: Option<nat>)
      ensures index.Some? ==> index.value < |jobs| && jobs[index.value].dedupe == dedupe
      ensures index.None? <==> !Queued(jobs, dedupe)
    {
      for i := 0 to |jobs|
        invariant forall j :: 0 <= j < i ==> jobs[j].dedupe != dedupe
      {
        if jobs[i].dedupe == dedupe {
          return Some(i);
        }
      }
      index := None;
    }

    /** Inserts the job unless its dedupe key is known; returns the id under that key. */
    method Enqueue(spec: JobSpec, id: JobId, now: Time) returns (jobId: JobId)
      requires Distinct(jobs) && forall i :: 0 <= i < |jobs| ==> jobs[i].id != id
      modifies this
      ensures Distinct(jobs)
      ensures old(Queued(jobs, spec.dedupe)) ==> jobs == old(jobs)
      ensures !old(Queued(jobs, spec.dedupe)) ==>
                jobs == old(jobs) + [NewJob(spec, id, now, settings.defaultMaxAttempts)]
      ensures exists i :: 0 <= i < |jobs| && jobs[i].dedupe == spec.dedupe && jobs[i].id == jobId
    {
      var found := Find(spec.dedupe);
      if found.Some? {
        return jobs[found.value].id;
      }
      var row := NewJob(spec, id, now, settings.defaultMaxAttempts);
      jobs := jobs + [row];
      assert jobs[|jobs| - 1] == row;
      jobId := id;
    }

    /** Returns expired leases to the queue, then leases the least ready job. */
    method ClaimNext(now: Time, lease: nat) returns (claimed: Option<nat>)
      requires Distinct(jobs)
      modifies this
      ensures claimed.None? ==>
                jobs == ExpireAll(old(jobs), now) && forall i :: 0 <= i < |jobs| ==> !Ready(jobs[i], now)
      ensures claimed.Some? ==>
                var expired := ExpireAll(old(jobs), now);
                IsNext(expired, claimed.value, now)
                && jobs == expired[claimed.value := ClaimRow(expired[claimed.value], now, lease)]
      ensures Distinct(jobs)
    {
      ghost var before := jobs;
      for i := 0 to |jobs|
        invariant |jobs| == |before|
        invariant forall j :: 0 <= j < |jobs| ==> jobs[j] == if j < i then ExpireRow(before[j], now) else before[j]
      {
        if Expired(jobs[i], now) {
          jobs := jobs[i := jobs[i].(status := Pending, lease := None)];
        }
      }
      assert jobs == ExpireAll(before, now);
      claimed := None;
      for i := 0 to |jobs|
        invariant claimed.None? ==> forall j :: 0 <= j < i ==> !Ready(jobs[j], now)
        invariant claimed.Some? ==>
          && claimed.value < i && Ready(jobs[claimed.value], now)
          && forall j :: 0 <= j < i && j != claimed.value && Ready(jobs[j], now) ==> Before(jobs[claimed.value], jobs[j])
      {
        if Ready(jobs[i], now) && (claimed.None? || Before(jobs[i], jobs[claimed.value])) {
          claimed := Some(i);
        }
      }
      if claimed.Some? {
        var i := claimed.value;
        jobs := jobs[i := jobs[i].(status := Running, attempts := jobs[i].attempts + 1,
                                   lease := Some(now + Max(1, lease)))];
      }
    }

    method Succeed(id: JobId)
      modifies this
      ensures jobs == MapRows(old(jobs), id, j => SucceedRow(j))
    {
      ghost var before := jobs;
      for i := 0 to |jobs|
        invariant |jobs| == |before|
        invariant forall j :: 0 <= j < |jobs| ==>
          jobs[j] == if j < i && before[j].id == id then SucceedRow(before[j]) else before[j]
      {
        if jobs[i].id == id {
          jobs := jobs[i := jobs[i].(status := Succeeded, lease := None)];
        }
      }
    }

    /** `job` is the row as its holder claimed it; the stored row is updated whatever its status. */
    method Fail(job: Job, now: Time)
      modifies this
      ensures jobs == MapRows(old(jobs), job.id,
                              j => FailRow(j, job.attempts, job.maxAttempts, now, settings.maxRetryDelay))
    {
      var terminal := job.attempts >= job.maxAttempts;
      var delay := Delay(settings.maxRetryDelay, job.attempts);
      ghost var before := jobs;
      for i := 0 to |jobs|
        invariant |jobs| == |before|
        invariant forall j :: 0 <= j < |jobs| ==>
          jobs[j] == if j < i && before[j].id == job.id
                     then FailRow(before[j], job.attempts, job.maxAttempts, now, settings.maxRetryDelay) else before[j]
      {
        if jobs[i].id == job.id {
          jobs := jobs[i := jobs[i].(status := if terminal then Failed else Pending, lease := None,
                                     nextAttempt := now + delay)];
        }
      }
    }

    method RequeueFailed(dedupe: string, now: Time) returns (requeued: bool)
      requires Distinct(jobs)
      modifies this
      ensures requeued <==> exists i :: 0 <= i < |old(jobs)| && old(jobs)[i].dedupe == dedupe && old(jobs)[i].status == Failed
      ensures |jobs| == |old(jobs)| && Distinct(jobs)
      ensures forall i :: 0 <= i < |jobs| ==>
                jobs[i] == if old(jobs)[i].dedupe == dedupe && old(jobs)[i].status == Failed
                           then RequeueRow(old(jobs)[i], now) else old(jobs)[i]
    {
      var found := Find(dedupe);
      requeued := found.Some? && jobs[found.value].status == Failed;
      if requeued {
        var i := found.value;
        jobs := jobs[i := jobs[i].(status := Pending, attempts := 0, nextAttempt := now, lease := None)];
      }
    }
  }

  function MapRows(jobs: seq<Job>, id: JobId, f: Job -> Job): seq<Job> {
    seq(|jobs|, i requires 0 <= i < |jobs| => if jobs[i].id == id then f(jobs[i]) else jobs[i])
  }

  /** How a dispatched handler ends. */
  datatype HandlerOutcome = NoHandler | Raises | Completes

  class MaintenanceScheduler {
    const repository: MaintenanceRepository
    const leaseSeconds: nat

    constructor (repository: MaintenanceRepository, leaseSeconds: nat)
      ensures this.repository == repository && this.leaseSeconds == Max(1, leaseSeconds)
    {
      this.repository, this.leaseSeconds := repository, Max(1, leaseSeconds);
    }

    /** `run_once`: claims one job and settles exactly that job: completed ones succeed,
        missing handlers and exceptions fail.  `claimedAt` and `settledAt` are clock readings. */
    method RunOnce(claimedAt: Time, settledAt: Time, outcome: HandlerOutcome) returns (worked: bool)
      requires Distinct(repository.jobs)
      modifies repository
      ensures Distinct(repository.jobs)
      ensures !worked ==> repository.jobs == ExpireAll(old(repository.jobs), claimedAt)
                          && forall i :: 0 <= i < |repository.jobs| ==> !Ready(repository.jobs[i], claimedAt)
      ensures worked ==>
                var expired := ExpireAll(old(repository.jobs), claimedAt);
                exists i: nat :: IsNext(expired, i, claimedAt)
                  && var claimed := ClaimRow(expired[i], claimedAt, leaseSeconds);
                     repository.jobs == expired[i :=
                       if outcome == Completes then SucceedRow(claimed)
                       else FailRow(claimed, claimed.attempts, claimed.maxAttempts, settledAt,
                                    repository.settings.maxRetryDelay)]
    {
      var claimed := repository.ClaimNext(claimedAt, leaseSeconds);
      if claimed.None? {
        return false;
      }
      var i := claimed.value;
      var job := repository.jobs[i];
      ghost var held := repository.jobs;
      if outcome == Completes {
        repository.Succeed(job.id);
      } else {
        repository.Fail(job, settledAt);
      }
      assert forall k :: 0 <= k < |held| && k != i ==> repository.jobs[k] == held[k];
      ghost var expired := ExpireAll(old(repository.jobs), claimedAt);
      assert repository.jobs == expired[i := repository.jobs[i]];
      worked := true;
    }
  }

  /* ---- Runs of the queue ---- */

  datatype Step =
    | EnqueueStep(spec: JobSpec, id: JobId)
    | ClaimStep(index: Option<nat>, lease: nat)
    | SucceedStep(id: JobId)
    | FailStep(id: JobId, attempts: nat, maxAttempts: nat)
    | RequeueStep(dedupe: string)

  /** The transition relation; `now` is the clock reading of the statement. */
  ghost predicate Moves(jobs: seq<Job>, step: Step, now: Time, after: seq<Job>, settings: Settings) {
    match step
    case EnqueueStep(spec, id) =>
      if Queued(jobs, spec.dedupe) then after == jobs
      else (forall i :: 0 <= i < |jobs| ==> jobs[i].id != id)
           && after == jobs + [NewJob(spec, id, now, settings.defaultMaxAttempts)]
    case ClaimStep(index, lease) =>
      var expired := ExpireAll(jobs, now);
      if index.None? then after == expired && forall i :: 0 <= i < |jobs| ==> !Ready(expired[i], now)
      else IsNext(expired, index.value, now)
           && after == expired[index.value := ClaimRow(expired[index.value], now, lease)]
    case SucceedStep(id) => after == MapRows(jobs, id, j => SucceedRow(j))
    case FailStep(id, attempts, maxAttempts) =>
      after == MapRows(jobs, id, j => FailRow(j, attempts, maxAttempts, now, settings.maxRetryDelay))
    case RequeueStep(dedupe) =>
      && |after| == |jobs|
      && forall i :: 0 <= i < |jobs| ==>
           after[i] == if jobs[i].dedupe == dedupe && jobs[i].status == Failed then RequeueRow(jobs[i], now) else jobs[i]
  }

  /** A run: states, the steps between them and the non-decreasing clock. */
  ghost predicate History(states: seq<seq<Job>>, steps: seq<Step>, times: seq<Time>, settings: Settings) {
    && |states| == |steps| + 1 && |times| == |steps|
    && (forall i :: 0 <= i < |steps| ==> Moves(states[i], steps[i], times[i], states[i + 1], settings))
    && (forall i, j :: 0 <= i <= j < |times| ==> times[i] <= times[j])
  }

  /** A step keeps every row in its place, with its id and its dedupe key. */
  lemma MoveKeepsRows(jobs: seq<Job>, step: Step, now: Time, after: seq<Job>, settings: Settings)
    requires Distinct(jobs) && Moves(jobs, step, now, after, settings)
    ensures |jobs| <= |after| && Distinct(after)
    ensures forall i :: 0 <= i < |jobs| ==>
              after[i].id == jobs[i].id && after[i].dedupe == jobs[i].dedupe && after[i].maxAttempts == jobs[i].maxAttempts
  {
  }

  /** Each dedupe key has one job row, the same one for ever. */
  lemma {:induction false} OneJobPerKey(
    states: seq<seq<Job>>, steps: seq<Step>, times: seq<Time>, settings: Settings, a: nat, b: nat)
    requires History(states, steps, times, settings) && Distinct(states[0]) && a <= b < |states|
    ensures Distinct(states[b]) && |states[a]| <= |states[b]|
    ensures forall i :: 0 <= i < |states[a]| ==>
              states[b][i].id == states[a][i].id && states[b][i].dedupe == states[a][i].dedupe
              && states[b][i].maxAttempts == states[a][i].maxAttempts
    decreases b
  {
    if b > 0 {
      OneJobPerKey(states, steps, times, settings, if a == b then a - 1 else a, b - 1);
      MoveKeepsRows(states[b - 1], steps[b - 1], times[b - 1], states[b], settings);
    }
  }

  predicate ClaimsRow(step: Step, i: nat) { step.ClaimStep? && step.index == Some(i) }

  /** A step that may hand row i back to the queue before its lease ends. */
  predicate ReleasesRow(jobs: seq<Job>, step: Step, i: nat)
    requires i < |jobs|
  {
    step.FailStep? && step.id == jobs[i].id
  }

  /** Between two claims of one job lies a reported failure or a full lease. */
  lemma {:induction false} ClaimsAreSeparated(
    states: seq<seq<Job>>, steps: seq<Step>, times: seq<Time>, settings: Settings, i: nat, a: nat, b: nat)
    requires History(states, steps, times, settings) && Distinct(states[0])
    requires a < b < |steps| && ClaimsRow(steps[a], i) && ClaimsRow(steps[b], i) && i < |states[a]|
    requires forall m :: a < m < b ==> |states[m]| > i && !ReleasesRow(states[m], steps[m], i)
    ensures times[b] >= times[a] + Max(1, steps[a].lease)
  {
    LeaseHolds(states, steps, times, settings, i, a, b);
    var expired := ExpireAll(states[b], times[b]);
    assert Moves(states[b], steps[b], times[b], states[b + 1], settings);
    assert IsNext(expired, i, times[b]) && expired[i] == ExpireRow(states[b][i], times[b]);
  }

  lemma {:induction false} LeaseHolds(
    states: seq<seq<Job>>, steps: seq<Step>, times: seq<Time>, settings: Settings, i: nat, a: nat, m: nat)
    requires History(states, steps, times, settings) && Distinct(states[0])
    requires a < m < |steps| && ClaimsRow(steps[a], i) && i < |states[a]|
    requires forall k :: a < k < m ==> |states[k]| > i && !ReleasesRow(states[k], steps[k], i)
    ensures |states[m]| > i
    ensures || times[m] >= times[a] + Max(1, steps[a].lease)
            || states[m][i].status == Succeeded
            || (states[m][i].status == Running && states[m][i].lease == Some(times[a] + Max(1, steps[a].lease)))
    decreases m
  {
    if m > a + 1 {
      LeaseHolds(states, steps, times, settings, i, a, m - 1);
      OneJobPerKey(states, steps, times, settings, 0, m - 1);
      MoveKeepsRows(states[m - 1], steps[m - 1], times[m - 1], states[m], settings);
      assert times[m - 1] <= times[m];
      var end := times[a] + Max(1, steps[a].lease);
      if times[m - 1] < end {
        RowKeepsLease(states[m - 1], steps[m - 1], times[m - 1], states[m], settings, i, end);
      }
    }
  }

  /** Before the lease ends no other step touches a held or finished row. */
  lemma RowKeepsLease(jobs: seq<Job>, step: Step, now: Time, after: seq<Job>, settings: Settings, i: nat, end: Time)
    requires Moves(jobs, step, now, after, settings) && i < |jobs| && |jobs| <= |after|
    requires !ReleasesRow(jobs, step, i) && now < end
    requires jobs[i].status == Succeeded || (jobs[i].status == Running && jobs[i].lease == Some(end))
    ensures after[i].status == Succeeded || (after[i].status == Running && after[i].lease == Some(end))
  {
    if step.ClaimStep? {
      assert ExpireAll(jobs, now)[i] == jobs[i];
    }
  }

  /* ---- A job that keeps failing ---- */

  function Claims(steps: seq<Step>, i: nat): nat {
    if steps == [] then 0 else Claims(steps[..|steps| - 1], i) + if ClaimsRow(steps[|steps| - 1], i) then 1 else 0
  }

  /** Row i has one holder at a time: it is settled by failures of the holder itself,
      reported with the attempt that was claimed, and its lease never runs out. */
  ghost predicate SingleHolder(jobs: seq<Job>, step: Step, now: Time, i: nat) {
    i < |jobs| ==>
      && !(step.SucceedStep? && step.id == jobs[i].id)
      && !(step.RequeueStep? && step.dedupe == jobs[i].dedupe)
      && (step.FailStep? && step.id == jobs[i].id ==>
            jobs[i].status == Running && step.attempts == jobs[i].attempts && step.maxAttempts == jobs[i].maxAttempts)
      && (step.ClaimStep? ==> !Expired(jobs[i], now))
  }

  /** The row of a failing job tells how often it was claimed, and how long it waits. */
  ghost predicate Counted(j: Job, claims: nat) {
    && j.attempts == claims <= j.maxAttempts
    && (j.status == Running ==> claims > 0)
    && (j.status == Pending ==> claims < j.maxAttempts)
    && (j.status == Failed ==> claims == j.maxAttempts)
    && j.status != Succeeded
  }

  /** Under a single holder a job that keeps failing is claimed at most `max_attempts`
      times and is FAILED exactly after the failure of the last of these claims. */
  lemma {:induction false} FailsOnTheLastAttempt(
    states: seq<seq<Job>>, steps: seq<Step>, times: seq<Time>, settings: Settings, i: nat, n: nat)
    requires History(states, steps, times, settings) && Distinct(states[0]) && n <= |steps|
    requires i < |states[0]| && states[0][i].status == Pending && states[0][i].attempts == 0
    requires states[0][i].maxAttempts >= 1
    requires forall m :: 0 <= m < |steps| ==> SingleHolder(states[m], steps[m], times[m], i)
    ensures i < |states[n]| && states[n][i].maxAttempts == states[0][i].maxAttempts
    ensures Counted(states[n][i], Claims(steps[..n], i))
    decreases n
  {
    if n == 0 {
      assert steps[..0] == [];
    } else {
      FailsOnTheLastAttempt(states, steps, times, settings, i, n - 1);
      OneJobPerKey(states, steps, times, settings, 0, n - 1);
      MoveKeepsRows(states[n - 1], steps[n - 1], times[n - 1], states[n], settings);
      assert steps[..n][..n - 1] == steps[..n - 1] && steps[..n][n - 1] == steps[n - 1];
      CountedStep(states[n - 1], steps[n - 1], times[n - 1], states[n], settings, i, Claims(steps[..n - 1], i));
    }
  }

  lemma CountedStep(jobs: seq<Job>, step: Step, now: Time, after: seq<Job>, settings: Settings, i: nat, claims: nat)
    requires Moves(jobs, step, now, after, settings) && SingleHolder(jobs, step, now, i)
    requires i < |jobs| && i < |after| && Counted(jobs[i], claims)
    ensures Counted(after[i], claims + if ClaimsRow(step, i) then 1 else 0)
    ensures step.FailStep? && step.id == jobs[i].id ==>
              after[i].nextAttempt == now + Delay(settings.maxRetryDelay, claims)
              && (after[i].status == Failed <==> claims == jobs[i].maxAttempts)
  {
    if step.ClaimStep? {
      assert ExpireAll(jobs, now)[i] == jobs[i];
    }
  }

  /* ---- When `max_attempts` is exceeded ---- */

  /** Failures of row i are the current holder's own, and nobody requeues it; leases may run out. */
  ghost predicate OwnFailures(jobs: seq<Job>, step: Step, i: nat) {
    i < |jobs| ==>
      && !(step.RequeueStep? && step.dedupe == jobs[i].dedupe)
      && (step.FailStep? && step.id == jobs[i].id ==>
            jobs[i].status == Running && step.attempts == jobs[i].attempts && step.maxAttempts == jobs[i].maxAttempts)
  }

  /** A claim that finds the lease of the last permitted attempt run out. */
  predicate ExpiresLast(jobs: seq<Job>, step: Step, now: Time, i: nat) {
    step.ClaimStep? && i < |jobs| && Expired(jobs[i], now) && jobs[i].attempts >= jobs[i].maxAttempts
  }

  /** Whether row i waits in the queue with attempts left, or is out of it. */
  predicate Within(j: Job) { j.attempts <= j.maxAttempts && (j.status == Pending ==> j.attempts < j.maxAttempts) }

  /** No step but a claim of the row counts an attempt, no claim asks for the bound, and only the
      expiry of the last permitted attempt brings the row back to the queue without attempts left. */
  lemma AttemptsStep(jobs: seq<Job>, step: Step, now: Time, after: seq<Job>, settings: Settings, i: nat)
    requires Moves(jobs, step, now, after, settings) && OwnFailures(jobs, step, i) && i < |jobs| <= |after|
    ensures after[i].attempts == jobs[i].attempts + if ClaimsRow(step, i) then 1 else 0
    ensures ClaimsRow(step, i) ==> jobs[i].status == Pending || Expired(jobs[i], now)
    ensures Within(jobs[i]) ==> (Within(after[i]) <==> !ExpiresLast(jobs, step, now, i))
    ensures jobs[i].attempts >= jobs[i].maxAttempts && ClaimsRow(step, i) ==> after[i].attempts > after[i].maxAttempts
  {
    if step.ClaimStep? {
      assert ExpireAll(jobs, now)[i] == ExpireRow(jobs[i], now);
    }
  }

  /** Some claim expired the last permitted attempt of row i, and that claim or a later one took the row. */
  ghost predicate ExpiredAndClaimed(states: seq<seq<Job>>, steps: seq<Step>, times: seq<Time>, i: nat, n: nat)
    requires n <= |steps| == |times| && |states| == |steps| + 1
  {
    exists m, k :: 0 <= m <= k < n && ExpiresLast(states[m], steps[m], times[m], i) && ClaimsRow(steps[k], i)
  }

  /** Over every history in which only the holder reports failures of a job and nobody requeues it,
      whoever else succeeds and however often leases run out: `max_attempts` is exceeded if and only
      if the lease of the last permitted attempt ran out and the row was claimed again. */
  lemma {:induction false} AttemptsExceedExactly(
    states: seq<seq<Job>>, steps: seq<Step>, times: seq<Time>, settings: Settings, i: nat, n: nat)
    requires History(states, steps, times, settings) && Distinct(states[0]) && n <= |steps|
    requires i < |states[0]| && Within(states[0][i])
    requires forall m :: 0 <= m < n ==> OwnFailures(states[m], steps[m], i)
    ensures i < |states[n]|
    ensures states[n][i].attempts > states[n][i].maxAttempts <==> ExpiredAndClaimed(states, steps, times, i, n)
    ensures !Within(states[n][i]) ==> exists m :: 0 <= m < n && ExpiresLast(states[m], steps[m], times[m], i)
    ensures forall m :: 0 <= m < n && ExpiresLast(states[m], steps[m], times[m], i) ==>
              states[n][i].attempts >= states[n][i].maxAttempts
    decreases n
  {
    if n > 0 {
      var before, step, now := states[n - 1], steps[n - 1], times[n - 1];
      AttemptsExceedExactly(states, steps, times, settings, i, n - 1);
      OneJobPerKey(states, steps, times, settings, 0, n - 1);
      MoveKeepsRows(before, step, now, states[n], settings);
      AttemptsStep(before, step, now, states[n], settings, i);
      LastClaim(states, steps, times, i, n);
    }
  }

  lemma LastClaim(states: seq<seq<Job>>, steps: seq<Step>, times: seq<Time>, i: nat, n: nat)
    requires 0 < n <= |steps| == |times| && |states| == |steps| + 1
    ensures ExpiredAndClaimed(states, steps, times, i, n) <==>
              || ExpiredAndClaimed(states, steps, times, i, n - 1)
              || (ClaimsRow(steps[n - 1], i) && exists m :: 0 <= m < n && ExpiresLast(states[m], steps[m], times[m], i))
  {
  }

  /** Such a history exists for every job and lease: after the last permitted claim of the only job
      in the queue, the next claim that finds the lease run out exceeds the bound. */
  lemma ExpiryExceedsMaxAttempts(j: Job, settings: Settings, now: Time, lease: nat)
    requires Ready(j, now) && j.attempts + 1 == j.maxAttempts
    ensures
      var again := now + Max(1, lease);
      var c1 := ClaimRow(j, now, lease);
      var c2 := ClaimRow(ExpireRow(c1, again), again, lease);
      var claim := ClaimStep(Some(0), lease);
      History([[j], [c1], [c2]], [claim, claim], [now, again], settings) && c2.attempts == j.maxAttempts + 1
  {
    var again := now + Max(1, lease);
    var c1 := ClaimRow(j, now, lease);
    ClaimOnlyJob(j, settings, now, lease);
    ClaimOnlyJob(c1, settings, again, lease);
  }

  lemma ClaimOnlyJob(j: Job, settings: Settings, now: Time, lease: nat)
    requires Ready(ExpireRow(j, now), now)
    ensures Moves([j], ClaimStep(Some(0), lease), now, [ClaimRow(ExpireRow(j, now), now, lease)], settings)
  {
    assert ExpireAll([j], now) == [ExpireRow(j, now)];
  }

  /* ---- When a finished job is reopened ---- */

  predicate LateFailure(jobs: seq<Job>, step: Step, i: nat) {
    step.FailStep? && i < |jobs| && step.id == jobs[i].id
  }

  lemma SucceededStep(jobs: seq<Job>, step: Step, now: Time, after: seq<Job>, settings: Settings, i: nat)
    requires Moves(jobs, step, now, after, settings) && i < |jobs| <= |after| && jobs[i].status == Succeeded
    ensures after[i].status == Succeeded <==> !LateFailure(jobs, step, i)
    ensures LateFailure(jobs, step, i) ==>
              after[i].status == if step.attempts >= step.maxAttempts then Failed else Pending
  {
    if step.ClaimStep? {
      assert ExpireAll(jobs, now)[i] == jobs[i];
    }
  }

  /** A job that has succeeded stays so over a history if and only if nobody reports a failure
      of it any more; `fail` never looks at the status. */
  lemma {:induction false} SuccessLastsExactly(
    states: seq<seq<Job>>, steps: seq<Step>, times: seq<Time>, settings: Settings, i: nat, a: nat, b: nat)
    requires History(states, steps, times, settings) && Distinct(states[0]) && a <= b <= |steps|
    requires i < |states[a]| && states[a][i].status == Succeeded
    ensures (forall m :: a <= m <= b ==> i < |states[m]| && states[m][i].status == Succeeded) <==>
            (forall m :: a <= m < b ==> !LateFailure(states[m], steps[m], i))
    decreases b
  {
    if b > a {
      SuccessLastsExactly(states, steps, times, settings, i, a, b - 1);
      OneJobPerKey(states, steps, times, settings, a, b - 1);
      OneJobPerKey(states, steps, times, settings, a, b);
      if states[b - 1][i].status == Succeeded {
        SucceededStep(states[b - 1], steps[b - 1], times[b - 1], states[b], settings, i);
      }
    }
  }

  /** A history in which it happens, for every job with a second attempt: it is queued and claimed,
      its lease runs out and it is claimed again, the new holder succeeds, and then the failure
      report of the first holder puts it back into the queue. */
  lemma StaleFailureRevivesJob(spec: JobSpec, id: JobId, settings: Settings, now: Time, lease: nat)
    requires NewJob(spec, id, now, settings.defaultMaxAttempts).maxAttempts > 1
    ensures
      var again := now + Max(1, lease);
      var j := NewJob(spec, id, now, settings.defaultMaxAttempts);
      var c1 := ClaimRow(j, now, lease);
      var c2 := ClaimRow(ExpireRow(c1, again), again, lease);
      var claim := ClaimStep(Some(0), lease);
      var revived := FailRow(SucceedRow(c2), c1.attempts, c1.maxAttempts, again, settings.maxRetryDelay);
      && History([[], [j], [c1], [c2], [SucceedRow(c2)], [revived]],
                 [EnqueueStep(spec, id), claim, claim, SucceedStep(id), FailStep(id, c1.attempts, c1.maxAttempts)],
                 [now, now, again, again, again], settings)
      && revived.status == Pending
  {
    var again := now + Max(1, lease);
    var j := NewJob(spec, id, now, settings.defaultMaxAttempts);
    var c1 := ClaimRow(j, now, lease);
    var c2 := ClaimRow(ExpireRow(c1, again), again, lease);
    ClaimOnlyJob(j, settings, now, lease);
    ClaimOnlyJob(c1, settings, again, lease);
    SettleOnlyJob(c2, settings, again, c1.attempts, c1.maxAttempts);
    SettleOnlyJob(SucceedRow(c2), settings, again, c1.attempts, c1.maxAttempts);
    assert [] + [j] == [j];
    assert Moves([], EnqueueStep(spec, id), now, [j], settings);
  }

  lemma SettleOnlyJob(j: Job, settings: Settings, now: Time, attempts: nat, maxAttempts: nat)
    ensures Moves([j], SucceedStep(j.id), now, [SucceedRow(j)], settings)
    ensures Moves([j], FailStep(j.id, attempts, maxAttempts), now,
                  [FailRow(j, attempts, maxAttempts, now, settings.maxRetryDelay)], settings)
  {
    assert MapRows([j], j.id, (k: Job) => SucceedRow(k)) == [SucceedRow(j)];
    var f := (k: Job) => FailRow(k, attempts, maxAttempts, now, settings.maxRetryDelay);
    assert MapRows([j], j.id, f) == [f(j)];
  }
}
