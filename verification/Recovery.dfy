/** Start-up reconciliation of executions, checkpoints and cleanup jobs
    (src/core/maintenance/recovery.py, src/core/state/execution_checkpoints.py). */
module Recovery {
  import opened Common
  import E = Executions
  import R = ExecutionRuns
  import M = Maintenance

  type ThreadId = nat

  const CHECKPOINT_CLEANUP_PRIORITY := 100

  /** Any injective rendering of an execution id. */
  function IdText(e: E.ExecutionId): string { seq(e, _ => '1') }

  function CleanupKey(e: E.ExecutionId): string { "checkpoint_cleanup:" + IdText(e) }

  lemma CleanupKeyIsInjective(d: E.ExecutionId, e: E.ExecutionId)
    ensures CleanupKey(d) == CleanupKey(e) ==> d == e
  {
    assert |CleanupKey(d)| == |"checkpoint_cleanup:"| + d;
    assert |CleanupKey(e)| == |"checkpoint_cleanup:"| + e;
  }

  function CleanupSpec(e: E.ExecutionId): M.JobSpec {
    M.JobSpec(CleanupKey(e), "checkpoint_cleanup", CHECKPOINT_CLEANUP_PRIORITY, None)
  }

  /** A released execution whose checkpoint has not been cleaned. */
  predicate NeedsCleanup(row: E.Execution) {
    (row.status == E.Completed || row.status == E.Discarded) && row.checkpoint != E.Cleaned
  }

  function ReconciledRow(row: E.Execution, threads: set<ThreadId>): E.Execution {
    if !E.Active(row.status) then row
    else if row.thread !in threads
    then row.(status := E.UnrecoverableCheckpoint, checkpoint := E.Missing, stopReason := E.Other("checkpoint_missing"))
    else if row.status == E.Running
    then row.(status := E.PausedRecovery, checkpoint := E.Available, stopReason := E.Other("core_restarted"))
    else row
  }

  datatype Outcome = PausedForRecovery | CheckpointMissing | CleanupQueued | Untouched

  function OutcomeFor(row: E.Execution, threads: set<ThreadId>): Outcome {
    if E.Active(row.status) then
      if row.thread !in threads then CheckpointMissing
      else if row.status == E.Running then PausedForRecovery
      else Untouched
    else if NeedsCleanup(row) then CleanupQueued
    else Untouched
  }

  /** What reconciliation reports. */
  datatype Counts = Counts(paused: nat, missing: nat, scheduled: nat)
  {
    function Bump(outcome: Outcome): Counts {
      match outcome
      case PausedForRecovery => this.(paused := paused + 1)
      case CheckpointMissing => this.(missing := missing + 1)
      case CleanupQueued => this.(scheduled := scheduled + 1)
      case Untouched => this
    }
  }

  /** How many executions meet which fate. */
  function Tally(rows: seq<E.Execution>, threads: set<ThreadId>): Counts {
    if rows == [] then Counts(0, 0, 0)
    else Tally(rows[..|rows| - 1], threads).Bump(OutcomeFor(rows[|rows| - 1], threads))
  }

  /** A cleanup job for the execution is queued, running or done. */
  ghost predicate CleanupScheduled(jobs: seq<M.Job>, e: E.ExecutionId) {
    exists i :: 0 <= i < |jobs| && jobs[i].dedupe == CleanupKey(e) && jobs[i].status != M.Failed
  }

  /** Jobs are only added, and only failed ones are touched. */
  predicate KeepsHealthy(older: seq<M.Job>, jobs: seq<M.Job>) {
    |older| <= |jobs| && forall i :: 0 <= i < |older| && older[i].status != M.Failed ==> jobs[i] == older[i]
  }

  /** What reconciliation establishes. */
  ghost predicate Consistent(t: E.Tables, jobs: seq<M.Job>, threads: set<ThreadId>) {
    forall e :: 0 <= e < |t.executions| ==>
      && t.executions[e].status != E.Running
      && (E.Active(t.executions[e].status) ==> t.executions[e].thread in threads)
      && (NeedsCleanup(t.executions[e]) ==> CleanupScheduled(jobs, e))
  }

  /** Reconciling twice changes no execution row a second time. */
  lemma ReconcilingIsIdempotent(row: E.Execution, threads: set<ThreadId>)
    ensures ReconciledRow(ReconciledRow(row, threads), threads) == ReconciledRow(row, threads)
    ensures ReconciledRow(row, threads).status != E.Running
    ensures E.Active(ReconciledRow(row, threads).status) ==> ReconciledRow(row, threads).thread in threads
    ensures NeedsCleanup(ReconciledRow(row, threads)) <==> NeedsCleanup(row)
  {
  }

  /** Reconciliation changes exactly the active rows that were running or have lost their checkpoint
      thread, and of these nothing but status, checkpoint and stop reason. */
  lemma ReconciledExactly(row: E.Execution, threads: set<ThreadId>)
    ensures ReconciledRow(row, threads) != row ==> E.Active(row.status)
    ensures E.Active(row.status) && row.thread !in threads ==>
              ReconciledRow(row, threads).status == E.UnrecoverableCheckpoint && ReconciledRow(row, threads).checkpoint == E.Missing
    ensures row.thread in threads && row.status == E.Running ==>
              ReconciledRow(row, threads).status == E.PausedRecovery && ReconciledRow(row, threads).checkpoint == E.Available
    ensures row.thread in threads && row.status != E.Running ==> ReconciledRow(row, threads) == row
    ensures
      ReconciledRow(row, threads).(status := row.status, checkpoint := row.checkpoint, stopReason := row.stopReason) == row
  {
  }

  /** A cleaned checkpoint needs no cleanup any more; nothing else about the execution changes. */
  lemma CleanedIsDone(t: E.Tables, e: E.ExecutionId)
    requires t.Known(e)
    ensures
      var after := t.MarkCleaned(e);
      && !NeedsCleanup(after.executions[e])
      && after.executions[e].(checkpoint := t.executions[e].checkpoint) == t.executions[e]
      && after.slices == t.slices && after.sessions == t.sessions
  {
  }

  /** The executions with a property. */
  function Having(rows: seq<E.Execution>, has: E.Execution -> bool): set<nat> {
    set i | 0 <= i < |rows| && has(rows[i])
  }

  lemma OneMoreRow(rows: seq<E.Execution>, has: E.Execution -> bool)
    requires rows != []
    ensures |Having(rows, has)| == |Having(rows[..|rows| - 1], has)| + if has(rows[|rows| - 1]) then 1 else 0
  {
    var n := |rows| - 1;
    assert Having(rows, has) == Having(rows[..n], has) + if has(rows[n]) then {n} else {};
  }

  /** The reported numbers are the numbers of executions that were interrupted, that lost their
      checkpoint, and that are released but not cleaned. */
  lemma {:induction false} TallyCounts(rows: seq<E.Execution>, threads: set<ThreadId>)
    ensures
      var interrupted := (r: E.Execution) => r.status == E.Running && r.thread in threads;
      var lost := (r: E.Execution) => E.Active(r.status) && r.thread !in threads;
      var uncleaned := (r: E.Execution) => (r.status == E.Completed || r.status == E.Discarded) && r.checkpoint != E.Cleaned;
      Tally(rows, threads) == Counts(|Having(rows, interrupted)|, |Having(rows, lost)|, |Having(rows, uncleaned)|)
  {
    var interrupted := (r: E.Execution) => r.status == E.Running && r.thread in threads;
    var lost := (r: E.Execution) => E.Active(r.status) && r.thread !in threads;
    var uncleaned := (r: E.Execution) => (r.status == E.Completed || r.status == E.Discarded) && r.checkpoint != E.Cleaned;
    if rows != [] {
      TallyCounts(rows[..|rows| - 1], threads);
      OneMoreRow(rows, interrupted);
      OneMoreRow(rows, lost);
      OneMoreRow(rows, uncleaned);
    }
  }

  /** Queueing and requeueing the job of one execution schedules the cleanup of that one and, since
      distinct executions have distinct keys, of no other. */
  lemma CleanupIsScheduled(before: seq<M.Job>, queued: seq<M.Job>, jobs: seq<M.Job>, e: E.ExecutionId)
    requires |before| <= |queued| == |jobs| && queued[..|before|] == before
    requires forall i :: |before| <= i < |queued| ==> queued[i].dedupe == CleanupKey(e)
    requires M.Queued(queued, CleanupKey(e))
    requires forall i :: 0 <= i < |jobs| ==>
               jobs[i].dedupe == queued[i].dedupe
               && (jobs[i].status == M.Failed <==> queued[i].status == M.Failed && queued[i].dedupe != CleanupKey(e))
    ensures forall d :: CleanupScheduled(jobs, d) <==> CleanupScheduled(before, d) || d == e
  {
    forall i | 0 <= i < |before| ensures queued[i] == before[i] {
      assert queued[..|before|][i] == queued[i];
    }
    forall d ensures CleanupScheduled(jobs, d) <==> CleanupScheduled(before, d) || d == e {
      CleanupKeyIsInjective(d, e);
      if d == e {
        var i :| 0 <= i < |queued| && queued[i].dedupe == CleanupKey(e);
        assert jobs[i].dedupe == CleanupKey(e) && jobs[i].status != M.Failed;
      } else if CleanupScheduled(before, d) {
        var i :| 0 <= i < |before| && before[i].dedupe == CleanupKey(d) && before[i].status != M.Failed;
        assert queued[..|before|][i] == queued[i] && jobs[i].dedupe == CleanupKey(d);
      } else {
        assert !CleanupScheduled(jobs, d);
      }
    }
  }

  class ExecutionRecoveryCoordinator {
    const executions: E.ExecutionRepository
    const maintenance: M.MaintenanceRepository

    constructor (executions: E.ExecutionRepository, maintenance: M.MaintenanceRepository)
      ensures this.executions == executions && this.maintenance == maintenance
    {
      this.executions, this.maintenance := executions, maintenance;
    }

    method ScheduleCleanup(e: E.ExecutionId, now: M.Time)
      requires M.Distinct(maintenance.jobs)
      modifies maintenance
      ensures M.Distinct(maintenance.jobs)
      ensures forall d :: CleanupScheduled(maintenance.jobs, d) <==> CleanupScheduled(old(maintenance.jobs), d) || d == e
      ensures KeepsHealthy(old(maintenance.jobs), maintenance.jobs)
    {
      ghost var before := maintenance.jobs;
      var id := maintenance.FreshId();
      var _ := maintenance.Enqueue(CleanupSpec(e), id, now);
      ghost var queued := maintenance.jobs;
      var _ := maintenance.RequeueFailed(CleanupKey(e), now);
      CleanupIsScheduled(before, queued, maintenance.jobs, e);
    }

    /** What happened to one listed execution. */
    method ReconcileOne(e: E.ExecutionId, threads: set<ThreadId>, now: M.Time) returns (outcome: Outcome)
      requires executions.State().Valid() && M.Distinct(maintenance.jobs) && e < |executions.executions|
      modifies executions, maintenance
      ensures executions.State().Valid() && M.Distinct(maintenance.jobs)
      ensures executions.slices == old(executions.slices) && executions.sessions == old(executions.sessions)
      ensures executions.executions == old(executions.executions)[e := ReconciledRow(old(executions.executions)[e], threads)]
      ensures forall d :: CleanupScheduled(maintenance.jobs, d) <==>
                CleanupScheduled(old(maintenance.jobs), d) || (d == e && NeedsCleanup(old(executions.executions)[e]))
      ensures outcome == OutcomeFor(old(executions.executions)[e], threads)
      ensures KeepsHealthy(old(maintenance.jobs), maintenance.jobs)
    {
      var row := executions.executions[e];
      outcome := Untouched;
      if E.Active(row.status) {
        R.MarksKeepValid(executions.State(), e);
        if row.thread in threads {
          if row.status == E.Running {
            executions.MarkPausedRecovery(e);
            outcome := PausedForRecovery;
          }
        } else {
          executions.MarkMissing(e);
          outcome := CheckpointMissing;
        }
      } else if NeedsCleanup(row) {
        ScheduleCleanup(e, now);
        outcome := CleanupQueued;
      }
    }

    method Reconcile(threads: set<ThreadId>, now: M.Time) returns (result: Counts)
      requires executions.State().Valid() && M.Distinct(maintenance.jobs)
      modifies executions, maintenance
      ensures executions.State().Valid() && M.Distinct(maintenance.jobs)
      ensures executions.slices == old(executions.slices) && executions.sessions == old(executions.sessions)
      ensures |executions.executions| == |old(executions.executions)|
      ensures forall e :: 0 <= e < |executions.executions| ==>
                executions.executions[e] == ReconciledRow(old(executions.executions)[e], threads)
      ensures Consistent(executions.State(), maintenance.jobs, threads)
      ensures forall e :: 0 <= e < |executions.executions| ==>
                (CleanupScheduled(maintenance.jobs, e) <==>
                   CleanupScheduled(old(maintenance.jobs), e) || NeedsCleanup(old(executions.executions)[e]))
      ensures result == Tally(old(executions.executions), threads)
      ensures KeepsHealthy(old(maintenance.jobs), maintenance.jobs)
    {
      result := Counts(0, 0, 0);
      var rows := executions.executions;
      for e := 0 to |rows|
        invariant executions.State().Valid() && M.Distinct(maintenance.jobs)
        invariant executions.slices == old(executions.slices) && executions.sessions == old(executions.sessions)
        invariant |executions.executions| == |rows|
        invariant forall d :: 0 <= d < |rows| ==>
          executions.executions[d] == if d < e then ReconciledRow(rows[d], threads) else rows[d]
        invariant forall d :: 0 <= d < |rows| ==>
          (CleanupScheduled(maintenance.jobs, d) <==>
             CleanupScheduled(old(maintenance.jobs), d) || (d < e && NeedsCleanup(rows[d])))
        invariant result == Tally(rows[..e], threads)
        invariant KeepsHealthy(old(maintenance.jobs), maintenance.jobs)
      {
        assert rows[..e + 1][..e] == rows[..e];
        var outcome := ReconcileOne(e, threads, now);
        result := result.Bump(outcome);
      }
      assert rows[..|rows|] == rows;
      ReconciledIsConsistent(executions.State(), rows, maintenance.jobs, threads);
    }
  }

  lemma ReconciledIsConsistent(t: E.Tables, rows: seq<E.Execution>, jobs: seq<M.Job>, threads: set<ThreadId>)
    requires |t.executions| == |rows|
    requires forall e :: 0 <= e < |rows| ==> t.executions[e] == ReconciledRow(rows[e], threads)
    requires forall e :: 0 <= e < |rows| && NeedsCleanup(rows[e]) ==> CleanupScheduled(jobs, e)
    ensures Consistent(t, jobs, threads)
  {
    forall e | 0 <= e < |rows|
      ensures t.executions[e].status != E.Running
      ensures E.Active(t.executions[e].status) ==> t.executions[e].thread in threads
      ensures NeedsCleanup(t.executions[e]) ==> CleanupScheduled(jobs, e)
    {
      ReconcilingIsIdempotent(rows[e], threads);
    }
  }

  /** After a start an attached execution can be resumed if and only if it was active, its
      checkpoint still exists and its policy is not terminal; every other attached one blocks its
      session until a discard. */
  lemma ResumableAfterStart(t: E.Tables, after: E.Tables, threads: set<ThreadId>, s: E.SessionId)
    requires t.Valid() && after.Valid() && after.sessions == t.sessions && |after.executions| == |t.executions|
    requires forall e :: 0 <= e < |t.executions| ==> after.executions[e] == ReconciledRow(t.executions[e], threads)
    requires s in t.sessions && t.sessions[s].pending.Some?
    ensures
      var row := t.executions[t.sessions[s].pending.value];
      R.Resumable(after, s) <==> E.Active(row.status) && row.thread in threads && row.policy != E.Terminal
  {
    R.ResumableExactly(after, s, false);
  }

  /** A crash right after the intermediate slice of a goal review was closed leaves the
      execution COMPLETED but attached.  Reconciliation keeps it, schedules the cleanup of the
      checkpoint it would need, and the session can neither begin nor resume until a discard. */
  lemma CrashInGoalContinuationStrandsSession(
    t: E.Tables, s: E.SessionId, e: E.ExecutionId, id: E.SliceId, steps: nat, usage: E.Usage, threads: set<ThreadId>)
    requires t.Valid() && R.OpenSlice(t, id, e) && t.executions[e].session == s && t.executions[e].checkpoint != E.Cleaned
    ensures
      var closed := t.FinishSlice(id, e, E.Completed, E.Other("goal_continuation"), steps, usage);
      && closed.Valid()
      && ReconciledRow(closed.executions[e], threads) == closed.executions[e] && NeedsCleanup(closed.executions[e])
      && (forall goal :: closed.Begin(s, goal).None?)
      && (forall value, retry :: closed.Refusal(s, value, retry) == Some(E.CheckpointUnavailable))
      && closed.Discard(s).Some? && closed.Discard(s).value.GetAttached(s).None?
  {
    R.FinishSliceKeepsValid(t, id, e, E.Completed, E.Other("goal_continuation"), steps, usage);
    var closed := t.FinishSlice(id, e, E.Completed, E.Other("goal_continuation"), steps, usage);
    assert closed.GetAttached(s) == Some(e);
    R.SettleKeepsValid(closed, s, e, E.Discarded, E.Other("discarded"));
  }

  /** A slice that stops for an approval or a tool decision is closed before the pause is persisted.
      A crash in between leaves the stop reason on the row but the policy of before, and start-up
      keeps the row: a plain resume is accepted, with nothing decided, if and only if that policy was
      to continue.  Behind the pause it never is. */
  lemma CrashBeforePauseKeepsThePolicy(
    t: E.Tables, s: E.SessionId, e: E.ExecutionId, id: E.SliceId, reason: E.StopReason, steps: nat, usage: E.Usage,
    fingerprint: string, threads: set<ThreadId>)
    requires t.Valid() && R.OpenSlice(t, id, e) && t.executions[e].session == s && t.executions[e].thread in threads
    requires reason == E.ToolApproval || reason == E.ToolRecoveryRequired
    ensures
      var closed := t.FinishSlice(id, e, E.PauseStatus(reason), reason, steps, usage);
      && closed.Valid()
      && ReconciledRow(closed.executions[e], threads) == closed.executions[e]
      && closed.executions[e].stopReason == reason
      && (closed.Refusal(s, None, false).None? <==> t.executions[e].policy == E.Continue)
      && closed.Pause(e, E.PauseStatus(reason), reason, fingerprint, usage).Refusal(s, None, false).Some?
  {
    R.FinishSliceKeepsValid(t, id, e, E.PauseStatus(reason), reason, steps, usage);
    var closed := t.FinishSlice(id, e, E.PauseStatus(reason), reason, steps, usage);
    assert closed.GetPending(s) == Some(e);
    R.AfterPause(closed, s, e, E.PauseStatus(reason), reason, fingerprint, usage);
  }
}
