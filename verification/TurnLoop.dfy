/** The bounded foreground loop of one turn or resume grant, with its tables
    (src/core/agent/loop.py, slices.py, loop_errors.py, loop_pause.py). */
module TurnLoop {
  import opened Common
  import opened Executions
  import opened ExecutionRuns
  import opened GraphStream
  import opened TurnScript

  /** The tables `t` in the middle of a turn that started from `base`: only this
      execution and its new slices have changed, the new slices are numbered from 1,
      and all of them are closed once, except possibly the last. */
  ghost predicate Turn(t: Tables, base: Tables, e: ExecutionId, open: bool) {
    && t.Valid() && base.Known(e)
    && |t.executions| == |base.executions|
    && (forall d :: 0 <= d < |t.executions| && d != e ==> t.executions[d] == base.executions[d])
    && t.executions[e].session == base.executions[e].session
    && t.executions[e].grantIndex == base.executions[e].grantIndex
    && t.executions[e].goalMode == base.executions[e].goalMode
    && |base.slices| <= |t.slices| && t.slices[..|base.slices|] == base.slices
    && (open ==> |base.slices| < |t.slices| && t.executions[e].status == Running)
    && (forall i :: |base.slices| <= i < |t.slices| ==>
          && t.slices[i].execution == e
          && t.slices[i].grant == base.executions[e].grantIndex
          && t.slices[i].index == i - |base.slices| + 1
          && t.slices[i].closings == if open && i == |t.slices| - 1 then 0 else 1)
  }

  ghost predicate Attachment(t: Tables, base: Tables, e: ExecutionId) {
    t.sessions == base.sessions && t.Attached(e)
  }

  /** A turn that is under way: the execution is attached, and nothing was paused in it yet. */
  ghost predicate Ongoing(t: Tables, base: Tables, e: ExecutionId, open: bool) {
    Turn(t, base, e, open) && Attachment(t, base, e) && SameFingerprint(base.executions[e], t.executions[e])
  }

  /** The row of a pause that follows the pauses recorded in `was`. */
  predicate PausedAs(row: Execution, was: Execution, status: Status, reason: StopReason, fingerprint: string, usage: Usage) {
    var again := was.fingerprint == fingerprint;
    var stuck := again && PolicyFor(reason) == Continue;
    && row.stopReason == reason && row.fingerprint == fingerprint && row.usage == usage
    && row.checkpoint == Available && row.repeated == (if again then was.repeated + 1 else 0)
    && row.policy == (if stuck then ConditionRequired else PolicyFor(reason))
    && row.status == (if stuck then PausedRecovery else status)
  }

  /** The row of a pause after an exception. */
  predicate PausedByFault(row: Execution, was: Execution, fault: Fault, usage: Usage) {
    if fault.kind == CompactionRequired
    then PausedAs(row, was, PausedRecovery, ContextCompactionRequired,
                  DefaultFingerprint(ContextCompactionRequired, fault.message), usage)
    else PausedAs(row, was, PausedError, TurnError, DefaultFingerprint(TurnError, fault.message), usage)
  }

  /** The row of an execution at the end of a turn that was left like this, its last words being `last`. */
  predicate Concluded(row: Execution, was: Execution, exit: Exit, last: Event, usage: Usage) {
    match exit
    case OutOfSlices(reason, checkpoint, cursor) =>
      PausedAs(row, was, PauseStatus(reason), reason, JoinParts([Name(reason), checkpoint, cursor]), usage)
    case Raised(fault, _) => PausedByFault(row, was, fault, usage)
    case Returned =>
      match last
      case TurnCompleted(_) => row.status == Completed && row.stopReason == CompletedReason && row.usage == usage
      case TurnTerminated(category) => row.status == Discarded && row.stopReason == category
      case SliceError(reason, message) =>
        PausedAs(row, was, PausedError, reason, DefaultFingerprint(reason, message), usage)
      case _ => false
  }

  /** Graph steps a slice reports for itself. */
  function Steps(ending: Ending): nat {
    match ending
    case PausedEnd(_, steps, _, _) => steps
    case ErrorEnd(_, steps, _, _, _) => steps
    case DoneEnd(steps) => steps
    case RaisedEnd(_) => 0
  }

  /** Graph steps of the first `n` slices. */
  function Spent(env: nat -> Round, n: nat): nat {
    if n == 0 then 0 else Spent(env, n - 1) + Steps(env(n).ending)
  }

  /** Nothing has run yet in the current grant of this execution. */
  predicate FreshGrant(t: Tables, e: ExecutionId) {
    t.Known(e) && forall i :: 0 <= i < |t.slices| ==>
      t.slices[i].execution != e || t.slices[i].grant != t.executions[e].grantIndex
  }

  lemma StartInTurn(t: Tables, base: Tables, e: ExecutionId)
    requires Ongoing(t, base, e, false) && FreshGrant(base, e)
    ensures
      var r := t.StartSlice(e, base.executions[e].grantIndex, |t.slices| - |base.slices| + 1);
      && r.Some? && Ongoing(r.value, base, e, true)
  {
    var grant, index := base.executions[e].grantIndex, |t.slices| - |base.slices| + 1;
    forall i | 0 <= i < |t.slices|
      ensures t.slices[i].execution != e || t.slices[i].grant != grant || t.slices[i].index != index
    {
      if i < |base.slices| {
        assert t.slices[i] == t.slices[..|base.slices|][i];
      }
    }
    StartSliceKeepsValid(t, e, index);
    var after := t.StartSlice(e, grant, index).value;
    assert after.slices[..|base.slices|] == t.slices[..|base.slices|];
  }

  lemma CloseInTurn(t: Tables, base: Tables, e: ExecutionId, status: Status, reason: StopReason, steps: nat, usage: Usage)
    requires Ongoing(t, base, e, true)
    ensures
      var after := t.FinishSlice(|t.slices| - 1, e, status, reason, steps, usage);
      Ongoing(after, base, e, false) && after.executions[e].status == status
  {
    FinishSliceKeepsValid(t, |t.slices| - 1, e, status, reason, steps, usage);
    var after := t.FinishSlice(|t.slices| - 1, e, status, reason, steps, usage);
    assert after.slices[..|base.slices|] == t.slices[..|base.slices|];
  }

  lemma PauseInTurn(t: Tables, base: Tables, e: ExecutionId, status: Status, reason: StopReason, fingerprint: string, usage: Usage)
    requires Ongoing(t, base, e, false)
    ensures
      var after := t.Pause(e, status, reason, fingerprint, usage);
      Turn(after, base, e, false) && Attachment(after, base, e)
      && PausedAs(after.executions[e], base.executions[e], status, reason, fingerprint, usage)
  {
    PauseKeepsValid(t, e, status, reason, fingerprint, usage);
  }

  lemma CommitInTurn(t: Tables, base: Tables, e: ExecutionId, steps: nat, usage: Usage)
    requires Ongoing(t, base, e, true)
    ensures
      var s := base.executions[e].session;
      var r := t.CompleteTurn(s, e, |t.slices| - 1, steps, usage);
      && r.Some? && Turn(r.value, base, e, false) && r.value.executions[e].status == Completed
      && r.value.GetAttached(s).None?
  {
    var s := base.executions[e].session;
    CompleteTurnKeepsValid(t, s, e, |t.slices| - 1, steps, usage);
    var after := t.CompleteTurn(s, e, |t.slices| - 1, steps, usage).value;
    assert after.slices[..|base.slices|] == t.slices[..|base.slices|];
  }

  lemma TerminateInTurn(t: Tables, base: Tables, e: ExecutionId, reason: StopReason)
    requires Ongoing(t, base, e, false)
    ensures
      var s := base.executions[e].session;
      var r := t.Terminate(s, e, reason);
      && r.Some? && Turn(r.value, base, e, false) && r.value.executions[e].status == Discarded
      && r.value.GetAttached(s).None?
  {
    SettleKeepsValid(t, base.executions[e].session, e, Discarded, reason);
  }

  /** The tables after slice `number`: opened, and closed again unless the graph is done. */
  function SliceTables(t: Tables, e: ExecutionId, number: nat, round: Round): Tables
    requires t.Known(e) && t.StartSlice(e, t.executions[e].grantIndex, number).Some?
  {
    var begun := t.StartSlice(e, t.executions[e].grantIndex, number).value;
    match round.ending
    case PausedEnd(reason, steps, _, _) =>
      begun.FinishSlice(|t.slices|, e, PauseStatus(reason), reason, steps, round.usage)
    case ErrorEnd(reason, steps, _, _, _) => begun.FinishSlice(|t.slices|, e, PausedError, reason, steps, round.usage)
    case RaisedEnd(fault) =>
      if fault.kind == CompactionRequired
      then begun.FinishSlice(|t.slices|, e, PausedRecovery, ContextCompactionRequired, 0, round.usage)
      else begun.FinishSlice(|t.slices|, e, PausedError, TurnError, 0, round.usage)
    case _ => begun
  }

  /** What a slice leaves in the tables: one new row that is open exactly if the graph is done, and
      otherwise has the steps, reason and status of its ending, as the execution has; an approval waits
      for confirmation, a recovery decision and a compaction for recovery, every other pause for
      budget, and anything else is an error. */
  lemma SliceIsRecorded(t: Tables, e: ExecutionId, number: nat, round: Round)
    requires t.Known(e) && t.StartSlice(e, t.executions[e].grantIndex, number).Some?
    ensures
      var after, ending := SliceTables(t, e, number, round), round.ending;
      && |after.slices| == |t.slices| + 1 && after.slices[..|t.slices|] == t.slices && after.sessions == t.sessions
      && var slice, row := after.slices[|t.slices|], after.executions[e];
         && slice.execution == e && slice.grant == t.executions[e].grantIndex && slice.index == row.sliceIndex == number
         && slice.status == row.status
         && (slice.status == Running <==> ending.DoneEnd?)
         && (slice.status == PausedConfirmation <==> ending.PausedEnd? && ending.reason == ToolApproval)
         && (slice.status == PausedRecovery <==>
               || (ending.PausedEnd? && ending.reason == ToolRecoveryRequired)
               || (ending.RaisedEnd? && ending.fault.kind == CompactionRequired))
         && (slice.status == PausedBudget <==>
               ending.PausedEnd? && ending.reason != ToolApproval && ending.reason != ToolRecoveryRequired)
         && (slice.status == PausedError <==>
               ending.ErrorEnd? || (ending.RaisedEnd? && ending.fault.kind != CompactionRequired))
         && slice.closings == (if ending.DoneEnd? then 0 else 1)
         && (!ending.DoneEnd? ==>
               && slice.graphSteps == Steps(ending) && row.graphSteps == t.executions[e].graphSteps + Steps(ending)
               && row.usage == round.usage && slice.stopReason == row.stopReason)
         && (ending.PausedEnd? || ending.ErrorEnd? ==> slice.stopReason == ending.reason)
         && (ending.RaisedEnd? ==>
               slice.stopReason == if ending.fault.kind == CompactionRequired then ContextCompactionRequired else TurnError)
  {
  }

  class TurnExecutionLoop {
    const store: ExecutionRepository
    const maxAutoSlices: nat
    const hasTaskService: bool

    /** The turn is under way. */
    ghost predicate Midway(base: Tables, e: ExecutionId, open: bool)
      reads store
    {
      Ongoing(store.State(), base, e, open)
    }

    /** The turn is over and the execution still attached. */
    ghost predicate Paused(base: Tables, e: ExecutionId)
      reads store
    {
      Turn(store.State(), base, e, false) && Attachment(store.State(), base, e)
    }

    constructor (store: ExecutionRepository, maxAutoSlices: int, hasTaskService: bool)
      ensures this.store == store && this.maxAutoSlices == Max(1, maxAutoSlices) && this.hasTaskService == hasTaskService
    {
      this.store, this.maxAutoSlices, this.hasTaskService := store, Max(1, maxAutoSlices), hasTaskService;
    }

    method OpenSlice(e: ExecutionId, number: nat, ghost base: Tables) returns (id: SliceId)
      requires Midway(base, e, false) && FreshGrant(base, e)
      requires number == |store.slices| - |base.slices| + 1
      modifies store
      ensures id == old(|store.slices|) && |store.slices| == id + 1
      ensures Midway(base, e, true)
      ensures var r := old(store.State()).StartSlice(e, old(store.executions[e].grantIndex), number);
              r.Some? && store.State() == r.value
      ensures store.executions[e].graphSteps == old(store.executions[e].graphSteps)
    {
      StartInTurn(store.State(), base, e);
      var started := store.StartSlice(e, store.executions[e].grantIndex, number);
      id := started.value;
    }

    method CloseSlice(id: SliceId, e: ExecutionId, status: Status, reason: StopReason, steps: nat, usage: Usage, ghost base: Tables)
      requires Midway(base, e, true)
      requires id == |store.slices| - 1
      modifies store
      ensures |store.slices| == old(|store.slices|)
      ensures Midway(base, e, false)
      ensures store.State() == old(store.State()).FinishSlice(id, e, status, reason, steps, usage)
      ensures store.executions[e].graphSteps == old(store.executions[e].graphSteps) + steps
    {
      CloseInTurn(store.State(), base, e, status, reason, steps, usage);
      store.FinishSlice(id, e, status, reason, steps, usage);
    }

    /** `stream_slice`: opens one slice, streams the graph and closes the slice again, unless the graph
        is done. */
    method StreamSlice(e: ExecutionId, number: nat, round: Round, ghost base: Tables) returns (id: SliceId)
      requires Midway(base, e, false) && FreshGrant(base, e)
      requires number == |store.slices| - |base.slices| + 1
      modifies store
      ensures id == old(|store.slices|) && |store.slices| == id + 1
      ensures Midway(base, e, round.ending.DoneEnd?)
      ensures store.executions[e].graphSteps ==
              old(store.executions[e].graphSteps) + if round.ending.DoneEnd? then 0 else Steps(round.ending)
      ensures old(store.State()).StartSlice(e, old(store.executions[e].grantIndex), number).Some?
              && store.State() == SliceTables(old(store.State()), e, number, round)
    {
      id := OpenSlice(e, number, base);
      match round.ending
      case PausedEnd(reason, steps, _, _) =>
        CloseSlice(id, e, PauseStatus(reason), reason, steps, round.usage, base);
      case ErrorEnd(reason, steps, _, _, _) =>
        CloseSlice(id, e, PausedError, reason, steps, round.usage, base);
      case RaisedEnd(fault) =>
        if fault.kind == CompactionRequired {
          CloseSlice(id, e, PausedRecovery, ContextCompactionRequired, 0, round.usage, base);
        } else {
          CloseSlice(id, e, PausedError, TurnError, 0, round.usage, base);
        }
      case _ =>
    }

    /** `stream_slice_error`: releases the session after a deterministic provider error, else pauses. */
    method StreamSliceError(e: ExecutionId, ending: Ending, usage: Usage, ghost base: Tables) returns (event: Event)
      requires ending.ErrorEnd? && Midway(base, e, false)
      modifies store
      ensures Turn(store.State(), base, e, false)
      ensures store.slices == old(store.slices)
      ensures event == if ending.terminate then TurnTerminated(ending.category) else SliceError(ending.reason, ending.message)
      ensures store.executions[e].graphSteps == old(store.executions[e].graphSteps)
      ensures Concluded(store.executions[e], base.executions[e], Returned, event, usage)
      ensures ending.terminate ==> store.executions[e].status == Discarded
                                   && store.State().GetAttached(base.executions[e].session).None?
      ensures !ending.terminate ==> Attachment(store.State(), base, e)
      ensures !ending.terminate ==>
                store.State() == old(store.State()).Pause(e, PausedError, ending.reason,
                                                          DefaultFingerprint(ending.reason, ending.message), usage)
    {
      if ending.terminate {
        TerminateInTurn(store.State(), base, e, ending.category);
        var _ := store.Terminate(store.executions[e].session, e, ending.category);
        return TurnTerminated(ending.category);
      }
      var fingerprint := DefaultFingerprint(ending.reason, ending.message);
      PauseInTurn(store.State(), base, e, PausedError, ending.reason, fingerprint, usage);
      store.Pause(e, PausedError, ending.reason, fingerprint, usage);
      event := SliceError(ending.reason, ending.message);
    }

    /** The three exception exits: close the slice that is still bound, then pause. */
    method StreamException(e: ExecutionId, fault: Fault, active: Option<SliceId>, usage: Usage, ghost base: Tables)
      returns (event: Event)
      requires Midway(base, e, active.Some?)
      requires active.Some? ==> active.value == |store.slices| - 1
      modifies store
      ensures Paused(base, e)
      ensures |store.slices| == old(|store.slices|)
      ensures store.executions[e].graphSteps == old(store.executions[e].graphSteps)
      ensures PausedByFault(store.executions[e], base.executions[e], fault, usage)
      ensures event == FaultEvent(fault)
    {
      var compaction := fault.kind == CompactionRequired;
      var status := if compaction then PausedRecovery else PausedError;
      var reason := if compaction then ContextCompactionRequired else TurnError;
      if active.Some? {
        CloseSlice(active.value, e, status, reason, 0, usage, base);
      }
      var fingerprint := DefaultFingerprint(reason, fault.message);
      PauseInTurn(store.State(), base, e, status, reason, fingerprint, usage);
      store.Pause(e, status, reason, fingerprint, usage);
      event := if compaction then TurnPaused(ContextCompactionRequired) else TurnFailed(fault.message);
    }

    /** `pause_event`. */
    method PauseEvent(e: ExecutionId, reason: StopReason, checkpoint: string, cursor: string, usage: Usage, ghost base: Tables)
      returns (event: Event)
      requires Midway(base, e, false)
      modifies store
      ensures Paused(base, e)
      ensures |store.slices| == old(|store.slices|)
      ensures store.executions[e].graphSteps == old(store.executions[e].graphSteps)
      ensures PausedAs(store.executions[e], base.executions[e], PauseStatus(reason), reason,
                       JoinParts([Name(reason), checkpoint, cursor]), usage)
      ensures store.State() == old(store.State()).Pause(e, PauseStatus(reason), reason,
                                                        JoinParts([Name(reason), checkpoint, cursor]), usage)
      ensures event == TurnPaused(reason)
    {
      var fingerprint := JoinParts([Name(reason), checkpoint, cursor]);
      PauseInTurn(store.State(), base, e, PauseStatus(reason), reason, fingerprint, usage);
      store.Pause(e, PauseStatus(reason), reason, fingerprint, usage);
      event := TurnPaused(reason);
    }

    /** What follows a graph run that is done: stop hook, at most one goal review, finalisation. */
    method AfterDone(e: ExecutionId, id: SliceId, number: nat, round: Round, reviewed: bool, ghost base: Tables)
      returns (next: Next, events: seq<Event>)
      requires round.ending.DoneEnd? && id == |store.slices| - 1
      requires Midway(base, e, true)
      modifies store
      ensures |store.slices| == old(|store.slices|)
      ensures next == Decide(round, number, reviewed, base.executions[e].goalMode, maxAutoSlices, hasTaskService)
      ensures next.Review? ==> !reviewed && number < maxAutoSlices && base.executions[e].goalMode
                               && events == [GoalContinuationStarted(number)]
                               && Midway(base, e, false)
      ensures next.Review? ==>
                store.State() == old(store.State()).FinishSlice(id, e, Completed, Other("goal_continuation"),
                                                                round.ending.steps, round.usage)
      ensures next.Throw? ==> events == [] && Midway(base, e, true) && store.State() == old(store.State())
      ensures next.Finish? ==> next.event == TurnCompleted(number) && events == [next.event]
                               && Closed(store.State(), base, e, next.event)
                               && Concluded(store.executions[e], base.executions[e], Returned, next.event, round.usage)
      ensures store.executions[e].graphSteps == old(store.executions[e].graphSteps)
                                                + if next.Throw? then 0 else Steps(round.ending)
    {
      if round.stopHook.Some? {
        return Throw(round.stopHook.value, true), [];
      }
      if store.executions[e].goalMode && !reviewed && number < maxAutoSlices && hasTaskService {
        if round.unfinished.Err? {
          return Throw(round.unfinished.error, true), [];
        }
        if round.unfinished.value {
          // The execution is COMPLETED here for a moment while it is still attached.
          CloseSlice(id, e, Completed, Other("goal_continuation"), round.ending.steps, round.usage, base);
          return Review, [GoalContinuationStarted(number)];
        }
      }
      if round.finalizer.Some? {
        return Throw(round.finalizer.value, true), [];
      }
      CommitTurn(e, id, number, round, base);
      next, events := Finish(TurnCompleted(number)), [TurnCompleted(number)];
    }

    /** The finalizer's one transaction: the slice, the execution and the session are completed together. */
    method CommitTurn(e: ExecutionId, id: SliceId, number: nat, round: Round, ghost base: Tables)
      requires round.ending.DoneEnd? && id == |store.slices| - 1
      requires Midway(base, e, true)
      modifies store
      ensures |store.slices| == old(|store.slices|)
      ensures Closed(store.State(), base, e, TurnCompleted(number))
      ensures Concluded(store.executions[e], base.executions[e], Returned, TurnCompleted(number), round.usage)
      ensures store.executions[e].graphSteps == old(store.executions[e].graphSteps) + Steps(round.ending)
    {
      CommitInTurn(store.State(), base, e, round.ending.steps, round.usage);
      var _ := store.CompleteTurn(store.executions[e].session, e, id, round.ending.steps, round.usage);
    }

    /** One iteration of the loop: a slice and what its ending leads to. */
    method OneSlice(e: ExecutionId, number: nat, round: Round, reviewed: bool, ghost base: Tables)
      returns (next: Next, events: seq<Event>)
      requires Midway(base, e, false) && FreshGrant(base, e)
      requires number == |store.slices| - |base.slices| + 1
      modifies store
      ensures |store.slices| == old(|store.slices|) + 1
      ensures next == Decide(round, number, reviewed, base.executions[e].goalMode, maxAutoSlices, hasTaskService)
      ensures events == Said(next, number)
      ensures Settles(store.State(), base, e, next, round.usage)
      ensures store.executions[e].graphSteps == old(store.executions[e].graphSteps) + Counted(round.ending, next)
    {
      var id := StreamSlice(e, number, round, base);
      next, events := AfterStream(e, id, number, round, reviewed, base);
    }

    /** What the ending of a streamed slice leads to. */
    method AfterStream(e: ExecutionId, id: SliceId, number: nat, round: Round, reviewed: bool, ghost base: Tables)
      returns (next: Next, events: seq<Event>)
      requires Midway(base, e, round.ending.DoneEnd?) && id == |store.slices| - 1
      modifies store
      ensures |store.slices| == old(|store.slices|)
      ensures next == Decide(round, number, reviewed, base.executions[e].goalMode, maxAutoSlices, hasTaskService)
      ensures events == Said(next, number)
      ensures Settles(store.State(), base, e, next, round.usage)
      ensures store.executions[e].graphSteps ==
              old(store.executions[e].graphSteps) + if round.ending.DoneEnd? then Counted(round.ending, next) else 0
    {
      match round.ending
      case RaisedEnd(fault) =>
        next, events := Throw(fault, false), [];
      case ErrorEnd(_, _, _, _, _) =>
        var event := StreamSliceError(e, round.ending, round.usage, base);
        next, events := Finish(event), [event];
      case DoneEnd(_) =>
        next, events := AfterDone(e, id, number, round, reviewed, base);
      case PausedEnd(given, _, checkpoint, cursor) =>
        var reason := if given == NoReason then GraphStepLimit else given;
        events := [];
        next := if reason in {BudgetLimit, ToolApproval, ToolRecoveryRequired} then Leave(reason, checkpoint, cursor)
                else if round.disconnected then Leave(ClientDisconnected, checkpoint, cursor)
                else if round.wallAfter then Leave(GrantWallTimeLimit, checkpoint, cursor)
                else Again(reason, checkpoint, cursor);
    }

    /** One slice of the loop: the turn goes on with new progress, or this is how the loop is left. */
    method Iterate(e: ExecutionId, number: nat, round: Round, p: Progress, ghost script: Script, ghost base: Tables)
      returns (next: Next, q: Progress)
      requires FreshGrant(base, e) && Matches(script, base, e) && 1 <= number <= maxAutoSlices
      requires script.env(number) == round && !round.wallBefore
      requires Between(store.State(), base, e, script, number - 1, p)
      modifies store
      ensures |store.slices| == |base.slices| + number
      ensures if GoesOn(next) then Between(store.State(), base, e, script, number, q)
              else Told(store.State(), base, e, script, ExitOf(next, |store.slices| - 1), q.events, number)
    {
      var more;
      next, more := OneSlice(e, number, round, p.reviewed, base);
      q := p.(reviewed := p.reviewed || next.Review?, events := p.events + more);
      if next.Again? {
        q := q.(reason := next.reason, checkpoint := next.checkpoint, cursor := next.cursor);
      }
      assert q == Onward(p, next, number);
      StepCounts(script, number, p, next, |store.slices| - 1);
      SettlesLeaves(store.State(), base, e, next, number, p.events, round.usage);
    }

    ghost predicate Matches(script: Script, base: Tables, e: ExecutionId) {
      && base.Known(e) && script.goalMode == base.executions[e].goalMode
      && script.limit == maxAutoSlices && script.tasks == hasTaskService
    }

    /** The `try` body: prepares the turn and runs slices until something ends it. */
    method RunSlices(e: ExecutionId, reviewedBefore: bool, prepared: Option<Fault>,
                     env: nat -> Round, ghost base: Tables)
      returns (exit: Exit, events: seq<Event>, started: nat, usage: Usage)
      requires store.State() == base && base.Valid() && base.Attached(e) && FreshGrant(base, e)
      modifies store
      ensures |store.slices| - |base.slices| == started <= maxAutoSlices
      ensures Leaves(store.State(), base, e, exit, events, usage)
      ensures prepared.Some? ==>
                exit == Raised(prepared.value, None) && events == [] && started == 0 && usage == Usage(0, 0, 0)
      ensures prepared.None? ==>
                var script := Script(env, reviewedBefore, base.executions[e].goalMode, maxAutoSlices, hasTaskService);
                Told(store.State(), base, e, script, exit, events, started) && usage == LastUsage(env, started)
    {
      if prepared.Some? {
        return Raised(prepared.value, None), [], 0, Usage(0, 0, 0);
      }
      exit, events, started, usage := LoopSlices(e, reviewedBefore, env, base);
    }

    method LoopSlices(e: ExecutionId, reviewedBefore: bool, env: nat -> Round, ghost base: Tables)
      returns (exit: Exit, events: seq<Event>, started: nat, usage: Usage)
      requires Midway(base, e, false) && FreshGrant(base, e) && store.State() == base
      modifies store
      ensures started <= maxAutoSlices && usage == LastUsage(env, started)
      ensures
        var script := Script(env, reviewedBefore, base.executions[e].goalMode, maxAutoSlices, hasTaskService);
        Told(store.State(), base, e, script, exit, events, started)
    {
      started, usage := 0, Usage(0, 0, 0);
      ghost var script := Script(env, reviewedBefore, base.executions[e].goalMode, maxAutoSlices, hasTaskService);
      var progress := Progress(reviewedBefore, GraphStepLimit, "", "", []);
      for number := 1 to maxAutoSlices + 1
        invariant started == number - 1 && usage == LastUsage(env, started)
        invariant Between(store.State(), base, e, script, started, progress)
      {
        if env(number).wallBefore {
          RunsOut(store.State(), base, e, script, started, progress, GrantWallTimeLimit);
          return OutOfSlices(GrantWallTimeLimit, progress.checkpoint, progress.cursor), progress.events, started, usage;
        }
        started, usage := number, env(number).usage;
        var next;
        next, progress := Iterate(e, number, env(number), progress, script, base);
        if !GoesOn(next) {
          return ExitOf(next, |store.slices| - 1), progress.events, started, usage;
        }
      }
      RunsOut(store.State(), base, e, script, started, progress, progress.reason);
      exit, events := OutOfSlices(progress.reason, progress.checkpoint, progress.cursor), progress.events;
    }

    /** What happens behind the loop and in the exception handlers. */
    method LeaveTurn(e: ExecutionId, exit: Exit, said: seq<Event>, usage: Usage, ghost base: Tables) returns (more: seq<Event>)
      requires Leaves(store.State(), base, e, exit, said, usage)
      modifies store
      ensures |store.slices| == old(|store.slices|) && more == ExitEvents(exit)
      ensures said + more != [] && IsTerminal((said + more)[|said + more| - 1])
                && Closed(store.State(), base, e, (said + more)[|said + more| - 1])
                && Concluded(store.executions[e], base.executions[e], exit, (said + more)[|said + more| - 1], usage)
      ensures store.executions[e].graphSteps == old(store.executions[e].graphSteps)
    {
      more := [];
      match exit
      case Returned =>
        assert said + more == said;
      case OutOfSlices(reason, checkpoint, cursor) =>
        var event := PauseEvent(e, reason, checkpoint, cursor, usage, base);
        more := [event];
      case Raised(fault, active) =>
        var event := StreamException(e, fault, active, usage, base);
        more := [event];
    }

    /** One foreground turn.  Whatever the environment does: at most `maxAutoSlices` slices are
        started, numbered from 1; every one of them is closed exactly once; at most one goal
        review is requested; exactly one terminal event is emitted, as the last one; the session
        is released exactly when the turn completed or was terminated and is recoverably paused
        otherwise, with the reason, status, policy, fingerprint and usage of the way it was left.
        A pause for an approval, a recovery decision or the budget is always the end of it. */
    method StreamLockedTurn(e: ExecutionId, reviewedBefore: bool,
                            prepared: Option<Fault>, env: nat -> Round)
      returns (events: seq<Event>, started: nat)
      requires store.State().Valid() && store.State().Attached(e) && FreshGrant(store.State(), e)
      modifies store
      ensures store.State().Valid()
      ensures |store.slices| - old(|store.slices|) == started <= maxAutoSlices
      ensures Terminals(events) == 1
      ensures Shaped(events, reviewedBefore || !old(store.executions[e].goalMode))
      ensures Closed(store.State(), old(store.State()), e, events[|events| - 1])
      ensures prepared.Some? ==>
                events == [FaultEvent(prepared.value)] && started == 0
                && PausedByFault(store.executions[e], old(store.executions[e]), prepared.value, Usage(0, 0, 0))
      ensures prepared.None? ==>
                var script := Script(env, reviewedBefore, old(store.executions[e].goalMode), maxAutoSlices, hasTaskService);
                && script.Tells(events, started)
                && Concluded(store.executions[e], old(store.executions[e]), script.Finale(started).0, events[|events| - 1],
                             LastUsage(env, started))
                && store.executions[e].graphSteps ==
                   old(store.executions[e].graphSteps) + SpentUntil(env, started, script.Finale(started).0)
      ensures prepared.None? ==>
                forall k: nat :: HeldAt(env, maxAutoSlices, k) ==>
                  HeldAs(events, started, store.executions[e], old(store.executions[e]), env(k), k)
    {
      ghost var base := store.State();
      var exit, said, usage;
      exit, said, started, usage := RunSlices(e, reviewedBefore, prepared, env, base);
      var more := LeaveTurn(e, exit, said, usage, base);
      events := said + more;
      if prepared.None? {
        ghost var script := Script(env, reviewedBefore, base.executions[e].goalMode, maxAutoSlices, hasTaskService);
        TellsShape(script, events, started);
        forall k: nat | HeldAt(env, maxAutoSlices, k)
          ensures HeldAs(events, started, store.executions[e], base.executions[e], env(k), k)
        {
          HeldForADecision(script, events, started, k);
        }
      }
      CountEvents(events);
    }
  }

  /** The events, the slice count and the row of a turn that slice `k` holds for a decision. */
  predicate HeldAs(events: seq<Event>, started: nat, row: Execution, was: Execution, round: Round, k: nat) {
    && started == k && round.ending.PausedEnd? && events == [TurnPaused(round.ending.reason)]
    && PausedAs(row, was, PauseStatus(round.ending.reason), round.ending.reason,
                JoinParts([Name(round.ending.reason), round.ending.checkpoint, round.ending.cursor]), round.usage)
  }

  /** The steps an iteration adds: all its slice reports, unless an exception closes the slice. */
  function Counted(ending: Ending, next: Next): nat { if next.Throw? then 0 else Steps(ending) }

  function LastUsage(env: nat -> Round, n: nat): Usage { if n == 0 then Usage(0, 0, 0) else env(n).usage }

  /** The steps of a turn of `n` slices that was left like this. */
  function SpentUntil(env: nat -> Round, n: nat, exit: Exit): nat {
    if n > 0 && exit.Raised? then Spent(env, n - 1) else Spent(env, n)
  }

  /** The tables after an iteration that leads there. */
  ghost predicate Settles(t: Tables, base: Tables, e: ExecutionId, next: Next, usage: Usage) {
    match next
    case Finish(event) =>
      IsTerminal(event) && Closed(t, base, e, event)
      && Concluded(t.executions[e], base.executions[e], Returned, event, usage)
    case Throw(_, open) => Ongoing(t, base, e, open)
    case _ => Ongoing(t, base, e, false)
  }

  /** The tables when the loop is left with these events. */
  ghost predicate Leaves(t: Tables, base: Tables, e: ExecutionId, exit: Exit, events: seq<Event>, usage: Usage) {
    match exit
    case OutOfSlices(_, _, _) => Ongoing(t, base, e, false)
    case Raised(_, active) =>
      Ongoing(t, base, e, active.Some?) && (active.Some? ==> active.value == |t.slices| - 1)
    case Returned =>
      events != [] && IsTerminal(events[|events| - 1]) && Closed(t, base, e, events[|events| - 1])
      && Concluded(t.executions[e], base.executions[e], Returned, events[|events| - 1], usage)
  }

  /** Between two slices of a turn that follows its script. */
  ghost predicate Between(t: Tables, base: Tables, e: ExecutionId, script: Script, n: nat, p: Progress) {
    && Ongoing(t, base, e, false) && |t.slices| == |base.slices| + n
    && script.After(n) == Some(p)
    && t.executions[e].graphSteps == base.executions[e].graphSteps + Spent(script.env, n)
  }

  /** Behind the loop of a turn that told its script: how it was left, what it told, the steps of all its slices. */
  ghost predicate Told(t: Tables, base: Tables, e: ExecutionId, script: Script, exit: Exit, events: seq<Event>, n: nat) {
    && Leaves(t, base, e, exit, events, LastUsage(script.env, n)) && |t.slices| == |base.slices| + n
    && script.IsLeft(n, exit, events)
    && t.executions[e].graphSteps == base.executions[e].graphSteps + SpentUntil(script.env, n, exit)
  }

  lemma RunsOut(t: Tables, base: Tables, e: ExecutionId, script: Script, n: nat, p: Progress, reason: StopReason)
    requires Between(t, base, e, script, n, p) && n <= script.limit
    requires if n == script.limit then reason == p.reason else script.env(n + 1).wallBefore && reason == GrantWallTimeLimit
    ensures Told(t, base, e, script, OutOfSlices(reason, p.checkpoint, p.cursor), p.events, n)
  {
    RunOutTells(script, n, p, reason);
  }

  /** A slice that was run leads on, or out of the loop, with its steps counted. */
  lemma StepCounts(script: Script, number: nat, p: Progress, next: Next, id: SliceId)
    requires 1 <= number <= script.limit && script.After(number - 1) == Some(p)
    requires !script.env(number).wallBefore && next == script.NextAfter(number, p.reviewed)
    ensures
      var q, steps := Onward(p, next, number), Spent(script.env, number - 1) + Counted(script.env(number).ending, next);
      if GoesOn(next) then script.After(number) == Some(q) && Spent(script.env, number) == steps
      else script.IsLeft(number, ExitOf(next, id), q.events) && SpentUntil(script.env, number, ExitOf(next, id)) == steps
  {
    StepTells(script, number - 1, p, next, id);
    SpentBy(script.env, number, next, id);
  }

  lemma SpentBy(env: nat -> Round, number: nat, next: Next, id: nat)
    requires number > 0
    ensures (if GoesOn(next) then Spent(env, number) else SpentUntil(env, number, ExitOf(next, id)))
            == Spent(env, number - 1) + Counted(env(number).ending, next)
  {}

  lemma SettlesLeaves(t: Tables, base: Tables, e: ExecutionId, next: Next, number: nat, before: seq<Event>, usage: Usage)
    requires Settles(t, base, e, next, usage) && |t.slices| > 0
    ensures GoesOn(next) ==> Ongoing(t, base, e, false)
    ensures !GoesOn(next) ==> Leaves(t, base, e, ExitOf(next, |t.slices| - 1), before + Said(next, number), usage)
  {
  }

  lemma CountEvents(events: seq<Event>)
    requires |events| <= 2 && (|events| == 2 ==> !IsTerminal(events[0]))
    ensures Terminals(events) == if events != [] && IsTerminal(events[|events| - 1]) then 1 else 0
  {
    if |events| == 2 {
      assert events[1..] == [events[1]];
    }
  }

  /** The tables agree with the terminal event. */
  ghost predicate Closed(t: Tables, base: Tables, e: ExecutionId, event: Event) {
    && Turn(t, base, e, false)
    && (event.TurnCompleted? ==> t.executions[e].status == Completed)
    && (event.TurnTerminated? ==> t.executions[e].status == Discarded)
    && (event.TurnCompleted? || event.TurnTerminated? ==> t.GetAttached(base.executions[e].session).None?)
    && (!(event.TurnCompleted? || event.TurnTerminated?) ==>
          Attachment(t, base, e) && Active(t.executions[e].status) && t.executions[e].status != Running)
  }
}
