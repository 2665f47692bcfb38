/** Durable executions, their slices and the session they are attached to
    (src/core/state/executions.py, execution_slices.py, execution_release.py,
    execution_queries.py, execution_checkpoints.py). */
module Executions {
  import opened Common

  type SessionId = nat
  type ExecutionId = nat
  type SliceId = nat

  datatype Status =
    | Running | PausedBudget | PausedError | PausedConfirmation | PausedRecovery
    | UnrecoverableCheckpoint | Completed | Discarded

  predicate Active(s: Status) {
    s in {Running, PausedBudget, PausedError, PausedConfirmation, PausedRecovery}
  }

  datatype Checkpoint = Uninitialized | Available | CleanupPending | Cleaned | Missing

  datatype StopReason =
    | NoReason | CompletedReason | LlmNotConfigured | GraphStepLimit | ToolCallLimit | BudgetLimit
    | GrantWallTimeLimit | ClientDisconnected | ToolApproval | ToolRecoveryRequired | ModelOutputLimit
    | ContextCompactionRequired | GraphError | TurnError | Other(text: string)

  datatype ResumePolicy = Continue | ActionRequired | ConditionRequired | Terminal

  function PolicyFor(reason: StopReason): ResumePolicy {
    match reason
    case ToolApproval => ActionRequired
    case ToolRecoveryRequired => ActionRequired
    case ModelOutputLimit => ConditionRequired
    case ContextCompactionRequired => ConditionRequired
    case GraphError => ConditionRequired
    case TurnError => ConditionRequired
    case LlmNotConfigured => Terminal
    case ToolCallLimit => Terminal
    case _ => Continue
  }

  /** Status under which a pause with this reason is persisted by the slice and by the pause handler. */
  function PauseStatus(reason: StopReason): Status {
    match reason
    case ToolApproval => PausedConfirmation
    case ToolRecoveryRequired => PausedRecovery
    case _ => PausedBudget
  }

  datatype Usage = Usage(controlled: nat, delegations: nat, toolCalls: nat)

  datatype Execution = Execution(
    session: SessionId, thread: nat, status: Status, stopReason: StopReason,
    grantIndex: nat, sliceIndex: nat, graphSteps: nat, usage: Usage,
    checkpoint: Checkpoint, goalMode: bool,
    policy: ResumePolicy, fingerprint: string, repeated: nat)
  {
    predicate Recoverable() { Active(status) && checkpoint == Available }
  }

  /** A slice row; `closings` counts the updates that closed it. */
  datatype Slice = Slice(
    execution: ExecutionId, grant: nat, index: nat, status: Status, stopReason: StopReason,
    graphSteps: nat, closings: nat)

  datatype Session = Session(pending: Option<ExecutionId>, archived: bool)

  /** What a resume request carries: the type tag and whether a request id is present. */
  datatype ResumeValue = ResumeValue(toolRecovery: bool, requestId: bool)

  datatype ResumeError =
    | CheckpointUnavailable | NothingPending | NeedsApproval | NeedsToolRecovery | NeedsCondition | TerminalStop

  function Contribution(s: Slice, e: ExecutionId, grant: nat): nat {
    if s.execution == e && s.grant == grant && s.closings > 0 then s.graphSteps else 0
  }

  /** Graph steps of the finished slices of one grant. */
  function Used(slices: seq<Slice>, e: ExecutionId, grant: nat): nat {
    if slices == [] then 0 else Contribution(slices[0], e, grant) + Used(slices[1..], e, grant)
  }

  lemma {:induction false} UsedUpdate(slices: seq<Slice>, i: nat, s: Slice, e: ExecutionId, grant: nat)
    requires i < |slices|
    ensures Used(slices[i := s], e, grant) + Contribution(slices[i], e, grant) ==
            Used(slices, e, grant) + Contribution(s, e, grant)
  {
    var updated := slices[i := s];
    if i == 0 {
      assert updated[1..] == slices[1..];
    } else {
      assert updated[1..] == slices[1..][i - 1 := s];
      UsedUpdate(slices[1..], i - 1, s, e, grant);
    }
  }

  lemma {:induction false} UsedAppend(slices: seq<Slice>, s: Slice, e: ExecutionId, grant: nat)
    ensures Used(slices + [s], e, grant) == Used(slices, e, grant) + Contribution(s, e, grant)
  {
    if slices == [] {
      assert (slices + [s])[1..] == [];
    } else {
      assert (slices + [s])[1..] == slices[1..] + [s];
      UsedAppend(slices[1..], s, e, grant);
    }
  }

  lemma {:induction false} UsedByNobody(slices: seq<Slice>, e: ExecutionId, grant: nat)
    requires forall i :: 0 <= i < |slices| ==> slices[i].execution != e || slices[i].grant != grant
    ensures Used(slices, e, grant) == 0
  {
    if slices != [] {
      UsedByNobody(slices[1..], e, grant);
    }
  }

  /** The three tables.  Rows are identified by their position. */
  datatype Tables = Tables(executions: seq<Execution>, slices: seq<Slice>, sessions: map<SessionId, Session>)
  {
    predicate Known(e: ExecutionId) { e < |executions| }

    predicate Attached(e: ExecutionId) {
      Known(e) && executions[e].session in sessions && sessions[executions[e].session].pending == Some(e)
    }

    /** An attached id names an execution of that session; an active execution is attached. */
    ghost predicate OneActive() {
      && (forall s :: s in sessions && sessions[s].pending.Some? ==>
            Known(sessions[s].pending.value) && executions[sessions[s].pending.value].session == s)
      && (forall e :: 0 <= e < |executions| && Active(executions[e].status) ==> Attached(e))
    }

    /** The step counter of an execution is the total of the finished slices of its current grant. */
    ghost predicate Conserved() {
      && (forall i :: 0 <= i < |slices| ==>
            Known(slices[i].execution) && slices[i].grant <= executions[slices[i].execution].grantIndex)
      && (forall e {:trigger executions[e].graphSteps} :: 0 <= e < |executions| ==>
            executions[e].graphSteps == Used(slices, e, executions[e].grantIndex))
    }

    /** The UNIQUE constraint of the slice table. */
    ghost predicate UniqueSlices() {
      forall i, j :: 0 <= i < j < |slices| ==>
        slices[i].execution != slices[j].execution || slices[i].grant != slices[j].grant
        || slices[i].index != slices[j].index
    }

    ghost predicate Valid() { OneActive() && Conserved() && UniqueSlices() }

    predicate SliceTaken(e: ExecutionId, grant: nat, index: nat) {
      exists i :: 0 <= i < |slices| && slices[i].execution == e && slices[i].grant == grant && slices[i].index == index
    }

    function With(e: ExecutionId, row: Execution): Tables
      requires Known(e)
    {
      this.(executions := executions[e := row])
    }

    function Begin(s: SessionId, goalMode: bool): Option<Tables> {
      if s !in sessions || sessions[s].pending.Some? then None
      else
        var e := |executions|;
        Some(this.(executions := executions + [NewExecution(s, goalMode)],
                   sessions := sessions[s := sessions[s].(pending := Some(e))]))
    }

    function NewExecution(s: SessionId, goalMode: bool): Execution {
      Execution(s, |executions|, Running, NoReason, 1, 0, 0, Usage(0, 0, 0), Uninitialized, goalMode, Continue, "", 0)
    }

    function GetAttached(s: SessionId): Option<ExecutionId> {
      if s in sessions && sessions[s].pending.Some? && Known(sessions[s].pending.value)
      then sessions[s].pending else None
    }

    function GetPending(s: SessionId): Option<ExecutionId> {
      var e := GetAttached(s);
      if e.Some? && Active(executions[e.value].status) then e else None
    }

    /** Why a resume is refused. */
    function Refusal(s: SessionId, value: Option<ResumeValue>, retryConditions: bool): Option<ResumeError> {
      var pending := GetPending(s);
      if pending.None? then
        var attached := GetAttached(s);
        Some(if attached.Some? && !executions[attached.value].Recoverable() then CheckpointUnavailable
             else NothingPending)
      else
        var row := executions[pending.value];
        match row.policy
        case ActionRequired =>
          if row.stopReason == ToolApproval && !(value.Some? && value.value.requestId) then Some(NeedsApproval)
          else if row.stopReason == ToolRecoveryRequired && !(value.Some? && value.value.toolRecovery)
          then Some(NeedsToolRecovery)
          else None
        case ConditionRequired => if retryConditions then None else Some(NeedsCondition)
        case Terminal => Some(TerminalStop)
        case Continue => None
    }

    function Resume(s: SessionId): Tables
      requires GetPending(s).Some?
    {
      var e := GetPending(s).value;
      With(e, executions[e].(status := Running, stopReason := NoReason,
                             grantIndex := executions[e].grantIndex + 1, sliceIndex := 0,
                             graphSteps := 0, usage := Usage(0, 0, 0)))
    }

    function StartSlice(e: ExecutionId, grant: nat, index: nat): Option<Tables> {
      if !Known(e) || SliceTaken(e, grant, index) then None
      else Some(With(e, executions[e].(sliceIndex := index, status := Running))
                .(slices := slices + [Slice(e, grant, index, Running, NoReason, 0, 0)]))
    }

    function CloseSlice(id: SliceId, status: Status, reason: StopReason, steps: nat): Tables {
      if id < |slices|
      then this.(slices := slices[id := slices[id].(status := status, stopReason := reason, graphSteps := steps,
                                                    closings := slices[id].closings + 1)])
      else this
    }

    function FinishSlice(id: SliceId, e: ExecutionId, status: Status, reason: StopReason, steps: nat, usage: Usage): Tables {
      var t := CloseSlice(id, status, reason, steps);
      if !Known(e) then t
      else t.With(e, executions[e].(status := status, stopReason := reason,
                                    graphSteps := executions[e].graphSteps + steps, usage := usage))
    }

    function FinishSliceInTransaction(id: SliceId, e: ExecutionId, steps: nat, usage: Usage): Option<Tables> {
      if id >= |slices| || !Known(e) then None
      else Some(CloseSlice(id, Completed, CompletedReason, steps)
                .With(e, executions[e].(graphSteps := executions[e].graphSteps + steps, usage := usage)))
    }

    /** `_release_session`: clears the pending id of exactly one session, or fails. */
    function Release(s: SessionId, e: ExecutionId): Option<Tables> {
      if s in sessions && sessions[s].pending == Some(e)
      then Some(this.(sessions := sessions[s := sessions[s].(pending := None)]))
      else None
    }

    function Finalized(e: ExecutionId, status: Status, reason: StopReason): Tables
      requires Known(e)
    {
      With(e, executions[e].(status := status, stopReason := reason, checkpoint := CleanupPending))
    }

    function Complete(s: SessionId, e: ExecutionId): Option<Tables> {
      if !Known(e) then None else Finalized(e, Completed, CompletedReason).Release(s, e)
    }

    function Discard(s: SessionId): Option<Tables> {
      var e := GetAttached(s);
      if e.None? then None else Finalized(e.value, Discarded, Other("discarded")).Release(s, e.value)
    }

    function Terminate(s: SessionId, e: ExecutionId, reason: StopReason): Option<Tables> {
      if !Known(e) || executions[e].session != s then None else Finalized(e, Discarded, reason).Release(s, e)
    }

    /** The final unit of work of a turn: close the slice, complete, release; all or nothing. */
    function CompleteTurn(s: SessionId, e: ExecutionId, id: SliceId, steps: nat, usage: Usage): Option<Tables> {
      var t := FinishSliceInTransaction(id, e, steps, usage);
      if t.None? then None else t.value.Complete(s, e)
    }

    /** `pause`: a pause with the fingerprint of the previous one counts as a repetition,
        and a repetition turns a plain continuation into a conditional one. */
    function Pause(e: ExecutionId, status: Status, reason: StopReason, fingerprint: string, usage: Usage): Tables {
      if !Known(e) then this
      else
        var row := executions[e];
        var repeated := if row.fingerprint == fingerprint then row.repeated + 1 else 0;
        var stuck := repeated > 0 && PolicyFor(reason) == Continue;
        With(e, row.(status := if stuck then PausedRecovery else status, stopReason := reason,
                     checkpoint := Available, usage := usage,
                     policy := if stuck then ConditionRequired else PolicyFor(reason),
                     fingerprint := fingerprint, repeated := repeated))
    }

    function MarkMissing(e: ExecutionId): Tables {
      if !Known(e) then this
      else With(e, executions[e].(status := UnrecoverableCheckpoint, checkpoint := Missing,
                                  stopReason := Other("checkpoint_missing")))
    }

    function MarkPausedRecovery(e: ExecutionId): Tables {
      if !Known(e) then this
      else With(e, executions[e].(status := PausedRecovery, checkpoint := Available,
                                  stopReason := Other("core_restarted")))
    }

    function MarkCleaned(e: ExecutionId): Tables {
      if !Known(e) then this else With(e, executions[e].(checkpoint := Cleaned))
    }
  }

  class ExecutionRepository {
    var executions: seq<Execution>
    var slices: seq<Slice>
    var sessions: map<SessionId, Session>

    ghost function State(): Tables
      reads this
    {
      Tables(executions, slices, sessions)
    }

    constructor ()
      ensures State() == Tables([], [], map[]) && State().Valid()
    {
      executions, slices, sessions := [], [], map[];
    }

    method GetPending(s: SessionId) returns (e: Option<ExecutionId>)
      ensures e == State().GetPending(s)
    {
      e := GetAttached(s);
      if e.Some? && !Active(executions[e.value].status) {
        e := None;
      }
    }

    method GetAttached(s: SessionId) returns (e: Option<ExecutionId>)
      ensures e == State().GetAttached(s)
    {
      if s in sessions && sessions[s].pending.Some? && sessions[s].pending.value < |executions| {
        return sessions[s].pending;
      }
      e := None;
    }

    method Begin(s: SessionId, goalMode: bool) returns (e: Option<ExecutionId>)
      modifies this
      ensures e.Some? <==> old(State()).Begin(s, goalMode).Some?
      ensures e.Some? ==> State() == old(State()).Begin(s, goalMode).value && e.value == old(|executions|)
      ensures e.None? ==> State() == old(State())
    {
      if s !in sessions || sessions[s].pending.Some? {
        return None;
      }
      var id := |executions|;
      executions := executions + [Execution(s, id, Running, NoReason, 1, 0, 0, Usage(0, 0, 0), Uninitialized,
                                            goalMode, Continue, "", 0)];
      sessions := sessions[s := sessions[s].(pending := Some(id))];
      e := Some(id);
    }

    method Resume(s: SessionId, value: Option<ResumeValue>, retryConditions: bool)
      returns (r: Result<ExecutionId, ResumeError>)
      modifies this`executions
      ensures old(State()).Refusal(s, value, retryConditions).Some? ==>
                r == Err(old(State()).Refusal(s, value, retryConditions).value) && State() == old(State())
      ensures old(State()).Refusal(s, value, retryConditions).None? ==>
                old(State()).GetPending(s).Some? && r == Ok(old(State()).GetPending(s).value)
                && State() == old(State()).Resume(s)
    {
      var pending := GetPending(s);
      if pending.None? {
        var attached := GetAttached(s);
        if attached.Some? && !executions[attached.value].Recoverable() {
          return Err(CheckpointUnavailable);
        }
        return Err(NothingPending);
      }
      var row := executions[pending.value];
      if row.policy == ActionRequired {
        if row.stopReason == ToolApproval && !(value.Some? && value.value.requestId) {
          return Err(NeedsApproval);
        }
        if row.stopReason == ToolRecoveryRequired && !(value.Some? && value.value.toolRecovery) {
          return Err(NeedsToolRecovery);
        }
      } else if row.policy == ConditionRequired && !retryConditions {
        return Err(NeedsCondition);
      } else if row.policy == Terminal {
        return Err(TerminalStop);
      }
      executions := executions[pending.value := row.(
          status := Running, stopReason := NoReason, grantIndex := row.grantIndex + 1, sliceIndex := 0,
          graphSteps := 0, usage := Usage(0, 0, 0))];
      r := Ok(pending.value);
    }

    method StartSlice(e: ExecutionId, grant: nat, index: nat) returns (id: Option<SliceId>)
      modifies this`executions, this`slices
      ensures id.Some? <==> old(State()).StartSlice(e, grant, index).Some?
      ensures id.Some? ==> State() == old(State()).StartSlice(e, grant, index).value && id.value == old(|slices|)
      ensures id.None? ==> State() == old(State())
    {
      if e >= |executions| {
        return None;
      }
      for i := 0 to |slices|
        invariant forall j :: 0 <= j < i ==>
          slices[j].execution != e || slices[j].grant != grant || slices[j].index != index
        invariant State() == old(State())
      {
        if slices[i].execution == e && slices[i].grant == grant && slices[i].index == index {
          return None;
        }
      }
      id := Some(|slices|);
      slices := slices + [Slice(e, grant, index, Running, NoReason, 0, 0)];
      executions := executions[e := executions[e].(sliceIndex := index, status := Running)];
    }

    method CloseSlice(id: SliceId, status: Status, reason: StopReason, steps: nat) returns (count: nat)
      modifies this`slices
      ensures State() == old(State()).CloseSlice(id, status, reason, steps)
      ensures count == if id < |slices| then 1 else 0
    {
      if id < |slices| {
        slices := slices[id := slices[id].(status := status, stopReason := reason, graphSteps := steps,
                                           closings := slices[id].closings + 1)];
        return 1;
      }
      count := 0;
    }

    method FinishSlice(id: SliceId, e: ExecutionId, status: Status, reason: StopReason, steps: nat, usage: Usage)
      modifies this`executions, this`slices
      ensures State() == old(State()).FinishSlice(id, e, status, reason, steps, usage)
    {
      var _ := CloseSlice(id, status, reason, steps);
      if e < |executions| {
        var row := executions[e];
        executions := executions[e := row.(status := status, stopReason := reason,
                                           graphSteps := row.graphSteps + steps, usage := usage)];
      }
    }

    method Pause(e: ExecutionId, status: Status, reason: StopReason, fingerprint: string, usage: Usage)
      modifies this`executions
      ensures State() == old(State()).Pause(e, status, reason, fingerprint, usage)
    {
      if e >= |executions| {
        return;
      }
      var row := executions[e];
      var paused, policy := status, PolicyFor(reason);
      var repeated := 0;
      if row.fingerprint == fingerprint {
        repeated := row.repeated + 1;
      }
      if repeated > 0 && policy == Continue {
        paused, policy := PausedRecovery, ConditionRequired;
      }
      executions := executions[e := row.(status := paused, stopReason := reason, checkpoint := Available,
                                         usage := usage, policy := policy, fingerprint := fingerprint,
                                         repeated := repeated)];
    }

    /** Sets a terminal status and releases the session; rolls back when the session
        does not hold this execution. */
    method Settle(s: SessionId, e: ExecutionId, status: Status, reason: StopReason) returns (ok: bool)
      requires e < |executions|
      modifies this
      ensures ok == old(State()).Finalized(e, status, reason).Release(s, e).Some?
      ensures State() == if ok then old(State()).Finalized(e, status, reason).Release(s, e).value else old(State())
    {
      var saved := executions;
      executions := executions[e := executions[e].(status := status, stopReason := reason, checkpoint := CleanupPending)];
      ok := s in sessions && sessions[s].pending == Some(e);
      if ok {
        sessions := sessions[s := sessions[s].(pending := None)];
      } else {
        executions := saved;
      }
    }

    method Discard(s: SessionId) returns (e: Option<ExecutionId>)
      modifies this
      ensures e.Some? <==> old(State()).Discard(s).Some?
      ensures e.Some? ==> e == old(State()).GetAttached(s) && State() == old(State()).Discard(s).value
      ensures e.None? ==> State() == old(State())
    {
      e := GetAttached(s);
      if e.None? {
        return;
      }
      var ok := Settle(s, e.value, Discarded, Other("discarded"));
      if !ok {
        e := None;
      }
    }

    method Terminate(s: SessionId, e: ExecutionId, reason: StopReason) returns (ok: bool)
      modifies this
      ensures ok == old(State()).Terminate(s, e, reason).Some?
      ensures State() == if ok then old(State()).Terminate(s, e, reason).value else old(State())
    {
      if e >= |executions| || executions[e].session != s {
        return false;
      }
      ok := Settle(s, e, Discarded, reason);
    }

    method CompleteTurn(s: SessionId, e: ExecutionId, id: SliceId, steps: nat, usage: Usage) returns (ok: bool)
      modifies this
      ensures ok == old(State()).CompleteTurn(s, e, id, steps, usage).Some?
      ensures State() == if ok then old(State()).CompleteTurn(s, e, id, steps, usage).value else old(State())
    {
      var savedExecutions, savedSlices := executions, slices;
      var count := CloseSlice(id, Completed, CompletedReason, steps);
      ok := count == 1 && e < |executions|;
      if ok {
        executions := executions[e := executions[e].(graphSteps := executions[e].graphSteps + steps, usage := usage)];
        ok := Settle(s, e, Completed, CompletedReason);
      }
      if !ok {
        executions, slices := savedExecutions, savedSlices;
      }
    }

    method MarkMissing(e: ExecutionId)
      modifies this`executions
      ensures State() == old(State()).MarkMissing(e)
    {
      if e < |executions| {
        executions := executions[e := executions[e].(status := UnrecoverableCheckpoint, checkpoint := Missing,
                                                     stopReason := Other("checkpoint_missing"))];
      }
    }

    method MarkPausedRecovery(e: ExecutionId)
      modifies this`executions
      ensures State() == old(State()).MarkPausedRecovery(e)
    {
      if e < |executions| {
        executions := executions[e := executions[e].(status := PausedRecovery, checkpoint := Available,
                                                     stopReason := Other("core_restarted"))];
      }
    }
  }
}
