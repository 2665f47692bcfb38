/** Foreground requests and session control under the session lock
    (src/core/agent/request_stream.py, src/core/execution/lifecycle.py,
    src/core/session/lifecycle.py). */
module Sessions {
  import opened Common
  import opened Executions
  import opened ExecutionRuns
  import opened GraphStream
  import opened TurnLoop
  import opened TurnScript
  import Recovery
  import M = Maintenance

  /** What a request meets before the execution tables: its text, the hooks (the exception of the
      first one that rejects it or empties its prompt) and the model configuration. */
  datatype Gate = Gate(blank: bool, hook: Option<Fault>, configured: bool)
  {
    predicate Admits() { !blank && hook.None? && configured }
  }

  datatype Reply =
    | Streamed(events: seq<Event>)
    | EmptyMessage
    | HookRefused(fault: Fault)
    | Unconfigured
    | BlockedByPending
    | Archived
    | Idle
    | BeginRejected
    | ResumeRejected(error: ResumeError)
    | RuntimeUnavailable

  /** The reply to a turn request that starts nothing. */
  function TurnRefusal(t: Tables, s: SessionId, gate: Gate): Option<Reply>
    requires s in t.sessions
  {
    if gate.blank then Some(EmptyMessage)
    else if t.sessions[s].archived then Some(Archived)
    else if gate.hook.Some? then Some(HookRefused(gate.hook.value))
    else if !gate.configured then Some(Unconfigured)
    else if t.GetPending(s).Some? then Some(BlockedByPending)
    else if t.GetAttached(s).Some? then Some(BeginRejected)
    else None
  }

  /** The reply to a resume request that resumes nothing. */
  function ResumeRefusal(t: Tables, s: SessionId, hook: Option<Fault>, value: Option<ResumeValue>, retry: bool): Option<Reply>
    requires s in t.sessions
  {
    if t.sessions[s].archived then Some(Archived)
    else if hook.Some? then Some(HookRefused(hook.value))
    else if t.GetAttached(s).None? then Some(Idle)
    else
      match t.Refusal(s, value, retry)
      case Some(error) => Some(ResumeRejected(error))
      case None => None
  }

  /** Why a request is refused: the first thing that stands in its way, in the order of the checks. */
  lemma RefusalsExactly(t: Tables, s: SessionId, gate: Gate, hook: Option<Fault>, value: Option<ResumeValue>, retry: bool)
    requires s in t.sessions
    ensures
      var r, archived := TurnRefusal(t, s, gate), t.sessions[s].archived;
      && (r == Some(EmptyMessage) <==> gate.blank)
      && (r == Some(Archived) <==> !gate.blank && archived)
      && (r.Some? && r.value.HookRefused? <==> !gate.blank && !archived && gate.hook.Some?)
      && (r == Some(Unconfigured) <==> !gate.blank && !archived && gate.hook.None? && !gate.configured)
      && (r == Some(BlockedByPending) <==> gate.Admits() && !archived && t.GetPending(s).Some?)
      && (r == Some(BeginRejected) <==> gate.Admits() && !archived && t.GetPending(s).None? && t.GetAttached(s).Some?)
    ensures
      var r, archived := ResumeRefusal(t, s, hook, value, retry), t.sessions[s].archived;
      && (r == Some(Archived) <==> archived)
      && (r.Some? && r.value.HookRefused? <==> !archived && hook.Some?)
      && (r == Some(Idle) <==> !archived && hook.None? && t.GetAttached(s).None?)
      && (forall e :: r == Some(ResumeRejected(e)) <==>
            !archived && hook.None? && t.GetAttached(s).Some? && t.Refusal(s, value, retry) == Some(e))
  {
  }

  /** The session after a request that was not refused: free exactly if the turn completed or was
      terminated; without a runtime its execution waits for a conditional retry. */
  predicate Left(t: Tables, s: SessionId, reply: Reply) {
    match reply
    case Streamed(events) =>
      events != [] && (t.GetAttached(s).None? <==> events[|events| - 1].TurnCompleted? || events[|events| - 1].TurnTerminated?)
    case RuntimeUnavailable =>
      && t.GetPending(s).Some?
      && t.Refusal(s, None, false) == Some(NeedsCondition) && t.Refusal(s, None, true).None?
    case _ => true
  }

  class SessionService {
    const store: ExecutionRepository
    const loop: TurnExecutionLoop
    const maintenance: M.MaintenanceRepository

    constructor (store: ExecutionRepository, loop: TurnExecutionLoop, maintenance: M.MaintenanceRepository)
      requires loop.store == store
      ensures this.store == store && this.loop == loop && this.maintenance == maintenance
      ensures Wired()
    {
      this.store, this.loop, this.maintenance := store, loop, maintenance;
    }

    predicate Wired() { loop.store == store }

    /** A request that got its grant: without a runtime it is paused, otherwise a turn is streamed with
        one terminal event and at most `maxAutoSlices` slices, and unless its preparation failed it
        tells its script. */
    predicate Streams(reply: Reply, started: nat, reviewed: bool, goalMode: bool,
                      graph: Option<Fault>, prepared: Option<Fault>, env: nat -> Round) {
      if graph.Some? then reply == RuntimeUnavailable && started == 0
      else
        && reply.Streamed? && Terminals(reply.events) == 1 && started <= loop.maxAutoSlices
        && (prepared.None? ==>
              Script(env, reviewed, goalMode, loop.maxAutoSlices, loop.hasTaskService).Tells(reply.events, started))
    }

    /** The pause when a runtime graph cannot be built. */
    method PauseRuntime(e: ExecutionId, summary: string)
      requires store.State().Valid() && store.State().Attached(e)
      modifies store
      ensures store.State() == old(store.State()).Pause(e, PausedError, TurnError,
                                                        DefaultFingerprint(TurnError, summary), Usage(0, 0, 0))
      ensures store.State().Valid()
    {
      PauseKeepsValid(store.State(), e, PausedError, TurnError, DefaultFingerprint(TurnError, summary), Usage(0, 0, 0));
      store.Pause(e, PausedError, TurnError, DefaultFingerprint(TurnError, summary), Usage(0, 0, 0));
    }

    /** Runs a fresh grant: a turn is streamed unless the runtime graph cannot be built, which pauses
        the execution. */
    method UseGrant(e: ExecutionId, reviewed: bool, failure: string, graph: Option<Fault>, prepared: Option<Fault>, env: nat -> Round)
      returns (reply: Reply, ghost started: nat)
      requires Wired() && store.State().Valid() && store.State().Attached(e) && FreshGrant(store.State(), e)
      modifies store
      ensures store.State().Valid() && |store.slices| == |old(store.slices)| + started
      ensures Streams(reply, started, reviewed, old(store.executions[e].goalMode), graph, prepared, env)
      ensures graph.Some? ==>
                && store.sessions == old(store.sessions) && |store.executions| == |old(store.executions)|
                && (forall d :: 0 <= d < |store.executions| && d != e ==> store.executions[d] == old(store.executions)[d])
                && PausedAs(store.executions[e], old(store.executions)[e], PausedError, TurnError,
                            DefaultFingerprint(TurnError, failure + graph.value.message), Usage(0, 0, 0))
      ensures Left(store.State(), old(store.executions[e].session), reply)
    {
      if graph.Some? {
        PauseRuntime(e, failure + graph.value.message);
        return RuntimeUnavailable, 0;
      }
      var events, slices := loop.StreamLockedTurn(e, reviewed, prepared, env);
      reply, started := Streamed(events), slices;
    }

    /** `begin_turn` on a session without a recoverable execution. */
    method BeginTurn(s: SessionId, goalMode: bool) returns (e: Option<ExecutionId>)
      requires store.State().Valid() && s in store.sessions
      modifies store
      ensures store.State().Valid() && store.slices == old(store.slices)
      ensures e.Some? <==> old(store.State()).GetAttached(s).None?
      ensures e.None? ==> store.State() == old(store.State())
      ensures e.Some? ==> store.State().Attached(e.value) && FreshGrant(store.State(), e.value)
                          && store.executions[e.value].goalMode == goalMode && store.executions[e.value].session == s
    {
      BeginKeepsValid(store.State(), s, goalMode);
      e := store.Begin(s, goalMode);
    }

    /** The part of `stream_turn` under the session lock, behind the model check. */
    method StartTurn(s: SessionId, goalMode: bool, graph: Option<Fault>, prepared: Option<Fault>, env: nat -> Round)
      returns (reply: Reply, ghost started: nat)
      requires Wired() && store.State().Valid() && s in store.sessions
      modifies store
      ensures store.State().Valid()
      ensures old(store.State()).GetAttached(s).Some? ==>
                reply == (if old(store.State()).GetPending(s).Some? then BlockedByPending else BeginRejected)
                && store.State() == old(store.State())
      ensures |store.slices| == |old(store.slices)| + started
      ensures old(store.State()).GetAttached(s).None? ==>
                Left(store.State(), s, reply) && Streams(reply, started, false, goalMode, graph, prepared, env)
    {
      var pending := store.GetPending(s);
      if pending.Some? {
        return BlockedByPending, 0;
      }
      var e := BeginTurn(s, goalMode);
      if e.None? {
        return BeginRejected, 0;
      }
      reply, started := UseGrant(e.value, false, "Workspace runtime creation failed: ", graph, prepared, env);
    }

    /** `stream_turn`: a new turn starts only on an idle session, for a request that is admitted;
        `graph` is the fault of building the runtime, if any.  The slices of the turn are the only
        ones of its grant. */
    method StreamTurn(s: SessionId, goalMode: bool, gate: Gate, graph: Option<Fault>, prepared: Option<Fault>, env: nat -> Round)
      returns (reply: Reply, ghost started: nat)
      requires Wired() && store.State().Valid() && s in store.sessions
      modifies store
      ensures store.State().Valid()
      ensures TurnRefusal(old(store.State()), s, gate).None? <==>
                gate.Admits() && !old(store.sessions[s].archived) && old(store.State()).GetAttached(s).None?
      ensures TurnRefusal(old(store.State()), s, gate).Some? ==>
                Some(reply) == TurnRefusal(old(store.State()), s, gate) && store.State() == old(store.State())
      ensures |store.slices| == |old(store.slices)| + started
      ensures TurnRefusal(old(store.State()), s, gate).None? ==>
                Left(store.State(), s, reply) && Streams(reply, started, false, goalMode, graph, prepared, env)
    {
      if gate.blank {
        return EmptyMessage, 0;
      }
      if store.sessions[s].archived {
        return Archived, 0;
      }
      if gate.hook.Some? {
        return HookRefused(gate.hook.value), 0;
      }
      if !gate.configured {
        return Unconfigured, 0;
      }
      reply, started := StartTurn(s, goalMode, graph, prepared, env);
    }

    /** `resume` of the attached execution: refused, or a fresh grant for it. */
    method ResumeTurn(s: SessionId, value: Option<ResumeValue>, retryConditions: bool)
      returns (r: Result<ExecutionId, ResumeError>)
      requires store.State().Valid() && s in store.sessions
      modifies store
      ensures store.State().Valid() && store.slices == old(store.slices)
      ensures r.Err? <==> old(store.State()).Refusal(s, value, retryConditions).Some?
      ensures r.Err? ==> r == Err(old(store.State()).Refusal(s, value, retryConditions).value)
                         && store.State() == old(store.State())
      ensures r.Ok? ==> Some(r.value) == old(store.State()).GetAttached(s)
                        && store.State() == old(store.State()).Resume(s)
                        && store.State().Attached(r.value) && FreshGrant(store.State(), r.value)
                        && store.executions[r.value].goalMode == old(store.executions)[r.value].goalMode
    {
      ghost var paused := store.State();
      r := store.Resume(s, value, retryConditions);
      if r.Ok? {
        ResumeKeepsValid(paused, s);
      }
    }

    /** `stream_resume`: grants another batch of slices to the attached execution. */
    method StreamResume(s: SessionId, value: Option<ResumeValue>, retryConditions: bool, reviewed: bool,
                        hook: Option<Fault>, graph: Option<Fault>, prepared: Option<Fault>, env: nat -> Round)
      returns (reply: Reply, ghost started: nat)
      requires Wired() && store.State().Valid() && s in store.sessions
      modifies store
      ensures store.State().Valid()
      ensures ResumeRefusal(old(store.State()), s, hook, value, retryConditions).Some? ==>
                Some(reply) == ResumeRefusal(old(store.State()), s, hook, value, retryConditions)
                && store.State() == old(store.State())
      ensures ResumeRefusal(old(store.State()), s, hook, value, retryConditions).None? <==>
                && !old(store.sessions[s].archived) && hook.None? && old(store.State()).GetAttached(s).Some?
                && old(store.State()).Refusal(s, value, retryConditions).None?
      ensures |store.slices| == |old(store.slices)| + started
      ensures ResumeRefusal(old(store.State()), s, hook, value, retryConditions).None? ==>
                && old(store.State()).GetAttached(s).Some? && Left(store.State(), s, reply)
                && Streams(reply, started, reviewed, old(store.executions)[old(store.State()).GetAttached(s).value].goalMode,
                           graph, prepared, env)
    {
      if store.sessions[s].archived {
        return Archived, 0;
      }
      if hook.Some? {
        return HookRefused(hook.value), 0;
      }
      var attached := store.GetAttached(s);
      if attached.None? {
        return Idle, 0;
      }
      var resumed := ResumeTurn(s, value, retryConditions);
      if resumed.Err? {
        return ResumeRejected(resumed.error), 0;
      }
      reply, started := UseGrant(resumed.value, reviewed, "Execution resume preparation failed: ", graph, prepared, env);
    }

    method EnqueueCleanup(e: ExecutionId, now: M.Time)
      requires M.Distinct(maintenance.jobs)
      modifies maintenance
      ensures M.Distinct(maintenance.jobs) && M.Queued(maintenance.jobs, Recovery.CleanupKey(e))
      ensures if old(M.Queued(maintenance.jobs, Recovery.CleanupKey(e))) then maintenance.jobs == old(maintenance.jobs)
              else maintenance.jobs[..|maintenance.jobs| - 1] == old(maintenance.jobs)
    {
      var id := maintenance.FreshId();
      var _ := maintenance.Enqueue(Recovery.CleanupSpec(e), id, now);
    }

    /** `discard_pending`: afterwards the session is idle and the cleanup is queued. */
    method DiscardPending(s: SessionId, now: M.Time) returns (discarded: Option<ExecutionId>)
      requires store.State().Valid() && M.Distinct(maintenance.jobs) && s in store.sessions
      modifies store, maintenance
      ensures store.State().Valid() && M.Distinct(maintenance.jobs) && s in store.sessions
      ensures discarded == if old(store.sessions[s].archived) then None else old(store.State()).GetAttached(s)
      ensures discarded.Some? ==> store.State().GetAttached(s).None?
                                  && store.State().Known(discarded.value)
                                  && store.executions[discarded.value].status == Discarded
                                  && old(store.State()).Discard(s).Some?
                                  && store.State() == old(store.State()).Discard(s).value
                                  && M.Queued(maintenance.jobs, Recovery.CleanupKey(discarded.value))
      ensures discarded.None? ==> store.State() == old(store.State()) && maintenance.jobs == old(maintenance.jobs)
    {
      if store.sessions[s].archived {
        return None;
      }
      var attached := store.GetAttached(s);
      if attached.None? {
        return None;
      }
      SettleKeepsValid(store.State(), s, attached.value, Discarded, Other("discarded"));
      discarded := store.Discard(s);
      EnqueueCleanup(discarded.value, now);
    }

    /** `delete_session` without hard delete: nothing stays attached to an archived session. */
    method ArchiveSession(s: SessionId, now: M.Time) returns (archivedNow: bool)
      requires store.State().Valid() && M.Distinct(maintenance.jobs) && s in store.sessions
      modifies store, maintenance
      ensures store.State().Valid() && M.Distinct(maintenance.jobs)
      ensures archivedNow == !old(store.sessions[s].archived)
      ensures s in store.sessions && store.sessions[s].archived
      ensures archivedNow ==> store.State().GetAttached(s).None?
      ensures
        var discarded := old(store.State()).Discard(s);
        var released := if archivedNow && discarded.Some? then discarded.value else old(store.State());
        s in released.sessions && store.State() == released.(sessions := released.sessions[s := released.sessions[s].(archived := true)])
      ensures archivedNow && old(store.State()).GetAttached(s).Some? ==>
                M.Queued(maintenance.jobs, Recovery.CleanupKey(old(store.State()).GetAttached(s).value))
    {
      archivedNow := !store.sessions[s].archived;
      if archivedNow {
        var _ := DiscardPending(s, now);
        ghost var before := store.State();
        store.sessions := store.sessions[s := store.sessions[s].(archived := true)];
        forall e | 0 <= e < |store.executions| && Active(store.executions[e].status) ensures store.State().Attached(e) {
          assert before.Attached(e);
        }
      }
    }
  }
}
