/** What the execution tables keep over runs of store calls. */
module ExecutionRuns {
  import opened Common
  import opened Executions

  /* ---- Each call keeps the tables valid ---- */

  /** `begin` succeeds exactly when the session exists and nothing is attached to it. */
  lemma BeginKeepsValid(t: Tables, s: SessionId, goalMode: bool)
    requires t.Valid()
    ensures t.Begin(s, goalMode).Some? <==> s in t.sessions && t.GetAttached(s).None?
    ensures t.Begin(s, goalMode).Some? ==>
              var after := t.Begin(s, goalMode).value;
              after.Valid() && after.GetPending(s) == Some(|t.executions|)
              && Used(after.slices, |t.executions|, 1) == 0
  {
    if t.Begin(s, goalMode).Some? {
      var after := t.Begin(s, goalMode).value;
      UsedByNobody(t.slices, |t.executions|, 1);
      forall e | 0 <= e < |after.executions|
        ensures after.executions[e].graphSteps == Used(after.slices, e, after.executions[e].grantIndex)
      {
        if e < |t.executions| {
          assert after.executions[e] == t.executions[e];
        }
      }
      forall e | 0 <= e < |after.executions| && Active(after.executions[e].status) ensures after.Attached(e) {
        if e < |t.executions| {
          assert t.Attached(e);
        }
      }
    }
  }

  /** An update that keeps the session and the grant of one attached execution. */
  lemma AttachedUpdateKeepsOneActive(t: Tables, e: ExecutionId, row: Execution)
    requires t.OneActive() && t.Attached(e) && row.session == t.executions[e].session
    ensures t.With(e, row).OneActive() && t.With(e, row).Attached(e)
  {
    var after := t.With(e, row);
    forall d | 0 <= d < |after.executions| && Active(after.executions[d].status) ensures after.Attached(d) {
      if d != e {
        assert t.Attached(d);
      }
    }
  }

  lemma ResumeKeepsValid(t: Tables, s: SessionId)
    requires t.Valid() && t.GetPending(s).Some?
    ensures t.Resume(s).Valid() && t.Resume(s).GetPending(s) == t.GetPending(s)
    ensures
      var e := t.GetPending(s).value;
      t.Resume(s).executions[e].grantIndex == t.executions[e].grantIndex + 1 && t.Resume(s).executions[e].graphSteps == 0
    ensures forall i :: 0 <= i < |t.slices| && t.slices[i].execution == t.GetPending(s).value ==>
              t.slices[i].grant < t.Resume(s).executions[t.GetPending(s).value].grantIndex
  {
    var e := t.GetPending(s).value;
    var after := t.Resume(s);
    AttachedUpdateKeepsOneActive(t, e, after.executions[e]);
    UsedByNobody(t.slices, e, t.executions[e].grantIndex + 1);
  }

  lemma StartSliceKeepsValid(t: Tables, e: ExecutionId, index: nat)
    requires t.Valid() && t.Attached(e)
    ensures
      var r := t.StartSlice(e, t.executions[e].grantIndex, index);
      r.Some? ==> r.value.Valid() && r.value.Attached(e)
  {
    var grant := t.executions[e].grantIndex;
    var r := t.StartSlice(e, grant, index);
    if r.Some? {
      var after := r.value;
      var s := Slice(e, grant, index, Running, NoReason, 0, 0);
      AttachedUpdateKeepsOneActive(t, e, after.executions[e]);
      forall d | 0 <= d < |after.executions|
        ensures after.executions[d].graphSteps == Used(after.slices, d, after.executions[d].grantIndex)
      {
        UsedAppend(t.slices, s, d, after.executions[d].grantIndex);
        assert t.executions[d].graphSteps == Used(t.slices, d, t.executions[d].grantIndex);
      }
      forall i, j | 0 <= i < j < |after.slices|
        ensures after.slices[i].execution != after.slices[j].execution || after.slices[i].grant != after.slices[j].grant
                || after.slices[i].index != after.slices[j].index
      {
        if j < |t.slices| {
          assert after.slices[i] == t.slices[i] && after.slices[j] == t.slices[j];
        } else {
          assert after.slices[i] == t.slices[i] && after.slices[j] == s;
        }
      }
    }
  }

  /** Closing an open slice of the current grant and adding its steps conserves the total;
      closing it a second time would not. */
  lemma CloseConserves(t: Tables, id: SliceId, e: ExecutionId, status: Status, reason: StopReason, steps: nat, row: Execution)
    requires t.Conserved() && t.UniqueSlices() && t.Known(e)
    requires id < |t.slices| && t.slices[id].execution == e && t.slices[id].closings == 0
    requires t.slices[id].grant == t.executions[e].grantIndex == row.grantIndex
    requires row.graphSteps == t.executions[e].graphSteps + steps
    ensures t.CloseSlice(id, status, reason, steps).With(e, row).Conserved()
    ensures t.CloseSlice(id, status, reason, steps).With(e, row).UniqueSlices()
  {
    var after := t.CloseSlice(id, status, reason, steps).With(e, row);
    forall d | 0 <= d < |after.executions|
      ensures after.executions[d].graphSteps == Used(after.slices, d, after.executions[d].grantIndex)
    {
      UsedUpdate(t.slices, id, after.slices[id], d, after.executions[d].grantIndex);
      assert t.executions[d].graphSteps == Used(t.slices, d, t.executions[d].grantIndex);
    }
  }

  lemma FinishSliceKeepsValid(t: Tables, id: SliceId, e: ExecutionId, status: Status, reason: StopReason, steps: nat, usage: Usage)
    requires t.Valid() && t.Attached(e)
    requires id < |t.slices| && t.slices[id].execution == e && t.slices[id].closings == 0
    requires t.slices[id].grant == t.executions[e].grantIndex
    ensures
      var after := t.FinishSlice(id, e, status, reason, steps, usage);
      after.Valid() && after.Attached(e)
  {
    var after := t.FinishSlice(id, e, status, reason, steps, usage);
    CloseConserves(t, id, e, status, reason, steps, after.executions[e]);
    AttachedUpdateKeepsOneActive(t, e, after.executions[e]);
  }

  /** An update of an execution row that leaves the grant and the counter alone. */
  lemma CounterUntouched(t: Tables, e: ExecutionId, row: Execution)
    requires t.Conserved() && t.UniqueSlices() && t.Known(e)
    requires row.grantIndex == t.executions[e].grantIndex && row.graphSteps == t.executions[e].graphSteps
    ensures t.With(e, row).Conserved() && t.With(e, row).UniqueSlices()
  {
    var after := t.With(e, row);
    forall d | 0 <= d < |after.executions|
      ensures after.executions[d].graphSteps == Used(after.slices, d, after.executions[d].grantIndex)
    {
      assert t.executions[d].graphSteps == Used(t.slices, d, t.executions[d].grantIndex);
    }
  }

  lemma PauseKeepsValid(t: Tables, e: ExecutionId, status: Status, reason: StopReason, fingerprint: string, usage: Usage)
    requires t.Valid() && t.Attached(e)
    ensures
      var after := t.Pause(e, status, reason, fingerprint, usage);
      after.Valid() && after.Attached(e)
  {
    var after := t.Pause(e, status, reason, fingerprint, usage);
    AttachedUpdateKeepsOneActive(t, e, after.executions[e]);
    CounterUntouched(t, e, after.executions[e]);
  }

  /** A terminal status together with the release keeps the tables valid and frees the session. */
  lemma SettleKeepsValid(t: Tables, s: SessionId, e: ExecutionId, status: Status, reason: StopReason)
    requires t.Valid() && t.Known(e) && !Active(status)
    ensures
      var r := t.Finalized(e, status, reason).Release(s, e);
      && (r.Some? <==> s in t.sessions && t.sessions[s].pending == Some(e))
      && (r.Some? ==> r.value.Valid() && r.value.GetAttached(s).None? && r.value.slices == t.slices)
  {
    var r := t.Finalized(e, status, reason).Release(s, e);
    if r.Some? {
      var after := r.value;
      CounterUntouched(t, e, after.executions[e]);
      forall d | 0 <= d < |after.executions| && Active(after.executions[d].status) ensures after.Attached(d) {
        assert d != e && t.Attached(d);
      }
    }
  }

  lemma CompleteTurnKeepsValid(t: Tables, s: SessionId, e: ExecutionId, id: SliceId, steps: nat, usage: Usage)
    requires t.Valid() && t.Attached(e) && t.executions[e].session == s
    requires id < |t.slices| && t.slices[id].execution == e && t.slices[id].closings == 0
    requires t.slices[id].grant == t.executions[e].grantIndex
    ensures
      var r := t.CompleteTurn(s, e, id, steps, usage);
      r.Some? && r.value.Valid() && r.value.GetAttached(s).None?
      && r.value.slices == t.CloseSlice(id, Completed, CompletedReason, steps).slices
  {
    var closed := t.FinishSliceInTransaction(id, e, steps, usage).value;
    CloseConserves(t, id, e, Completed, CompletedReason, steps, closed.executions[e]);
    AttachedUpdateKeepsOneActive(t, e, closed.executions[e]);
    SettleKeepsValid(closed, s, e, Completed, CompletedReason);
  }

  lemma MarksKeepValid(t: Tables, e: ExecutionId)
    requires t.Valid() && t.Known(e)
    ensures t.MarkMissing(e).Valid() && t.MarkCleaned(e).Valid()
    ensures Active(t.executions[e].status) ==> t.MarkPausedRecovery(e).Valid()
  {
    CounterUntouched(t, e, t.MarkMissing(e).executions[e]);
    CounterUntouched(t, e, t.MarkCleaned(e).executions[e]);
    CounterUntouched(t, e, t.MarkPausedRecovery(e).executions[e]);
    forall d | 0 <= d < |t.executions| && Active(t.executions[d].status)
      ensures t.MarkMissing(e).Attached(d) && t.MarkCleaned(e).Attached(d) && t.MarkPausedRecovery(e).Attached(d)
    {
      assert t.Attached(d);
    }
  }

  /* ---- Runs ---- */

  datatype Call =
    | BeginCall(s: SessionId, goalMode: bool)
    | ResumeCall(s: SessionId, value: Option<ResumeValue>, retryConditions: bool)
    | StartCall(e: ExecutionId, index: nat)
    | FinishCall(id: SliceId, e: ExecutionId, status: Status, reason: StopReason, steps: nat, usage: Usage)
    | PauseCall(e: ExecutionId, status: Status, reason: StopReason, fingerprint: string, usage: Usage)
    | CompleteCall(s: SessionId, e: ExecutionId, id: SliceId, steps: nat, usage: Usage)
    | DiscardCall(s: SessionId)
    | TerminateCall(s: SessionId, e: ExecutionId, reason: StopReason)
    | MissingCall(e: ExecutionId)
    | RecoveryCall(e: ExecutionId)
    | CleanedCall(e: ExecutionId)
    | CreateSession(s: SessionId)

  /** An open slice of the current grant of an attached execution. */
  predicate OpenSlice(t: Tables, id: SliceId, e: ExecutionId) {
    && t.Attached(e) && id < |t.slices| && t.slices[id].execution == e
    && t.slices[id].closings == 0 && t.slices[id].grant == t.executions[e].grantIndex
  }

  /** The order in which the loop, the session services and start-up issue store calls:
      slice calls and pauses concern the attached execution, a slice is closed once. */
  predicate Ordered(t: Tables, c: Call) {
    match c
    case StartCall(e, _) => t.Attached(e)
    case FinishCall(id, e, _, _, _, _) => OpenSlice(t, id, e)
    case PauseCall(e, _, _, _, _) => t.Attached(e)
    case CompleteCall(s, e, id, _, _) => OpenSlice(t, id, e) && t.executions[e].session == s
    case RecoveryCall(e) => t.Known(e) && Active(t.executions[e].status)
    case MissingCall(e) => t.Known(e)
    case CleanedCall(e) => t.Known(e)
    case CreateSession(s) => s !in t.sessions
    case _ => true
  }

  function OrKeep(t: Tables, r: Option<Tables>): Tables { if r.Some? then r.value else t }

  function Do(t: Tables, c: Call): Tables {
    match c
    case BeginCall(s, goalMode) => OrKeep(t, t.Begin(s, goalMode))
    case ResumeCall(s, value, retry) =>
      if t.GetPending(s).Some? && t.Refusal(s, value, retry).None? then t.Resume(s) else t
    case StartCall(e, index) => if t.Known(e) then OrKeep(t, t.StartSlice(e, t.executions[e].grantIndex, index)) else t
    case FinishCall(id, e, status, reason, steps, usage) => t.FinishSlice(id, e, status, reason, steps, usage)
    case PauseCall(e, status, reason, fingerprint, usage) => t.Pause(e, status, reason, fingerprint, usage)
    case CompleteCall(s, e, id, steps, usage) => OrKeep(t, t.CompleteTurn(s, e, id, steps, usage))
    case DiscardCall(s) => OrKeep(t, t.Discard(s))
    case TerminateCall(s, e, reason) => OrKeep(t, t.Terminate(s, e, reason))
    case MissingCall(e) => t.MarkMissing(e)
    case RecoveryCall(e) => t.MarkPausedRecovery(e)
    case CleanedCall(e) => t.MarkCleaned(e)
    case CreateSession(s) => t.(sessions := t.sessions[s := Session(None, false)])
  }

  lemma CallKeepsValid(t: Tables, c: Call)
    requires t.Valid() && Ordered(t, c)
    ensures Do(t, c).Valid()
  {
    match c
    case BeginCall(s, goalMode) => BeginKeepsValid(t, s, goalMode);
    case ResumeCall(s, value, retry) => if t.GetPending(s).Some? { ResumeKeepsValid(t, s); }
    case StartCall(e, index) => StartSliceKeepsValid(t, e, index);
    case FinishCall(id, e, status, reason, steps, usage) => FinishSliceKeepsValid(t, id, e, status, reason, steps, usage);
    case PauseCall(e, status, reason, fingerprint, usage) => PauseKeepsValid(t, e, status, reason, fingerprint, usage);
    case CompleteCall(s, e, id, steps, usage) => CompleteTurnKeepsValid(t, s, e, id, steps, usage);
    case DiscardCall(s) =>
      if t.GetAttached(s).Some? { SettleKeepsValid(t, s, t.GetAttached(s).value, Discarded, Other("discarded")); }
    case TerminateCall(s, e, reason) => if t.Known(e) { SettleKeepsValid(t, s, e, Discarded, reason); }
    case MissingCall(e) => MarksKeepValid(t, e);
    case RecoveryCall(e) => MarksKeepValid(t, e);
    case CleanedCall(e) => MarksKeepValid(t, e);
    case CreateSession(s) =>
      forall d | 0 <= d < |t.executions| && Active(t.executions[d].status) ensures Do(t, c).Attached(d) {
        assert t.Attached(d);
      }
  }

  predicate OrderedRun(t: Tables, calls: seq<Call>)
    decreases |calls|
  {
    calls == [] || (Ordered(t, calls[0]) && OrderedRun(Do(t, calls[0]), calls[1..]))
  }

  function Replay(t: Tables, calls: seq<Call>): Tables
    decreases |calls|
  {
    if calls == [] then t else Replay(Do(t, calls[0]), calls[1..])
  }

  predicate SameSessionActive(t: Tables, d: ExecutionId, e: ExecutionId) {
    && t.Known(d) && t.Known(e) && t.executions[d].session == t.executions[e].session
    && Active(t.executions[d].status) && Active(t.executions[e].status)
  }

  /** In every ordered run a session has at most one active execution, and it is the
      attached one; step counters agree with the finished slices of the current grant. */
  lemma {:induction false} RunsKeepValid(t: Tables, calls: seq<Call>)
    requires t.Valid() && OrderedRun(t, calls)
    ensures Replay(t, calls).Valid()
    ensures forall d, e :: SameSessionActive(Replay(t, calls), d, e) ==> d == e
    decreases |calls|
  {
    if calls == [] {
      forall d, e | SameSessionActive(t, d, e) ensures d == e {
        assert t.Attached(d) && t.Attached(e);
      }
    } else {
      CallKeepsValid(t, calls[0]);
      RunsKeepValid(Do(t, calls[0]), calls[1..]);
    }
  }

  /** The guard of the three calls that make an execution active again.  On valid tables a pause, the
      start of a slice and the finish of an open slice with an active status keep the tables valid
      exactly if the execution is still attached; none of the calls checks it. */
  lemma RevivalExactly(
    t: Tables, e: ExecutionId, index: nat, id: SliceId, status: Status, reason: StopReason, steps: nat,
    fingerprint: string, usage: Usage)
    requires t.Valid() && t.Known(e) && Active(status)
    ensures t.Pause(e, status, reason, fingerprint, usage).Valid() <==> t.Attached(e)
    ensures t.StartSlice(e, t.executions[e].grantIndex, index).Some? ==>
              (t.StartSlice(e, t.executions[e].grantIndex, index).value.Valid() <==> t.Attached(e))
    ensures id < |t.slices| && t.slices[id].execution == e && t.slices[id].closings == 0
            && t.slices[id].grant == t.executions[e].grantIndex ==>
              (t.FinishSlice(id, e, status, reason, steps, usage).Valid() <==> t.Attached(e))
    ensures t.MarkPausedRecovery(e).Valid() <==> t.Attached(e)
  {
    if t.Attached(e) {
      PauseKeepsValid(t, e, status, reason, fingerprint, usage);
      StartSliceKeepsValid(t, e, index);
      if id < |t.slices| && t.slices[id].execution == e && t.slices[id].closings == 0
         && t.slices[id].grant == t.executions[e].grantIndex {
        FinishSliceKeepsValid(t, id, e, status, reason, steps, usage);
      }
      CounterUntouched(t, e, t.MarkPausedRecovery(e).executions[e]);
      AttachedUpdateKeepsOneActive(t, e, t.MarkPausedRecovery(e).executions[e]);
    } else {
      NotAttachedIsNotActive(t, t.Pause(e, status, reason, fingerprint, usage), e);
      NotAttachedIsNotActive(t, t.FinishSlice(id, e, status, reason, steps, usage), e);
      NotAttachedIsNotActive(t, t.MarkPausedRecovery(e), e);
      if t.StartSlice(e, t.executions[e].grantIndex, index).Some? {
        NotAttachedIsNotActive(t, t.StartSlice(e, t.executions[e].grantIndex, index).value, e);
      }
    }
  }

  lemma NotAttachedIsNotActive(t: Tables, after: Tables, e: ExecutionId)
    requires t.Known(e) && !t.Attached(e) && after.Known(e) && after.sessions == t.sessions
    requires after.executions[e].session == t.executions[e].session && Active(after.executions[e].status)
    ensures !after.Valid()
  {
    assert !after.Attached(e);
  }

  /** A late pause: while another execution of the session is active, a pause of a released one
      leaves the session with two. */
  lemma LatePauseMakesTwoActive(
    t: Tables, d: ExecutionId, e: ExecutionId, status: Status, reason: StopReason, fingerprint: string, usage: Usage)
    requires t.Valid() && t.Known(d) && t.Known(e) && !t.Attached(e) && Active(status) && Active(t.executions[d].status)
    requires t.executions[d].session == t.executions[e].session
    ensures d != e && SameSessionActive(t.Pause(e, status, reason, fingerprint, usage), d, e)
  {
    assert t.Attached(d);
  }

  /** A run that gets there: two active executions in one session. */
  lemma LatePauseBreaksOneActive()
    ensures
      var t0 := Tables([], [], map[0 := Session(None, false)]);
      var t := Replay(t0, [BeginCall(0, false), DiscardCall(0), BeginCall(0, false),
                           PauseCall(0, PausedError, TurnError, "late", Usage(0, 0, 0))]);
      |t.executions| == 2 && Active(t.executions[0].status) && Active(t.executions[1].status)
      && t.executions[0].session == t.executions[1].session
  {
    var t0 := Tables([], [], map[0 := Session(None, false)]);
    var calls := [BeginCall(0, false), DiscardCall(0), BeginCall(0, false),
                  PauseCall(0, PausedError, TurnError, "late", Usage(0, 0, 0))];
    var t1 := Do(t0, calls[0]);
    var t2 := Do(t1, calls[1]);
    var t3 := Do(t2, calls[2]);
    var t4 := Do(t3, calls[3]);
    assert t2.sessions[0].pending == None;
    assert calls[1..][0] == calls[1] && calls[1..][1..] == calls[2..];
    assert calls[2..][0] == calls[2] && calls[2..][1..] == calls[3..];
    assert calls[3..][0] == calls[3] && calls[3..][1..] == [];
    assert Replay(t3, calls[3..]) == t4;
    assert Replay(t2, calls[2..]) == t4;
    assert Replay(t1, calls[1..]) == t4;
  }

  /* ---- Pauses that make no progress ---- */

  /** One pause of an execution, and the store calls since the pause before it. */
  datatype PauseRound = PauseRound(calls: seq<Call>, status: Status, reason: StopReason, fingerprint: string, usage: Usage)

  function PlayCalls(t: Tables, rounds: seq<PauseRound>, e: ExecutionId): Tables
    requires rounds != []
    decreases |rounds|, 0
  {
    Replay(Play(t, rounds[..|rounds| - 1], e), rounds[|rounds| - 1].calls)
  }

  /** The tables after the rounds. */
  function Play(t: Tables, rounds: seq<PauseRound>, e: ExecutionId): Tables
    decreases |rounds|, 1
  {
    if rounds == [] then t
    else
      var last := rounds[|rounds| - 1];
      PlayCalls(t, rounds, e).Pause(e, last.status, last.reason, last.fingerprint, last.usage)
  }

  /** Between two pauses of the execution any ordered calls may run, of this execution and of others,
      except further pauses of it and calls that detach it. */
  predicate OrderedRounds(t: Tables, rounds: seq<PauseRound>, e: ExecutionId) {
    rounds == []
    || (var last := rounds[|rounds| - 1];
        && OrderedRounds(t, rounds[..|rounds| - 1], e)
        && OrderedRun(Play(t, rounds[..|rounds| - 1], e), last.calls)
        && (forall c :: c in last.calls ==> !(c.PauseCall? && c.e == e))
        && PlayCalls(t, rounds, e).Attached(e)
        && Active(last.status))
  }

  /** How many of the pauses directly before the latest one share its fingerprint, where `count`
      of them with fingerprint `initial` came before the first round. */
  function Repetitions(initial: string, count: nat, rounds: seq<PauseRound>): nat
    requires rounds != []
  {
    var before, last := rounds[..|rounds| - 1], rounds[|rounds| - 1];
    if before == [] then (if initial == last.fingerprint then count + 1 else 0)
    else if before[|before| - 1].fingerprint == last.fingerprint then Repetitions(initial, count, before) + 1
    else 0
  }

  /** Only its own pauses touch the fingerprint and the count of an execution. */
  lemma CallKeepsFingerprint(t: Tables, c: Call, e: ExecutionId)
    requires t.Known(e) && !(c.PauseCall? && c.e == e)
    ensures Do(t, c).Known(e) && SameFingerprint(t.executions[e], Do(t, c).executions[e])
  {
  }

  predicate SameFingerprint(a: Execution, b: Execution) {
    a.session == b.session && a.fingerprint == b.fingerprint && a.repeated == b.repeated
  }

  lemma {:induction false} CallsKeepFingerprint(t: Tables, calls: seq<Call>, e: ExecutionId)
    requires t.Known(e) && forall c :: c in calls ==> !(c.PauseCall? && c.e == e)
    ensures Replay(t, calls).Known(e) && SameFingerprint(t.executions[e], Replay(t, calls).executions[e])
    decreases |calls|
  {
    if calls != [] {
      assert calls[0] in calls;
      assert forall c :: c in calls[1..] ==> c in calls;
      CallKeepsFingerprint(t, calls[0], e);
      CallsKeepFingerprint(Do(t, calls[0]), calls[1..], e);
    }
  }

  /** `repeated_pause_count` is the length of the run of equal fingerprints that ends in the
      latest pause, whatever runs between the pauses, and as soon as it is positive a plain resume
      is refused, whatever the reason. */
  lemma {:induction false} RepeatedPauseBlocksResume(t: Tables, s: SessionId, e: ExecutionId, rounds: seq<PauseRound>)
    requires t.Valid() && t.Known(e) && t.executions[e].session == s
    requires rounds != [] && OrderedRounds(t, rounds, e)
    ensures
      var after := Play(t, rounds, e);
      && after.Valid() && after.Attached(e) && after.executions[e].session == s
      && after.executions[e].fingerprint == rounds[|rounds| - 1].fingerprint
      && after.executions[e].repeated == Repetitions(t.executions[e].fingerprint, t.executions[e].repeated, rounds)
      && (after.executions[e].repeated > 0 ==> after.Refusal(s, None, false).Some?)
      && (after.Refusal(s, None, false).None? <==> after.executions[e].policy == Continue)
    decreases |rounds|
  {
    var before, last := rounds[..|rounds| - 1], rounds[|rounds| - 1];
    if before != [] {
      RepeatedPauseBlocksResume(t, s, e, before);
    }
    var start, end := Play(t, before, e), PlayCalls(t, rounds, e);
    RunsKeepValid(start, last.calls);
    CallsKeepFingerprint(start, last.calls, e);
    PauseKeepsValid(end, e, last.status, last.reason, last.fingerprint, last.usage);
    AfterPause(end, s, e, last.status, last.reason, last.fingerprint, last.usage);
  }

  /** The policy of a pause that was just persisted decides a plain resume. */
  lemma AfterPause(
    t: Tables, s: SessionId, e: ExecutionId, status: Status, reason: StopReason, fingerprint: string, usage: Usage)
    requires t.OneActive() && t.Attached(e) && t.executions[e].session == s && Active(status)
    ensures
      var after := t.Pause(e, status, reason, fingerprint, usage);
      && after.GetPending(s) == Some(e)
      && (after.executions[e].repeated > 0 ==> after.executions[e].policy != Continue)
      && (after.Refusal(s, None, false).None? <==> after.executions[e].policy == Continue)
  {
  }

  /** A plain resume succeeds exactly on these rows.  Rows of the second kind exist while an
      answered action runs, and after a crash then: `resume` clears the stop reason and start-up
      overwrites it, but both keep the policy of the earlier pause. */
  lemma PlainResumeExactly(t: Tables, s: SessionId)
    requires t.Valid()
    ensures t.Refusal(s, None, false).None? <==>
              && s in t.sessions && t.sessions[s].pending.Some?
              && var row := t.executions[t.sessions[s].pending.value];
                 && Active(row.status)
                 && (|| row.policy == Continue
                     || (row.policy == ActionRequired && row.stopReason != ToolApproval
                         && row.stopReason != ToolRecoveryRequired))
  {
  }

  /** An approval pause that is answered, interrupted by a crash and reconciled can be
      resumed plainly although its policy still asks for an action. */
  lemma CrashDropsTheRequiredAction(t: Tables, s: SessionId, e: ExecutionId, usage: Usage)
    requires t.Valid() && t.GetPending(s) == Some(e) && t.executions[e].fingerprint != "x"
    ensures
      var paused := t.Pause(e, PausedConfirmation, ToolApproval, "x", usage);
      && paused.Refusal(s, None, false) == Some(NeedsApproval)
      && paused.Refusal(s, Some(ResumeValue(false, true)), false).None?
      && var restarted := Do(paused, ResumeCall(s, Some(ResumeValue(false, true)), false)).MarkPausedRecovery(e);
         restarted.executions[e].policy == ActionRequired && restarted.Refusal(s, None, false).None?
  {
  }

  /* ---- Which attached executions can go on ---- */

  /** Some resume request is accepted for this session. */
  ghost predicate Resumable(t: Tables, s: SessionId) {
    exists value, retry :: t.Refusal(s, value, retry).None?
  }

  /** An attached execution can be resumed by some request if and only if it is active and its
      policy is not terminal; while it is attached the session can begin no other one, and a
      discard always frees it. */
  lemma ResumableExactly(t: Tables, s: SessionId, goalMode: bool)
    requires t.Valid() && s in t.sessions && t.sessions[s].pending.Some?
    ensures
      var row := t.executions[t.sessions[s].pending.value];
      Resumable(t, s) <==> Active(row.status) && row.policy != Terminal
    ensures t.Begin(s, goalMode).None?
    ensures t.Discard(s).Some? && t.Discard(s).value.Valid() && t.Discard(s).value.Begin(s, goalMode).Some?
  {
    var e := t.sessions[s].pending.value;
    assert t.GetAttached(s) == Some(e);
    SettleKeepsValid(t, s, e, Discarded, Other("discarded"));
    BeginKeepsValid(t.Discard(s).value, s, goalMode);
    if Active(t.executions[e].status) && t.executions[e].policy != Terminal {
      var toolRecovery := t.executions[e].stopReason == ToolRecoveryRequired;
      assert t.Refusal(s, Some(ResumeValue(toolRecovery, true)), true).None?;
    }
  }

  /** In an ordered run only two calls leave an attached execution behind that nothing can resume
      because it is not active: the close of a slice under an inactive status, whose caller has yet
      to release the session, and the report of a missing checkpoint.  (Every caller pauses with
      an active status.) */
  lemma StrandingCalls(t: Tables, c: Call, e: ExecutionId)
    requires t.Valid() && Ordered(t, c) && t.Attached(e) && Active(t.executions[e].status)
    requires c.PauseCall? ==> Active(c.status)
    ensures Do(t, c).Attached(e) && !Active(Do(t, c).executions[e].status) <==>
              || (c.FinishCall? && c.e == e && !Active(c.status))
              || (c.MissingCall? && c.e == e)
  {
    assert t.GetAttached(t.executions[e].session) == Some(e);
  }

  /* ---- What a paused execution needs to go on ---- */

  /** Stop reasons that need a change of circumstances, and those that are final. */
  predicate Conditional(reason: StopReason) {
    reason == ModelOutputLimit || reason == ContextCompactionRequired || reason == GraphError || reason == TurnError
  }

  predicate Final(reason: StopReason) { reason == LlmNotConfigured || reason == ToolCallLimit }

  /** A store call that is not about execution `e` of session `s`. */
  predicate Elsewhere(c: Call, e: ExecutionId, s: SessionId) {
    match c
    case ResumeCall(r, _, _) => r != s
    case StartCall(d, _) => d != e
    case FinishCall(_, d, _, _, _, _) => d != e
    case PauseCall(d, _, _, _, _) => d != e
    case CompleteCall(_, d, _, _, _) => d != e
    case DiscardCall(r) => r != s
    case TerminateCall(_, d, _) => d != e
    case MissingCall(d) => d != e
    case RecoveryCall(d) => d != e
    case CleanedCall(d) => d != e
    case _ => true
  }

  lemma ElsewhereKeepsRow(t: Tables, c: Call, e: ExecutionId)
    requires t.Valid() && t.Attached(e) && Ordered(t, c) && Elsewhere(c, e, t.executions[e].session)
    ensures Do(t, c).Attached(e) && Do(t, c).executions[e] == t.executions[e]
  {
    assert t.GetAttached(t.executions[e].session) == Some(e);
  }

  lemma {:induction false} RunElsewhereKeepsRow(t: Tables, calls: seq<Call>, e: ExecutionId)
    requires t.Valid() && t.Attached(e) && OrderedRun(t, calls)
    requires forall c :: c in calls ==> Elsewhere(c, e, t.executions[e].session)
    ensures Replay(t, calls).Valid() && Replay(t, calls).Attached(e) && Replay(t, calls).executions[e] == t.executions[e]
    decreases |calls|
  {
    if calls != [] {
      assert calls[0] in calls;
      assert forall c :: c in calls[1..] ==> c in calls;
      CallKeepsValid(t, calls[0]);
      ElsewhereKeepsRow(t, calls[0], e);
      RunElsewhereKeepsRow(Do(t, calls[0]), calls[1..], e);
    }
  }

  /** How an execution was paused decides, for every answer and every flag, whether a resume is
      accepted, and nothing that runs elsewhere in between changes it.  An approval needs the request
      it answers, a recovery decision an answer of its own type, a condition the retry flag; a final
      stop is never resumed; and anything else goes on unless it is stuck, which is a condition. */
  lemma PauseDecidesResume(
    t: Tables, s: SessionId, e: ExecutionId, status: Status, reason: StopReason, fingerprint: string, usage: Usage,
    calls: seq<Call>, value: Option<ResumeValue>, retry: bool)
    requires t.Valid() && t.Attached(e) && t.executions[e].session == s && Active(status)
    requires OrderedRun(t.Pause(e, status, reason, fingerprint, usage), calls)
    requires forall c :: c in calls ==> Elsewhere(c, e, s)
    ensures
      var refusal := Replay(t.Pause(e, status, reason, fingerprint, usage), calls).Refusal(s, value, retry);
      var stuck := t.executions[e].fingerprint == fingerprint;
      if reason == ToolApproval then
        refusal == (if value.Some? && value.value.requestId then None else Some(NeedsApproval))
      else if reason == ToolRecoveryRequired then
        refusal == (if value.Some? && value.value.toolRecovery then None else Some(NeedsToolRecovery))
      else if Final(reason) then refusal == Some(TerminalStop)
      else refusal == (if retry || !(stuck || Conditional(reason)) then None else Some(NeedsCondition))
  {
    var paused := t.Pause(e, status, reason, fingerprint, usage);
    PauseKeepsValid(t, e, status, reason, fingerprint, usage);
    RunElsewhereKeepsRow(paused, calls, e);
    assert Replay(paused, calls).GetPending(s) == Some(e);
  }

  /** What an accepted resume writes, and what it leaves. */
  lemma ResumeGrantsAnew(t: Tables, s: SessionId)
    requires t.Valid() && t.GetPending(s).Some?
    ensures
      var e := t.GetPending(s).value;
      var was, row := t.executions[e], t.Resume(s).executions[e];
      && row.status == Running && row.stopReason == NoReason && row.usage == Usage(0, 0, 0) && row.sliceIndex == 0
      && row.policy == was.policy && SameFingerprint(row, was) && row.checkpoint == was.checkpoint
      && t.Resume(s).slices == t.slices && t.Resume(s).sessions == t.sessions
      && forall d :: 0 <= d < |t.executions| && d != e ==> t.Resume(s).executions[d] == t.executions[d]
  {
  }

  /** A resume that the store accepts. */
  predicate Accepted(t: Tables, c: Call, e: ExecutionId) {
    c.ResumeCall? && t.GetPending(c.s) == Some(e) && t.Refusal(c.s, c.value, c.retryConditions).None?
  }

  predicate Reports(c: Call, e: ExecutionId) {
    || (c.FinishCall? && c.e == e)
    || (c.PauseCall? && c.e == e)
    || (c.CompleteCall? && c.e == e)
  }

  /** In an ordered run session, thread and goal mode of an execution never change, and its grant
      grows by accepted resumes only. */
  lemma CallKeepsIdentity(t: Tables, c: Call, e: ExecutionId)
    requires t.Valid() && t.Known(e) && Ordered(t, c)
    ensures Do(t, c).Known(e)
    ensures
      var was, row := t.executions[e], Do(t, c).executions[e];
      && row.session == was.session && row.thread == was.thread && row.goalMode == was.goalMode
      && row.grantIndex == was.grantIndex + if Accepted(t, c, e) then 1 else 0
  {
  }

  /** Its usage is the last one reported in the current grant. */
  lemma CallReportsUsage(t: Tables, c: Call, e: ExecutionId)
    requires t.Valid() && t.Known(e) && Ordered(t, c)
    ensures Do(t, c).Known(e)
    ensures Do(t, c).executions[e].usage ==
            if Accepted(t, c, e) then Usage(0, 0, 0) else if Reports(c, e) then c.usage else t.executions[e].usage
  {
  }

  /** A new execution has its first grant, nothing used, and leaves all others alone. */
  lemma BeginCreates(t: Tables, s: SessionId, goalMode: bool)
    requires t.Begin(s, goalMode).Some?
    ensures
      var after, e := t.Begin(s, goalMode).value, |t.executions|;
      && |after.executions| == e + 1 && after.executions[..e] == t.executions && after.slices == t.slices
      && var row := after.executions[e];
         && row.session == s && row.goalMode == goalMode && row.status == Running && row.stopReason == NoReason
         && row.grantIndex == 1 && row.graphSteps == row.sliceIndex == row.repeated == 0 && row.usage == Usage(0, 0, 0)
         && row.checkpoint == Uninitialized && row.policy == Continue && row.fingerprint == ""
  {
  }

  /** How a settled execution is left: its status and reason, a checkpoint to clean up, and a session
      that is free; nobody else is touched. */
  lemma SettledIsRecorded(t: Tables, s: SessionId, e: ExecutionId, reason: StopReason, d: ExecutionId)
    requires t.Attached(e) && t.executions[e].session == s && d < |t.executions| && d != e
    ensures
      var ended := t.Complete(s, e);
      ended.Some? && SettledAs(t, ended.value, e, Completed, CompletedReason) && ended.value.executions[d] == t.executions[d]
    ensures
      var ended := t.Discard(s);
      ended.Some? && SettledAs(t, ended.value, e, Discarded, Other("discarded")) && ended.value.executions[d] == t.executions[d]
    ensures
      var ended := t.Terminate(s, e, reason);
      ended.Some? && SettledAs(t, ended.value, e, Discarded, reason) && ended.value.executions[d] == t.executions[d]
  {
  }

  predicate SettledAs(t: Tables, after: Tables, e: ExecutionId, status: Status, reason: StopReason)
    requires t.Known(e)
  {
    && after.Known(e)
    && after.executions[e] == t.executions[e].(status := status, stopReason := reason, checkpoint := CleanupPending)
    && after.slices == t.slices && after.GetAttached(t.executions[e].session).None?
  }

  /** Without an active execution a resume is refused, by whether an inactive one is still attached. */
  lemma NothingToResume(t: Tables, s: SessionId, value: Option<ResumeValue>, retry: bool)
    requires t.GetPending(s).None?
    ensures t.Refusal(s, value, retry) == Some(if t.GetAttached(s).Some? then CheckpointUnavailable else NothingPending)
  {
  }
}
