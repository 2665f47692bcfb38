/** What one turn of the foreground loop tells, decided by its environment alone
    (src/core/agent/loop.py, slices.py, loop_errors.py, loop_pause.py).

    Graph runs, hooks, the task service, the clock and the finaliser are the
    environment: an arbitrary `Round` for every slice number. */
module TurnScript {
  import opened Common
  import opened Executions
  import opened GraphStream

  datatype Round = Round(
    wallBefore: bool,                     // the grant's wall time is over when the round starts
    ending: Ending,                       // what `StreamGraphEvents` returns for the graph run of the slice
    stopHook: Option<Fault>,              // None lets the turn complete
    unfinished: Result<bool, Fault>,      // does the task service see unfinished work
    finalizer: Option<Fault>,             // None commits the turn
    disconnected: bool,                   // the client asked to pause after this slice
    wallAfter: bool,
    usage: Usage)

  datatype Event =
    | GoalContinuationStarted(slice: nat)
    | TurnCompleted(slices: nat)
    | TurnPaused(reason: StopReason)
    | TurnFailed(message: string)
    | SliceError(reason: StopReason, message: string)
    | TurnTerminated(category: StopReason)

  predicate IsTerminal(e: Event) { !e.GoalContinuationStarted? }

  function Terminals(events: seq<Event>): nat {
    if events == [] then 0 else (if IsTerminal(events[0]) then 1 else 0) + Terminals(events[1..])
  }

  lemma {:induction false} TerminalsAppend(events: seq<Event>, e: Event)
    ensures Terminals(events + [e]) == Terminals(events) + if IsTerminal(e) then 1 else 0
  {
    if events == [] {
      assert (events + [e])[1..] == [];
    } else {
      assert (events + [e])[1..] == events[1..] + [e];
      TerminalsAppend(events[1..], e);
    }
  }

  /** How the body of the `try` block is left. */
  datatype Exit =
    | Returned
    | OutOfSlices(reason: StopReason, checkpoint: string, cursor: string)
    | Raised(fault: Fault, active: Option<SliceId>)

  /** Where one iteration of the loop leads. */
  datatype Next =
    | Again(reason: StopReason, checkpoint: string, cursor: string)
    | Leave(reason: StopReason, checkpoint: string, cursor: string)
    | Review
    | Finish(event: Event)
    | Throw(fault: Fault, open: bool)           // is the slice still open

  function Name(reason: StopReason): string {
    match reason
    case NoReason => ""
    case CompletedReason => "completed"
    case LlmNotConfigured => "llm_not_configured"
    case GraphStepLimit => "graph_step_limit"
    case ToolCallLimit => "tool_call_limit"
    case BudgetLimit => "budget_limit"
    case GrantWallTimeLimit => "grant_wall_time_limit"
    case ClientDisconnected => "client_disconnected"
    case ToolApproval => "tool_approval"
    case ToolRecoveryRequired => "tool_recovery_required"
    case ModelOutputLimit => "model_output_limit"
    case ContextCompactionRequired => "context_compaction_required"
    case GraphError => "graph_error"
    case TurnError => "turn_error"
    case Other(text) => text
  }

  function JoinParts(parts: seq<string>): string {
    if parts == [] then ""
    else if parts[0] == "" then JoinParts(parts[1..])
    else
      var rest := JoinParts(parts[1..]);
      if rest == "" then parts[0] else parts[0] + ":" + rest
  }

  /** The fingerprint a pause gets when its caller supplies none. */
  function DefaultFingerprint(reason: StopReason, summary: string): string { Name(reason) + ":" + summary }

  /** The stable names of the stop reasons tell them apart. */
  lemma NamesDiffer(a: StopReason, b: StopReason)
    requires Name(a) == Name(b) && !a.Other? && !b.Other?
    ensures a == b
  {
  }

  predicate Plain(part: string) { forall i :: 0 <= i < |part| ==> part[i] != ':' }

  function NonEmpty(parts: seq<string>): seq<string> {
    if parts == [] then [] else (if parts[0] == "" then [] else [parts[0]]) + NonEmpty(parts[1..])
  }

  /** The fields of a text between colons, where `open` is the beginning of the first. */
  function Fields(text: string, open: string): seq<string> {
    if text == "" then [open]
    else if text[0] == ':' then [open] + Fields(text[1..], "")
    else Fields(text[1..], open + [text[0]])
  }

  lemma {:induction false} FieldsOfPlain(part: string, rest: string, open: string)
    requires Plain(part)
    ensures Fields(part + rest, open) == Fields(rest, open + part)
    decreases |part|
  {
    if part == "" {
      assert part + rest == rest && open + part == open;
    } else {
      assert (part + rest)[1..] == part[1..] + rest;
      FieldsOfPlain(part[1..], rest, open + [part[0]]);
      assert open + [part[0]] + part[1..] == open + part;
    }
  }

  /** A pause fingerprint consists of exactly the parts that are not empty: two pauses have the same
      one if and only if they agree in reason, checkpoint and cursor, up to what is missing. */
  lemma {:induction false} JoinedPartsCanBeRead(parts: seq<string>)
    requires forall i :: 0 <= i < |parts| ==> Plain(parts[i])
    ensures JoinParts(parts) == "" <==> NonEmpty(parts) == []
    ensures NonEmpty(parts) != [] ==> Fields(JoinParts(parts), "") == NonEmpty(parts)
    decreases |parts|
  {
    if parts != [] {
      JoinedPartsCanBeRead(parts[1..]);
      if parts[0] != "" {
        var rest := JoinParts(parts[1..]);
        if rest == "" {
          FieldsOfPlain(parts[0], "", "");
          assert parts[0] + "" == parts[0] && "" + parts[0] == parts[0];
        } else {
          FieldsOfPlain(parts[0], ":" + rest, "");
          assert parts[0] + ":" + rest == parts[0] + (":" + rest) && "" + parts[0] == parts[0];
          assert (":" + rest)[1..] == rest;
        }
      }
    }
  }

  /** A default fingerprint names its reason and carries its summary. */
  lemma DefaultFingerprintsDiffer(a: StopReason, x: string, b: StopReason, y: string)
    requires Plain(Name(a)) && Plain(Name(b)) && DefaultFingerprint(a, x) == DefaultFingerprint(b, y)
    ensures Name(a) == Name(b) && x == y
  {
    var m, n, text := Name(a), Name(b), DefaultFingerprint(a, x);
    assert text[..|m|] == m && text[|m|] == ':' && text[|m| + 1..] == x;
    assert text[..|n|] == n && text[|n|] == ':' && text[|n| + 1..] == y;
    assert forall i :: 0 <= i < |m| ==> m[i] == text[i];
    assert forall i :: 0 <= i < |n| ==> n[i] == text[i];
    assert |m| == |n|;
  }

  /** What the client is told of an exception. */
  function FaultEvent(fault: Fault): Event {
    if fault.kind == CompactionRequired then TurnPaused(ContextCompactionRequired) else TurnFailed(fault.message)
  }

  /** Where the ending of slice `number` leads. */
  function Decide(round: Round, number: nat, reviewed: bool, goalMode: bool, limit: nat, tasks: bool): Next {
    match round.ending
    case RaisedEnd(fault) => Throw(fault, false)
    case ErrorEnd(reason, _, message, terminate, category) =>
      Finish(if terminate then TurnTerminated(category) else SliceError(reason, message))
    case DoneEnd(_) =>
      var asks := goalMode && !reviewed && number < limit && tasks;
      if round.stopHook.Some? then Throw(round.stopHook.value, true)
      else if asks && round.unfinished.Err? then Throw(round.unfinished.error, true)
      else if asks && round.unfinished.value then Review
      else if round.finalizer.Some? then Throw(round.finalizer.value, true)
      else Finish(TurnCompleted(number))
    case PausedEnd(given, _, checkpoint, cursor) =>
      var reason := if given == NoReason then GraphStepLimit else given;
      if reason in {BudgetLimit, ToolApproval, ToolRecoveryRequired} then Leave(reason, checkpoint, cursor)
      else if round.disconnected then Leave(ClientDisconnected, checkpoint, cursor)
      else if round.wallAfter then Leave(GrantWallTimeLimit, checkpoint, cursor)
      else Again(reason, checkpoint, cursor)
  }

  /** The events that follow when the loop is left. */
  function ExitEvents(exit: Exit): seq<Event> {
    match exit
    case Returned => []
    case OutOfSlices(reason, _, _) => [TurnPaused(reason)]
    case Raised(fault, _) => [FaultEvent(fault)]
  }

  predicate GoesOn(next: Next) { next.Again? || next.Review? }

  /** How the loop is left after an iteration whose slice has row `id`. */
  function ExitOf(next: Next, id: SliceId): Exit
    requires !GoesOn(next)
  {
    match next
    case Leave(reason, checkpoint, cursor) => OutOfSlices(reason, checkpoint, cursor)
    case Finish(_) => Returned
    case Throw(fault, open) => Raised(fault, if open then Some(id) else None)
  }

  /** What an iteration itself tells the client. */
  function Said(next: Next, number: nat): seq<Event> {
    if next.Review? then [GoalContinuationStarted(number)] else if next.Finish? then [next.event] else []
  }

  /** Where a turn stands between two slices: whether the review is used up, the reason and the data of
      the last pause, and what was told. */
  datatype Progress = Progress(reviewed: bool, reason: StopReason, checkpoint: string, cursor: string, events: seq<Event>)

  function Onward(p: Progress, next: Next, n: nat): Progress {
    match next
    case Again(reason, checkpoint, cursor) => Progress(p.reviewed, reason, checkpoint, cursor, p.events)
    case _ => p.(reviewed := p.reviewed || next.Review?, events := p.events + Said(next, n))
  }

  /** The same way out, whatever the row of the slice that is still bound. */
  predicate SameExit(a: Exit, b: Exit) {
    a == b || (a.Raised? && b.Raised? && a.fault == b.fault && (a.active.Some? <==> b.active.Some?))
  }

  /** Everything that decides how a turn runs: its environment and its settings. */
  datatype Script = Script(env: nat -> Round, reviewedBefore: bool, goalMode: bool, limit: nat, tasks: bool)
  {
    function NextAfter(n: nat, reviewed: bool): Next { Decide(env(n), n, reviewed, goalMode, limit, tasks) }

    /** The turn after `n` slices, if it is still going. */
    function After(n: nat): Option<Progress> {
      if n == 0 then Some(Progress(reviewedBefore, GraphStepLimit, "", "", []))
      else if After(n - 1).None? || env(n).wallBefore then None
      else
        var p := After(n - 1).value;
        var next := NextAfter(n, p.reviewed);
        if !GoesOn(next) then None
        else Some(Onward(p, next, n))
    }

    /** The slices or the wall time run out after `n` slices. */
    predicate RunsOut(n: nat) { n <= limit && After(n).Some? && (n == limit || env(n + 1).wallBefore) }

    /** Slice `n` ends the turn. */
    predicate EndsAt(n: nat) {
      1 <= n <= limit && After(n - 1).Some? && !env(n).wallBefore && !GoesOn(NextAfter(n, After(n - 1).value.reviewed))
    }

    /** The turn starts `n` slices in all. */
    predicate Stops(n: nat) { RunsOut(n) || EndsAt(n) }

    /** How the loop is left, and what was told before. */
    function Finale(n: nat): (Exit, seq<Event>)
      requires Stops(n)
    {
      if RunsOut(n) then
        var p := After(n).value;
        (OutOfSlices(if n == limit then p.reason else GrantWallTimeLimit, p.checkpoint, p.cursor), p.events)
      else
        var p := After(n - 1).value;
        var next := NextAfter(n, p.reviewed);
        (ExitOf(next, 0), p.events + Said(next, n))
    }

    /** The turn starts `n` slices in all, is left like this and has told this before. */
    predicate IsLeft(n: nat, exit: Exit, said: seq<Event>) {
      Stops(n) && SameExit(exit, Finale(n).0) && said == Finale(n).1
    }

    /** The turn starts `n` slices in all and tells these events. */
    predicate Tells(events: seq<Event>, n: nat) { Stops(n) && events == Finale(n).1 + ExitEvents(Finale(n).0) }
  }

  /** One slice further: the turn is still going, or this is how it ends. */
  lemma StepTells(s: Script, n: nat, before: Progress, next: Next, id: SliceId)
    requires n < s.limit && s.After(n) == Some(before) && !s.env(n + 1).wallBefore
    requires next == s.NextAfter(n + 1, before.reviewed)
    ensures
      var onward := Onward(before, next, n + 1);
      if GoesOn(next) then s.After(n + 1) == Some(onward)
      else s.IsLeft(n + 1, ExitOf(next, id), onward.events)
  {
    assert !GoesOn(next) ==> s.After(n + 1).None?;
  }

  lemma RunOutTells(s: Script, n: nat, last: Progress, reason: StopReason)
    requires n <= s.limit && s.After(n) == Some(last)
    requires if n == s.limit then reason == last.reason else s.env(n + 1).wallBefore && reason == GrantWallTimeLimit
    ensures s.IsLeft(n, OutOfSlices(reason, last.checkpoint, last.cursor), last.events)
  {
  }

  /** A turn that is still going has told at most of one review, for a goal that was not reviewed before. */
  lemma {:induction false} ProgressShape(s: Script, n: nat)
    requires s.After(n).Some?
    ensures
      var p := s.After(n).value;
      && (s.reviewedBefore ==> p.reviewed)
      && (p.events == [] || (|p.events| == 1 && p.events[0].GoalContinuationStarted?
                             && p.reviewed && !s.reviewedBefore && s.goalMode))
  {
    if n > 0 {
      ProgressShape(s, n - 1);
    }
  }

  /** A turn says one thing or two, the last of them terminal; the other asks for a review, and only
      for a goal that was not reviewed before. */
  lemma TellsShape(s: Script, events: seq<Event>, n: nat)
    requires s.Tells(events, n)
    ensures n <= s.limit && Shaped(events, s.reviewedBefore || !s.goalMode)
  {
    if s.RunsOut(n) {
      ProgressShape(s, n);
    } else {
      var p := s.After(n - 1).value;
      ProgressShape(s, n - 1);
      DecideShape(s.env(n), n, p.reviewed, s.goalMode, s.limit, s.tasks);
      LastWords(p.events, s.NextAfter(n, p.reviewed), n, s.reviewedBefore || !s.goalMode);
    }
  }

  predicate Shaped(events: seq<Event>, unasked: bool) {
    && 1 <= |events| <= 2 && IsTerminal(events[|events| - 1])
    && (|events| == 2 ==> events[0].GoalContinuationStarted? && !unasked)
  }

  lemma DecideShape(round: Round, number: nat, reviewed: bool, goalMode: bool, limit: nat, tasks: bool)
    ensures
      var next := Decide(round, number, reviewed, goalMode, limit, tasks);
      next.Finish? ==> IsTerminal(next.event)
  {
  }

  lemma LastWords(before: seq<Event>, next: Next, n: nat, unasked: bool)
    requires !GoesOn(next) && (next.Finish? ==> IsTerminal(next.event))
    requires |before| <= 1 && (before == [] || before[0].GoalContinuationStarted?) && (unasked ==> before == [])
    ensures Shaped(before + Said(next, n) + ExitEvents(ExitOf(next, 0)), unasked)
  {
  }

  lemma {:induction false} StillGoing(s: Script, m: nat, n: nat)
    requires m <= n && s.After(n).Some?
    ensures s.After(m).Some? && (m < n ==> !s.EndsAt(m + 1) && !s.env(m + 1).wallBefore)
    decreases n - m
  {
    if m < n {
      StillGoing(s, m + 1, n);
    }
  }

  /** The environment determines the events of a turn and the number of its slices. */
  lemma TellsOnce(s: Script, events: seq<Event>, n: nat, other: seq<Event>, m: nat)
    requires s.Tells(events, n) && s.Tells(other, m) && n <= m
    ensures n == m && events == other
  {
    var last := if s.RunsOut(m) then m else m - 1;
    if n <= last {
      StillGoing(s, n, last);
      if n > 0 {
        StillGoing(s, n - 1, last);
      }
    }
  }

  /* ---- The same story, told from the environment ---- */

  /** A turn that starts `n` slices was still going before each of them. */
  lemma Reached(s: Script, n: nat, k: nat)
    requires s.Stops(n) && 1 <= k <= n
    ensures k <= s.limit && s.After(k - 1).Some? && !s.env(k).wallBefore
    ensures n > k ==> s.After(k).Some?
  {
    var last := if s.RunsOut(n) then n else n - 1;
    StillGoing(s, k - 1, last);
    if n > k {
      StillGoing(s, k, last);
    }
  }

  /** A turn without slices: its time was over, or it may have none. */
  lemma NoSlice(s: Script)
    requires s.Stops(0)
    ensures s.limit == 0 || s.env(1).wallBefore
    ensures s.Finale(0) == (OutOfSlices(if s.limit == 0 then GraphStepLimit else GrantWallTimeLimit, "", ""), [])
  {
  }

  /** Pauses that wait for somebody, or for a new grant. */
  predicate Decisive(reason: StopReason) {
    reason == BudgetLimit || reason == ToolApproval || reason == ToolRecoveryRequired
  }

  /** Any other pause, the step limit above all, goes on exactly if slices and wall time are left and
      the client is connected; a pause that does not go on is the last thing that happens. */
  lemma PausedSlice(s: Script, n: nat, k: nat)
    requires s.Stops(n) && 1 <= k <= n && s.env(k).ending.PausedEnd? && s.env(k).ending.reason != NoReason
    ensures
      var r, reason := s.env(k), s.env(k).ending.reason;
      var stop := if Decisive(reason) then reason
                  else if r.disconnected then ClientDisconnected
                  else if !r.wallAfter && k == s.limit then reason
                  else GrantWallTimeLimit;
      && (n > k <==> !Decisive(reason) && !r.disconnected && !r.wallAfter && k < s.limit && !s.env(k + 1).wallBefore)
      && (n == k ==> s.Finale(n).0 == OutOfSlices(stop, r.ending.checkpoint, r.ending.cursor))
  {
    Reached(s, n, k);
    if n > k {
      Reached(s, n, k + 1);
    }
  }

  /** An error item and an exception end the turn. */
  lemma FailedSlice(s: Script, n: nat, k: nat)
    requires s.Stops(n) && 1 <= k <= n && (s.env(k).ending.ErrorEnd? || s.env(k).ending.RaisedEnd?)
    ensures n == k
    ensures
      var (exit, said) := s.Finale(n);
      match s.env(k).ending
      case RaisedEnd(fault) =>
        && exit == Raised(fault, None)
        && ExitEvents(exit) == [if fault.kind == CompactionRequired then TurnPaused(ContextCompactionRequired)
                                else TurnFailed(fault.message)]
      case ErrorEnd(reason, _, message, terminate, category) =>
        exit == Returned && said != []
        && said[|said| - 1] == (if terminate then TurnTerminated(category) else SliceError(reason, message))
      case _ => true
  {
    Reached(s, n, k);
  }

  /** Who asked for a review so far. */
  lemma {:induction false} ReviewsSoFar(s: Script, m: nat)
    requires s.After(m).Some?
    ensures
      var p := s.After(m).value;
      && (p.reviewed <==> s.reviewedBefore || p.events != [])
      && (forall e :: e in p.events ==> e.GoalContinuationStarted? && 1 <= e.slice <= m)
  {
    if m > 0 {
      ReviewsSoFar(s, m - 1);
    }
  }

  lemma {:induction false} EventsAreNumbered(s: Script, m: nat, n: nat)
    requires m <= n && s.After(n).Some?
    ensures s.After(m).Some?
    ensures forall j :: 1 <= j <= m ==>
              (GoalContinuationStarted(j) in s.After(n).value.events <==> GoalContinuationStarted(j) in s.After(m).value.events)
    decreases n - m
  {
    if m < n {
      EventsAreNumbered(s, m, n - 1);
    }
  }

  /** What was told of the slices up to `k` was told when slice `k` had ended. */
  lemma SaidUpTo(s: Script, n: nat, k: nat)
    requires s.Stops(n) && 1 <= k <= n
    ensures s.After(k - 1).Some?
    ensures forall j :: 1 <= j < k ==>
              (GoalContinuationStarted(j) in s.Finale(n).1 <==> GoalContinuationStarted(j) in s.After(k - 1).value.events)
    ensures n > k ==>
              s.After(k).Some?
              && (GoalContinuationStarted(k) in s.Finale(n).1 <==> GoalContinuationStarted(k) in s.After(k).value.events)
  {
    LastSliceAsksNothing(s, n);
    Reached(s, n, k);
    AskedBefore(s, s.Finale(n).1, if s.RunsOut(n) then n else n - 1, k - 1);
    if n > k {
      AskedBefore(s, s.Finale(n).1, if s.RunsOut(n) then n else n - 1, k);
    }
  }

  lemma AskedBefore(s: Script, said: seq<Event>, last: nat, m: nat)
    requires m <= last && s.After(last).Some?
    requires forall j :: GoalContinuationStarted(j) in said <==> GoalContinuationStarted(j) in s.After(last).value.events
    ensures s.After(m).Some?
    ensures forall j :: 1 <= j <= m ==>
              (GoalContinuationStarted(j) in said <==> GoalContinuationStarted(j) in s.After(m).value.events)
  {
    EventsAreNumbered(s, m, last);
  }

  /** The slice that ends a turn asks for no review. */
  lemma LastSliceAsksNothing(s: Script, n: nat)
    requires s.Stops(n)
    ensures
      var last := if s.RunsOut(n) then n else n - 1;
      s.After(last).Some?
      && forall j :: GoalContinuationStarted(j) in s.Finale(n).1 <==> GoalContinuationStarted(j) in s.After(last).value.events
  {
    if !s.RunsOut(n) {
      DecideShape(s.env(n), n, s.After(n - 1).value.reviewed, s.goalMode, s.limit, s.tasks);
    }
  }

  /** A review may still be asked for after slice `k`, by what was told before it. */
  predicate MayReview(s: Script, said: seq<Event>, k: nat) {
    && s.goalMode && s.tasks && k < s.limit && !s.reviewedBefore
    && forall j :: 1 <= j < k ==> GoalContinuationStarted(j) !in said
  }

  /** A graph run that is done is reviewed once if work is unfinished; otherwise it ends the turn, by
      the first of stop hook, task service and finalizer that fails, or completed. */
  lemma DoneSlice(s: Script, n: nat, k: nat)
    requires s.Stops(n) && 1 <= k <= n && s.env(k).ending.DoneEnd?
    ensures
      var (exit, said), r := s.Finale(n), s.env(k);
      var asks := r.stopHook.None? && MayReview(s, said, k);
      && (GoalContinuationStarted(k) in said <==> asks && r.unfinished == Ok(true))
      && (n > k <==> asks && r.unfinished == Ok(true) && !s.env(k + 1).wallBefore)
      && (n == k && !(asks && r.unfinished == Ok(true)) ==>
            if r.stopHook.Some? then exit == Raised(r.stopHook.value, Some(0))
            else if asks && r.unfinished.Err? then exit == Raised(r.unfinished.error, Some(0))
            else if r.finalizer.Some? then exit == Raised(r.finalizer.value, Some(0))
            else exit == Returned && said != [] && said[|said| - 1] == TurnCompleted(k))
  {
    Reached(s, n, k);
    SaidUpTo(s, n, k);
    ReviewsSoFar(s, k - 1);
    var p := s.After(k - 1).value;
    assert p.reviewed <==> s.reviewedBefore || exists j :: 1 <= j < k && GoalContinuationStarted(j) in p.events by {
      if p.events != [] {
        assert p.events[0] in p.events && p.events[0] == GoalContinuationStarted(p.events[0].slice);
      }
    }
    if n > k {
      Reached(s, n, k + 1);
      assert s.After(k).Some?;
    }
  }

  /** A slice that stopped at its step limit while the turn could go on. */
  predicate StepLimited(r: Round) {
    r.ending.PausedEnd? && r.ending.reason == GraphStepLimit && !r.wallBefore && !r.disconnected && !r.wallAfter
  }

  /** Slice `k` stops for a decision, behind slices that only ran into their step limit. */
  predicate HeldAt(env: nat -> Round, limit: nat, k: nat) {
    && 1 <= k <= limit && (forall i :: 1 <= i < k ==> StepLimited(env(i)))
    && !env(k).wallBefore && env(k).ending.PausedEnd? && Decisive(env(k).ending.reason)
  }

  lemma {:induction false} StillUntold(s: Script, k: nat, m: nat)
    requires HeldAt(s.env, s.limit, k) && m < k
    ensures s.After(m).Some? && s.After(m).value.events == []
  {
    if m > 0 {
      StillUntold(s, k, m - 1);
      assert StepLimited(s.env(m));
    }
  }

  /** No slice is started behind a pause for an approval, a recovery decision or the budget: the turn
      ends there, tells of that pause and of nothing else, and is left with its checkpoint and cursor. */
  lemma HeldForADecision(s: Script, events: seq<Event>, n: nat, k: nat)
    requires s.Tells(events, n) && HeldAt(s.env, s.limit, k)
    ensures n == k && events == [TurnPaused(s.env(k).ending.reason)]
    ensures
      var paused := s.env(k).ending;
      s.Finale(n) == (OutOfSlices(paused.reason, paused.checkpoint, paused.cursor), [])
  {
    StillUntold(s, k, k - 1);
    assert s.EndsAt(k) && !s.RunsOut(k);
    var told := s.Finale(k).1 + ExitEvents(s.Finale(k).0);
    if n <= k {
      TellsOnce(s, events, n, told, k);
    } else {
      TellsOnce(s, told, k, events, n);
    }
  }
}
