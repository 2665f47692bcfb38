/** How one graph run reaches the loop (src/core/streaming/events.py, failures.py).

    The graph is the environment: the snapshots it shows, and how it stops. */
module GraphStream {
  import opened Common
  import opened Executions

  datatype FaultKind = CompactionRequired | HookRejected | Unexpected

  /** An exception and its text. */
  datatype Fault = Fault(kind: FaultKind, message: string)

  /** The one terminal item of a stream, or the exception that leaves it. */
  datatype Ending =
    | PausedEnd(reason: StopReason, steps: nat, checkpoint: string, cursor: string)
    | ErrorEnd(reason: StopReason, steps: nat, message: string, terminate: bool, category: StopReason)
    | DoneEnd(steps: nat)
    | RaisedEnd(fault: Fault)

  /** The turn journal of one `values` snapshot: how many tools each of its messages calls. */
  type Journal = seq<nat>

  /** What stops the graph. */
  datatype Stop =
    | Returns(truncated: bool)                  // truncated: the last answer hit the output limit
    | Interrupts(approval: bool, cursor: string)
    | HitsRecursionLimit
    | RaisesCompactionRequired(message: string)
    | RaisesBudgetExceeded(cursor: string)
    | RaisesRecoveryRequired(cursor: string)
    | RaisesOutputLimit(message: string)
    | Raises(message: string, terminate: bool, category: StopReason)   // as the provider handler reads it

  /** `unreadable` is the fault of reading the checkpoint a resumed run starts from, `seen` the length
      of its journal. */
  datatype GraphRun = GraphRun(
    unreadable: Option<Fault>, seen: nat, snapshots: seq<Journal>, stop: Stop, checkpoint: string, maxToolCalls: nat)

  /** `journal[seen:]`. */
  function News(seen: nat, journal: Journal): seq<nat> { if seen <= |journal| then journal[seen..] else [] }

  function Later(n: Option<nat>, k: nat): Option<nat> { if n.None? then None else Some(n.value + k) }

  /** The snapshot, counted from one, that brings the tool calls of new messages above `room`. */
  function ExceededAt(seen: nat, snapshots: seq<Journal>, room: nat): Option<nat>
    decreases |snapshots|
  {
    if snapshots == [] then None
    else
      var calls := Sum(News(seen, snapshots[0]));
      if calls > room then Some(1)
      else Later(ExceededAt(|snapshots[0]|, snapshots[1..], room - calls), 1)
  }

  function ToolLimitText(limit: nat): string {
    "Agent exceeded the per-turn tool call limit (" + Decimal(limit) + ")."
  }

  const OUTPUT_LIMIT_TEXT :=
    "The model exhausted its output token budget before producing a complete response. "
    + "Increase LEARN_AGENT_LLM_MAX_TOKENS and resume."

  /** The error item of a `ModelOutputLimitError`. */
  function OutputLimitEnding(steps: nat, message: string): Ending {
    ErrorEnd(ModelOutputLimit, steps, message, false, ModelOutputLimit)
  }

  function StopEnding(stop: Stop, steps: nat, checkpoint: string): Ending {
    match stop
    case Returns(truncated) =>
      if truncated then OutputLimitEnding(steps, OUTPUT_LIMIT_TEXT) else DoneEnd(steps)
    case Interrupts(approval, cursor) =>
      if approval then PausedEnd(ToolApproval, steps, checkpoint, cursor) else PausedEnd(GraphError, steps, checkpoint, "")
    case HitsRecursionLimit => PausedEnd(GraphStepLimit, steps, checkpoint, "")
    case RaisesCompactionRequired(message) => RaisedEnd(Fault(CompactionRequired, message))
    case RaisesBudgetExceeded(cursor) => PausedEnd(BudgetLimit, steps, checkpoint, cursor)
    case RaisesRecoveryRequired(cursor) => PausedEnd(ToolRecoveryRequired, steps, checkpoint, cursor)
    case RaisesOutputLimit(message) => OutputLimitEnding(steps, message)
    case Raises(message, terminate, category) => ErrorEnd(GraphError, steps, message, terminate, category)
  }

  /** Every run of a graph ends its stream in exactly one of the four ways. */
  function EndingOf(run: GraphRun): Ending {
    if run.unreadable.Some? then RaisedEnd(run.unreadable.value)
    else
      match ExceededAt(run.seen, run.snapshots, run.maxToolCalls)
      case Some(n) => ErrorEnd(ToolCallLimit, n, ToolLimitText(run.maxToolCalls), false, ToolCallLimit)
      case None => StopEnding(run.stop, |run.snapshots|, run.checkpoint)
  }

  /** `stream_graph_events` up to its terminal item: every message beyond the known part of the
      journal is counted when a snapshot first shows it. */
  method StreamGraphEvents(run: GraphRun) returns (ending: Ending)
    ensures ending == EndingOf(run)
  {
    if run.unreadable.Some? {
      return RaisedEnd(run.unreadable.value);
    }
    var seen: nat, calls: nat, steps: nat := run.seen, 0, 0;
    assert run.snapshots[0..] == run.snapshots;
    while steps < |run.snapshots|
      invariant steps <= |run.snapshots| && calls <= run.maxToolCalls
      invariant Later(ExceededAt(seen, run.snapshots[steps..], run.maxToolCalls - calls), steps) ==
                ExceededAt(run.seen, run.snapshots, run.maxToolCalls)
    {
      var journal := run.snapshots[steps];
      assert run.snapshots[steps..][1..] == run.snapshots[steps + 1..];
      steps := steps + 1;
      calls := CountNews(News(seen, journal), calls, run.maxToolCalls);
      if calls > run.maxToolCalls {
        return ErrorEnd(ToolCallLimit, steps, ToolLimitText(run.maxToolCalls), false, ToolCallLimit);
      }
      seen := |journal|;
    }
    ending := StopEnding(run.stop, steps, run.checkpoint);
  }

  /** Counts the calls of new messages one message at a time, up to the first one above the limit. */
  method CountNews(news: seq<nat>, before: nat, limit: nat) returns (calls: nat)
    requires before <= limit
    ensures calls > limit <==> before + Sum(news) > limit
    ensures calls <= limit ==> calls == before + Sum(news)
  {
    calls := before;
    assert news[0..] == news;
    for i := 0 to |news|
      invariant calls <= limit && calls + Sum(news[i..]) == before + Sum(news)
    {
      assert news[i..][1..] == news[i + 1..];
      calls := calls + news[i];
      if calls > limit {
        return;
      }
    }
  }

  /** The journal only grows from snapshot to snapshot. */
  predicate Grows(seen: nat, snapshots: seq<Journal>) {
    snapshots == [] || (seen <= |snapshots[0]| && Continues(snapshots))
  }

  predicate Continues(snapshots: seq<Journal>) {
    forall i :: 0 < i < |snapshots| ==> snapshots[i - 1] <= snapshots[i]
  }

  /** What the new messages of each snapshot call in all. */
  function Totals(seen: nat, snapshots: seq<Journal>): seq<nat> {
    seq(|snapshots|, i requires 0 <= i < |snapshots| => Sum(News(seen, snapshots[i])))
  }

  /** The first position, counted from one, at which a growing total is above `room`. */
  predicate FirstAbove(totals: seq<nat>, room: nat, at: Option<nat>) {
    match at
    case None => totals != [] ==> totals[|totals| - 1] <= room
    case Some(n) => 1 <= n <= |totals| && totals[n - 1] > room && (n > 1 ==> totals[n - 2] <= room)
  }

  /** With a growing journal each new message is counted once: the run ends at the tool limit if and
      only if the messages it added to the journal call more tools than permitted, and then at the
      first snapshot that shows it. */
  lemma {:induction false} ToolLimitExactly(seen: nat, snapshots: seq<Journal>, room: nat)
    requires Grows(seen, snapshots)
    ensures FirstAbove(Totals(seen, snapshots), room, ExceededAt(seen, snapshots, room))
    decreases |snapshots|
  {
    if snapshots != [] && Sum(News(seen, snapshots[0])) <= room {
      var first, rest := snapshots[0], snapshots[1..];
      var here := Sum(News(seen, first));
      RestGrows(seen, snapshots);
      ToolLimitExactly(|first|, rest, room - here);
      TotalsSinceFirst(seen, snapshots);
      AboveAfterFirst(Totals(seen, snapshots), Totals(|first|, rest), room, ExceededAt(|first|, rest, room - here));
    }
  }

  lemma AboveAfterFirst(totals: seq<nat>, rest: seq<nat>, room: nat, at: Option<nat>)
    requires |totals| == |rest| + 1 && totals[0] <= room && FirstAbove(rest, room - totals[0], at)
    requires forall i :: 0 <= i < |rest| ==> totals[i + 1] == totals[0] + rest[i]
    ensures FirstAbove(totals, room, Later(at, 1))
  {
    if at.None? && rest != [] {
      assert totals[|rest| - 1 + 1] == totals[0] + rest[|rest| - 1];
    } else if at.Some? {
      assert totals[at.value - 1 + 1] == totals[0] + rest[at.value - 1];
      assert at.value > 1 ==> totals[at.value - 2 + 1] == totals[0] + rest[at.value - 2];
    }
  }

  lemma RestGrows(seen: nat, snapshots: seq<Journal>)
    requires snapshots != [] && Grows(seen, snapshots)
    ensures Grows(|snapshots[0]|, snapshots[1..])
  {
    var rest := snapshots[1..];
    forall i | 0 < i < |rest| ensures rest[i - 1] <= rest[i] {
      assert snapshots[i] <= snapshots[i + 1];
    }
    if rest != [] {
      assert snapshots[0] <= snapshots[1];
    }
  }

  lemma TotalsSinceFirst(seen: nat, snapshots: seq<Journal>)
    requires snapshots != [] && Grows(seen, snapshots)
    ensures
      var totals, rest := Totals(seen, snapshots), Totals(|snapshots[0]|, snapshots[1..]);
      && totals[0] == Sum(News(seen, snapshots[0]))
      && forall i :: 0 <= i < |rest| ==> totals[i + 1] == totals[0] + rest[i]
  {
    var totals, rest := Totals(seen, snapshots), Totals(|snapshots[0]|, snapshots[1..]);
    forall i | 0 <= i < |rest| ensures totals[i + 1] == totals[0] + rest[i] {
      NewsSinceFirst(seen, snapshots, i + 1);
      assert snapshots[1..][i] == snapshots[i + 1];
    }
  }

  lemma NewsSinceFirst(seen: nat, snapshots: seq<Journal>, i: nat)
    requires 0 < i < |snapshots| && Grows(seen, snapshots)
    ensures Sum(News(seen, snapshots[i])) ==
            Sum(News(seen, snapshots[0])) + Sum(News(|snapshots[0]|, snapshots[i]))
  {
    AllContinueFirst(snapshots, i);
    var first := snapshots[0];
    assert News(seen, snapshots[i]) == News(seen, first) + News(|first|, snapshots[i]);
    SumOfConcat(News(seen, first), News(|first|, snapshots[i]));
  }

  lemma {:induction false} AllContinueFirst(snapshots: seq<Journal>, i: nat)
    requires Continues(snapshots) && i < |snapshots|
    ensures snapshots[0] <= snapshots[i]
  {
    if i > 0 {
      AllContinueFirst(snapshots, i - 1);
    }
  }

  /** A stream pauses for one of five reasons, none of them empty, and the only exception raised while
      the graph runs is the request for compaction. */
  lemma EndingReasons(run: GraphRun)
    ensures
      var ending := EndingOf(run);
      && (ending.PausedEnd? ==>
            ending.reason in {ToolApproval, GraphError, GraphStepLimit, BudgetLimit, ToolRecoveryRequired})
      && (ending.ErrorEnd? ==> ending.reason in {ToolCallLimit, ModelOutputLimit, GraphError})
      && (ending.ErrorEnd? && ending.terminate ==> ending.reason == GraphError)
      && (ending.RaisedEnd? ==>
            Some(ending.fault) == run.unreadable || ending.fault.kind == CompactionRequired)
  {
  }

  /** The graph could be read, and stayed within its tool limit. */
  predicate RanToItsStop(run: GraphRun) {
    run.unreadable.None? && ExceededAt(run.seen, run.snapshots, run.maxToolCalls).None?
  }

  /** Each ending has its one cause, and reports the steps of all snapshots. */
  lemma EndingHasItsCause(run: GraphRun)
    requires RanToItsStop(run)
    ensures
      var ending := EndingOf(run);
      && (ending.DoneEnd? <==> run.stop == Returns(false))
      && (ending.PausedEnd? && ending.reason == ToolApproval <==> run.stop.Interrupts? && run.stop.approval)
      && (ending.PausedEnd? && ending.reason == GraphError <==> run.stop.Interrupts? && !run.stop.approval)
      && (ending.PausedEnd? && ending.reason == GraphStepLimit <==> run.stop.HitsRecursionLimit?)
      && (ending.PausedEnd? && ending.reason == BudgetLimit <==> run.stop.RaisesBudgetExceeded?)
      && (ending.PausedEnd? && ending.reason == ToolRecoveryRequired <==> run.stop.RaisesRecoveryRequired?)
      && (ending.RaisedEnd? <==> run.stop.RaisesCompactionRequired?)
      && (ending.ErrorEnd? && ending.reason == ModelOutputLimit <==> run.stop == Returns(true) || run.stop.RaisesOutputLimit?)
      && (ending.ErrorEnd? && ending.reason == GraphError <==> run.stop.Raises?)
    ensures
      var ending := EndingOf(run);
      match ending
      case RaisedEnd(fault) => fault == Fault(CompactionRequired, run.stop.message)
      case DoneEnd(steps) => steps == |run.snapshots|
      case ErrorEnd(_, steps, message, terminate, category) =>
        && steps == |run.snapshots|
        && (run.stop.Raises? ==>
              message == run.stop.message && terminate == run.stop.terminate && category == run.stop.category)
        && (run.stop.RaisesOutputLimit? ==> message == run.stop.message)
      case PausedEnd(reason, steps, checkpoint, cursor) =>
        && steps == |run.snapshots| && checkpoint == run.checkpoint
        && cursor == match run.stop
                     case Interrupts(approval, at) => if approval then at else ""
                     case RaisesBudgetExceeded(at) => at
                     case RaisesRecoveryRequired(at) => at
                     case _ => ""
  {
  }
}
