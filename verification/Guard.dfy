/** Compaction inside one turn: the guard in front of every model call, and the agent graph
    around it (src/core/agent/context_guard.py, graph.py).

    The graph keeps two message lists: the active window sent to the model and an append-only
    journal.  The guard removes closed tool cycles from the window only.  Message ids are
    numbers, 0 for a message without one. */
module Guard {
  import opened Common

  type MessageId = nat

  datatype Message =
    | Other(id: MessageId)
    | Ai(id: MessageId, calls: seq<string>)
    | Tool(id: MessageId, call: string)

  predicate HasCalls(m: Message) { m.Ai? && m.calls != [] }

  function Ids(ms: seq<Message>): set<MessageId> { set m | m in ms :: m.id }

  /* ---- `_closed_tool_cycles` ---- */

  /** A closed cycle: an assistant request and its results, with the stretch of the journal it fills. */
  datatype Cycle = Cycle(first: nat, end: nat, messages: seq<Message>)

  function ToolRun(journal: seq<Message>, i: nat): (end: nat)
    requires i <= |journal|
    ensures i <= end <= |journal|
    ensures forall k :: i <= k < end ==> journal[k].Tool?
    ensures end < |journal| ==> !journal[end].Tool?
    decreases |journal| - i
  {
    if i < |journal| && journal[i].Tool? then ToolRun(journal, i + 1) else i
  }

  predicate Answered(request: Message, results: seq<Message>)
    requires request.Ai?
  {
    forall c :: c in request.calls ==> exists r :: r in results && r.Tool? && r.call == c
  }

  function Cycles(journal: seq<Message>, start: nat): seq<Cycle>
    decreases |journal| - start
  {
    if start >= |journal| then []
    else if !HasCalls(journal[start]) then Cycles(journal, start + 1)
    else
      var end := ToolRun(journal, start + 1);
      if Answered(journal[start], journal[start + 1..end]) then
        [Cycle(start, end, journal[start..end])] + Cycles(journal, end)
      else []
  }

  /** A request in the journal followed by exactly the results behind it, all calls answered. */
  predicate IsClosed(journal: seq<Message>, c: Cycle) {
    && c.first < c.end <= |journal|
    && c.messages == journal[c.first..c.end]
    && HasCalls(c.messages[0])
    && Answered(c.messages[0], c.messages[1..])
    && (forall k :: 0 < k < |c.messages| ==> c.messages[k].Tool?)
    && (c.end < |journal| ==> !journal[c.end].Tool?)
  }

  /** One after the other, from `start` on. */
  predicate Ascending(cycles: seq<Cycle>, start: nat) {
    cycles == [] || (start <= cycles[0].first < cycles[0].end && Ascending(cycles[1..], cycles[0].end))
  }

  lemma {:induction false} CyclesAreClosed(journal: seq<Message>, start: nat)
    ensures forall c :: c in Cycles(journal, start) ==> IsClosed(journal, c)
    ensures Ascending(Cycles(journal, start), start)
    decreases |journal| - start
  {
    if start < |journal| {
      if !HasCalls(journal[start]) {
        CyclesAreClosed(journal, start + 1);
      } else {
        CyclesAreClosed(journal, ToolRun(journal, start + 1));
      }
    }
  }

  lemma {:induction false} EndsAscend(cycles: seq<Cycle>, start: nat, n: nat, m: nat)
    requires Ascending(cycles, start) && n < m < |cycles|
    ensures start <= cycles[n].first < cycles[n].end <= cycles[m].first < cycles[m].end
  {
    if n > 0 {
      EndsAscend(cycles[1..], cycles[0].end, n - 1, m - 1);
    } else if m > 1 {
      EndsAscend(cycles[1..], cycles[0].end, 0, m - 1);
    }
  }

  function Messages(cycles: seq<Cycle>): seq<Message> {
    if cycles == [] then [] else cycles[0].messages + Messages(cycles[1..])
  }

  /* ---- The guard ---- */

  datatype Phase = AtGuard | AtAgent | AtTools | AtJournal | Ended

  datatype State = State(
    active: seq<Message>, journal: seq<Message>, summary: string,
    compacted: nat, generation: nat, retry: bool, phase: Phase)
  {
    function Start(): nat { Max(1, compacted) }

    function Closed(): seq<Cycle> { Cycles(journal, Start()) }
  }

  datatype Outcome =
    | Unchanged                  // {}
    | RetryCleared               // only context_guard_retry = False
    | CompactionRequired         // raised: the state stays as it was
    | Compacted(removals: set<MessageId>, summary: string, compacted: nat, generation: nat, retry: bool)

  /** The limits and the estimators of one agent. */
  datatype Settings = Settings(soft: nat, hard: nat, count: seq<Message> -> nat, summaryCost: string -> nat)
  {
    function Removed(cycles: seq<Cycle>): nat {
      if cycles == [] then 0 else Removed(cycles[..|cycles| - 1]) + count(cycles[|cycles| - 1].messages)
    }

    /** The newest closed cycle is eligible only above the hard limit. */
    function Eligible(cycles: seq<Cycle>, projected: nat): nat {
      if projected > hard || cycles == [] then |cycles| else |cycles| - 1
    }

    /** The fewest oldest cycles whose removal is predicted to reach the soft limit, or all eligible ones. */
    ghost predicate Selects(s: State, projected: nat, k: nat) {
      var cycles := s.Closed();
      && k <= Eligible(cycles, projected)
      && (k == Eligible(cycles, projected) || projected - Removed(cycles[..k]) <= soft)
      && (forall j :: 0 <= j < k ==> projected - Removed(cycles[..j]) > soft)
    }

    function Cost(summary: string): nat { if summary == "" then 0 else summaryCost(summary) }

    /** What the guard answers for a projection, a summariser reply (None: it raised) and a selection. */
    ghost predicate Decides(s: State, projected: nat, reply: Option<string>, k: nat, o: Outcome) {
      if projected <= soft then k == 0 && o == (if s.retry then RetryCleared else Unchanged)
      else
        && Selects(s, projected, k)
        && var source := Messages(s.Closed()[..k]);
           if k == 0 || reply.None? || 0 in Ids(source) then
             o == if projected > hard then CompactionRequired else Unchanged
           else
             o == Compacted(Ids(source), reply.value, s.Closed()[k - 1].end, s.generation + 1,
                            projected - count(source) - Cost(s.summary) + summaryCost(reply.value) > hard)
    }
  }

  /** `_closed_tool_cycles`. */
  method ClosedToolCycles(journal: seq<Message>, start: nat) returns (cycles: seq<Cycle>)
    ensures cycles == Cycles(journal, start)
  {
    cycles := [];
    var index := start;
    while index < |journal|
      invariant cycles + Cycles(journal, index) == Cycles(journal, start)
    {
      var assistant := journal[index];
      if !HasCalls(assistant) {
        index := index + 1;
        continue;
      }
      var end := index + 1;
      while end < |journal| && journal[end].Tool?
        invariant index + 1 <= end <= |journal|
        invariant ToolRun(journal, end) == ToolRun(journal, index + 1)
      {
        end := end + 1;
      }
      var actual := set r | r in journal[index + 1..end] && r.Tool? :: r.call;
      if forall c :: c in assistant.calls ==> c in actual {
        assert Answered(assistant, journal[index + 1..end]);
        cycles := cycles + [Cycle(index, end, journal[index..end])];
        index := end;
        continue;
      }
      assert !Answered(assistant, journal[index + 1..end]);
      assert cycles + [] == cycles;
      break;
    }
  }

  class InTurnContextGuard {
    const settings: Settings

    constructor (settings: Settings)
      ensures this.settings == settings
    {
      this.settings := settings;
    }

    /** The loop that picks the cycles to compact. */
    method Select(s: State, projected: nat, cycles: seq<Cycle>) returns (k: nat)
      requires cycles == s.Closed() && projected > settings.soft
      ensures settings.Selects(s, projected, k)
    {
      CyclesAreClosed(s.journal, s.Start());
      k := 0;
      var predicted: int := projected;
      while k < |cycles|
        invariant k <= settings.Eligible(cycles, projected)
        invariant predicted == projected - settings.Removed(cycles[..k])
        invariant forall j :: 0 <= j <= k ==> projected - settings.Removed(cycles[..j]) > settings.soft
      {
        var isLatest := cycles[k].end == cycles[|cycles| - 1].end;
        if k < |cycles| - 1 {
          EndsAscend(cycles, s.Start(), k, |cycles| - 1);
        }
        if isLatest && projected <= settings.hard {
          break;
        }
        predicted := predicted - settings.count(cycles[k].messages);
        assert cycles[..k + 1][..k] == cycles[..k];
        k := k + 1;
        if predicted <= settings.soft {
          break;
        }
      }
    }

    /** `__call__`, for any projection and any reply of the summariser. */
    method Call(s: State, projected: nat, reply: Option<string>) returns (o: Outcome)
      ensures exists k :: settings.Decides(s, projected, reply, k, o)
    {
      if projected <= settings.soft {
        o := if s.retry then RetryCleared else Unchanged;
        assert settings.Decides(s, projected, reply, 0, o);
        return;
      }
      var cycles := ClosedToolCycles(s.journal, Max(1, s.compacted));
      var k := Select(s, projected, cycles);
      var source := Messages(cycles[..k]);
      if k == 0 || reply.None? || 0 in Ids(source) {
        o := if projected > settings.hard then CompactionRequired else Unchanged;
        assert settings.Decides(s, projected, reply, k, o);
        return;
      }
      var post := Max(0, projected - settings.count(source) - settings.Cost(s.summary) + settings.summaryCost(reply.value));
      o := Compacted(Ids(source), reply.value, cycles[k - 1].end, s.generation + 1, post > settings.hard);
      assert settings.Decides(s, projected, reply, k, o);
    }
  }

  /** When the guard raises, compacts, clears the flag or stays silent, by what can be seen before:
      at or below the soft limit it never touches the window; the newest closed cycle is given up only
      above the hard limit; and it raises exactly if the window is above that limit and there is
      nothing it can compact.  What it compacts is enough, or all there is; and it asks for another pass
      exactly if what is left and the new summary are predicted to exceed the hard limit. */
  lemma GuardAnswersExactly(g: Settings, s: State, projected: nat, reply: Option<string>, k: nat, o: Outcome)
    requires g.soft <= g.hard && g.Decides(s, projected, reply, k, o)
    ensures
      var eligible := if projected > g.hard then |s.Closed()| else |s.Closed()| - 1;
      var able := eligible > 0 && reply.Some? && 0 !in Ids(Messages(s.Closed()[..k]));
      && (o.RetryCleared? <==> projected <= g.soft && s.retry)
      && (o.Compacted? <==> projected > g.soft && able)
      && (o.CompactionRequired? <==> projected > g.hard && !able)
    ensures o.Compacted? ==>
              && 0 < k <= |s.Closed()| && (projected <= g.hard ==> k < |s.Closed()|)
              && o.summary == reply.value && o.generation == s.generation + 1
              && (projected - g.Removed(s.Closed()[..k]) > g.soft ==>
                    k == if projected > g.hard then |s.Closed()| else |s.Closed()| - 1)
              && projected - g.Removed(s.Closed()[..k - 1]) > g.soft
              && o.removals == Ids(Messages(s.Closed()[..k])) && o.compacted == s.Closed()[k - 1].end
              && (o.retry <==> projected + g.summaryCost(o.summary) >
                               g.hard + g.count(Messages(s.Closed()[..k]))
                               + if s.summary == "" then 0 else g.summaryCost(s.summary))
  {
    if projected > g.soft {
      assert g.Selects(s, projected, k);
      assert s.Closed()[..0] == [];
    }
  }
}
