/** Whole runs of the agent graph: the guard, the model, the tools, the journal, new inputs and
    resume instructions in any order the graph allows (src/core/agent/graph.py, runtime_graph.py,
    src/core/streaming/events.py). */
module GuardRuns {
  import opened Common
  import opened Guard

  predicate Plain(m: Message) { m.Other? || (m.Ai? && m.calls == []) }

  predicate Distinct(ms: seq<Message>) {
    forall i, j :: 0 <= i < j < |ms| ==> ms[i].id != ms[j].id
  }

  /** The list reducer of the graph: a known id is replaced in place, others are appended. */
  function Upsert(ms: seq<Message>, m: Message): seq<Message> {
    if ms == [] then [m]
    else if ms[0].id == m.id then [m] + ms[1..]
    else [ms[0]] + Upsert(ms[1..], m)
  }

  function Merge(ms: seq<Message>, more: seq<Message>): seq<Message>
    decreases |more|
  {
    if more == [] then ms else Merge(Upsert(ms, more[0]), more[1..])
  }

  function Without(ms: seq<Message>, ids: set<MessageId>): seq<Message> {
    if ms == [] then []
    else if ms[0].id in ids then Without(ms[1..], ids)
    else [ms[0]] + Without(ms[1..], ids)
  }

  /** `latest_tool_results`: the results behind the last request that answer one of its calls. */
  function LastRequest(ms: seq<Message>): (i: int)
    ensures -1 <= i < |ms|
    ensures i >= 0 ==> HasCalls(ms[i])
    ensures forall k :: i < k < |ms| ==> !HasCalls(ms[k])
  {
    if ms == [] then -1 else if HasCalls(ms[|ms| - 1]) then |ms| - 1 else LastRequest(ms[..|ms| - 1])
  }

  function Answering(ms: seq<Message>, calls: seq<string>): seq<Message> {
    if ms == [] then []
    else if ms[0].Tool? && ms[0].call in calls then [ms[0]] + Answering(ms[1..], calls)
    else Answering(ms[1..], calls)
  }

  function LatestToolResults(ms: seq<Message>): seq<Message> {
    var i := LastRequest(ms);
    if i < 0 then [] else Answering(ms[i + 1..], ms[i].calls)
  }

  /* ---- Runs ---- */

  datatype Event =
    | Input(history: seq<Message>, question: Message)      // a new turn or a goal continuation
    | Instruct(message: Message)                           // a resume instruction
    | Answer(message: Message)
    | RunTools(results: seq<Message>)
    | MirrorResults
    | Pass(projected: nat, reply: Option<string>, k: nat, outcome: Outcome)

  /** Ids are assigned once and never reused. */
  predicate Fresh(s: State, ms: seq<Message>) {
    && Distinct(ms)
    && forall m :: m in ms ==> m.id != 0 && m.id !in Ids(s.active) && m.id !in Ids(s.journal)
  }

  /** One result for every call, in order. */
  predicate Answers(request: Message, results: seq<Message>)
    requires request.Ai?
  {
    && |results| == |request.calls|
    && forall i :: 0 <= i < |results| ==> results[i].Tool? && results[i].call == request.calls[i]
  }

  ghost predicate Enabled(g: Settings, s: State, e: Event) {
    match e
    case Input(history, question) =>
      Fresh(s, history + [question]) && forall m :: m in history + [question] ==> Plain(m)
    case Instruct(m) => Plain(m) && Fresh(s, [m])
    case Answer(m) => s.phase == AtAgent && m.Ai? && Fresh(s, [m])
    case RunTools(results) =>
      && s.phase == AtTools && s.active != [] && Fresh(s, results)
      && s.active[|s.active| - 1].Ai? && Answers(s.active[|s.active| - 1], results)
    case MirrorResults => s.phase == AtJournal
    case Pass(projected, reply, k, o) => s.phase == AtGuard && g.Decides(s, projected, reply, k, o)
  }

  function Perform(s: State, e: Event): State {
    match e
    case Input(history, question) =>
      s.(active := Merge(s.active, history + [question]), journal := Merge(s.journal, [question]), phase := AtGuard)
    case Instruct(m) => s.(active := Merge(s.active, [m]), journal := Merge(s.journal, [m]), phase := Ended)
    case Answer(m) =>
      s.(active := Merge(s.active, [m]), journal := Merge(s.journal, [m]), phase := if HasCalls(m) then AtTools else Ended)
    case RunTools(results) => s.(active := Merge(s.active, results), phase := AtJournal)
    case MirrorResults => s.(journal := Merge(s.journal, LatestToolResults(s.active)), phase := AtGuard)
    case Pass(_, _, _, o) =>
      match o
      case Unchanged => s.(phase := Route(s.retry))
      case RetryCleared => s.(retry := false, phase := Route(false))
      case CompactionRequired => s
      case Compacted(removals, summary, compacted, generation, retry) =>
        State(Without(s.active, removals), s.journal, summary, compacted, generation, retry, Route(retry))
  }

  /** `route_context_guard`. */
  function Route(retry: bool): Phase { if retry then AtGuard else AtAgent }

  /** A fresh checkpoint thread after its first input. */
  predicate Initial(s: State) {
    && s.active != [] && Distinct(s.active)
    && (forall m :: m in s.active ==> Plain(m) && m.id != 0)
    && s.journal == [s.active[|s.active| - 1]]
    && s.compacted == 0 && s.phase == AtGuard && !s.retry
  }

  ghost predicate Run(g: Settings, trace: seq<State>, events: seq<Event>) {
    && |trace| == |events| + 1
    && Initial(trace[0])
    && forall i {:trigger events[i]} :: 0 <= i < |events| ==>
         Enabled(g, trace[i], events[i]) && trace[i + 1] == Perform(trace[i], events[i])
  }

  /* ---- What the two lists are made of ---- */

  datatype Stage = Called | Ran | Mirrored

  datatype Block =
    | Single(message: Message, journaled: bool)
    | Group(request: Message, results: seq<Message>, stage: Stage, removed: bool)
  {
    predicate Valid() {
      match this
      case Single(m, _) => Plain(m)
      case Group(request, results, stage, removed) =>
        && HasCalls(request)
        && (if stage == Called then results == [] else Answers(request, results))
        && (removed ==> stage == Mirrored)
    }

    function All(): seq<Message> { if Single? then [message] else [request] + results }

    function Live(): seq<Message> { if Group? && removed then [] else All() }

    function Logged(): seq<Message> {
      if Single? then (if journaled then [message] else [])
      else if stage == Mirrored then [request] + results else [request]
    }
  }

  predicate AllValid(bs: seq<Block>) { forall i :: 0 <= i < |bs| ==> bs[i].Valid() }

  const ALL: Block -> seq<Message> := (b: Block) => b.All()
  const LIVE: Block -> seq<Message> := (b: Block) => b.Live()
  const LOGGED: Block -> seq<Message> := (b: Block) => b.Logged()

  function Join(f: Block -> seq<Message>, bs: seq<Block>): seq<Message> {
    if bs == [] then [] else Join(f, bs[..|bs| - 1]) + f(bs[|bs| - 1])
  }

  lemma {:induction false} JoinConcat(f: Block -> seq<Message>, xs: seq<Block>, ys: seq<Block>)
    ensures Join(f, xs + ys) == Join(f, xs) + Join(f, ys)
  {
    if ys == [] {
      assert xs + ys == xs;
    } else {
      assert (xs + ys)[..|xs + ys| - 1] == xs + ys[..|ys| - 1];
      JoinConcat(f, xs, ys[..|ys| - 1]);
    }
  }

  lemma JoinAppend(f: Block -> seq<Message>, bs: seq<Block>, b: Block)
    ensures Join(f, bs + [b]) == Join(f, bs) + f(b)
  {
    assert (bs + [b])[..|bs|] == bs;
  }

  lemma SplitAt(bs: seq<Block>, b: nat)
    requires b < |bs|
    ensures bs[..b + 1] == bs[..b] + [bs[b]] && bs == bs[..b + 1] + bs[b + 1..]
  {
  }

  lemma JoinAt(f: Block -> seq<Message>, bs: seq<Block>, b: nat)
    requires b < |bs|
    ensures Join(f, bs) == Join(f, bs[..b]) + f(bs[b]) + Join(f, bs[b + 1..])
    ensures Join(f, bs[..b + 1]) == Join(f, bs[..b]) + f(bs[b])
  {
    SplitAt(bs, b);
    JoinAppend(f, bs[..b], bs[b]);
    JoinConcat(f, bs[..b + 1], bs[b + 1..]);
  }

  /** The lists as seen by the blocks, the first `c` of which lie before the guard's cursor. */
  ghost predicate Pictures(active: seq<Message>, journal: seq<Message>, start: nat, bs: seq<Block>, c: nat) {
    && c <= |bs|
    && AllValid(bs)
    && active == Join(LIVE, bs) && journal == Join(LOGGED, bs)
    && start == |Join(LOGGED, bs[..c])|
    && (forall i :: c <= i < |bs| && bs[i].Group? ==> !bs[i].removed)
    && Distinct(Join(ALL, bs)) && 0 !in Ids(Join(ALL, bs))
  }

  ghost predicate Represents(s: State, bs: seq<Block>, c: nat) {
    && Pictures(s.active, s.journal, s.Start(), bs, c)
    && (s.phase == AtTools ==> c < |bs| && bs[|bs| - 1].Group? && bs[|bs| - 1].stage == Called)
    && (s.phase == AtJournal ==> c < |bs| && bs[|bs| - 1].Group? && bs[|bs| - 1].stage == Ran)
  }

  /* ---- The list functions on fresh or whole parts ---- */

  lemma IdsConcat(x: seq<Message>, y: seq<Message>)
    ensures Ids(x + y) == Ids(x) + Ids(y)
  {
    assert forall m :: m in x + y <==> m in x || m in y;
  }

  lemma {:induction false} UpsertFresh(ms: seq<Message>, m: Message)
    requires m.id !in Ids(ms)
    ensures Upsert(ms, m) == ms + [m]
  {
    if ms != [] {
      assert ms[0] in ms;
      UpsertFresh(ms[1..], m);
    }
  }

  lemma {:induction false} MergeFresh(ms: seq<Message>, more: seq<Message>)
    requires Distinct(more) && Ids(ms) !! Ids(more)
    ensures Merge(ms, more) == ms + more
    decreases |more|
  {
    if more == [] {
      assert ms + more == ms;
    } else {
      assert more[0] in more;
      UpsertFresh(ms, more[0]);
      forall m, r | m in ms + [more[0]] && r in more[1..] ensures m.id != r.id {
        assert r in more;
        if m in ms {
          assert m.id in Ids(ms) && r.id in Ids(more);
        }
      }
      MergeFresh(ms + [more[0]], more[1..]);
      assert ms + [more[0]] + more[1..] == ms + more;
    }
  }

  lemma {:induction false} WithoutConcat(a: seq<Message>, b: seq<Message>, ids: set<MessageId>)
    ensures Without(a + b, ids) == Without(a, ids) + Without(b, ids)
  {
    if a == [] {
      assert a + b == b;
    } else {
      assert (a + b)[1..] == a[1..] + b;
      WithoutConcat(a[1..], b, ids);
    }
  }

  lemma {:induction false} WithoutApart(ms: seq<Message>, ids: set<MessageId>)
    requires Ids(ms) !! ids
    ensures Without(ms, ids) == ms
  {
    if ms != [] {
      assert ms[0] in ms;
      WithoutApart(ms[1..], ids);
    }
  }

  lemma {:induction false} WithoutAll(ms: seq<Message>, ids: set<MessageId>)
    requires Ids(ms) <= ids
    ensures Without(ms, ids) == []
  {
    if ms != [] {
      assert ms[0] in ms;
      WithoutAll(ms[1..], ids);
    }
  }

  lemma {:induction false} WithoutTwice(ms: seq<Message>, x: set<MessageId>, y: set<MessageId>)
    ensures Without(Without(ms, x), y) == Without(ms, x + y)
  {
    if ms != [] {
      WithoutTwice(ms[1..], x, y);
    }
  }

  lemma LastRequestOfTail(before: seq<Message>, request: Message, results: seq<Message>)
    requires HasCalls(request) && Answers(request, results)
    ensures LatestToolResults(before + [request] + results) == results
  {
    var ms := before + [request] + results;
    assert ms[|before|] == request;
    assert forall k :: |before| < k < |ms| ==> ms[k] == results[k - |before| - 1];
    assert LastRequest(ms) == |before|;
    assert ms[|before| + 1..] == results;
    AnsweringAll(results, request.calls);
  }

  lemma {:induction false} AnsweringAll(results: seq<Message>, calls: seq<string>)
    requires forall i :: 0 <= i < |results| ==> results[i].Tool? && results[i].call in calls
    ensures Answering(results, calls) == results
  {
    if results != [] {
      AnsweringAll(results[1..], calls);
    }
  }

  /* ---- The journal seen through the blocks ---- */

  /** What blocks log never begins with a tool result. */
  lemma {:induction false} FirstIsNoTool(bs: seq<Block>)
    requires AllValid(bs)
    ensures Join(LOGGED, bs) == [] || !Join(LOGGED, bs)[0].Tool?
  {
    if bs != [] {
      FirstIsNoTool(bs[..|bs| - 1]);
      assert bs[|bs| - 1].Valid();
    }
  }

  lemma {:induction false} ToolRunEnds(journal: seq<Message>, i: nat, end: nat)
    requires i <= end <= |journal|
    requires forall k :: i <= k < end ==> journal[k].Tool?
    requires end < |journal| ==> !journal[end].Tool?
    ensures ToolRun(journal, i) == end
    decreases end - i
  {
    if i < end {
      ToolRunEnds(journal, i + 1, end);
    }
  }

  lemma AnswersAll(request: Message, results: seq<Message>)
    requires request.Ai? && Answers(request, results)
    ensures Answered(request, results)
  {
    forall c | c in request.calls ensures exists r :: r in results && r.Tool? && r.call == c {
      var i :| 0 <= i < |request.calls| && request.calls[i] == c;
      assert results[i] in results;
    }
  }

  /** A request with its results in the middle of a journal is a closed cycle. */
  lemma CycleAt(head: seq<Message>, request: Message, results: seq<Message>, tail: seq<Message>)
    requires HasCalls(request) && Answers(request, results) && (tail == [] || !tail[0].Tool?)
    ensures
      var journal := head + ([request] + results) + tail;
      var cycle := Cycle(|head|, |head| + 1 + |results|, [request] + results);
      && IsClosed(journal, cycle)
      && Cycles(journal, cycle.first) == [cycle] + Cycles(journal, cycle.end)
  {
    var journal := head + ([request] + results) + tail;
    var first, end := |head|, |head| + 1 + |results|;
    assert journal[first] == request;
    assert forall k :: first < k < end ==> journal[k] == results[k - first - 1];
    assert journal[first..end] == [request] + results && journal[first + 1..end] == results;
    assert ([request] + results)[1..] == results;
    ToolRunEnds(journal, first + 1, end);
    AnswersAll(request, results);
  }

  /** A request no result stands behind ends the search. */
  lemma OpenAt(head: seq<Message>, request: Message, tail: seq<Message>)
    requires HasCalls(request) && (tail == [] || !tail[0].Tool?)
    ensures Cycles(head + [request] + tail, |head|) == []
  {
    var journal := head + [request] + tail;
    ToolRunEnds(journal, |head| + 1, |head| + 1);
    assert journal[|head|] == request;
    assert request.calls[0] in request.calls;
    assert journal[|head| + 1..|head| + 1] == [];
  }

  /** A mirrored group is a closed cycle, whatever follows it. */
  lemma GroupIsClosed(bs: seq<Block>, b: nat)
    requires b < |bs| && AllValid(bs) && bs[b].Group? && bs[b].stage == Mirrored
    ensures
      var journal := Join(LOGGED, bs);
      var cycle := Cycle(|Join(LOGGED, bs[..b])|, |Join(LOGGED, bs[..b + 1])|, bs[b].All());
      && IsClosed(journal, cycle)
      && Cycles(journal, cycle.first) == [cycle] + Cycles(journal, cycle.end)
  {
    JoinAt(LOGGED, bs, b);
    assert bs[b].Valid();
    FirstIsNoTool(bs[b + 1..]);
    CycleAt(Join(LOGGED, bs[..b]), bs[b].request, bs[b].results, Join(LOGGED, bs[b + 1..]));
  }

  /** A group that is not mirrored is open for ever: no result stands behind its request. */
  lemma GroupIsOpen(bs: seq<Block>, b: nat)
    requires b < |bs| && AllValid(bs) && bs[b].Group? && bs[b].stage != Mirrored
    ensures Cycles(Join(LOGGED, bs), |Join(LOGGED, bs[..b])|) == []
  {
    JoinAt(LOGGED, bs, b);
    assert bs[b].Valid();
    FirstIsNoTool(bs[b + 1..]);
    OpenAt(Join(LOGGED, bs[..b]), bs[b].request, Join(LOGGED, bs[b + 1..]));
  }

  lemma SingleIsSkipped(bs: seq<Block>, b: nat)
    requires b < |bs| && AllValid(bs) && bs[b].Single?
    ensures Cycles(Join(LOGGED, bs), |Join(LOGGED, bs[..b])|) == Cycles(Join(LOGGED, bs), |Join(LOGGED, bs[..b + 1])|)
  {
    JoinAt(LOGGED, bs, b);
    assert bs[b].Valid();
  }

  /** The first closed cycle behind the cursor is a mirrored group. */
  lemma {:induction false} FirstCycle(bs: seq<Block>, c: nat) returns (b: nat)
    requires c <= |bs| && AllValid(bs)
    requires Cycles(Join(LOGGED, bs), |Join(LOGGED, bs[..c])|) != []
    ensures c <= b < |bs| && bs[b].Group? && bs[b].stage == Mirrored
    ensures
      var journal := Join(LOGGED, bs);
      var cycles := Cycles(journal, |Join(LOGGED, bs[..c])|);
      && cycles[0] == Cycle(|Join(LOGGED, bs[..b])|, |Join(LOGGED, bs[..b + 1])|, bs[b].All())
      && cycles[1..] == Cycles(journal, cycles[0].end)
    decreases |bs| - c
  {
    assert bs[..|bs|] == bs;
    if c == |bs| {
      assert false;
    } else if bs[c].Group? {
      if bs[c].stage == Mirrored {
        GroupIsClosed(bs, c);
      } else {
        GroupIsOpen(bs, c);
      }
      b := c;
    } else {
      SingleIsSkipped(bs, c);
      b := FirstCycle(bs, c + 1);
    }
  }

  /* ---- Compaction keeps the picture ---- */

  lemma {:induction false} LiveIsPart(bs: seq<Block>)
    ensures Ids(Join(LIVE, bs)) <= Ids(Join(ALL, bs)) && Ids(Join(LOGGED, bs)) <= Ids(Join(ALL, bs))
  {
    if bs != [] {
      var before, last := bs[..|bs| - 1], bs[|bs| - 1];
      LiveIsPart(before);
      IdsConcat(Join(ALL, before), last.All());
      IdsConcat(Join(LIVE, before), last.Live());
      IdsConcat(Join(LOGGED, before), last.Logged());
      IdsConcat([last.All()[0]], last.All()[1..]);
      assert last.All() == [last.All()[0]] + last.All()[1..];
    }
  }

  /** Ids of different blocks differ. */
  lemma BlockIsApart(bs: seq<Block>, b: nat)
    requires b < |bs| && Distinct(Join(ALL, bs))
    ensures Ids(Join(LIVE, bs[..b])) !! Ids(bs[b].All()) && Ids(Join(LIVE, bs[b + 1..])) !! Ids(bs[b].All())
  {
    JoinAt(ALL, bs, b);
    LiveIsPart(bs[..b]);
    LiveIsPart(bs[b + 1..]);
    DistinctParts(Join(ALL, bs[..b]), bs[b].All(), Join(ALL, bs[b + 1..]));
  }

  lemma DistinctParts(x: seq<Message>, y: seq<Message>, z: seq<Message>)
    requires Distinct(x + y + z)
    ensures Ids(x) !! Ids(y) && Ids(z) !! Ids(y) && Distinct(x) && Distinct(y)
  {
    var all := x + y + z;
    forall i, j | 0 <= i < |x| && 0 <= j < |y| ensures x[i].id != y[j].id {
      assert all[i] == x[i] && all[|x| + j] == y[j];
    }
    forall i, j | 0 <= i < |z| && 0 <= j < |y| ensures z[i].id != y[j].id {
      assert all[|x| + |y| + i] == z[i] && all[|x| + j] == y[j];
    }
    assert forall i :: 0 <= i < |x| ==> all[i] == x[i];
    assert forall j :: 0 <= j < |y| ==> all[|x| + j] == y[j];
  }

  function Remove(bs: seq<Block>, b: nat): seq<Block>
    requires b < |bs| && bs[b].Group?
  {
    bs[b := bs[b].(removed := true)]
  }

  /** Removing one mirrored group by the ids of its messages. */
  lemma RemoveGroup(active: seq<Message>, journal: seq<Message>, start: nat, bs: seq<Block>, c: nat, b: nat)
    requires Pictures(active, journal, start, bs, c)
    requires c <= b < |bs| && bs[b].Group? && bs[b].stage == Mirrored
    ensures Pictures(Without(active, Ids(bs[b].All())), journal, |Join(LOGGED, bs[..b + 1])|, Remove(bs, b), b + 1)
    ensures Ids(bs[b].All()) <= Ids(active)
  {
    var ids := Ids(bs[b].All());
    var after := Remove(bs, b);
    JoinAt(LIVE, bs, b);
    BlockIsApart(bs, b);
    var head, tail := Join(LIVE, bs[..b]), Join(LIVE, bs[b + 1..]);
    WithoutConcat(head + bs[b].All(), tail, ids);
    WithoutConcat(head, bs[b].All(), ids);
    WithoutApart(head, ids);
    WithoutAll(bs[b].All(), ids);
    WithoutApart(tail, ids);
    assert after[..b] == bs[..b] && after[b + 1..] == bs[b + 1..];
    JoinAt(LIVE, after, b);
    JoinAt(LOGGED, bs, b);
    JoinAt(LOGGED, after, b);
    JoinAt(ALL, bs, b);
    JoinAt(ALL, after, b);
    assert bs[b].Valid() && after[b].Valid();
    assert AllValid(after);
    assert active == head + bs[b].All() + tail;
  }

  /** Removing the first closed cycle behind the cursor. */
  lemma RemoveFirst(active: seq<Message>, journal: seq<Message>, start: nat, bs: seq<Block>, c: nat)
    returns (after: seq<Block>, cursor: nat)
    requires Pictures(active, journal, start, bs, c) && Cycles(journal, start) != []
    ensures
      var cycles := Cycles(journal, start);
      && Pictures(Without(active, Ids(cycles[0].messages)), journal, cycles[0].end, after, cursor)
      && Ids(cycles[0].messages) <= Ids(active)
      && cycles[1..] == Cycles(journal, cycles[0].end)
  {
    var b := FirstCycle(bs, c);
    assert Cycles(journal, start)[0].messages == bs[b].All();
    assert Cycles(journal, start)[0].end == |Join(LOGGED, bs[..b + 1])|;
    RemoveGroup(active, journal, start, bs, c, b);
    after, cursor := Remove(bs, b), b + 1;
  }

  lemma MessagesSplit(cycles: seq<Cycle>, k: nat)
    requires 0 < k <= |cycles|
    ensures Messages(cycles[..k]) == cycles[0].messages + Messages(cycles[1..][..k - 1])
  {
    assert cycles[..k][1..] == cycles[1..][..k - 1];
  }

  lemma RemoveMore(active: seq<Message>, x: seq<Message>, y: seq<Message>)
    requires Ids(x) <= Ids(active) && Ids(y) <= Ids(Without(active, Ids(x)))
    ensures Without(Without(active, Ids(x)), Ids(y)) == Without(active, Ids(x + y))
    ensures Ids(x + y) <= Ids(active)
  {
    WithoutTwice(active, Ids(x), Ids(y));
    WithoutShrinks(active, Ids(x));
    IdsConcat(x, y);
  }

  /** Removing the first `k` closed cycles behind the cursor. */
  lemma {:induction false} RemoveCycles(active: seq<Message>, journal: seq<Message>, start: nat, bs: seq<Block>, c: nat, k: nat)
    returns (after: seq<Block>, cursor: nat)
    requires Pictures(active, journal, start, bs, c) && k <= |Cycles(journal, start)|
    ensures
      var cycles := Cycles(journal, start);
      && Pictures(Without(active, Ids(Messages(cycles[..k]))), journal,
                  if k == 0 then start else cycles[k - 1].end, after, cursor)
      && Ids(Messages(cycles[..k])) <= Ids(active)
    decreases k
  {
    var cycles := Cycles(journal, start);
    if k == 0 {
      after, cursor := bs, c;
      assert Messages(cycles[..k]) == [] && Ids([]) == {};
      WithoutApart(active, {});
    } else {
      var middle, at := RemoveFirst(active, journal, start, bs, c);
      var ids := Ids(cycles[0].messages);
      var rest := cycles[1..];
      after, cursor := RemoveCycles(Without(active, ids), journal, cycles[0].end, middle, at, k - 1);
      RemoveMore(active, cycles[0].messages, Messages(rest[..k - 1]));
      MessagesSplit(cycles, k);
    }
  }

  lemma {:induction false} WithoutShrinks(ms: seq<Message>, ids: set<MessageId>)
    ensures Ids(Without(ms, ids)) <= Ids(ms)
  {
    if ms != [] {
      WithoutShrinks(ms[1..], ids);
      IdsConcat([ms[0]], ms[1..]);
      IdsConcat([ms[0]], Without(ms[1..], ids));
      assert ms == [ms[0]] + ms[1..];
    }
  }

  /* ---- Every event keeps the picture ---- */

  /** A new block at the end. */
  lemma AppendBlock(active: seq<Message>, journal: seq<Message>, start: nat, bs: seq<Block>, c: nat, b: Block)
    requires Pictures(active, journal, start, bs, c)
    requires b.Valid() && !(b.Group? && b.removed)
    requires Distinct(b.All()) && 0 !in Ids(b.All()) && Ids(b.All()) !! Ids(active) && Ids(b.All()) !! Ids(journal)
    ensures Pictures(active + b.Live(), journal + b.Logged(), start, bs + [b], c)
  {
    JoinAppend(LIVE, bs, b);
    JoinAppend(LOGGED, bs, b);
    JoinAppend(ALL, bs, b);
    assert (bs + [b])[..c] == bs[..c];
    AllIsKnown(bs);
    DistinctConcat(Join(ALL, bs), b.All());
  }

  lemma DistinctConcat(x: seq<Message>, y: seq<Message>)
    requires Distinct(x) && Distinct(y) && Ids(x) !! Ids(y)
    ensures Distinct(x + y)
  {
    forall i, j | 0 <= i < j < |x + y| ensures (x + y)[i].id != (x + y)[j].id {
      if i < |x| <= j {
        assert x[i] in x && y[j - |x|] in y;
        assert x[i].id in Ids(x) && y[j - |x|].id in Ids(y);
      }
    }
  }

  /** Every message ever seen is in the window or in the journal. */
  lemma {:induction false} AllIsKnown(bs: seq<Block>)
    requires AllValid(bs)
    ensures Ids(Join(ALL, bs)) == Ids(Join(LIVE, bs)) + Ids(Join(LOGGED, bs))
  {
    if bs != [] {
      var before, last := bs[..|bs| - 1], bs[|bs| - 1];
      AllIsKnown(before);
      assert last.Valid();
      IdsConcat(Join(ALL, before), last.All());
      IdsConcat(Join(LIVE, before), last.Live());
      IdsConcat(Join(LOGGED, before), last.Logged());
      IdsConcat([last.All()[0]], last.All()[1..]);
      assert last.All() == [last.All()[0]] + last.All()[1..];
    }
  }

  lemma LastReplaced(bs: seq<Block>, c: nat, b: Block)
    requires AllValid(bs) && c < |bs| && b.Valid()
    ensures
      var after := bs[..|bs| - 1] + [b];
      && AllValid(after) && after[..c] == bs[..c]
      && Join(LIVE, after) == Join(LIVE, bs[..|bs| - 1]) + b.Live()
      && Join(LOGGED, after) == Join(LOGGED, bs[..|bs| - 1]) + b.Logged()
      && Join(ALL, after) == Join(ALL, bs[..|bs| - 1]) + b.All()
  {
    JoinAppend(LIVE, bs[..|bs| - 1], b);
    JoinAppend(LOGGED, bs[..|bs| - 1], b);
    JoinAppend(ALL, bs[..|bs| - 1], b);
  }

  /** The results of the last request arrive. */
  lemma RunLast(active: seq<Message>, journal: seq<Message>, start: nat, bs: seq<Block>, c: nat, results: seq<Message>)
    requires Pictures(active, journal, start, bs, c) && c < |bs|
    requires bs[|bs| - 1].Group? && bs[|bs| - 1].stage == Called && Answers(bs[|bs| - 1].request, results)
    requires Distinct(results) && 0 !in Ids(results) && Ids(results) !! Ids(active) && Ids(results) !! Ids(journal)
    ensures Pictures(active + results, journal, start,
                     bs[..|bs| - 1] + [bs[|bs| - 1].(results := results, stage := Ran)], c)
  {
    var before, last := bs[..|bs| - 1], bs[|bs| - 1];
    assert last.Valid();
    assert last.All() == [last.request];
    LastReplaced(bs, c, last.(results := results, stage := Ran));
    AllIsKnown(bs);
    DistinctConcat(Join(ALL, bs), results);
    IdsConcat(Join(ALL, bs), results);
    Associates(Join(ALL, before), [last.request], results);
    Associates(Join(LIVE, before), [last.request], results);
  }

  /** The results of the last request are mirrored into the journal. */
  lemma MirrorLast(active: seq<Message>, journal: seq<Message>, start: nat, bs: seq<Block>, c: nat)
    requires Pictures(active, journal, start, bs, c) && c < |bs|
    requires bs[|bs| - 1].Group? && bs[|bs| - 1].stage == Ran
    ensures Pictures(active, journal + bs[|bs| - 1].results, start, bs[..|bs| - 1] + [bs[|bs| - 1].(stage := Mirrored)], c)
  {
    var before, last := bs[..|bs| - 1], bs[|bs| - 1];
    assert last.Valid();
    LastReplaced(bs, c, last.(stage := Mirrored));
    Associates(Join(LOGGED, before), [last.request], last.results);
  }

  /** What is mirrored are the results of the last request, none of which was journaled before. */
  lemma MirrorIsNew(bs: seq<Block>)
    requires bs != [] && bs[|bs| - 1].Valid() && bs[|bs| - 1].Group? && bs[|bs| - 1].stage == Ran
    requires Distinct(Join(ALL, bs))
    ensures LatestToolResults(Join(LIVE, bs)) == bs[|bs| - 1].results
    ensures Ids(Join(LOGGED, bs)) !! Ids(bs[|bs| - 1].results) && Distinct(bs[|bs| - 1].results)
  {
    var before, last := bs[..|bs| - 1], bs[|bs| - 1];
    Associates(Join(LIVE, before), [last.request], last.results);
    LastRequestOfTail(Join(LIVE, before), last.request, last.results);
    var earlier := Join(ALL, before) + [last.request];
    Associates(Join(ALL, before), [last.request], last.results);
    Associates(earlier, last.results, []);
    assert last.results + [] == last.results;
    DistinctParts(earlier, last.results, []);
    LiveIsPart(before);
    IdsConcat(Join(ALL, before), [last.request]);
    IdsConcat(Join(LOGGED, before), [last.request]);
  }

  lemma {:induction false} AddHistory(active: seq<Message>, journal: seq<Message>, start: nat, bs: seq<Block>, c: nat, history: seq<Message>)
    returns (after: seq<Block>)
    requires Pictures(active, journal, start, bs, c)
    requires Distinct(history) && 0 !in Ids(history) && Ids(history) !! Ids(active) && Ids(history) !! Ids(journal)
    requires forall m :: m in history ==> Plain(m)
    ensures Pictures(active + history, journal, start, after, c) && |after| == |bs| + |history|
    decreases |history|
  {
    after := bs;
    if history == [] {
      assert active + history == active;
    } else {
      var m, rest := history[0], history[1..];
      assert history == [m] + rest;
      IdsConcat([m], rest);
      IdsConcat(active, [m]);
      DistinctParts([m], rest, []);
      assert [m] + rest + [] == history;
      AppendBlock(active, journal, start, bs, c, Single(m, false));
      assert journal + [] == journal;
      after := AddHistory(active + [m], journal, start, bs + [Single(m, false)], c, rest);
      Associates(active, [m], rest);
    }
  }

  /** The blocks of a first input. */
  lemma FirstInput(history: seq<Message>, question: Message) returns (bs: seq<Block>)
    requires Distinct(history + [question]) && 0 !in Ids(history + [question])
    requires (forall m :: m in history ==> Plain(m)) && Plain(question)
    ensures Pictures(history + [question], [question], 1, bs, |bs|)
  {
    Associates(history, [question], []);
    DistinctParts(history, [question], []);
    IdsConcat(history, [question]);
    bs := AddHistory([], [], 0, [], 0, history);
    assert [] + history == history;
    AppendBlock(history, [], 0, bs, 0, Single(question, true));
    bs := bs + [Single(question, true)];
    assert bs[..|bs|] == bs;
  }

  lemma InitialPicture(s: State) returns (bs: seq<Block>)
    requires Initial(s)
    ensures Represents(s, bs, |bs|)
  {
    var n := |s.active| - 1;
    assert s.active == s.active[..n] + [s.active[n]];
    bs := FirstInput(s.active[..n], s.active[n]);
  }

  lemma FreshIds(s: State, ms: seq<Message>)
    requires Fresh(s, ms)
    ensures Distinct(ms) && 0 !in Ids(ms) && Ids(ms) !! Ids(s.active) && Ids(ms) !! Ids(s.journal)
    ensures Merge(s.active, ms) == s.active + ms
    ensures Merge(s.journal, ms) == s.journal + ms
  {
    MergeFresh(s.active, ms);
    MergeFresh(s.journal, ms);
  }

  lemma InputKeepsPicture(s: State, bs: seq<Block>, c: nat, history: seq<Message>, question: Message)
    returns (after: seq<Block>)
    requires Represents(s, bs, c) && Fresh(s, history + [question])
    requires forall m :: m in history + [question] ==> Plain(m)
    ensures Represents(Perform(s, Input(history, question)), after, c)
    ensures Merge(s.journal, [question]) == s.journal + [question]
  {
    FreshIds(s, history + [question]);
    IdsConcat(history, [question]);
    assert history + [question] + [] == history + [question];
    DistinctParts(history, [question], []);
    MergeFresh(s.journal, [question]);
    assert forall m :: m in history ==> m in history + [question];
    after := AddHistory(s.active, s.journal, s.Start(), bs, c, history);
    IdsConcat(s.active, history);
    AppendBlock(s.active + history, s.journal, s.Start(), after, c, Single(question, true));
    after := after + [Single(question, true)];
    Associates(s.active, history, [question]);
  }

  lemma MessageKeepsPicture(s: State, bs: seq<Block>, c: nat, b: Block, phase: Phase)
    requires Represents(s, bs, c) && b.Valid() && Fresh(s, b.All()) && |b.All()| == 1
    requires (b.Single? && b.journaled) || (b.Group? && b.stage == Called)
    requires phase == Ended || (phase == AtTools && b.Group?)
    ensures Represents(s.(active := Merge(s.active, b.All()), journal := Merge(s.journal, b.All()), phase := phase), bs + [b], c)
    ensures Merge(s.journal, b.All()) == s.journal + b.All()
  {
    FreshIds(s, b.All());
    AppendBlock(s.active, s.journal, s.Start(), bs, c, b);
  }

  lemma ResultsKeepPicture(s: State, bs: seq<Block>, c: nat, results: seq<Message>)
    requires Represents(s, bs, c) && s.phase == AtTools && s.active != [] && Fresh(s, results)
    requires s.active[|s.active| - 1].Ai? && Answers(s.active[|s.active| - 1], results)
    ensures Represents(Perform(s, RunTools(results)), bs[..|bs| - 1] + [bs[|bs| - 1].(results := results, stage := Ran)], c)
  {
    assert bs[|bs| - 1].Valid();
    FreshIds(s, results);
    RunLast(s.active, s.journal, s.Start(), bs, c, results);
  }

  lemma MirrorKeepsPicture(s: State, bs: seq<Block>, c: nat)
    requires Represents(s, bs, c) && s.phase == AtJournal
    ensures Represents(Perform(s, MirrorResults), bs[..|bs| - 1] + [bs[|bs| - 1].(stage := Mirrored)], c)
    ensures s.journal <= Perform(s, MirrorResults).journal
  {
    assert bs[|bs| - 1].Valid();
    MirrorIsNew(bs);
    MergeFresh(s.journal, bs[|bs| - 1].results);
    MirrorLast(s.active, s.journal, s.Start(), bs, c);
  }

  lemma LastEnds(s: State, k: nat)
    requires 0 < k <= |s.Closed()|
    ensures s.Start() < s.Closed()[k - 1].end <= |s.journal|
  {
    CyclesAreClosed(s.journal, s.Start());
    assert IsClosed(s.journal, s.Closed()[k - 1]);
    if k > 1 {
      EndsAscend(s.Closed(), s.Start(), 0, k - 1);
    }
  }

  lemma CompactionKeepsPicture(s: State, bs: seq<Block>, c: nat, k: nat, o: Outcome)
    returns (after: seq<Block>, cursor: nat)
    requires Represents(s, bs, c) && 0 < k <= |s.Closed()| && o.Compacted?
    requires o.removals == Ids(Messages(s.Closed()[..k])) && o.compacted == s.Closed()[k - 1].end
    ensures Represents(State(Without(s.active, o.removals), s.journal, o.summary, o.compacted, o.generation, o.retry, Route(o.retry)),
                       after, cursor)
    ensures o.removals <= Ids(s.active) && o.compacted > s.Start()
  {
    LastEnds(s, k);
    after, cursor := RemoveCycles(s.active, s.journal, s.Start(), bs, c, k);
  }

  /** A pass that compacts removes whole cycles that are all still in the window, so the list
      reducer never meets an unknown id, and moves the cursor strictly forward. */
  lemma PassKeepsPicture(g: Settings, s: State, bs: seq<Block>, c: nat, e: Event)
    returns (after: seq<Block>, cursor: nat)
    requires Represents(s, bs, c) && e.Pass? && Enabled(g, s, e)
    ensures Represents(Perform(s, e), after, cursor)
    ensures Perform(s, e).journal == s.journal
    ensures e.outcome.Compacted? ==> e.outcome.removals <= Ids(s.active) && e.outcome.compacted > s.Start()
  {
    after, cursor := bs, c;
    if e.outcome.Compacted? {
      after, cursor := CompactionKeepsPicture(s, bs, c, e.k, e.outcome);
    }
  }

  lemma EventKeepsPicture(g: Settings, s: State, bs: seq<Block>, c: nat, e: Event)
    returns (after: seq<Block>, cursor: nat)
    requires Represents(s, bs, c) && Enabled(g, s, e)
    ensures Represents(Perform(s, e), after, cursor)
    ensures s.journal <= Perform(s, e).journal && s.compacted <= Perform(s, e).compacted
  {
    after, cursor := bs, c;
    match e
    case Input(history, question) =>
      after := InputKeepsPicture(s, bs, c, history, question);
    case Instruct(m) =>
      MessageKeepsPicture(s, bs, c, Single(m, true), Ended);
      after := bs + [Single(m, true)];
    case Answer(m) =>
      var b := if HasCalls(m) then Group(m, [], Called, false) else Single(m, true);
      assert b.All() == [m];
      MessageKeepsPicture(s, bs, c, b, if HasCalls(m) then AtTools else Ended);
      after := bs + [b];
    case RunTools(results) =>
      ResultsKeepPicture(s, bs, c, results);
      after := bs[..|bs| - 1] + [bs[|bs| - 1].(results := results, stage := Ran)];
    case MirrorResults =>
      MirrorKeepsPicture(s, bs, c);
      after := bs[..|bs| - 1] + [bs[|bs| - 1].(stage := Mirrored)];
    case Pass(_, _, _, _) =>
      after, cursor := PassKeepsPicture(g, s, bs, c, e);
  }

  lemma {:induction false} PictureHolds(g: Settings, trace: seq<State>, events: seq<Event>, j: nat)
    returns (bs: seq<Block>, c: nat)
    requires Run(g, trace, events) && j < |trace|
    ensures Represents(trace[j], bs, c)
  {
    if j == 0 {
      bs := InitialPicture(trace[0]);
      c := |bs|;
    } else {
      bs, c := PictureHolds(g, trace, events, j - 1);
      bs, c := EventKeepsPicture(g, trace[j - 1], bs, c, events[j - 1]);
    }
  }

  /* ---- What holds in every run ---- */

  /** The request a tool result belongs to: only results stand between them. */
  predicate Heads(ms: seq<Message>, head: nat, k: nat) {
    && head < k < |ms| && HasCalls(ms[head]) && ms[k].Tool? && ms[k].call in ms[head].calls
    && forall i :: head < i < k ==> ms[i].Tool?
  }

  /** No tool result without the assistant request it answers. */
  ghost predicate NoOrphans(ms: seq<Message>) {
    forall k :: 0 <= k < |ms| && ms[k].Tool? ==> exists head :: Heads(ms, head, k)
  }

  /** What has left the window: a closed cycle before the cursor, no message of which remains. */
  ghost predicate LeftWhole(s: State, c: Cycle) {
    IsClosed(s.journal, c) && c.end <= s.compacted && Ids(c.messages) !! Ids(s.active)
  }

  ghost predicate OnlyWholeCyclesLeft(s: State) {
    forall m :: m in s.journal && m.id !in Ids(s.active) ==> exists c :: LeftWhole(s, c) && m in c.messages
  }

  lemma {:induction false} WindowHasNoOrphans(bs: seq<Block>)
    requires AllValid(bs)
    ensures NoOrphans(Join(LIVE, bs))
  {
    if bs != [] {
      var before, last := bs[..|bs| - 1], bs[|bs| - 1];
      WindowHasNoOrphans(before);
      assert last.Valid();
      var ms, n := Join(LIVE, bs), |Join(LIVE, before)|;
      assert ms == Join(LIVE, before) + last.Live();
      forall k | 0 <= k < |ms| && ms[k].Tool? ensures exists head :: Heads(ms, head, k) {
        if k < n {
          var head :| Heads(Join(LIVE, before), head, k);
          assert Heads(ms, head, k);
        } else {
          assert ms[k] == last.Live()[k - n];
          assert forall i :: n < i < |ms| ==> ms[i] == last.results[i - n - 1];
          assert Heads(ms, n, k);
        }
      }
    }
  }

  lemma {:induction false} LoggedIn(bs: seq<Block>, m: Message) returns (b: nat)
    requires m in Join(LOGGED, bs)
    ensures b < |bs| && m in bs[b].Logged()
  {
    var before := bs[..|bs| - 1];
    if m in Join(LOGGED, before) {
      b := LoggedIn(before, m);
    } else {
      b := |bs| - 1;
    }
  }

  lemma {:induction false} LiveIsIn(bs: seq<Block>, b: nat)
    requires b < |bs|
    ensures Ids(bs[b].Live()) <= Ids(Join(LIVE, bs))
  {
    JoinAt(LIVE, bs, b);
    IdsConcat(Join(LIVE, bs[..b]) + bs[b].Live(), Join(LIVE, bs[b + 1..]));
    IdsConcat(Join(LIVE, bs[..b]), bs[b].Live());
  }

  lemma {:induction false} JoinGrows(bs: seq<Block>, b: nat, c: nat)
    requires b <= c <= |bs|
    ensures |Join(LOGGED, bs[..b])| <= |Join(LOGGED, bs[..c])|
  {
    assert bs[..c] == bs[..b] + bs[b..c];
    JoinConcat(LOGGED, bs[..b], bs[b..c]);
  }

  lemma RemovedIsApart(bs: seq<Block>, b: nat)
    requires b < |bs| && Distinct(Join(ALL, bs)) && bs[b].Live() == []
    ensures Ids(bs[b].All()) !! Ids(Join(LIVE, bs))
  {
    JoinAt(LIVE, bs, b);
    BlockIsApart(bs, b);
    IdsConcat(Join(LIVE, bs[..b]), Join(LIVE, bs[b + 1..]));
    assert Join(LIVE, bs[..b]) + [] == Join(LIVE, bs[..b]);
  }

  lemma RemovedLeftWhole(s: State, bs: seq<Block>, c: nat, b: nat)
    requires Represents(s, bs, c) && b < |bs| && bs[b].Group? && bs[b].removed
    ensures exists cycle :: LeftWhole(s, cycle) && cycle.messages == bs[b].All()
  {
    assert bs[b].Valid();
    GroupIsClosed(bs, b);
    JoinGrows(bs, b + 1, c);
    RemovedIsApart(bs, b);
    assert LeftWhole(s, Cycle(|Join(LOGGED, bs[..b])|, |Join(LOGGED, bs[..b + 1])|, bs[b].All()));
  }

  lemma MissingMeansCompacted(s: State, bs: seq<Block>, c: nat, m: Message)
    requires Represents(s, bs, c) && m in s.journal && m.id !in Ids(s.active)
    ensures exists cycle :: LeftWhole(s, cycle) && m in cycle.messages
  {
    var b := LoggedIn(bs, m);
    assert bs[b].Valid();
    LiveIsIn(bs, b);
    assert bs[b].Group? && bs[b].removed && m in bs[b].All();
    RemovedLeftWhole(s, bs, c, b);
  }

  lemma {:induction false} JournalGrows(g: Settings, trace: seq<State>, events: seq<Event>, i: nat, j: nat)
    requires Run(g, trace, events) && i <= j < |trace|
    ensures trace[i].journal <= trace[j].journal && trace[i].compacted <= trace[j].compacted
    decreases j - i
  {
    if i < j {
      JournalGrows(g, trace, events, i, j - 1);
      var bs, c := PictureHolds(g, trace, events, j - 1);
      bs, c := EventKeepsPicture(g, trace[j - 1], bs, c, events[j - 1]);
    }
  }

  /** In every run: the window holds no orphaned tool result; whatever is missing from it left as
      a whole closed cycle; the journal only grows, the cursor never moves back. */
  lemma RunsStayWhole(g: Settings, trace: seq<State>, events: seq<Event>, i: nat, j: nat)
    requires Run(g, trace, events) && i <= j < |trace|
    ensures NoOrphans(trace[j].active) && OnlyWholeCyclesLeft(trace[j])
    ensures trace[i].journal <= trace[j].journal && trace[i].compacted <= trace[j].compacted
  {
    var bs, c := PictureHolds(g, trace, events, j);
    WindowHasNoOrphans(bs);
    forall m | m in trace[j].journal && m.id !in Ids(trace[j].active)
      ensures exists cycle :: LeftWhole(trace[j], cycle) && m in cycle.messages
    {
      MissingMeansCompacted(trace[j], bs, c, m);
    }
    JournalGrows(g, trace, events, i, j);
  }

  /** The cycles an event compacts. */
  function CompactedBy(s: State, e: Event): seq<Cycle> {
    if e.Pass? && e.outcome.Compacted? && e.k <= |s.Closed()| then s.Closed()[..e.k] else []
  }

  /** Each compaction moves the cursor strictly forward to its last cycle, removes only messages
      that are still in the window, and no cycle is compacted twice: later ones start behind. */
  lemma CyclesAreCompactedOnce(g: Settings, trace: seq<State>, events: seq<Event>, i: nat, j: nat)
    requires Run(g, trace, events) && i <= j < |events|
    requires events[i].Pass? && events[i].outcome.Compacted?
    ensures trace[i + 1].compacted > trace[i].Start() && trace[i + 1].journal == trace[i].journal
    ensures events[i].outcome.removals == Ids(Messages(CompactedBy(trace[i], events[i]))) <= Ids(trace[i].active)
    ensures i < j ==> forall c, d :: c in CompactedBy(trace[i], events[i]) && d in CompactedBy(trace[j], events[j]) ==>
              c.end <= trace[i + 1].compacted <= d.first
  {
    var bs, at := PictureHolds(g, trace, events, i);
    assert Enabled(g, trace[i], events[i]);
    bs, at := PassKeepsPicture(g, trace[i], bs, at, events[i]);
    if i < j {
      JournalGrows(g, trace, events, i + 1, j);
      forall c, d | c in CompactedBy(trace[i], events[i]) && d in CompactedBy(trace[j], events[j])
        ensures c.end <= trace[i + 1].compacted <= d.first
      {
        WithinCursor(trace[i].Closed(), trace[i].Start(), events[i].k, c, trace[i].journal);
        StartsBehind(trace[j], events[j], d);
      }
    }
  }

  lemma StartsBehind(s: State, event: Event, d: Cycle)
    requires d in CompactedBy(s, event)
    ensures s.Start() <= d.first
  {
    WithinCursor(s.Closed(), s.Start(), event.k, d, s.journal);
  }

  lemma WithinCursor(cycles: seq<Cycle>, start: nat, k: nat, c: Cycle, journal: seq<Message>)
    requires cycles == Cycles(journal, start) && 0 < k <= |cycles| && c in cycles[..k]
    ensures start <= c.first && c.end <= cycles[k - 1].end
  {
    CyclesAreClosed(journal, start);
    var n :| 0 <= n < k && cycles[n] == c;
    if n < k - 1 {
      EndsAscend(cycles, start, n, k - 1);
    }
    if n > 0 {
      EndsAscend(cycles, start, 0, n);
    }
  }

  /** Only the journal bounds how often the guard can compact in a row. */
  lemma {:induction false} CompactingPassesAreBounded(g: Settings, trace: seq<State>, events: seq<Event>, i: nat, j: nat)
    requires Run(g, trace, events) && i <= j < |trace|
    requires forall n :: i <= n < j ==> events[n].Pass? && events[n].outcome.Compacted?
    ensures trace[j].journal == trace[i].journal
    ensures trace[j].Start() >= trace[i].Start() + (j - i)
    ensures j > i ==> trace[j].Start() <= |trace[i].journal|
    decreases j - i
  {
    if i < j {
      CompactingPassesAreBounded(g, trace, events, i, j - 1);
      CyclesAreCompactedOnce(g, trace, events, j - 1, j - 1);
      var s, e := trace[j - 1], events[j - 1];
      assert Enabled(g, s, e);
      LastEnds(s, e.k);
    }
  }

  /** The retry flag after a pass: a fresh verdict of a compaction, or whatever stood there before.
      Exactly when an old flag stands and a pass above the soft limit changes nothing, the pass
      leads back to itself with nothing changed. */
  lemma StaleRetryLoops(g: Settings, s: State, e: Event)
    requires s.phase == AtGuard && e.Pass? && Enabled(g, s, e)
    ensures Perform(s, e) == s && !e.outcome.CompactionRequired? <==> e.outcome == Unchanged && s.retry
    ensures e.outcome == Unchanged && s.retry <==>
            && s.retry && g.soft < e.projected <= g.hard
            && (e.k == 0 || e.reply.None? || 0 in Ids(Messages(s.Closed()[..e.k])))
  {
    if e.outcome.Compacted? {
      LastEnds(s, e.k);
    }
  }

  lemma MergeOne(ms: seq<Message>, m: Message)
    requires m.id !in Ids(ms)
    ensures Merge(ms, [m]) == ms + [m]
  {
    UpsertFresh(ms, m);
    assert [m][1..] == [];
  }

  /** The journal of one answered request has one closed cycle, and none behind it. */
  lemma OneCycle(question: Message, request: Message, result: Message)
    requires Plain(question) && HasCalls(request) && Answers(request, [result])
    ensures
      var journal := [question, request, result];
      && Cycles(journal, 1) == [Cycle(1, 3, [request, result])]
      && Cycles(journal, 3) == []
  {
    CycleAt([question], request, [result], []);
    assert [question] + ([request] + [result]) + [] == [question, request, result];
    assert [request] + [result] == [request, result];
  }

  /** One request is answered behind a first question, its tool runs, its result is mirrored. */
  lemma OneRequest(g: Settings, s: State, request: Message)
    requires |s.active| == 1 && s.active == s.journal && s.phase == AtAgent
    requires HasCalls(request) && request.id != 0 && request.id != s.active[0].id
    ensures Enabled(g, s, Answer(request))
    ensures Perform(s, Answer(request)) ==
            s.(active := s.active + [request], journal := s.journal + [request], phase := AtTools)
  {
    MergeOne(s.active, request);
  }

  lemma OneResult(g: Settings, s: State, result: Message)
    requires |s.active| == 2 && s.active == s.journal && s.phase == AtTools
    requires HasCalls(s.active[1]) && Answers(s.active[1], [result])
    requires result.id != 0 && result.id != s.active[0].id && result.id != s.active[1].id
    ensures Enabled(g, s, RunTools([result]))
    ensures Perform(Perform(s, RunTools([result])), MirrorResults) ==
            s.(active := s.active + [result], journal := s.journal + [result], phase := AtGuard)
  {
    MergeOne(s.active, result);
    LastRequestOfTail([s.active[0]], s.active[1], [result]);
    assert s.active == [s.active[0]] + [s.active[1]];
  }

  /** What `_projected_input_tokens` can return: with an assistant message of the current turn in the
      window, whatever usage it reports; otherwise a count of the window behind the working summary. */
  predicate Projectable(g: Settings, s: State, projected: nat) {
    || (exists m :: m in s.active && m.Ai? && m in s.journal)
    || (projected >= g.Cost(s.summary) && projected >= g.count(s.active))
  }

  /** A summary and the projections of the three passes of a run with one question and one answered
      request: at the start, after the request was answered, and after its cycle was compacted. */
  datatype Projections = Projections(summary: string, start: nat, first: nat, second: nat)

  /** The provider reports so much more than the estimate of the cycle that removing it leaves the
      prediction above the hard limit; the count that follows lies between the limits.  Both counts
      are at least what they count. */
  predicate Catches(g: Settings, x: Projections, question: Message, request: Message, result: Message) {
    && g.count([question]) <= x.start <= g.soft < x.second <= g.hard < x.first
    && x.first - g.count([request, result]) + g.summaryCost(x.summary) > g.hard
    && g.count([question]) <= x.second && g.Cost(x.summary) <= x.second
  }

  /** No settings with room between the limits are safe: the usage report alone decides. */
  lemma EverySettingIsCaught(g: Settings, summary: string, question: Message, request: Message, result: Message)
    requires g.count([question]) <= g.soft < g.hard && g.Cost(summary) <= g.hard
    ensures
      var usage := g.hard + g.count([request, result]) + 1;
      Catches(g, Projections(summary, g.count([question]), usage, g.hard), question, request, result)
  {
  }

  function FirstPass(x: Projections, request: Message, result: Message): Event {
    Pass(x.first, Some(x.summary), 1, Compacted(Ids([request, result]), x.summary, 3, 1, true))
  }

  /** Two passes over one closed cycle: the first compacts it and sets the flag, the second changes
      nothing and leads back to itself. */
  lemma TwoPasses(g: Settings, x: Projections, s: State, question: Message, request: Message, result: Message)
    requires Catches(g, x, question, request, result) && LoopStart(question, request, result)
    requires s == State([question, request, result], [question, request, result], "", 0, 0, false, AtGuard)
    ensures
      var first, again := FirstPass(x, request, result), Pass(x.second, None, 0, Unchanged);
      var after := State([question], s.journal, x.summary, 3, 1, true, AtGuard);
      && Enabled(g, s, first) && Perform(s, first) == after
      && Enabled(g, after, again) && Perform(after, again) == after
  {
    OneCycle(question, request, result);
    CompactsTheCycle(g, x, s, Cycle(1, 3, [request, result]), request, result);
    WithoutConcat([question], [request, result], Ids([request, result]));
    WithoutApart([question], Ids([request, result]));
    WithoutAll([request, result], Ids([request, result]));
    assert [question] + [request, result] == s.active;
  }

  lemma CompactsTheCycle(g: Settings, x: Projections, s: State, cycle: Cycle, request: Message, result: Message)
    requires g.soft < x.first && g.hard < x.first
    requires x.first - g.count([request, result]) + g.summaryCost(x.summary) > g.hard
    requires s.Closed() == [cycle] && cycle.messages == [request, result] && s.summary == "" && s.generation == 0
    requires request.id != 0 && result.id != 0
    ensures g.Decides(s, x.first, Some(x.summary), 1, Compacted(Ids([request, result]), x.summary, cycle.end, 1, true))
  {
    assert [cycle][..1] == [cycle] && [cycle][..0] == [] && [cycle][1..] == [];
    assert Messages([cycle]) == [request, result] + Messages([]) == [request, result];
    assert g.Removed([]) == 0;
    assert g.Selects(s, x.first, 1);
  }

  function LoopEvents(x: Projections, request: Message, result: Message): seq<Event> {
    [Pass(x.start, None, 0, Unchanged), Answer(request), RunTools([result]), MirrorResults,
     FirstPass(x, request, result), Pass(x.second, None, 0, Unchanged)]
  }

  predicate LoopStart(question: Message, request: Message, result: Message) {
    && question.Other? && HasCalls(request) && Answers(request, [result])
    && question.id != 0 && request.id != 0 && result.id != 0
    && question.id != request.id && question.id != result.id && request.id != result.id
  }

  function LoopTrace(x: Projections, question: Message, request: Message, result: Message): seq<State> {
    var all := [question, request, result];
    var looping := State([question], all, x.summary, 3, 1, true, AtGuard);
    [State([question], [question], "", 0, 0, false, AtGuard),
     State([question], [question], "", 0, 0, false, AtAgent),
     State([question, request], [question, request], "", 0, 0, false, AtTools),
     State(all, [question, request], "", 0, 0, false, AtJournal),
     State(all, all, "", 0, 0, false, AtGuard), looping, looping]
  }

  ghost predicate Leads(g: Settings, s: State, e: Event, after: State) { Enabled(g, s, e) && after == Perform(s, e) }

  lemma QuestionIsAnswered(g: Settings, start: nat, question: Message, request: Message)
    requires start <= g.soft && question.Other? && HasCalls(request) && request.id != 0 && request.id != question.id
    ensures
      var s0 := State([question], [question], "", 0, 0, false, AtGuard);
      var s1 := s0.(phase := AtAgent);
      && Leads(g, s0, Pass(start, None, 0, Unchanged), s1)
      && Leads(g, s1, Answer(request), State([question, request], [question, request], "", 0, 0, false, AtTools))
  {
    var s0 := State([question], [question], "", 0, 0, false, AtGuard);
    assert g.Decides(s0, start, None, 0, Unchanged);
    OneRequest(g, s0.(phase := AtAgent), request);
    assert [question] + [request] == [question, request];
  }

  lemma ToolRuns(g: Settings, question: Message, request: Message, result: Message)
    requires LoopStart(question, request, result)
    ensures
      var all := [question, request, result];
      var s2 := State([question, request], [question, request], "", 0, 0, false, AtTools);
      var s3 := s2.(active := all, phase := AtJournal);
      && Leads(g, s2, RunTools([result]), s3)
      && Leads(g, s3, MirrorResults, State(all, all, "", 0, 0, false, AtGuard))
  {
    OneResult(g, State([question, request], [question, request], "", 0, 0, false, AtTools), result);
    assert [question, request] + [result] == [question, request, result];
    MergeOne([question, request], result);
  }

  lemma RunExtends(g: Settings, trace: seq<State>, events: seq<Event>, e: Event, after: State)
    requires Run(g, trace, events) && Leads(g, trace[|events|], e, after)
    ensures Run(g, trace + [after], events + [e])
  {
    forall i {:trigger (events + [e])[i]} | 0 <= i < |events + [e]|
      ensures Leads(g, (trace + [after])[i], (events + [e])[i], (trace + [after])[i + 1])
    {
      if i < |events| {
        assert (events + [e])[i] == events[i];
      }
    }
  }

  lemma TwoMore(g: Settings, trace: seq<State>, events: seq<Event>, e: Event, s: State, f: Event, t: State)
    requires Run(g, trace, events) && Leads(g, trace[|events|], e, s) && Leads(g, s, f, t)
    ensures Run(g, trace + [s, t], events + [e, f])
  {
    RunExtends(g, trace, events, e, s);
    RunExtends(g, trace + [s], events + [e], f, t);
    assert trace + [s] + [t] == trace + [s, t];
    assert events + [e] + [f] == events + [e, f];
  }

  lemma FourSteps(g: Settings, s0: State, e0: Event, s1: State, e1: Event, s2: State, e2: Event, s3: State, e3: Event, s4: State)
    requires Initial(s0) && Leads(g, s0, e0, s1) && Leads(g, s1, e1, s2) && Leads(g, s2, e2, s3) && Leads(g, s3, e3, s4)
    ensures Run(g, [s0, s1, s2, s3, s4], [e0, e1, e2, e3])
  {
    TwoMore(g, [s0], [], e0, s1, e1, s2);
    assert [s0] + [s1, s2] == [s0, s1, s2] && [] + [e0, e1] == [e0, e1];
    TwoMore(g, [s0, s1, s2], [e0, e1], e2, s3, e3, s4);
    assert [s0, s1, s2] + [s3, s4] == [s0, s1, s2, s3, s4] && [e0, e1] + [e2, e3] == [e0, e1, e2, e3];
  }

  /** A whole run that an old flag catches, for any settings and any projections of that kind: a
      question, one answered request, a compaction, and a pass that leads back to itself.  Every
      projection in it is one the guard can compute. */
  lemma StaleRetryExample(g: Settings, x: Projections, question: Message, request: Message, result: Message)
    requires LoopStart(question, request, result) && Catches(g, x, question, request, result)
    ensures
      var trace, events := LoopTrace(x, question, request, result), LoopEvents(x, request, result);
      && Run(g, trace, events) && trace[6] == trace[5] && trace[5].retry
      && Projectable(g, trace[0], x.start) && Projectable(g, trace[4], x.first) && Projectable(g, trace[5], x.second)
  {
    var trace, events := LoopTrace(x, question, request, result), LoopEvents(x, request, result);
    QuestionIsAnswered(g, x.start, question, request);
    ToolRuns(g, question, request, result);
    TwoPasses(g, x, trace[4], question, request, result);
    assert request in trace[4].active && request in trace[4].journal;
    assert trace[..5] == [trace[0], trace[1], trace[2], trace[3], trace[4]];
    assert events[..4] == [events[0], events[1], events[2], events[3]];
    FourSteps(g, trace[0], events[0], trace[1], events[1], trace[2], events[2], trace[3], events[3], trace[4]);
    TwoMore(g, trace[..5], events[..4], events[4], trace[5], events[5], trace[6]);
    assert trace == trace[..5] + [trace[5], trace[6]] && events == events[..4] + [events[4], events[5]];
  }
}
