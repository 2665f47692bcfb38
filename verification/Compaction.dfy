/** Compare-and-swap context windows and the service that advances them
    (src/core/context/compaction.py, src/core/adapters/sqlite/summary_store.py,
    session_store.py).

    Foreground and background use separate service instances, so no lock is
    shared: everything rests on the swap. */
module Compaction {
  import opened Common
  import opened Planner

  type WindowId = nat

  /** A summary is known only by what was folded into it, in order, and by its token cost. */
  datatype Summary = Empty | Folded(previous: Summary, turns: seq<Turn>, cost: nat)
  {
    function Tokens(): nat { if Empty? then 0 else cost }

    /** The turns a summary stands for. */
    function Contents(): seq<Turn> { if Empty? then [] else previous.Contents() + turns }
  }

  datatype Window = Window(summary: Summary, through: nat, previous: Option<WindowId>)

  /** A loaded context: a summary head and the unsummarised tail read with it. */
  datatype Context = Context(summary: Summary, turns: seq<Turn>, window: WindowId, through: nat)
  {
    /** The last turn it covers, in its summary or as it is. */
    function Reach(): nat { through + |turns| }
  }

  /** The committed turns, the window rows (identified by position) and the active one. */
  datatype Lineage = Lineage(turns: seq<Turn>, windows: seq<Window>, active: WindowId)
  {
    ghost predicate Valid() {
      && active + 1 == |windows|
      && (forall i :: 0 <= i < |turns| ==> turns[i].index == i + 1)
      && (forall w :: 0 <= w < |windows| ==>
            windows[w].through <= |turns| && windows[w].summary.Contents() == turns[..windows[w].through])
      && (forall w :: 0 < w < |windows| ==> windows[w].previous == Some(w - 1))
      && (forall v, w :: 0 <= v < w < |windows| ==> windows[v].through < windows[w].through)
    }

    function Through(): nat
      requires active < |windows|
    {
      windows[active].through
    }

    /** `load_summary_source` for a target turn; `load_context` reads the whole tail. */
    function Load(target: nat): Context
      requires active < |windows| && windows[active].through <= |turns|
    {
      var w := windows[active];
      Context(w.summary, turns[w.through..Max(w.through, Min(target, |turns|))], active, w.through)
    }

    function Commit(t: Turn): Lineage { this.(turns := turns + [t.(index := |turns| + 1)]) }

    /** `update_summary_cas`: one transaction that succeeds only if the expected window is active. */
    function Swap(expected: WindowId, through: nat, summary: Summary): Lineage {
      if expected != active then this
      else this.(windows := windows + [Window(summary, through, Some(active))], active := |windows|)
    }

    /** The context was read from these tables, now or earlier. */
    ghost predicate Read(c: Context) {
      && c.window < |windows| && c.summary == windows[c.window].summary && c.through == windows[c.window].through
      && c.through + |c.turns| <= |turns| && c.turns == turns[c.through..c.through + |c.turns|]
    }

    /** These tables extend the older ones: turns are appended, windows are immutable, and the
        active window only moves to strictly later turns. */
    ghost predicate Extends(older: Lineage) {
      && older.turns <= turns && older.windows <= windows
      && active < |windows| && older.active < |older.windows|
      && (active == older.active || windows[active].through > older.windows[older.active].through)
    }
  }

  /** What a compaction of the first `k` turns of a context writes. */
  function Fold(c: Context, k: nat, cost: nat): Summary
    requires k <= |c.turns|
  {
    Folded(c.summary, c.turns[..k], cost)
  }

  lemma LoadReads(l: Lineage, target: nat)
    requires l.Valid()
    ensures l.Read(l.Load(target)) && l.Load(target).window == l.active
    ensures l.Load(target).summary.Contents() + l.Load(target).turns ==
            l.turns[..Max(l.Through(), Min(target, |l.turns|))]
  {
    var w := l.windows[l.active];
    var end := Max(w.through, Min(target, |l.turns|));
    assert l.turns[..w.through] + l.turns[w.through..end] == l.turns[..end];
  }

  lemma CommitExtends(l: Lineage, t: Turn)
    requires l.Valid()
    ensures l.Commit(t).Valid() && l.Commit(t).Extends(l) && l.Commit(t).active == l.active
  {
    var after := l.Commit(t);
    forall w | 0 <= w < |after.windows|
      ensures after.windows[w].summary.Contents() == after.turns[..after.windows[w].through]
    {
      assert after.turns[..after.windows[w].through] == l.turns[..after.windows[w].through];
    }
  }

  lemma FoldContents(l: Lineage, c: Context, k: nat, cost: nat)
    requires l.Valid() && l.Read(c) && 1 <= k <= |c.turns|
    ensures c.turns[k - 1].index == c.through + k
    ensures c.turns[..k] == l.turns[c.through..c.through + k]
    ensures Fold(c, k, cost).Contents() == l.turns[..c.through + k]
  {
    assert c.turns[k - 1] == l.turns[c.through + k - 1];
    assert c.turns[..k] == l.turns[c.through..c.through + k];
    assert l.turns[..c.through] + l.turns[c.through..c.through + k] == l.turns[..c.through + k];
  }

  /** A swap that carries a compaction of a context read earlier keeps the tables valid.  It
      takes effect exactly when no other window was activated since the read, and then folds
      exactly the contiguous turns between the two watermarks. */
  lemma SwapFoldsContiguousTurns(l: Lineage, c: Context, k: nat, cost: nat)
    requires l.Valid() && l.Read(c) && 1 <= k <= |c.turns|
    ensures
      var through := c.turns[k - 1].index;
      var after := l.Swap(c.window, through, Fold(c, k, cost));
      && through == c.through + k
      && after.Valid() && after.Extends(l)
      && (c.window == l.active ==>
            && after.active == |l.windows|
            && after.windows[after.active].previous == Some(l.active)
            && after.windows[after.active].through == l.Through() + k
            && after.windows[after.active].summary ==
               Folded(l.windows[l.active].summary, l.turns[l.Through()..l.Through() + k], cost))
      && (c.window != l.active ==> after == l)
  {
    FoldContents(l, c, k, cost);
    if c.window == l.active {
      LaterSwapKeepsValid(l, c.through + k, Fold(c, k, cost));
    }
  }

  /** A later window whose summary stands for all turns up to it extends the tables. */
  lemma LaterSwapKeepsValid(l: Lineage, through: nat, summary: Summary)
    requires l.Valid() && l.Through() < through <= |l.turns| && summary.Contents() == l.turns[..through]
    ensures l.Swap(l.active, through, summary).Valid() && l.Swap(l.active, through, summary).Extends(l)
  {
    WindowsStay(l.windows, Window(summary, through, Some(l.active)));
    var after := l.Swap(l.active, through, summary);
    forall v, w | 0 <= v < w < |after.windows| ensures after.windows[v].through < after.windows[w].through {
      if w == |l.windows| && v < l.active {
        assert l.windows[v].through < l.windows[l.active].through;
      }
    }
  }

  lemma WindowsStay(windows: seq<Window>, last: Window)
    ensures windows <= windows + [last] && (windows + [last])[|windows|] == last
    ensures forall w :: 0 <= w < |windows| ==> (windows + [last])[w] == windows[w]
  {
  }

  /** `update_summary_cas` compares window ids only.  What it keeps depends on its arguments alone:
      the watermark does not decrease exactly if the new one is not smaller, and the tables stay
      valid exactly if it is strictly later, committed, and the summary stands for all turns up to it. */
  lemma SwapExactly(l: Lineage, through: nat, summary: Summary)
    requires l.Valid()
    ensures
      var after := l.Swap(l.active, through, summary);
      && (after.Through() >= l.Through() <==> through >= l.Through())
      && (after.Valid() <==> l.Through() < through <= |l.turns| && summary.Contents() == l.turns[..through])
  {
    var after := l.Swap(l.active, through, summary);
    assert after.windows[|l.windows|] == Window(summary, through, Some(l.active));
    forall w | 0 <= w < |l.windows|
      ensures after.windows[w] == l.windows[w] && l.windows[w].through <= l.Through()
    {
    }
    if after.Valid() {
      assert after.windows[l.active].through < after.windows[|l.windows|].through;
    }
    if l.Through() < through <= |l.turns| && summary.Contents() == l.turns[..through] {
      LaterSwapKeepsValid(l, through, summary);
    }
  }

  /** A swap of the active window that takes the watermark back, and with it the summarised turn. */
  lemma SwapLowersWatermark(t: Turn, cost: nat)
    ensures
      var l0 := Lineage([], [Window(Empty, 0, None)], 0).Commit(t);
      var l1 := l0.Swap(0, 1, Fold(l0.Load(1), 1, cost));
      var l2 := l1.Swap(1, 0, Empty);
      && l0.Valid() && l1.Valid() && l1.Through() == 1 && l2.Through() == 0 && !l2.Valid()
  {
    var start := Lineage([], [Window(Empty, 0, None)], 0);
    CommitExtends(start, t);
    var l0 := start.Commit(t);
    LoadReads(l0, 1);
    SwapFoldsContiguousTurns(l0, l0.Load(1), 1, cost);
    SwapExactly(l0.Swap(0, 1, Fold(l0.Load(1), 1, cost)), 0, Empty);
  }

  lemma ExtendsIsTransitive(a: Lineage, b: Lineage, c: Lineage)
    requires b.Extends(a) && c.Extends(b)
    ensures c.Extends(a)
  {
    assert c.windows[b.active] == b.windows[b.active];
  }

  /** Contexts stay readable: what was read once is still a prefix of the history. */
  lemma ReadSurvives(older: Lineage, l: Lineage, c: Context)
    requires older.Read(c) && l.Extends(older)
    ensures l.Read(c)
  {
    assert l.turns[c.through..c.through + |c.turns|] == older.turns[c.through..c.through + |c.turns|];
  }

  /** The summary and the turns of a context that was read are together an unbroken prefix of
      the committed history: nothing unsummarised is dropped. */
  lemma ReadContextIsComplete(l: Lineage, c: Context)
    requires l.Valid() && l.Read(c)
    ensures c.summary.Contents() + c.turns <= l.turns
  {
    assert l.turns[..c.through] + l.turns[c.through..c.through + |c.turns|] == l.turns[..c.through + |c.turns|];
  }

  /* ---- The protocol: any number of workers, any interleaving ---- */

  datatype Worker = Resting | Holding(context: Context)

  datatype State = State(lineage: Lineage, workers: map<nat, Worker>)

  datatype Step =
    | CommitTurn(turn: Turn)
    | LoadSource(worker: nat, target: nat)
    | SwapSummary(worker: nat, count: nat, cost: nat)
    | GiveUp(worker: nat)

  predicate Enabled(s: State, step: Step) {
    match step
    case CommitTurn(_) => true
    case LoadSource(w, _) => w in s.workers && s.lineage.active < |s.lineage.windows|
                             && s.lineage.Through() <= |s.lineage.turns|
    case SwapSummary(w, count, _) =>
      w in s.workers && s.workers[w].Holding? && 1 <= count <= |s.workers[w].context.turns|
    case GiveUp(w) => w in s.workers
  }

  function Perform(s: State, step: Step): State
    requires Enabled(s, step)
  {
    match step
    case CommitTurn(t) => s.(lineage := s.lineage.Commit(t))
    case LoadSource(w, target) => s.(workers := s.workers[w := Holding(s.lineage.Load(target))])
    case SwapSummary(w, count, cost) =>
      var c := s.workers[w].context;
      State(s.lineage.Swap(c.window, c.turns[count - 1].index, Fold(c, count, cost)), s.workers[w := Resting])
    case GiveUp(w) => s.(workers := s.workers[w := Resting])
  }

  ghost predicate Invariant(s: State) {
    && s.lineage.Valid()
    && forall w :: w in s.workers && s.workers[w].Holding? ==> s.lineage.Read(s.workers[w].context)
  }

  lemma StepExtends(s: State, step: Step)
    requires Invariant(s) && Enabled(s, step)
    ensures Perform(s, step).lineage.Valid() && Perform(s, step).lineage.Extends(s.lineage)
  {
    match step
    case CommitTurn(t) => CommitExtends(s.lineage, t);
    case LoadSource(w, target) =>
    case SwapSummary(w, count, cost) => SwapFoldsContiguousTurns(s.lineage, s.workers[w].context, count, cost);
    case GiveUp(w) =>
  }

  lemma StepKeepsInvariant(s: State, step: Step)
    requires Invariant(s) && Enabled(s, step)
    ensures Invariant(Perform(s, step))
  {
    StepExtends(s, step);
    var after := Perform(s, step);
    forall w | w in after.workers && after.workers[w].Holding? ensures after.lineage.Read(after.workers[w].context) {
      if step.LoadSource? && step.worker == w {
        LoadReads(s.lineage, step.target);
      } else {
        ReadSurvives(s.lineage, after.lineage, s.workers[w].context);
      }
    }
  }

  ghost predicate Interleaving(trace: seq<State>, steps: seq<Step>) {
    && |trace| == |steps| + 1
    && forall i {:trigger steps[i]} :: 0 <= i < |steps| ==> Enabled(trace[i], steps[i]) && trace[i + 1] == Perform(trace[i], steps[i])
  }

  /** Two workers that hold the same context race, and a turn is committed meanwhile: the first swap
      folds its turns, the second changes nothing, and the new turn stays unsummarised. */
  lemma RaceHasOneWinner(s: State, v: nat, w: nat, t: Turn, k: nat, cost: nat, late: nat, lateCost: nat) returns (trace: seq<State>)
    requires Invariant(s) && v in s.workers && w in s.workers && v != w
    requires 1 <= k <= |s.lineage.turns| - s.lineage.Through() && 1 <= late <= |s.lineage.turns| - s.lineage.Through()
    ensures
      var n := |s.lineage.turns|;
      var steps := [LoadSource(v, n), LoadSource(w, n), CommitTurn(t), SwapSummary(v, k, cost), SwapSummary(w, late, lateCost)];
      && Interleaving(trace, steps) && trace[0] == s
      && trace[4].lineage == trace[5].lineage
      && FoldedOnce(s.lineage, trace[5].lineage, t, k, cost)
  {
    var n := |s.lineage.turns|;
    RaceOnTables(s.lineage, t, k, cost, late, lateCost);
    var read := [LoadSource(v, n), LoadSource(w, n), CommitTurn(t)];
    trace := BothRead(s, v, w, t);
    trace := Prolonged(trace, read, SwapSummary(v, k, cost));
    trace := Prolonged(trace, read + [SwapSummary(v, k, cost)], SwapSummary(w, late, lateCost));
    assert read + [SwapSummary(v, k, cost)] + [SwapSummary(w, late, lateCost)] ==
           [LoadSource(v, n), LoadSource(w, n), CommitTurn(t), SwapSummary(v, k, cost), SwapSummary(w, late, lateCost)];
  }

  lemma BothRead(s: State, v: nat, w: nat, t: Turn) returns (trace: seq<State>)
    requires Invariant(s) && v in s.workers && w in s.workers && v != w
    ensures
      var n := |s.lineage.turns|;
      && Interleaving(trace, [LoadSource(v, n), LoadSource(w, n), CommitTurn(t)]) && trace[0] == s
      && trace[3].lineage == s.lineage.Commit(t)
      && v in trace[3].workers && w in trace[3].workers
      && trace[3].workers[v] == trace[3].workers[w] == Holding(s.lineage.Load(n))
  {
    var n := |s.lineage.turns|;
    var s1 := Perform(s, LoadSource(v, n));
    var s2 := Perform(s1, LoadSource(w, n));
    trace := [s, s1, s2, Perform(s2, CommitTurn(t))];
  }

  lemma Prolonged(trace: seq<State>, steps: seq<Step>, step: Step) returns (longer: seq<State>)
    requires Interleaving(trace, steps) && Enabled(trace[|steps|], step)
    ensures longer == trace + [Perform(trace[|steps|], step)] && Interleaving(longer, steps + [step])
  {
    longer := trace + [Perform(trace[|steps|], step)];
    forall i {:trigger (steps + [step])[i]} | 0 <= i < |steps + [step]|
      ensures Enabled(longer[i], (steps + [step])[i]) && longer[i + 1] == Perform(longer[i], (steps + [step])[i])
    {
      if i < |steps| {
        assert (steps + [step])[i] == steps[i];
      }
    }
  }

  /** The first `k` unsummarised turns were folded into a new window, and one turn was committed. */
  ghost predicate FoldedOnce(l: Lineage, after: Lineage, t: Turn, k: nat, cost: nat)
    requires l.Valid() && l.Through() + k <= |l.turns|
  {
    && after.Valid() && after.Through() == l.Through() + k
    && after.windows[after.active].summary == Folded(l.windows[l.active].summary, l.turns[l.Through()..l.Through() + k], cost)
    && after.turns == l.turns + [t.(index := |l.turns| + 1)]
  }

  lemma RaceOnTables(l: Lineage, t: Turn, k: nat, cost: nat, late: nat, lateCost: nat)
    requires l.Valid() && 1 <= k <= |l.turns| - l.Through() && 1 <= late <= |l.turns| - l.Through()
    ensures
      var c, now := l.Load(|l.turns|), l.Commit(t);
      var after := now.Swap(c.window, c.turns[k - 1].index, Fold(c, k, cost));
      && FoldedOnce(l, after, t, k, cost)
      && after.Swap(c.window, c.turns[late - 1].index, Fold(c, late, lateCost)) == after
  {
    var c := l.Load(|l.turns|);
    LoadReads(l, |l.turns|);
    CommitExtends(l, t);
    ReadSurvives(l, l.Commit(t), c);
    SwapFoldsContiguousTurns(l.Commit(t), c, k, cost);
    assert l.Commit(t).turns[l.Through()..l.Through() + k] == l.turns[l.Through()..l.Through() + k];
  }

  lemma {:induction false} InvariantHolds(trace: seq<State>, steps: seq<Step>, j: nat)
    requires Interleaving(trace, steps) && Invariant(trace[0]) && j < |trace|
    ensures Invariant(trace[j])
  {
    if j > 0 {
      InvariantHolds(trace, steps, j - 1);
      StepKeepsInvariant(trace[j - 1], steps[j - 1]);
    }
  }

  lemma {:induction false} HistoryExtends(trace: seq<State>, steps: seq<Step>, i: nat, j: nat)
    requires Interleaving(trace, steps) && Invariant(trace[0]) && i <= j < |trace|
    ensures trace[j].lineage.Extends(trace[i].lineage)
    decreases j - i
  {
    if i == j {
      InvariantHolds(trace, steps, i);
    } else {
      HistoryExtends(trace, steps, i, j - 1);
      InvariantHolds(trace, steps, j - 1);
      assert Enabled(trace[j - 1], steps[j - 1]);
      StepExtends(trace[j - 1], steps[j - 1]);
      ExtendsIsTransitive(trace[i].lineage, trace[j - 1].lineage, trace[j].lineage);
    }
  }

  /** Under every interleaving of commits and unlocked compactions: the watermark never
      decreases, windows never change, and every committed turn is either folded once, in order,
      into the active summary or still in the tail. */
  lemma EveryTurnIsSummarisedOnceOrKept(trace: seq<State>, steps: seq<Step>, i: nat, j: nat)
    requires Interleaving(trace, steps) && Invariant(trace[0]) && i <= j < |trace|
    ensures trace[i].lineage.Valid() && trace[j].lineage.Valid()
    ensures trace[j].lineage.Extends(trace[i].lineage)
    ensures trace[i].lineage.Through() <= trace[j].lineage.Through()
    ensures
      var l := trace[j].lineage;
      l.windows[l.active].summary.Contents() + l.turns[l.Through()..] == l.turns
  {
    InvariantHolds(trace, steps, i);
    InvariantHolds(trace, steps, j);
    HistoryExtends(trace, steps, i, j);
    var l := trace[j].lineage;
    assert l.turns[..l.Through()] + l.turns[l.Through()..] == l.turns;
  }

  /* ---- The service ---- */

  class ContextStore {
    var turns: seq<Turn>
    var windows: seq<Window>
    var active: WindowId

    ghost function State(): Lineage
      reads this
    {
      Lineage(turns, windows, active)
    }

    constructor ()
      ensures State() == Lineage([], [Window(Empty, 0, None)], 0) && State().Valid()
    {
      turns, windows, active := [], [Window(Empty, 0, None)], 0;
    }

    method Commit(t: Turn)
      modifies this`turns
      ensures State() == old(State()).Commit(t)
    {
      turns := turns + [t.(index := |turns| + 1)];
    }

    method LoadSummarySource(target: nat) returns (c: Context)
      requires State().Valid()
      ensures c == State().Load(target)
    {
      var w := windows[active];
      c := Context(w.summary, turns[w.through..Max(w.through, Min(target, |turns|))], active, w.through);
    }

    method LoadContext() returns (c: Context)
      requires State().Valid()
      ensures c == State().Load(|turns|)
    {
      var w := windows[active];
      c := Context(w.summary, turns[w.through..], active, w.through);
    }

    method UpdateSummaryCas(expected: WindowId, through: nat, summary: Summary) returns (updated: bool)
      modifies this
      ensures State() == old(State()).Swap(expected, through, summary)
      ensures updated <==> expected == old(active)
    {
      if active != expected {
        return false;
      }
      windows := windows + [Window(summary, through, Some(active))];
      active := |windows| - 1;
      updated := true;
    }
  }

  /** What others do while the service is between its own transactions. */
  datatype Other =
    | OtherCommit(turn: Turn)
    | OtherCompaction(count: nat, cost: nat)   // a whole load and swap of another instance

  function Commits(others: seq<Other>): nat {
    if others == [] then 0 else (if others[0].OtherCommit? then 1 else 0) + Commits(others[1..])
  }

  /** What others do in one pass of the service: before it loads its source, while the summary
      model runs, and between the swap and the reload. */
  datatype Gaps = Gaps(before: seq<Other>, during: seq<Other>, after: seq<Other>)

  function PendingCommits(schedule: seq<Gaps>): nat {
    if schedule == [] then 0
    else
      var gaps := schedule[0];
      Commits(gaps.before) + Commits(gaps.during) + Commits(gaps.after) + PendingCommits(schedule[1..])
  }

  function Act(l: Lineage, other: Other): Lineage
    requires l.active < |l.windows| && l.Through() <= |l.turns|
  {
    match other
    case OtherCommit(t) => l.Commit(t)
    case OtherCompaction(count, cost) =>
      var c := l.Load(|l.turns|);
      if 1 <= count <= |c.turns| then l.Swap(c.window, c.turns[count - 1].index, Fold(c, count, cost)) else l
  }

  lemma ActExtends(l: Lineage, other: Other)
    requires l.Valid()
    ensures Act(l, other).Valid() && Act(l, other).Extends(l)
    ensures |Act(l, other).turns| == |l.turns| + Commits([other])
  {
    match other
    case OtherCommit(t) => CommitExtends(l, t);
    case OtherCompaction(count, cost) =>
      var c := l.Load(|l.turns|);
      LoadReads(l, |l.turns|);
      if 1 <= count <= |c.turns| {
        SwapFoldsContiguousTurns(l, c, count, cost);
      }
  }

  ghost function ActAll(l: Lineage, others: seq<Other>): (after: Lineage)
    requires l.Valid()
    ensures after.Valid() && after.Extends(l) && |after.turns| == |l.turns| + Commits(others)
    decreases |others|
  {
    if others == [] then l
    else
      ActExtends(l, others[0]);
      var after := ActAll(Act(l, others[0]), others[1..]);
      ExtendsIsTransitive(l, Act(l, others[0]), after);
      after
  }

  datatype CompactionError = NoCompactableTurn | SummaryUnavailable | FixedContentTooLarge

  /** The summary model: what a call costs or that it fails; calls are numbered. */
  type Summariser = (nat, Summary, seq<Turn>) -> Option<nat>

  /** A summary never costs more than what it replaces. */
  ghost predicate Frugal(model: Summariser) {
    forall n, s, turns {:trigger model(n, s, turns)} ::
      model(n, s, turns).Some? ==> model(n, s, turns).value <= s.Tokens() + Planner.Tokens(turns)
  }

  /** How far the window can still be compacted: unsummarised turns now and to come. */
  function Backlog(l: Lineage, schedule: seq<Gaps>): nat
    requires l.active < |l.windows| && l.Through() <= |l.turns|
  {
    |l.turns| - l.Through() + PendingCommits(schedule)
  }

  lemma PlanDecides(l: Limits, turns: seq<Turn>, fixed: nat, summary: nat, p: Plan)
    requires IsPlan(p, l, turns, fixed, summary)
    ensures forall q :: IsPlan(q, l, turns, fixed, summary) ==> q == p
  {
    forall q | IsPlan(q, l, turns, fixed, summary) ensures q == p {
      PlanIsUnique(p, q, l, turns, fixed, summary);
    }
  }

  /** Without others, the swap of a frugal summary leaves a window that needs no compaction. */
  lemma QuietSwapSettles(l: Lineage, c: Context, p: Plan, q: Plan, limits: Limits, fixed: nat, cost: nat)
    requires limits.Valid() && l.Valid() && c == l.Load(|l.turns|)
    requires IsPlan(p, limits, c.turns, fixed, c.summary.Tokens()) && p.RequiresCompaction()
    requires cost <= c.summary.Tokens() + Planner.Tokens(p.compacted)
    requires
      var after := l.Swap(c.window, c.through + |p.compacted|, Folded(c.summary, p.compacted, cost));
      after.Valid() && IsPlan(q, limits, after.Load(|after.turns|).turns, fixed, cost)
    ensures !q.RequiresCompaction()
  {
    var after := l.Swap(c.window, c.through + |p.compacted|, Folded(c.summary, p.compacted, cost));
    assert after.Load(|after.turns|).turns == p.retained;
    FrugalSummarySettles(p, q, limits, c.turns, fixed, c.summary.Tokens(), cost);
  }

  /** The plan asks for a compaction and the summary model answers it. */
  predicate Compacts(p: Plan, c: Context, model: Summariser, call: nat) {
    p.RequiresCompaction() && model(call, c.summary, p.compacted).Some?
  }

  /** Where a request for a prompt starts: its source, and how many turns are committed when its first
      compaction, if any, reloads the context. */
  datatype Start = Start(source: Context, committed: nat)

  function FirstGaps(schedule: seq<Gaps>): Gaps { if schedule == [] then Gaps([], [], []) else schedule[0] }

  function Later(schedule: seq<Gaps>): seq<Gaps> { if schedule == [] then [] else schedule[1..] }

  lemma PendingSplits(schedule: seq<Gaps>)
    ensures
      var gaps := FirstGaps(schedule);
      PendingCommits(schedule) == Commits(gaps.before) + Commits(gaps.during) + Commits(gaps.after) + PendingCommits(Later(schedule))
  {
  }

  ghost function Opening(l: Lineage, c0: Context, refresh: bool, schedule: seq<Gaps>): Start
    requires l.Valid()
  {
    var gaps := FirstGaps(schedule);
    var entered := ActAll(l, gaps.before);
    Start(if refresh then entered.Load(c0.Reach()) else c0, |entered.turns| + Commits(gaps.during) + Commits(gaps.after))
  }

  class ContextCompactionService {
    const store: ContextStore
    const limits: Limits

    constructor (store: ContextStore, limits: Limits)
      ensures this.store == store && this.limits == limits
    {
      this.store, this.limits := store, limits;
    }

    /** One action of another instance, in its own transactions. */
    method ActOnce(other: Other)
      requires store.State().Valid()
      modifies store
      ensures store.State() == Act(old(store.State()), other)
    {
      match other
      case OtherCommit(t) =>
        store.Commit(t);
      case OtherCompaction(count, cost) =>
        var c := store.LoadContext();
        if 1 <= count <= |c.turns| {
          var _ := store.UpdateSummaryCas(c.window, c.turns[count - 1].index, Fold(c, count, cost));
        }
    }

    /** The others run up to the next point where this instance touches the store. */
    method Interfere(others: seq<Other>)
      requires store.State().Valid()
      modifies store
      ensures store.State() == ActAll(old(store.State()), others)
    {
      assert others[0..] == others;
      for i := 0 to |others|
        invariant store.State().Valid()
        invariant ActAll(store.State(), others[i..]) == ActAll(old(store.State()), others)
      {
        assert others[i..][1..] == others[i + 1..];
        ActExtends(store.State(), others[i]);
        ActOnce(others[i]);
      }
    }

    /** The swap of a summary of the first `k` turns of a context. */
    method SwapIn(c: Context, k: nat, cost: nat) returns (updated: bool)
      requires store.State().Valid() && store.State().Read(c) && 1 <= k <= |c.turns|
      modifies store
      ensures store.State() == old(store.State()).Swap(c.window, c.through + k, Fold(c, k, cost))
      ensures store.State().Valid() && store.State().Extends(old(store.State()))
      ensures store.turns == old(store.turns) && store.State().Through() > c.through
      ensures updated <==> c.window == old(store.active)
    {
      SwapFoldsContiguousTurns(store.State(), c, k, cost);
      updated := store.UpdateSummaryCas(c.window, c.turns[k - 1].index, Fold(c, k, cost));
    }

    /** `_apply_plan`: summarise the compacted turns, then try the swap.  None is a failed summary. */
    method ApplyPlan(c: Context, p: Plan, model: Summariser, call: nat, others: seq<Other>)
      returns (applied: Option<bool>)
      requires store.State().Valid() && store.State().Read(c)
      requires p.RequiresCompaction() && p.compacted + p.retained == c.turns
      modifies store
      ensures store.State().Valid() && store.State().Extends(old(store.State()))
      ensures |store.turns| == |old(store.turns)| + Commits(others)
      ensures applied.None? <==> model(call, c.summary, p.compacted).None?
      ensures applied.Some? ==> store.State().Through() > c.through
      ensures applied.Some? && others == [] ==>
                (applied.value <==> c.window == old(store.active))
                && (applied.value ==>
                      store.State() == old(store.State()).Swap(c.window, c.through + |p.compacted|,
                        Folded(c.summary, p.compacted, model(call, c.summary, p.compacted).value)))
    {
      ghost var before := store.State();
      Interfere(others);
      ghost var now := store.State();
      ReadSurvives(before, now, c);
      var cost := model(call, c.summary, p.compacted);
      if cost.None? {
        return None;
      }
      assert p.compacted == c.turns[..|p.compacted|];
      var updated := SwapIn(c, |p.compacted|, cost.value);
      ExtendsIsTransitive(before, now, store.State());
      applied := Some(updated);
    }

    /** The others act, then the context is loaded again. */
    method Reload(others: seq<Other>) returns (context: Context)
      requires store.State().Valid()
      modifies store
      ensures store.State().Valid() && store.State().Extends(old(store.State()))
      ensures |store.turns| == |old(store.turns)| + Commits(others)
      ensures others == [] ==> store.State() == old(store.State())
      ensures context == store.State().Load(|store.turns|) && store.State().Read(context)
      ensures context.Reach() == |store.turns|
    {
      Interfere(others);
      LoadReads(store.State(), |store.turns|);
      context := store.LoadContext();
    }

    /** One compaction and the reload after it; None is a failed summary. */
    method CompactOnce(c: Context, p: Plan, fixed: nat, model: Summariser, call: nat, gaps: Gaps)
      returns (refreshed: Option<(Context, Plan)>)
      requires limits.Valid() && store.State().Valid() && store.State().Read(c)
      requires IsPlan(p, limits, c.turns, fixed, c.summary.Tokens()) && p.RequiresCompaction()
      modifies store
      ensures store.State().Valid() && store.State().Extends(old(store.State()))
      ensures refreshed.Some? ==>
                |store.turns| == |old(store.turns)| + Commits(gaps.during) + Commits(gaps.after)
      ensures refreshed.None? <==> model(call, c.summary, p.compacted).None?
      ensures refreshed.Some? ==>
                && store.State().Through() > c.through
                && refreshed.value.0 == store.State().Load(|store.turns|) && store.State().Read(refreshed.value.0)
                && refreshed.value.0.Reach() == |store.turns| >= c.Reach()
                && IsPlan(refreshed.value.1, limits, refreshed.value.0.turns, fixed, refreshed.value.0.summary.Tokens())
                && (gaps.during == gaps.after == [] && Frugal(model) && c == old(store.State()).Load(|old(store.turns)|) ==>
                      !refreshed.value.1.RequiresCompaction())
    {
      ghost var before := store.State();
      var applied := ApplyPlan(c, p, model, call, gaps.during);
      if applied.None? {
        return None;
      }
      ghost var swapped := store.State();
      var context := Reload(gaps.after);
      ExtendsIsTransitive(before, swapped, store.State());
      var q := MakePlan(limits, context.turns, fixed, context.summary.Tokens());
      if gaps.during == gaps.after == [] && Frugal(model) && c == before.Load(|before.turns|) {
        QuietSwapSettles(before, c, p, q, limits, fixed, model(call, c.summary, p.compacted).value);
      }
      refreshed := Some((context, q));
    }

    /** The context to plan with: the caller's, or the authoritative one up to the same turn. */
    method Source(c0: Context, refresh: bool) returns (c: Context)
      requires store.State().Valid() && store.State().Read(c0)
      ensures store.State().Read(c)
      ensures refresh ==> c.window == store.active && c.through == store.State().Through()
      ensures c0 == store.State().Load(|store.turns|) ==> c == c0
      ensures c == if refresh then store.State().Load(c0.Reach()) else c0
      ensures c.Reach() >= c0.Reach()
    {
      c := c0;
      if refresh {
        var target := c0.Reach();
        c := store.LoadSummarySource(target);
        LoadReads(store.State(), target);
      }
    }

    /** `_ensure_for_prompt_locked` (with `refresh` for `refresh_authoritative`).  Terminates under any
        finite schedule of others, who act before every load, during every summary call and between
        every swap and the reload after it.  A context is returned only if it can be sent as it is: it needs no
        compaction and respects the hard limit, unless the summary model failed below that limit.  In
        either case it was read from the store, so its summary and its turns together are an unbroken
        prefix of the committed history, at least as long as the one the caller came with; it is the
        source itself unless it was compacted, and then it has every turn committed at the reload. */
    method EnsureForPrompt(c0: Context, fixed: nat, refresh: bool, model: Summariser, call: nat, schedule: seq<Gaps>)
      returns (r: Result<Context, CompactionError>, calls: nat, ghost seen: Context, ghost plan: Plan)
      requires limits.Valid() && store.State().Valid() && store.State().Read(c0)
      modifies store
      ensures store.State().Valid() && store.State().Extends(old(store.State()))
      ensures r.Ok? ==> store.State().Read(r.value) && Settled(r.value, fixed, model)
      ensures r.Err? ==> store.State().Read(seen) && Justified(r.error, seen, plan, fixed, model)
      ensures call <= calls
      ensures r.Ok? ==> Covers(r.value, Opening(old(store.State()), c0, refresh, schedule), fixed, model, call)
                        && r.value.Reach() >= c0.Reach()
      ensures schedule == [] && Frugal(model) && c0 == old(store.State()).Load(|old(store.turns)|) ==> calls <= call + 1
      decreases Backlog(store.State(), schedule), if refresh then 0 else 1, 0
    {
      var verdict, context;
      ghost var start := Opening(store.State(), c0, refresh, schedule);
      verdict, calls, context, seen, plan := FirstRound(c0, fixed, refresh, model, call, schedule);
      if verdict.Some? {
        return verdict.value, calls, seen, plan;
      }
      ghost var swapped := store.State();
      r, calls, seen, plan := Reenter(context, start, fixed, model, call, calls, Later(schedule));
      ExtendsIsTransitive(old(store.State()), swapped, store.State());
    }

    /** The round a request begins with: the others act, the source is chosen, and one plan is made. */
    method FirstRound(c0: Context, fixed: nat, refresh: bool, model: Summariser, call: nat, schedule: seq<Gaps>)
      returns (verdict: Option<Result<Context, CompactionError>>, calls: nat, context: Context, ghost seen: Context, ghost plan: Plan)
      requires limits.Valid() && store.State().Valid() && store.State().Read(c0)
      modifies store
      ensures store.State().Valid() && store.State().Extends(old(store.State())) && call <= calls <= call + 1
      ensures
        var start := Opening(old(store.State()), c0, refresh, schedule);
        && Answers(store.State(), start, verdict, context, seen, plan, fixed, model, call)
        && start.source.Reach() >= c0.Reach()
      ensures verdict.None? ==>
                Backlog(store.State(), Later(schedule)) + (if refresh then 1 else 0) <= Backlog(old(store.State()), schedule)
      ensures schedule == [] && Frugal(model) && c0 == old(store.State()).Load(|old(store.turns)|) ==> verdict.Some?
    {
      var gaps := FirstGaps(schedule);
      PendingSplits(schedule);
      var c := Enter(c0, refresh, schedule);
      ghost var before := store.State();
      verdict, calls, context, seen, plan := PlanOrCompact(c, fixed, model, call, gaps);
      ExtendsIsTransitive(old(store.State()), before, store.State());
    }

    /** The re-entry through the authoritative state. */
    method Reenter(context: Context, ghost start: Start, fixed: nat, model: Summariser, ghost first: nat, call: nat,
                   schedule: seq<Gaps>)
      returns (r: Result<Context, CompactionError>, calls: nat, ghost seen: Context, ghost plan: Plan)
      requires limits.Valid() && store.State().Valid() && store.State().Read(context)
      requires MustCompact(start.source, fixed, model, first) && context.Reach() >= start.committed
      modifies store
      ensures store.State().Valid() && store.State().Extends(old(store.State()))
      ensures r.Ok? ==> store.State().Read(r.value) && Settled(r.value, fixed, model) && r.value.Reach() >= context.Reach()
      ensures r.Ok? ==> Covers(r.value, start, fixed, model, first)
      ensures r.Err? ==> store.State().Read(seen) && Justified(r.error, seen, plan, fixed, model)
      ensures call <= calls
      decreases Backlog(store.State(), schedule), 0, 1
    {
      r, calls, seen, plan := EnsureForPrompt(context, fixed, true, model, call, schedule);
      if r.Ok? {
        CoversAfterCompaction(r.value, start, fixed, model, first);
      }
    }

    /** The others act, then the source of the plan is chosen. */
    method Enter(c0: Context, refresh: bool, schedule: seq<Gaps>) returns (c: Context)
      requires store.State().Valid() && store.State().Read(c0)
      modifies store
      ensures store.State().Valid() && store.State().Extends(old(store.State())) && store.State().Read(c)
      ensures |store.turns| == |old(store.turns)| + Commits(FirstGaps(schedule).before)
      ensures
        var gaps := FirstGaps(schedule);
        Opening(old(store.State()), c0, refresh, schedule)
        == Start(c, |store.turns| + Commits(gaps.during) + Commits(gaps.after))
      ensures c.Reach() >= c0.Reach() && (refresh ==> c.through == store.State().Through())
      ensures schedule == [] ==> store.State() == old(store.State())
      ensures schedule == [] && c0 == old(store.State()).Load(|old(store.turns)|) ==> c == c0
    {
      ghost var entered := store.State();
      Interfere(FirstGaps(schedule).before);
      ReadSurvives(entered, store.State(), c0);
      c := Source(c0, refresh);
    }

    /** One round: plan, and compact if the plan asks for it.  No verdict means that the refreshed
        context has to be planned again. */
    method PlanOrCompact(c: Context, fixed: nat, model: Summariser, call: nat, gaps: Gaps)
      returns (verdict: Option<Result<Context, CompactionError>>, calls: nat, context: Context, ghost seen: Context, ghost plan: Plan)
      requires limits.Valid() && store.State().Valid() && store.State().Read(c)
      modifies store
      ensures store.State().Valid() && store.State().Extends(old(store.State()))
      ensures call <= calls <= call + 1
      ensures
        var start := Start(c, |old(store.turns)| + Commits(gaps.during) + Commits(gaps.after));
        Answers(store.State(), start, verdict, context, seen, plan, fixed, model, call)
      ensures verdict.None? ==>
                && store.State().Through() > c.through
                && !(gaps.during == gaps.after == [] && Frugal(model) && c == old(store.State()).Load(|old(store.turns)|))
    {
      ghost var before := store.State();
      ghost var start := Start(c, |store.turns| + Commits(gaps.during) + Commits(gaps.after));
      var p := MakePlan(limits, c.turns, fixed, c.summary.Tokens());
      if !p.RequiresCompaction() {
        AnswersWithSource(store.State(), start, p, NoCompactableTurn, fixed, model, call);
        return Some(if p.HardExceeded(limits) then Err(NoCompactableTurn) else Ok(c)), call, c, c, p;
      }
      var refreshed := CompactOnce(c, p, fixed, model, call, gaps);
      if refreshed.None? {
        ReadSurvives(before, store.State(), c);
        AnswersWithSource(store.State(), start, p, SummaryUnavailable, fixed, model, call);
        return Some(if p.HardExceeded(limits) then Err(SummaryUnavailable) else Ok(c)), call + 1, c, c, p;
      }
      var q := refreshed.value.1;
      context := refreshed.value.0;
      AnswersWithReload(store.State(), start, p, context, q, fixed, model, call);
      verdict, calls, seen, plan := None, call + 1, context, q;
      if !q.RequiresCompaction() {
        verdict := Some(if q.HardExceeded(limits) || q.PlannedHardExceeded(limits) then Err(FixedContentTooLarge) else Ok(context));
      }
    }

    /** What one round answers: a context that can be sent and covers enough, a justified refusal, or a
        reloaded context to plan again. */
    ghost predicate Answers(now: Lineage, start: Start, verdict: Option<Result<Context, CompactionError>>, context: Context,
                            seen: Context, plan: Plan, fixed: nat, model: Summariser, call: nat)
    {
      match verdict
      case Some(Ok(r)) =>
        && now.Read(r) && Settled(r, fixed, model) && Covers(r, start, fixed, model, call)
        && r.Reach() >= start.source.Reach() && (r == start.source || r.Reach() == start.committed == |now.turns|)
      case Some(Err(error)) => now.Read(seen) && Justified(error, seen, plan, fixed, model)
      case None =>
        && now.Read(context) && context.Reach() == start.committed == |now.turns| >= start.source.Reach()
        && MustCompact(start.source, fixed, model, call)
    }

    lemma AnswersWithSource(now: Lineage, start: Start, p: Plan, error: CompactionError, fixed: nat, model: Summariser, call: nat)
      requires now.Read(start.source) && IsPlan(p, limits, start.source.turns, fixed, start.source.summary.Tokens())
      requires !Compacts(p, start.source, model, call)
      requires error == if p.RequiresCompaction() then SummaryUnavailable else NoCompactableTurn
      ensures
        var c := start.source;
        Answers(now, start, Some(if p.HardExceeded(limits) then Err(error) else Ok(c)), c, c, p, fixed, model, call)
    {
      PlanDecides(limits, start.source.turns, fixed, start.source.summary.Tokens(), p);
    }

    lemma AnswersWithReload(now: Lineage, start: Start, p: Plan, c: Context, q: Plan, fixed: nat, model: Summariser, call: nat)
      requires IsPlan(p, limits, start.source.turns, fixed, start.source.summary.Tokens())
      requires Compacts(p, start.source, model, call)
      requires now.Read(c) && c.Reach() == start.committed == |now.turns| >= start.source.Reach()
      requires IsPlan(q, limits, c.turns, fixed, c.summary.Tokens())
      ensures
        var refused := q.HardExceeded(limits) || q.PlannedHardExceeded(limits);
        var verdict := if q.RequiresCompaction() then None else Some(if refused then Err(FixedContentTooLarge) else Ok(c));
        Answers(now, start, verdict, c, c, q, fixed, model, call)
    {
      PlanDecides(limits, start.source.turns, fixed, start.source.summary.Tokens(), p);
      PlanDecides(limits, c.turns, fixed, c.summary.Tokens(), q);
    }

    /** `compact_committed`, the background entry: the watermark moves exactly when the swap applied
        or another instance moved it, and never without a plan that asked for it. */
    method CompactCommitted(target: nat, model: Summariser, call: nat, others: seq<Other>)
      returns (compacted: bool, applied: Option<bool>)
      requires limits.Valid() && store.State().Valid()
      modifies store
      ensures store.State().Valid() && store.State().Extends(old(store.State()))
      ensures !compacted ==> store.State() == old(store.State()) && applied.None?
      ensures
        var c := old(store.State()).Load(target);
        forall p :: IsPlan(p, limits, c.turns, 0, c.summary.Tokens()) ==> (compacted <==> p.RequiresCompaction())
      ensures compacted && applied.Some? ==> store.State().Through() > old(store.State().Through())
      ensures compacted && others == [] ==> (applied.Some? ==> applied.value)
    {
      var c := store.LoadSummarySource(target);
      LoadReads(store.State(), target);
      var p := MakePlan(limits, c.turns, 0, c.summary.Tokens());
      PlanDecides(limits, c.turns, 0, c.summary.Tokens(), p);
      compacted := p.RequiresCompaction();
      applied := None;
      if compacted {
        applied := ApplyPlan(c, p, model, call, others);
      }
    }

    /** Why a prompt is refused, shown by a context that was read and its plan. */
    ghost predicate Justified(error: CompactionError, c: Context, p: Plan, fixed: nat, model: Summariser) {
      && IsPlan(p, limits, c.turns, fixed, c.summary.Tokens())
      && match error
         case NoCompactableTurn => !p.RequiresCompaction() && p.HardExceeded(limits)
         case SummaryUnavailable => p.HardExceeded(limits) && exists n :: model(n, c.summary, p.compacted).None?
         case FixedContentTooLarge => !p.RequiresCompaction() && (p.HardExceeded(limits) || p.PlannedHardExceeded(limits))
    }

    /** What a context that is handed out covers: it is the source it was planned from, or, after a
        compaction, it has all turns that were committed when the context was reloaded. */
    ghost predicate Covers(r: Context, start: Start, fixed: nat, model: Summariser, call: nat) {
      forall p :: IsPlan(p, limits, start.source.turns, fixed, start.source.summary.Tokens()) ==>
        if Compacts(p, start.source, model, call) then r.Reach() >= start.committed else r == start.source
    }

    ghost predicate MustCompact(c: Context, fixed: nat, model: Summariser, call: nat) {
      forall p :: IsPlan(p, limits, c.turns, fixed, c.summary.Tokens()) ==> Compacts(p, c, model, call)
    }

    lemma CoversAfterCompaction(r: Context, start: Start, fixed: nat, model: Summariser, call: nat)
      requires MustCompact(start.source, fixed, model, call) && r.Reach() >= start.committed
      ensures Covers(r, start, fixed, model, call)
    {
    }

    /** What that means: everything fits the window together, and there are neither too many turns nor
        too much of them, unless a summary call for what is too much has failed. */
    lemma SettledExactly(c: Context, fixed: nat, model: Summariser)
      requires limits.Valid()
      ensures
        var total := fixed + c.summary.Tokens() + Planner.Tokens(c.turns);
        Settled(c, fixed, model) <==>
          && total <= limits.contextLimit - limits.outputReserve - limits.safetyMargin
          && (|c.turns| > limits.turnLimit || Planner.Tokens(c.turns) > limits.RawLimit(total, fixed) ==>
                exists p, n :: IsPlan(p, limits, c.turns, fixed, c.summary.Tokens()) && model(n, c.summary, p.compacted).None?)
    {
      var p := PlanExists(limits, c.turns, fixed, c.summary.Tokens());
      PlanDecides(limits, c.turns, fixed, c.summary.Tokens(), p);
      PlanIsSound(p, limits, c.turns, fixed, c.summary.Tokens());
      CompactsExactly(p, limits, c.turns, fixed, c.summary.Tokens());
    }

    /** What holds of a context that is handed to the prompt builder. */
    ghost predicate Settled(c: Context, fixed: nat, model: Summariser) {
      forall p :: IsPlan(p, limits, c.turns, fixed, c.summary.Tokens()) ==>
        && !p.HardExceeded(limits)
        && (p.RequiresCompaction() ==> exists n :: model(n, c.summary, p.compacted).None?)
    }
  }
}
