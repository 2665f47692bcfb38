/** Token-aware planning of the retained conversation suffix (src/core/context/budget.py). */
module Planner {
  import opened Common

  /** A committed turn; `tokens` is what the token counter says about its messages. */
  datatype Turn = Turn(index: nat, tokens: nat, body: string)

  /** The planner's settings.  Ratios are reals; rounding of floating point is not modelled. */
  datatype Limits = Limits(
    contextLimit: int, outputReserve: int, safetyMargin: int, softRatio: real,
    turnLimit: nat, turnRatio: real, triggerEnabled: bool, trigger: int, summaryReserve: int)
  {
    /** What the constructor checks. */
    predicate Valid() {
      && contextLimit > outputReserve + safetyMargin
      && 0.0 < turnRatio <= 0.5
      && 0.0 < softRatio <= 1.0
    }

    function Hard(): int { contextLimit - outputReserve - safetyMargin }

    function DynamicSoft(): int { Max(1, (Hard() as real * softRatio).Floor) }

    function Soft(): int { if triggerEnabled then Min(trigger, DynamicSoft()) else DynamicSoft() }

    /** The limit the planner aims at: crossing the soft limit asks to come back below it. */
    function Target(projected: int): int { if projected > Soft() then Soft() else Hard() }

    function RawLimit(projected: int, fixed: nat): nat {
      Max(0, Min((contextLimit as real * turnRatio).Floor, Target(projected) - fixed - summaryReserve))
    }
  }

  datatype Plan = Plan(
    compacted: seq<Turn>, retained: seq<Turn>, rawLimit: nat,
    sourceTokens: nat, retainedTokens: nat, projected: nat, planned: int)
  {
    predicate RequiresCompaction() { compacted != [] }

    predicate HardExceeded(l: Limits) { projected > l.Hard() }

    predicate PlannedHardExceeded(l: Limits) { planned > l.Hard() }
  }

  function Tokens(turns: seq<Turn>): nat {
    if turns == [] then 0 else turns[0].tokens + Tokens(turns[1..])
  }

  lemma {:induction false} TokensSplit(a: seq<Turn>, b: seq<Turn>)
    ensures Tokens(a + b) == Tokens(a) + Tokens(b)
  {
    if a == [] {
      assert a + b == b;
    } else {
      assert (a + b)[1..] == a[1..] + b;
      TokensSplit(a[1..], b);
    }
  }

  lemma TokensOfSuffix(turns: seq<Turn>, k: nat)
    requires k < |turns|
    ensures Tokens(turns[k..]) == turns[k].tokens + Tokens(turns[k + 1..])
  {
    assert turns[k..][1..] == turns[k + 1..];
  }

  lemma {:induction false} SuffixTokensGrow(turns: seq<Turn>, i: nat, j: nat)
    requires i <= j <= |turns|
    ensures Tokens(turns[j..]) <= Tokens(turns[i..])
  {
    assert turns[i..] == turns[i..j] + turns[j..];
    TokensSplit(turns[i..j], turns[j..]);
  }

  /** A suffix the planner may keep. */
  predicate Admissible(turns: seq<Turn>, split: nat, turnLimit: nat, rawLimit: nat)
    requires split <= |turns|
  {
    |turns| - split <= turnLimit && Tokens(turns[split..]) <= rawLimit
  }

  /** The split point is the start of the longest admissible suffix. */
  ghost predicate LongestSuffix(turns: seq<Turn>, split: nat, turnLimit: nat, rawLimit: nat) {
    && split <= |turns| && Admissible(turns, split, turnLimit, rawLimit)
    && forall k :: 0 <= k <= |turns| && Admissible(turns, k, turnLimit, rawLimit) ==> split <= k
  }

  lemma LongestSuffixIsUnique(turns: seq<Turn>, a: nat, b: nat, turnLimit: nat, rawLimit: nat)
    requires LongestSuffix(turns, a, turnLimit, rawLimit) && LongestSuffix(turns, b, turnLimit, rawLimit)
    ensures a == b
  {
  }

  /** Some suffix is the longest one: if not this one, then one that starts earlier. */
  lemma {:induction false} LongestSuffixExists(turns: seq<Turn>, split: nat, turnLimit: nat, rawLimit: nat) returns (best: nat)
    requires split <= |turns| && Admissible(turns, split, turnLimit, rawLimit)
    ensures LongestSuffix(turns, best, turnLimit, rawLimit)
    decreases split
  {
    if split > 0 && Admissible(turns, split - 1, turnLimit, rawLimit) {
      best := LongestSuffixExists(turns, split - 1, turnLimit, rawLimit);
    } else {
      best := split;
      forall k | 0 <= k < split ensures !Admissible(turns, k, turnLimit, rawLimit) {
        SuffixTokensGrow(turns, k, split - 1);
      }
    }
  }

  /** The plan for these inputs, characterised by the longest suffix rather than by the scan. */
  ghost predicate IsPlan(p: Plan, l: Limits, turns: seq<Turn>, fixed: nat, summary: nat) {
    && p.compacted + p.retained == turns
    && p.projected == fixed + summary + Tokens(turns)
    && p.rawLimit == l.RawLimit(p.projected, fixed)
    && LongestSuffix(turns, |p.compacted|, l.turnLimit, p.rawLimit)
    && p.sourceTokens == Tokens(p.compacted)
    && p.retainedTokens == Tokens(p.retained)
    && p.planned == fixed + l.summaryReserve + p.retainedTokens
  }

  /** There is a plan for any inputs. */
  lemma PlanExists(l: Limits, turns: seq<Turn>, fixed: nat, summary: nat) returns (p: Plan)
    ensures IsPlan(p, l, turns, fixed, summary)
  {
    var projected := fixed + summary + Tokens(turns);
    var split := LongestSuffixExists(turns, |turns|, l.turnLimit, l.RawLimit(projected, fixed));
    p := Plan(turns[..split], turns[split..], l.RawLimit(projected, fixed), Tokens(turns[..split]), Tokens(turns[split..]),
              projected, fixed + l.summaryReserve + Tokens(turns[split..]));
  }

  lemma PlanIsUnique(p: Plan, q: Plan, l: Limits, turns: seq<Turn>, fixed: nat, summary: nat)
    requires IsPlan(p, l, turns, fixed, summary) && IsPlan(q, l, turns, fixed, summary)
    ensures p == q
  {
    LongestSuffixIsUnique(turns, |p.compacted|, |q.compacted|, l.turnLimit, p.rawLimit);
    assert p.compacted == turns[..|p.compacted|] && q.compacted == turns[..|q.compacted|];
    assert p.retained == turns[|p.compacted|..] && q.retained == turns[|q.compacted|..];
  }

  method SumTokens(turns: seq<Turn>) returns (total: nat)
    ensures total == Tokens(turns)
  {
    total := 0;
    for i := 0 to |turns|
      invariant total + Tokens(turns[i..]) == Tokens(turns)
    {
      TokensOfSuffix(turns, i);
      total := total + turns[i].tokens;
    }
    assert turns[|turns|..] == [];
  }

  /** `ContextWindowPlanner.plan`: walks back from the newest turn until a limit stops it. */
  method MakePlan(l: Limits, turns: seq<Turn>, fixed: nat, summary: nat) returns (p: Plan)
    requires l.Valid()
    ensures IsPlan(p, l, turns, fixed, summary)
  {
    var total := SumTokens(turns);
    var projected := fixed + summary + total;
    var rawLimit := l.RawLimit(projected, fixed);
    var split, retainedTokens := |turns|, 0;
    assert turns[|turns|..] == [];
    while split > 0
      invariant 0 <= split <= |turns|
      invariant retainedTokens == Tokens(turns[split..])
      invariant Admissible(turns, split, l.turnLimit, rawLimit)
    {
      if |turns| - split >= l.turnLimit {
        break;
      }
      TokensOfSuffix(turns, split - 1);
      if retainedTokens + turns[split - 1].tokens > rawLimit {
        break;
      }
      split := split - 1;
      retainedTokens := retainedTokens + turns[split].tokens;
    }
    forall k | 0 <= k <= |turns| && Admissible(turns, k, l.turnLimit, rawLimit) ensures split <= k {
      if k < split {
        SuffixTokensGrow(turns, k, split - 1);
      }
    }
    var source := SumTokens(turns[..split]);
    assert turns[..split] + turns[split..] == turns;
    p := Plan(turns[..split], turns[split..], rawLimit, source, retainedTokens, projected,
              fixed + l.summaryReserve + retainedTokens);
  }

  lemma ScaledDown(h: int, r: real)
    requires h >= 0 && r <= 1.0
    ensures (h as real * r).Floor <= h
  {
    var scaled := h as real * r;
    assert scaled == h as real - h as real * (1.0 - r);
    assert scaled.Floor as real <= scaled;
  }

  /** The soft limit never exceeds the hard one. */
  lemma SoftWithinHard(l: Limits)
    requires l.Valid()
    ensures l.Soft() <= l.Hard() && 1 <= l.Hard()
  {
    ScaledDown(l.Hard(), l.softRatio);
  }

  /** The soft limit is the share of the hard one, at least one token, and no more than the trigger. */
  lemma SoftExactly(l: Limits, x: int)
    ensures x <= l.Soft() <==>
              (x <= 1 || x as real <= l.Hard() as real * l.softRatio) && (l.triggerEnabled ==> x <= l.trigger)
  {
  }

  /** How many tokens of turns may be kept: any number within the share of the window that leaves room
      for the fixed messages and a summary below the limit that applies, which is the soft one as soon
      as the projection exceeds it. */
  lemma RawLimitExactly(l: Limits, projected: int, fixed: nat, x: nat)
    ensures x <= l.RawLimit(projected, fixed) <==>
              || x == 0
              || (&& x as real <= l.contextLimit as real * l.turnRatio
                  && fixed + l.summaryReserve + x <= (if projected > l.Soft() then l.Soft()
                                                      else l.contextLimit - l.outputReserve - l.safetyMargin))
  {
  }

  /** A plan compacts exactly if there are too many turns or they have too many tokens, and then it
      keeps as many as are allowed: one more would be too many, or too much. */
  lemma CompactsExactly(p: Plan, l: Limits, turns: seq<Turn>, fixed: nat, summary: nat)
    requires IsPlan(p, l, turns, fixed, summary)
    ensures p.RequiresCompaction() <==> |turns| > l.turnLimit || Tokens(turns) > p.rawLimit
    ensures p.RequiresCompaction() ==>
              |p.retained| == l.turnLimit || p.compacted[|p.compacted| - 1].tokens + p.retainedTokens > p.rawLimit
  {
    assert turns[0..] == turns;
    assert turns[|p.compacted|..] == p.retained;
    if p.RequiresCompaction() {
      var k := |p.compacted| - 1;
      assert !Admissible(turns, k, l.turnLimit, p.rawLimit) && !Admissible(turns, 0, l.turnLimit, p.rawLimit);
      TokensOfSuffix(turns, k);
      assert turns[k] == p.compacted[k];
    } else {
      assert Admissible(turns, 0, l.turnLimit, p.rawLimit);
    }
  }

  /** Nothing is lost or counted twice, and the plan misses the hard limit exactly when
      the fixed messages and the summary reserve alone miss it. */
  lemma PlanIsSound(p: Plan, l: Limits, turns: seq<Turn>, fixed: nat, summary: nat)
    requires l.Valid() && IsPlan(p, l, turns, fixed, summary)
    ensures p.sourceTokens + p.retainedTokens == Tokens(turns)
    ensures p.HardExceeded(l) <==> fixed + summary + Tokens(turns) > l.contextLimit - l.outputReserve - l.safetyMargin
    ensures p.PlannedHardExceeded(l) <==> fixed + l.summaryReserve > l.Hard()
    ensures |p.retained| <= l.turnLimit
    ensures p.projected > l.Soft() && fixed + l.summaryReserve <= l.Soft() ==> p.planned <= l.Soft()
  {
    TokensSplit(p.compacted, p.retained);
    SoftWithinHard(l);
    assert turns[|p.compacted|..] == p.retained;
  }

  /** Planning again after the compaction of a plan, with the new summary in place of the old
      one: when does it compact once more?  Only if the summary that replaced the turns pushed
      the projection over the soft limit that it respected before, and the retained turns do not
      fit below that limit. */
  lemma ReplanExactly(p: Plan, q: Plan, l: Limits, turns: seq<Turn>, fixed: nat, summary: nat, newSummary: nat)
    requires l.Valid() && IsPlan(p, l, turns, fixed, summary) && IsPlan(q, l, p.retained, fixed, newSummary)
    ensures q.RequiresCompaction() <==>
              p.projected <= l.Soft() < q.projected && p.retainedTokens > l.RawLimit(q.projected, fixed)
  {
    TokensSplit(p.compacted, p.retained);
    SoftWithinHard(l);
    assert turns[|p.compacted|..] == p.retained;
    assert p.retained[0..] == p.retained;
    assert q.RequiresCompaction() <==> !Admissible(p.retained, 0, l.turnLimit, q.rawLimit);
  }

  /** In particular a summary that is no larger than what it replaced settles the window. */
  lemma FrugalSummarySettles(p: Plan, q: Plan, l: Limits, turns: seq<Turn>, fixed: nat, summary: nat, newSummary: nat)
    requires l.Valid() && IsPlan(p, l, turns, fixed, summary) && IsPlan(q, l, p.retained, fixed, newSummary)
    requires newSummary <= summary + p.sourceTokens
    ensures !q.RequiresCompaction() && q.retained == p.retained && q.projected <= p.projected
  {
    TokensSplit(p.compacted, p.retained);
    ReplanExactly(p, q, l, turns, fixed, summary, newSummary);
  }
}
