/** Byte-bounded pages of conversation history and the cursor that follows them
    (src/core/session/history.py, src/core/adapters/sqlite/conversation_history.py). */
module History {
  import opened Common
  import opened Utf8

  const MAX_BYTES := 786432
  const MARKER: string := ['\n', '\n'] + "<History content truncated>"

  datatype Kind = TextBlock | Reasoning | ToolResult | ToolCall | OtherBlock

  /** Tool arguments as JSON text, or what stands for them after a cut. */
  datatype Args = NoArgs | Args(json: string) | ArgsTruncated(originalBytes: nat)

  datatype Block = Block(kind: Kind, field: Option<string>, args: Args, truncated: bool, charCount: nat, originalBytes: nat)

  datatype Message = Message(system: bool, blocks: seq<Block>)

  datatype Turn =
    | Turn(index: int, messages: seq<Message>, truncated: bool)
    | Minimal(index: int, originalMessages: nat)

  /* ---- Cutting fields ---- */

  /** What `_truncate_block_field` leaves of a text that is too long, for any marker. */
  function Cut(marker: string, value: string, limit: nat): string {
    if limit <= |Encode(marker)| then DecodeIgnore(Encode(marker)[..limit])
    else DecodeIgnore(Encode(value)[..Min(limit - |Encode(marker)|, |Encode(value)|)]) + marker
  }

  function Rendered(value: string, limit: nat): string { Cut(MARKER, value, limit) }

  /** The first `k` characters fit the room and one more would not. */
  predicate LongestStart(text: string, room: int, k: nat) {
    && k <= |text| && |Encode(text[..k])| <= room
    && (k < |text| ==> |Encode(text[..k + 1])| > room)
  }

  lemma WholeCharsStart(text: string, room: nat)
    requires room <= |Encode(text)|
    ensures LongestStart(text, room, WholeChars(text, room))
    ensures DecodeIgnore(Encode(text)[..room]) == text[..WholeChars(text, room)]
  {
    WholeCharsIsLongest(text, room);
    DecodeOfCut(text, room);
  }

  /** A cut text respects the byte limit and ends on a character boundary: it is the longest start
      of the text that leaves room for the marker, or, when there is no room for more than the
      marker, the longest start of the marker. */
  lemma TruncationIsSafe(marker: string, value: string, limit: nat)
    requires |Encode(value)| > limit
    ensures |Encode(Cut(marker, value, limit))| <= limit
    ensures limit <= |Encode(marker)| ==> exists k: nat :: LongestStart(marker, limit, k) && Cut(marker, value, limit) == marker[..k]
    ensures limit > |Encode(marker)| ==>
              exists k: nat :: LongestStart(value, limit - |Encode(marker)|, k) && Cut(marker, value, limit) == value[..k] + marker
  {
    if limit <= |Encode(marker)| {
      WholeCharsStart(marker, limit);
    } else {
      var room := limit - |Encode(marker)|;
      WholeCharsStart(value, room);
      EncodeConcat(value[..WholeChars(value, room)], marker);
    }
  }

  function ProjectBlock(b: Block, limit: nat): Block {
    match b.kind
    case ToolCall =>
      if ArgsLength(b.args) > limit then b.(args := ArgsTruncated(ArgsLength(b.args))) else b
    case OtherBlock => b
    case _ =>
      if b.field.None? || |Encode(b.field.value)| <= limit then b
      else b.(field := Some(Rendered(b.field.value, limit)), truncated := true,
              charCount := |b.field.value|, originalBytes := |Encode(b.field.value)|)
  }

  function ProjectBlocks(bs: seq<Block>, limit: nat): seq<Block> {
    seq(|bs|, i requires 0 <= i < |bs| => ProjectBlock(bs[i], limit))
  }

  function ProjectMessages(ms: seq<Message>, limit: nat): seq<Message> {
    seq(|ms|, i requires 0 <= i < |ms| => Message(ms[i].system, ProjectBlocks(ms[i].blocks, limit)))
  }

  function Project(t: Turn, limit: nat): Turn
    requires t.Turn?
  {
    Turn(t.index, ProjectMessages(t.messages, limit), true)
  }

  /** A projection keeps the turn, its messages and their blocks in place, and marks the turn. */
  lemma ProjectionKeepsShape(t: Turn, limit: nat, m: nat, b: nat)
    requires t.Turn?
    ensures
      var r := Project(t, limit);
      && r.Turn? && r.truncated && r.index == t.index && |r.messages| == |t.messages|
      && (m < |t.messages| ==>
            && r.messages[m].system == t.messages[m].system && |r.messages[m].blocks| == |t.messages[m].blocks|
            && (b < |t.messages[m].blocks| ==> r.messages[m].blocks[b] == ProjectBlock(t.messages[m].blocks[b], limit)))
  {
  }

  lemma RenderedFits(value: string, limit: nat)
    requires |Encode(value)| > limit
    ensures |Encode(Rendered(value, limit))| <= limit
  {
    TruncationIsSafe(MARKER, value, limit);
  }

  /** A projected field respects the limit, and so does an argument list that is left alone.  What
      stands for a cut argument list respects it exactly if the placeholder does. */
  lemma ProjectedFieldsFit(b: Block, limit: nat)
    ensures
      var r, n := ProjectBlock(b, limit), ArgsLength(b.args);
      var cut := b.kind == ToolCall && n > limit;
      && r.kind == b.kind
      && (cut ==> r.args == ArgsTruncated(n))
      && (FieldLength(r) <= limit <==> (cut ==> |Encode(Placeholder(n))| <= limit))
  {
    if b.kind != ToolCall && b.kind != OtherBlock && b.field.Some? && |Encode(b.field.value)| > limit {
      RenderedFits(b.field.value, limit);
    }
  }

  /** A projection leaves a block alone if nothing in it is too long.  Otherwise it replaces the
      one field it may cut, says so, and gives the size it had; kind and other fields stay. */
  lemma ProjectedBlockExactly(b: Block, limit: nat)
    ensures b.kind == OtherBlock || FieldLength(b) <= limit ==> ProjectBlock(b, limit) == b
    ensures b.kind == ToolCall && FieldLength(b) > limit ==>
              ProjectBlock(b, limit) == b.(args := ArgsTruncated(FieldLength(b)))
    ensures b.kind != ToolCall && b.kind != OtherBlock && FieldLength(b) > limit ==>
              var r := ProjectBlock(b, limit);
              && r.truncated && r.charCount == |b.field.value| && r.originalBytes == FieldLength(b)
              && r.field == Some(Cut(MARKER, b.field.value, limit)) && r.args == b.args && r.kind == b.kind
  {
  }

  /** The largest byte length a cut could act on. */
  function LongestField(ms: seq<Message>): nat {
    if ms == [] then 0 else Max(LongestIn(ms[0].blocks), LongestField(ms[1..]))
  }

  function LongestIn(bs: seq<Block>): nat {
    if bs == [] then 0 else Max(FieldLength(bs[0]), LongestIn(bs[1..]))
  }

  /** From that length on a projection cuts nothing, and below it it cuts something: a larger limit
      would show no more. */
  lemma {:induction false} LongestFieldExactly(ms: seq<Message>, limit: nat)
    ensures LongestField(ms) <= limit <==>
              forall m, b :: 0 <= m < |ms| && 0 <= b < |ms[m].blocks| ==> FieldLength(ms[m].blocks[b]) <= limit
    ensures LongestField(ms) <= limit ==> ProjectMessages(ms, limit) == ms
    decreases |ms|
  {
    if ms != [] {
      LongestInExactly(ms[0].blocks, limit);
      LongestFieldExactly(ms[1..], limit);
      assert forall m :: 0 < m < |ms| ==> ms[m] == ms[1..][m - 1];
    }
    if LongestField(ms) <= limit {
      forall m | 0 <= m < |ms| ensures ProjectBlocks(ms[m].blocks, limit) == ms[m].blocks {
        forall b | 0 <= b < |ms[m].blocks| ensures ProjectBlock(ms[m].blocks[b], limit) == ms[m].blocks[b] {
          ProjectedBlockExactly(ms[m].blocks[b], limit);
        }
      }
    }
  }

  lemma {:induction false} LongestInExactly(bs: seq<Block>, limit: nat)
    ensures LongestIn(bs) <= limit <==> forall b :: 0 <= b < |bs| ==> FieldLength(bs[b]) <= limit
    decreases |bs|
  {
    if bs != [] {
      LongestInExactly(bs[1..], limit);
      assert forall b :: 0 < b < |bs| ==> bs[b] == bs[1..][b - 1];
    }
  }

  /** The JSON text of what replaces an argument list. */
  function Placeholder(originalBytes: nat): string {
    "{\"_truncated\": true, \"_original_bytes\": " + Decimal(originalBytes) + "}"
  }

  function ArgsLength(args: Args): nat {
    match args
    case NoArgs => 0
    case Args(json) => |Encode(json)|
    case ArgsTruncated(n) => |Encode(Placeholder(n))|
  }

  function FieldLength(b: Block): nat {
    match b.kind
    case ToolCall => ArgsLength(b.args)
    case OtherBlock => 0
    case _ => if b.field.Some? then |Encode(b.field.value)| else 0
  }

  /* ---- The stored history and its pages ---- */

  /** A stored turn has at least one record; it is visible if one of them is not a system message. */
  datatype StoredTurn = StoredTurn(index: int, messages: seq<Message>)
  {
    function Shown(): seq<Message> { Visible(messages) }
  }

  function Visible(ms: seq<Message>): seq<Message> {
    if ms == [] then [] else (if ms[0].system then [] else [ms[0]]) + Visible(ms[1..])
  }

  predicate Ordered(h: seq<StoredTurn>) { forall i, j :: 0 <= i < j < |h| ==> h[i].index < h[j].index }

  /** The turns before a cursor. */
  function Below(h: seq<StoredTurn>, before: Option<int>): seq<StoredTurn> {
    if h == [] || before.None? || h[|h| - 1].index < before.value then h else Below(h[..|h| - 1], before)
  }

  function VisibleTurns(h: seq<StoredTurn>): seq<StoredTurn> {
    if h == [] then [] else (if h[0].Shown() == [] then [] else [h[0]]) + VisibleTurns(h[1..])
  }

  function Indices(h: seq<StoredTurn>): seq<int> { seq(|h|, i requires 0 <= i < |h| => h[i].index) }

  function TurnIndices(ts: seq<Turn>): seq<int> { seq(|ts|, i requires 0 <= i < |ts| => ts[i].index) }

  datatype StoredPage = StoredPage(turns: seq<StoredTurn>, next: Option<int>, more: bool)

  function Limit(requested: int): nat { Max(1, Min(requested, 100)) }

  /** A page has at least one turn and at most a hundred, and as many as requested in between. */
  lemma LimitExactly(requested: int)
    ensures 1 <= Limit(requested) <= 100
    ensures 1 <= requested <= 100 ==> Limit(requested) == requested
    ensures requested > 100 ==> Limit(requested) == 100
  {
  }

  /** `list_page`: the newest turns before the cursor. */
  function ListPage(h: seq<StoredTurn>, before: Option<int>, requested: int): StoredPage {
    var c := Below(h, before);
    var taken := c[Max(0, |c| - Limit(requested))..];
    var more := |c| > Limit(requested);
    StoredPage(taken, if more then Some(taken[0].index) else None, more)
  }

  datatype Response = Response(turns: seq<Turn>, next: Option<int>, more: bool)

  /** The JSON size of a turn, whatever the encoder. */
  type Size = Turn -> nat

  function TotalBytes(size: Size, ts: seq<Turn>): nat {
    if ts == [] then 0 else size(ts[0]) + TotalBytes(size, ts[1..])
  }

  lemma {:induction false} TotalOfParts(size: Size, ts: seq<Turn>, us: seq<Turn>)
    ensures TotalBytes(size, ts + us) == TotalBytes(size, ts) + TotalBytes(size, us)
    ensures forall t :: t in ts ==> size(t) <= TotalBytes(size, ts)
  {
    if ts == [] {
      assert ts + us == us;
    } else {
      assert (ts + us)[1..] == ts[1..] + us;
      TotalOfParts(size, ts[1..], us);
      assert ts == [ts[0]] + ts[1..];
    }
  }

  /** What may stand for a turn on a page: itself, its largest projection that fits (at a limit whose
      successor is too large), or the minimal diagnostic when not even the smallest projection fits. */
  ghost predicate Fitted(size: Size, t: Turn, r: Turn) {
    && r.index == t.index && size(r) <= MAX_BYTES
    && (size(t) <= MAX_BYTES ==> r == t)
    && (size(t) > MAX_BYTES ==>
          && t.Turn?
          && (size(Project(t, 0)) > MAX_BYTES ==> r == Minimal(t.index, |t.messages|))
          && (size(Project(t, 0)) <= MAX_BYTES ==> exists k :: FittedAt(size, t, r, k)))
  }

  ghost predicate FittedAt(size: Size, t: Turn, r: Turn, k: nat)
    requires t.Turn?
  {
    && k <= LongestField(t.messages) && r == Project(t, k)
    && (k == LongestField(t.messages) || size(Project(t, k + 1)) > MAX_BYTES)
  }

  class SessionHistoryQueryService {
    const size: Size

    /** The minimal diagnostic is far below the budget. */
    ghost predicate Valid() { forall i, n :: size(Minimal(i, n)) <= MAX_BYTES }

    constructor (size: Size)
      ensures this.size == size
    {
      this.size := size;
    }

    /** `_project_turn`: every block of every message. */
    static method ProjectTurn(t: Turn, limit: nat) returns (r: Turn)
      requires t.Turn?
      ensures r == Project(t, limit)
    {
      var messages: seq<Message> := [];
      for m := 0 to |t.messages|
        invariant messages == ProjectMessages(t.messages, limit)[..m]
      {
        var blocks: seq<Block> := [];
        for b := 0 to |t.messages[m].blocks|
          invariant blocks == ProjectBlocks(t.messages[m].blocks, limit)[..b]
        {
          blocks := blocks + [ProjectBlock(t.messages[m].blocks[b], limit)];
        }
        var all := ProjectBlocks(t.messages[m].blocks, limit);
        assert all[..|all|] == all;
        messages := messages + [Message(t.messages[m].system, blocks)];
      }
      r := Turn(t.index, messages, true);
    }

    /** `_fit_turn_to_budget`. */
    method FitTurnToBudget(t: Turn) returns (r: Turn)
      requires Valid() && t.Turn?
      ensures Fitted(size, t, r)
    {
      if size(t) <= MAX_BYTES {
        return t;
      }
      var upper: int := LongestField(t.messages);
      var best := ProjectTurn(t, 0);
      if size(best) > MAX_BYTES {
        return Minimal(t.index, |t.messages|);
      }
      var lower: nat := 0;
      while lower <= upper
        invariant lower <= upper + 1 && upper <= LongestField(t.messages)
        invariant best == Project(t, Max(0, lower - 1)) && size(best) <= MAX_BYTES
        invariant upper < LongestField(t.messages) ==> upper < 0 || size(Project(t, upper + 1)) > MAX_BYTES
        invariant upper >= 0
        decreases upper - lower
      {
        var limit := (lower + upper) / 2;
        var candidate := ProjectTurn(t, limit);
        if size(candidate) <= MAX_BYTES {
          best, lower := candidate, limit + 1;
        } else {
          upper := limit - 1;
        }
      }
      assert FittedAt(size, t, best, lower - 1);
      r := best;
    }

    /** `_bounded_turn_page`: the longest run of newest turns within the byte budget, at least one. */
    method BoundedTurnPage(turns: seq<Turn>, next: Option<int>, more: bool) returns (r: Response)
      requires Valid() && forall i :: 0 <= i < |turns| ==> turns[i].Turn?
      ensures Bounded(size, turns, next, more, r)
    {
      var selected: seq<Turn> := [];
      var used: nat := 0;
      ghost var stopped := false;
      for i := 0 to |turns|
        invariant |selected| == i && !stopped
        invariant used == TotalBytes(size, selected) <= MAX_BYTES
        invariant Newest(size, turns, selected)
      {
        var turn := FitTurnToBudget(turns[|turns| - 1 - i]);
        if selected != [] && used + size(turn) > MAX_BYTES {
          stopped := true;
          assert Overflows(size, turns[|turns| - |selected| - 1], selected, turn);
          break;
        }
        assert ([turn] + selected)[1..] == selected;
        selected, used := [turn] + selected, used + size(turn);
      }
      var effective := more || |selected| < |turns|;
      var cursor := if effective && selected != [] then Some(selected[0].index) else if more then next else None;
      r := Response(selected, cursor, effective);
    }

    /** `list_history` for a session, None if there is none of that name. */
    method ListHistory(h: Option<seq<StoredTurn>>, before: Option<int>, requested: int) returns (r: Response)
      requires Valid()
      ensures h.None? ==> r == Response([], None, false)
      ensures h.Some? ==> Answers(size, h.value, before, requested, r)
    {
      if h.None? {
        return Response([], None, false);
      }
      var page := ListPage(h.value, before, requested);
      var shown := VisibleTurns(page.turns);
      var turns := seq(|shown|, i requires 0 <= i < |shown| => Turn(shown[i].index, shown[i].Shown(), false));
      r := BoundedTurnPage(turns, page.next, page.more);
    }
  }

  /** The newest turns, each itself or fitted to the budget. */
  ghost predicate Newest(size: Size, turns: seq<Turn>, selected: seq<Turn>) {
    selected == [] ||
    (&& |selected| <= |turns| && Fitted(size, turns[|turns| - |selected|], selected[0])
     && Newest(size, turns, selected[1..]))
  }

  lemma {:induction false} NewestIndices(size: Size, turns: seq<Turn>, selected: seq<Turn>)
    requires Newest(size, turns, selected)
    ensures |selected| <= |turns| && TurnIndices(selected) == TurnIndices(turns[|turns| - |selected|..])
  {
    if selected != [] {
      NewestIndices(size, turns, selected[1..]);
      var at := |turns| - |selected|;
      assert turns[at..] == [turns[at]] + turns[at + 1..];
      assert TurnIndices(turns[at..]) == [turns[at].index] + TurnIndices(turns[at + 1..]);
      assert TurnIndices(selected) == [selected[0].index] + TurnIndices(selected[1..]);
    }
  }

  /** The next older turn does not fit any more. */
  ghost predicate Overflows(size: Size, t: Turn, selected: seq<Turn>, fitted: Turn) {
    Fitted(size, t, fitted) && TotalBytes(size, selected) + size(fitted) > MAX_BYTES
  }

  ghost predicate Full(size: Size, t: Turn, selected: seq<Turn>) { exists fitted :: Overflows(size, t, selected, fitted) }

  /** A response that shows as many of the newest turns as fit. */
  ghost predicate Bounded(size: Size, turns: seq<Turn>, next: Option<int>, more: bool, r: Response) {
    && Newest(size, turns, r.turns) && (turns != [] ==> r.turns != [])
    && TotalBytes(size, r.turns) <= MAX_BYTES
    && (|r.turns| < |turns| ==> Full(size, turns[|turns| - |r.turns| - 1], r.turns))
    && r.more == (more || |r.turns| < |turns|)
    && r.next == (if r.more && r.turns != [] then Some(r.turns[0].index) else if more then next else None)
  }

  function AsTurns(h: seq<StoredTurn>): seq<Turn> {
    seq(|h|, i requires 0 <= i < |h| => Turn(h[i].index, h[i].Shown(), false))
  }

  ghost predicate Answers(size: Size, h: seq<StoredTurn>, before: Option<int>, requested: int, r: Response) {
    var page := ListPage(h, before, requested);
    Bounded(size, AsTurns(VisibleTurns(page.turns)), page.next, page.more, r)
  }

  /* ---- Following the cursor ---- */

  lemma {:induction false} VisibleConcat(a: seq<StoredTurn>, b: seq<StoredTurn>)
    ensures VisibleTurns(a + b) == VisibleTurns(a) + VisibleTurns(b)
  {
    if a == [] {
      assert a + b == b;
    } else {
      assert (a + b)[1..] == a[1..] + b;
      VisibleConcat(a[1..], b);
    }
  }

  lemma {:induction false} VisibleIn(h: seq<StoredTurn>)
    ensures forall t :: t in VisibleTurns(h) ==> t in h
    ensures Ordered(h) ==> Ordered(VisibleTurns(h))
  {
    if h != [] {
      VisibleIn(h[1..]);
      assert Ordered(h) ==> Ordered(h[1..]) && forall t :: t in h[1..] ==> h[0].index < t.index;
    }
  }

  /** `Below` is a prefix, and in an ordered history exactly the turns before the cursor. */
  lemma {:induction false} BelowSplits(h: seq<StoredTurn>, before: int) returns (n: nat)
    requires Ordered(h)
    ensures n <= |h| && Below(h, Some(before)) == h[..n]
    ensures forall i :: 0 <= i < |h| ==> (i < n <==> h[i].index < before)
  {
    if h == [] || h[|h| - 1].index < before {
      n := |h|;
      assert h[..n] == h;
    } else {
      n := BelowSplits(h[..|h| - 1], before);
      assert h[..|h| - 1][..n] == h[..n];
    }
  }

  /** The turns still to be shown before a cursor. */
  function Left(h: seq<StoredTurn>, before: Option<int>): seq<StoredTurn> { VisibleTurns(Below(h, before)) }

  lemma BelowAtIndex(c: seq<StoredTurn>, k: nat)
    requires Ordered(c) && k < |c|
    ensures Below(c, Some(c[k].index)) == c[..k]
  {
    var n := BelowSplits(c, c[k].index);
    assert k < n <==> c[k].index < c[k].index;
    assert n < |c| ==> !(c[n].index < c[k].index);
  }

  /** Going below twice is going below the lower cursor. */
  lemma BelowTwice(h: seq<StoredTurn>, before: Option<int>, k: nat)
    requires Ordered(h) && k < |Below(h, before)|
    ensures Below(h, Some(Below(h, before)[k].index)) == Below(h, before)[..k]
    ensures Ordered(Below(h, before))
  {
    if before.None? {
      BelowAtIndex(h, k);
    } else {
      var n := BelowSplits(h, before.value);
      BelowAtIndex(h, k);
      assert h[..n][..k] == h[..k];
    }
  }

  /** The place of a visible turn in the stored history. */
  lemma {:induction false} VisibleAt(c: seq<StoredTurn>, m: nat) returns (k: nat)
    requires m < |VisibleTurns(c)|
    ensures k < |c| && c[k] == VisibleTurns(c)[m] && VisibleTurns(c[..k]) == VisibleTurns(c)[..m]
  {
    if c[0].Shown() != [] && m == 0 {
      k := 0;
    } else {
      var skipped := if c[0].Shown() == [] then [] else [c[0]];
      k := VisibleAt(c[1..], m - |skipped|);
      k := k + 1;
      assert c[..k] == [c[0]] + c[1..][..k - 1];
      assert VisibleTurns(c)[..m] == skipped + VisibleTurns(c[1..])[..m - |skipped|];
    }
  }

  /** Stopping at a visible turn leaves the visible turns before it. */
  lemma LeftAtVisible(h: seq<StoredTurn>, before: Option<int>, m: nat)
    requires Ordered(h) && m < |Left(h, before)|
    ensures
      var cursor := Left(h, before)[m].index;
      && Left(h, Some(cursor)) == Left(h, before)[..m]
      && (before.Some? ==> cursor < before.value)
      && |Below(h, Some(cursor))| < |Below(h, before)|
  {
    var k := VisibleAt(Below(h, before), m);
    BelowTwice(h, before, k);
    CursorIsBelow(h, before, k);
  }

  lemma CursorIsBelow(h: seq<StoredTurn>, before: Option<int>, k: nat)
    requires Ordered(h) && k < |Below(h, before)|
    ensures before.Some? ==> Below(h, before)[k].index < before.value
  {
    if before.Some? {
      var n := BelowSplits(h, before.value);
    }
  }

  /** Stopping at the oldest turn taken, when nothing of the page was visible. */
  lemma LeftAtTaken(h: seq<StoredTurn>, before: Option<int>, from: nat)
    requires Ordered(h) && from < |Below(h, before)| && VisibleTurns(Below(h, before)[from..]) == []
    ensures
      var cursor := Below(h, before)[from].index;
      && Left(h, Some(cursor)) == Left(h, before)
      && (before.Some? ==> cursor < before.value)
      && |Below(h, Some(cursor))| < |Below(h, before)|
  {
    var c := Below(h, before);
    BelowTwice(h, before, from);
    CursorIsBelow(h, before, from);
    TakenSplits(c, from);
  }

  lemma AsTurnsIndices(v: seq<StoredTurn>, n: nat)
    requires n <= |v|
    ensures TurnIndices(AsTurns(v)[n..]) == Indices(v[n..])
  {
  }

  lemma TailOfConcat(a: seq<StoredTurn>, b: seq<StoredTurn>, n: nat)
    requires n <= |b|
    ensures (a + b)[|a| + n..] == b[n..]
  {
  }

  lemma SplitsAt(c: seq<StoredTurn>, from: nat)
    requires from <= |c|
    ensures c[..from] + c[from..] == c
  {
  }

  lemma TakenSplits(c: seq<StoredTurn>, from: nat)
    requires from <= |c|
    ensures VisibleTurns(c) == VisibleTurns(c[..from]) + VisibleTurns(c[from..])
  {
    SplitsAt(c, from);
    VisibleConcat(c[..from], c[from..]);
  }

  lemma ShownIndices(size: Size, shown: seq<StoredTurn>, selected: seq<Turn>)
    requires Newest(size, AsTurns(shown), selected)
    ensures |selected| <= |shown| && TurnIndices(selected) == Indices(shown[|shown| - |selected|..])
  {
    NewestIndices(size, AsTurns(shown), selected);
    AsTurnsIndices(shown, |shown| - |selected|);
  }

  lemma ShownIsTail(size: Size, hidden: seq<StoredTurn>, shown: seq<StoredTurn>, selected: seq<Turn>)
    requires Newest(size, AsTurns(shown), selected)
    ensures |selected| <= |shown|
    ensures TurnIndices(selected) == Indices((hidden + shown)[|hidden + shown| - |selected|..])
  {
    ShownIndices(size, shown, selected);
    TailOfConcat(hidden, shown, |shown| - |selected|);
  }

  lemma IndicesSplit(v: seq<StoredTurn>, m: nat)
    requires m <= |v|
    ensures Indices(v) == Indices(v[..m]) + Indices(v[m..])
    ensures m < |v| ==> Indices(v[m..])[0] == v[m].index
  {
  }

  lemma CursorOfShown(v: seq<StoredTurn>, selected: seq<Turn>)
    requires 0 < |selected| <= |v| && TurnIndices(selected) == Indices(v[|v| - |selected|..])
    ensures selected[0].index == v[|v| - |selected|].index
    ensures Indices(v) == Indices(v[..|v| - |selected|]) + TurnIndices(selected)
  {
    IndicesSplit(v, |v| - |selected|);
    assert TurnIndices(selected)[0] == selected[0].index;
  }

  /** A cursor at the oldest turn shown. */
  lemma MoreShown(h: seq<StoredTurn>, before: Option<int>, selected: seq<Turn>)
    requires Ordered(h) && 0 < |selected| <= |Left(h, before)|
    requires TurnIndices(selected) == Indices(Left(h, before)[|Left(h, before)| - |selected|..])
    ensures
      var cursor := Some(selected[0].index);
      && (before.Some? ==> cursor.value < before.value)
      && Indices(Left(h, before)) == Indices(Left(h, cursor)) + TurnIndices(selected)
      && |Below(h, cursor)| < |Below(h, before)|
  {
    var v := Left(h, before);
    CursorOfShown(v, selected);
    LeftAtVisible(h, before, |v| - |selected|);
  }

  /** The facts about a response the paging argument needs. */
  lemma AnswerShape(size: Size, h: seq<StoredTurn>, before: Option<int>, requested: int, r: Response) returns (from: nat)
    requires Answers(size, h, before, requested, r)
    ensures from <= |Below(h, before)|
    ensures
      var shown := VisibleTurns(Below(h, before)[from..]);
      && Newest(size, AsTurns(shown), r.turns)
      && (r.turns == [] ==> shown == [])
      && (r.more && r.turns != [] ==> r.next == Some(r.turns[0].index))
      && (r.more && r.turns == [] ==> from < |Below(h, before)| && r.next == Some(Below(h, before)[from].index))
      && (!r.more ==> from == 0 && |r.turns| == |shown| && r.next == None)
  {
    var c := Below(h, before);
    from := Max(0, |c| - Limit(requested));
    var shown := VisibleTurns(c[from..]);
    assert |AsTurns(shown)| == |shown|;
    NewestIndices(size, AsTurns(shown), r.turns);
  }

  lemma MoreIsLeft(size: Size, h: seq<StoredTurn>, before: Option<int>, from: nat, r: Response)
    requires Ordered(h) && from <= |Below(h, before)| && r.turns != [] && r.next == Some(r.turns[0].index)
    requires Newest(size, AsTurns(VisibleTurns(Below(h, before)[from..])), r.turns)
    ensures before.Some? ==> r.next.value < before.value
    ensures Indices(Left(h, before)) == Indices(Left(h, r.next)) + TurnIndices(r.turns)
    ensures |Below(h, r.next)| < |Below(h, before)|
  {
    var c := Below(h, before);
    TakenSplits(c, from);
    ShownIsTail(size, VisibleTurns(c[..from]), VisibleTurns(c[from..]), r.turns);
    MoreShown(h, before, r.turns);
  }

  lemma NothingIsLeft(size: Size, c: seq<StoredTurn>, selected: seq<Turn>)
    requires Newest(size, AsTurns(VisibleTurns(c)), selected) && |selected| == |VisibleTurns(c)|
    ensures Indices(VisibleTurns(c)) == TurnIndices(selected)
  {
    ShownIndices(size, VisibleTurns(c), selected);
    assert VisibleTurns(c)[0..] == VisibleTurns(c);
  }

  /** What one answer shows, and what is left for the next: together exactly what was left before it.
      An answer with more to come has a cursor, strictly before the one it answers. */
  lemma AnswerShowsTheNewest(size: Size, h: seq<StoredTurn>, before: Option<int>, requested: int, r: Response)
    requires Ordered(h) && Answers(size, h, before, requested, r)
    ensures r.more ==> r.next.Some? && (before.Some? ==> r.next.value < before.value)
    ensures r.more ==> Indices(Left(h, before)) == Indices(Left(h, r.next)) + TurnIndices(r.turns)
    ensures r.more ==> |Below(h, r.next)| < |Below(h, before)|
    ensures !r.more ==> r.next.None? && Indices(Left(h, before)) == TurnIndices(r.turns)
  {
    var from := AnswerShape(size, h, before, requested, r);
    if r.more {
      if r.turns != [] {
        MoreIsLeft(size, h, before, from, r);
      } else {
        LeftAtTaken(h, before, from);
        assert Indices(Left(h, before)) + TurnIndices([]) == Indices(Left(h, before));
      }
    } else {
      assert Below(h, before)[0..] == Below(h, before);
      NothingIsLeft(size, Below(h, before), r.turns);
    }
  }

  /** A client that follows the cursor, asking for any number of turns each time. */
  ghost predicate Follows(size: Size, h: seq<StoredTurn>, before: Option<int>, requested: seq<int>, pages: seq<Response>)
    decreases |pages|
  {
    && pages != [] && |requested| == |pages|
    && Answers(size, h, before, requested[0], pages[0])
    && (|pages| > 1 ==> pages[0].more && Follows(size, h, pages[0].next, requested[1..], pages[1..]))
  }

  /** What the pages show, oldest turn first. */
  function Listed(pages: seq<Response>): seq<int> {
    if pages == [] then [] else Listed(pages[1..]) + TurnIndices(pages[0].turns)
  }

  lemma Chained(left: seq<int>, next: seq<int>, shown: seq<int>, still: seq<int>, later: seq<int>)
    requires left == next + shown && next == still + later
    ensures left == still + (later + shown)
  {
  }

  lemma {:induction false} FollowingListsWhatWasLeft(
      size: Size, h: seq<StoredTurn>, before: Option<int>, requested: seq<int>, pages: seq<Response>)
    requires Ordered(h) && Follows(size, h, before, requested, pages)
    ensures |pages| <= |Below(h, before)| + 1
    ensures
      var last := pages[|pages| - 1];
      Indices(Left(h, before)) == (if last.more then Indices(Left(h, last.next)) else []) + Listed(pages)
    decreases |pages|
  {
    AnswerShowsTheNewest(size, h, before, requested[0], pages[0]);
    var rest := pages[1..];
    var last := pages[|pages| - 1];
    if |pages| > 1 {
      FollowingListsWhatWasLeft(size, h, pages[0].next, requested[1..], rest);
      assert rest[|rest| - 1] == last;
      Chained(Indices(Left(h, before)), Indices(Left(h, pages[0].next)), TurnIndices(pages[0].turns),
              if last.more then Indices(Left(h, last.next)) else [], Listed(rest));
    } else {
      assert Listed(rest) == [] && Listed(pages) == TurnIndices(pages[0].turns);
    }
  }

  lemma {:induction false} PagesAreBounded(
      size: Size, h: seq<StoredTurn>, before: Option<int>, requested: seq<int>, pages: seq<Response>)
    requires Follows(size, h, before, requested, pages)
    ensures forall p :: p in pages ==> TotalBytes(size, p.turns) <= MAX_BYTES
    decreases |pages|
  {
    if |pages| > 1 {
      PagesAreBounded(size, h, pages[0].next, requested[1..], pages[1..]);
    }
  }

  /** Following the cursor ends after at most one page more than there are turns, and then has listed
      every visible turn exactly once, in order, on pages within the byte budget. */
  lemma CursorListsEveryTurnOnce(size: Size, h: seq<StoredTurn>, requested: seq<int>, pages: seq<Response>)
    requires Ordered(h) && Follows(size, h, None, requested, pages)
    ensures |pages| <= |h| + 1
    ensures !pages[|pages| - 1].more ==> Listed(pages) == Indices(VisibleTurns(h))
    ensures Ordered(VisibleTurns(h))
    ensures forall p :: p in pages ==> TotalBytes(size, p.turns) <= MAX_BYTES
  {
    FollowingListsWhatWasLeft(size, h, None, requested, pages);
    PagesAreBounded(size, h, None, requested, pages);
    VisibleIn(h);
  }
}
