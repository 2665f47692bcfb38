/** The bounded batch worker: any number of producers, one closer, one worker thread and a bounded
    queue, interleaved step by step (src/core/common/batching.py). */
module BatchWorker {
  import opened Common

  type Item = nat

  datatype Slot = Entry(item: Item) | Sentinel

  /** The caller of `close`: it waits for space for the sentinel at most until its timeout. */
  datatype Closer = Absent | Offering | Queued | GaveUp

  datatype Worker =
    | Waiting                                     // in the blocking get
    | Collecting(batch: seq<Item>)
    | Stopping(batch: seq<Item>)                  // the sentinel came while collecting
    | Handling(batch: seq<Item>, last: bool)
    | Exited
    | Crashed                                     // `on_error` itself raised

  /** The worker with its history: accepted items, batches given to the handler, and the queue's own
      counters of items taken and acknowledged. */
  datatype State = State(
    queue: seq<Slot>, closed: bool, closer: Closer, worker: Worker,
    accepted: seq<Item>, handed: seq<seq<Item>>, taken: nat, acknowledged: nat)

  datatype Limits = Limits(batchSize: nat, capacity: nat)
  {
    /** The constructor raises both to at least one. */
    predicate Valid() { batchSize >= 1 && capacity >= 1 }
  }

  datatype Event =
    | Submit(item: Item)
    | BeginClose
    | OfferSentinel
    | GiveUp
    | Take
    | Dispatch
    | Finish(crash: bool)

  predicate ByWorker(e: Event) { e.Take? || e.Dispatch? || e.Finish? }

  predicate Enabled(l: Limits, s: State, e: Event) {
    match e
    case Submit(_) => true
    case BeginClose => true
    case OfferSentinel => s.closer == Offering && |s.queue| < l.capacity
    case GiveUp => s.closer == Offering && |s.queue| >= l.capacity
    case Take => s.queue != [] && (s.worker == Waiting || (s.worker.Collecting? && |s.worker.batch| < l.batchSize))
    case Dispatch => s.worker.Collecting? || s.worker.Stopping?
    case Finish(_) => s.worker.Handling?
  }

  function Perform(l: Limits, s: State, e: Event): State
    requires Enabled(l, s, e)
  {
    match e
    case Submit(item) =>
      if s.closed || |s.queue| >= l.capacity then s
      else s.(queue := s.queue + [Entry(item)], accepted := s.accepted + [item])
    case BeginClose => if s.closed then s else s.(closed := true, closer := Offering)
    case OfferSentinel => s.(queue := s.queue + [Sentinel], closer := Queued)
    case GiveUp => s.(closer := GaveUp)
    case Take =>
      var rest := s.(queue := s.queue[1..], taken := s.taken + 1);
      if s.queue[0] == Sentinel then
        rest.(worker := if s.worker == Waiting then Exited else Stopping(s.worker.batch),
              acknowledged := s.acknowledged + 1)
      else
        rest.(worker := Collecting((if s.worker == Waiting then [] else s.worker.batch) + [s.queue[0].item]))
    case Dispatch =>
      s.(worker := Handling(s.worker.batch, s.worker.Stopping?), handed := s.handed + [s.worker.batch])
    case Finish(crash) =>
      s.(worker := if crash then Crashed else if s.worker.last then Exited else Waiting,
         acknowledged := s.acknowledged + |s.worker.batch|)
  }

  function Items(queue: seq<Slot>): seq<Item> {
    if queue == [] then [] else (if queue[0] == Sentinel then [] else [queue[0].item]) + Items(queue[1..])
  }

  /** Items taken but not yet given to the handler. */
  function InHand(w: Worker): seq<Item> { if w.Collecting? || w.Stopping? then w.batch else [] }

  /** Taken but not yet acknowledged. */
  function Unacknowledged(w: Worker): nat { if w.Collecting? || w.Stopping? || w.Handling? then |w.batch| else 0 }

  /** The sentinel has been taken: nothing is left and nothing can come. */
  predicate Drained(w: Worker) { w.Stopping? || w.Exited? || (w.Handling? && w.last) }

  predicate HoldsSentinel(queue: seq<Slot>) { queue != [] && queue[|queue| - 1] == Sentinel }

  /** Every accepted item is, in order, in a batch given to the handler, in hand, or in the queue. */
  predicate Content(s: State) { s.accepted == Flatten(s.handed) + InHand(s.worker) + Items(s.queue) }

  predicate Shape(l: Limits, s: State) {
    && |s.queue| <= l.capacity
    && (forall b :: b in s.handed ==> 1 <= |b| <= l.batchSize)
    && (s.worker.Collecting? || s.worker.Stopping? || s.worker.Handling? ==> 1 <= |s.worker.batch| <= l.batchSize)
    && (forall i :: 0 <= i < |s.queue| - 1 ==> s.queue[i].Entry?)
    && (HoldsSentinel(s.queue) ==> s.closer == Queued)
    && (s.closer != Absent <==> s.closed)
    && (Drained(s.worker) ==> s.queue == [] && s.closer == Queued)
    && (s.closer == Queued && !Drained(s.worker) && s.worker != Crashed ==> HoldsSentinel(s.queue))
  }

  /** Acknowledgements follow the items taken. */
  predicate Counts(s: State) {
    && s.taken == s.acknowledged + Unacknowledged(s.worker)
    && s.taken == |Flatten(s.handed)| + |InHand(s.worker)| + (if s.closer == Queued && !HoldsSentinel(s.queue) then 1 else 0)
  }

  predicate Invariant(l: Limits, s: State) { Content(s) && Shape(l, s) && Counts(s) }

  predicate Initial(s: State) { s == State([], false, Absent, Waiting, [], [], 0, 0) }

  lemma {:induction false} ItemsOfConcat(xs: seq<Slot>, ys: seq<Slot>)
    ensures Items(xs + ys) == Items(xs) + Items(ys)
  {
    if xs == [] {
      assert xs + ys == ys;
    } else {
      assert (xs + ys)[1..] == xs[1..] + ys;
      ItemsOfConcat(xs[1..], ys);
    }
  }

  lemma ContentGrows(s: State, slot: Slot)
    requires Content(s)
    ensures
      Flatten(s.handed) + InHand(s.worker) + Items(s.queue + [slot]) ==
      s.accepted + (if slot == Sentinel then [] else [slot.item])
  {
    ItemsOfConcat(s.queue, [slot]);
    assert [slot][1..] == [];
    Associates(Flatten(s.handed) + InHand(s.worker), Items(s.queue), Items([slot]));
  }

  lemma ContentMoves(s: State)
    requires Content(s) && s.queue != [] && s.queue[0].Entry?
    ensures Flatten(s.handed) + (InHand(s.worker) + [s.queue[0].item]) + Items(s.queue[1..]) == s.accepted
  {
    Associates(Flatten(s.handed), InHand(s.worker), [s.queue[0].item]);
    Associates(Flatten(s.handed) + InHand(s.worker), [s.queue[0].item], Items(s.queue[1..]));
  }

  lemma TakeKeepsContent(l: Limits, s: State)
    requires Content(s) && Enabled(l, s, Take)
    ensures Content(Perform(l, s, Take))
  {
    if s.queue[0].Entry? {
      ContentMoves(s);
      assert InHand(Perform(l, s, Take).worker) == InHand(s.worker) + [s.queue[0].item];
    } else {
      assert InHand(Perform(l, s, Take).worker) == InHand(s.worker);
    }
  }

  lemma DispatchKeepsContent(l: Limits, s: State)
    requires Content(s) && Enabled(l, s, Dispatch)
    ensures Content(Perform(l, s, Dispatch))
  {
    FlattenAppend(s.handed, s.worker.batch);
    assert Flatten(s.handed) + s.worker.batch + [] == Flatten(s.handed) + s.worker.batch;
  }

  lemma ContentIsKept(l: Limits, s: State, e: Event)
    requires Content(s) && Enabled(l, s, e)
    ensures Content(Perform(l, s, e))
  {
    match e
    case Submit(item) => ContentGrows(s, Entry(item));
    case OfferSentinel => ContentGrows(s, Sentinel);
    case Take => TakeKeepsContent(l, s);
    case Dispatch => DispatchKeepsContent(l, s);
    case _ =>
  }

  lemma ShapeIsKept(l: Limits, s: State, e: Event)
    requires l.Valid() && Shape(l, s) && Enabled(l, s, e)
    ensures Shape(l, Perform(l, s, e))
  {
    if e.Take? {
      var rest := s.queue[1..];
      assert forall i :: 0 <= i < |rest| ==> rest[i] == s.queue[i + 1];
    }
  }

  lemma TakeIsCounted(l: Limits, s: State)
    requires Counts(s) && Shape(l, s) && Enabled(l, s, Take)
    ensures Counts(Perform(l, s, Take))
  {
    if s.queue[0].Entry? {
      assert HoldsSentinel(s.queue[1..]) == HoldsSentinel(s.queue);
    } else {
      assert s.queue[1..] == [];
    }
  }

  lemma CountsAreKept(l: Limits, s: State, e: Event)
    requires Counts(s) && Shape(l, s) && Enabled(l, s, e)
    ensures Counts(Perform(l, s, e))
  {
    match e
    case Take => TakeIsCounted(l, s);
    case Dispatch => FlattenAppend(s.handed, s.worker.batch);
    case _ =>
  }

  lemma EventKeepsInvariant(l: Limits, s: State, e: Event)
    requires l.Valid() && Invariant(l, s) && Enabled(l, s, e)
    ensures Invariant(l, Perform(l, s, e))
  {
    ContentIsKept(l, s, e);
    ShapeIsKept(l, s, e);
    CountsAreKept(l, s, e);
  }

  /** History is only added to, and nothing is accepted after the close. */
  lemma EventExtends(l: Limits, s: State, e: Event)
    requires Enabled(l, s, e)
    ensures s.accepted <= Perform(l, s, e).accepted && s.handed <= Perform(l, s, e).handed
    ensures s.closed ==> Perform(l, s, e).closed && Perform(l, s, e).accepted == s.accepted
    ensures s.closed && s.closer == GaveUp ==> Perform(l, s, e).closer == GaveUp
  {
  }

  /* ---- Runs ---- */

  predicate Run(l: Limits, trace: seq<State>, events: seq<Event>) {
    && l.Valid()
    && |trace| == |events| + 1
    && Initial(trace[0])
    && forall i {:trigger events[i]} :: 0 <= i < |events| ==>
         Enabled(l, trace[i], events[i]) && trace[i + 1] == Perform(l, trace[i], events[i])
  }

  lemma {:induction false} InvariantHolds(l: Limits, trace: seq<State>, events: seq<Event>, j: nat)
    requires Run(l, trace, events) && j < |trace|
    ensures Invariant(l, trace[j])
  {
    if j > 0 {
      InvariantHolds(l, trace, events, j - 1);
      EventKeepsInvariant(l, trace[j - 1], events[j - 1]);
    }
  }

  lemma {:induction false} HistoryExtends(l: Limits, trace: seq<State>, events: seq<Event>, i: nat, j: nat)
    requires Run(l, trace, events) && i <= j < |trace|
    ensures trace[i].accepted <= trace[j].accepted && trace[i].handed <= trace[j].handed
    ensures trace[i].closed ==> trace[j].closed && trace[j].accepted == trace[i].accepted
    ensures trace[i].closed && trace[i].closer == GaveUp ==> trace[j].closer == GaveUp
    decreases j - i
  {
    if i < j {
      HistoryExtends(l, trace, events, i, j - 1);
      EventExtends(l, trace[j - 1], events[j - 1]);
    }
  }

  /** In every interleaving: accepted items reach the handler in the order of acceptance, each
      once, in batches of 1 to `batchSize`; nothing is accepted after the close; acknowledgements
      equal the items taken whenever the worker is between batches; and a worker that has exited
      handled everything ever accepted. */
  lemma EveryItemIsHandledOnceInOrder(l: Limits, trace: seq<State>, events: seq<Event>, i: nat, j: nat)
    requires Run(l, trace, events) && i <= j < |trace|
    ensures Flatten(trace[j].handed) <= trace[j].accepted && trace[i].handed <= trace[j].handed
    ensures trace[i].accepted <= trace[j].accepted && (trace[i].closed ==> trace[j].accepted == trace[i].accepted)
    ensures forall b :: b in trace[j].handed ==> 1 <= |b| <= l.batchSize
    ensures trace[j].worker == Waiting || trace[j].worker == Exited || trace[j].worker == Crashed ==>
              trace[j].acknowledged == trace[j].taken
    ensures trace[j].worker == Exited ==> trace[j].closed && Flatten(trace[j].handed) == trace[j].accepted
  {
    InvariantHolds(l, trace, events, j);
    HistoryExtends(l, trace, events, i, j);
    var s := trace[j];
    Associates(Flatten(s.handed), InHand(s.worker), Items(s.queue));
    ExitedMeansHandled(l, s);
  }

  /** `flush` waits until everything put into the queue is acknowledged: then every item accepted so
      far has been given to the handler. */
  lemma FlushMeansHandled(l: Limits, trace: seq<State>, events: seq<Event>, j: nat)
    requires Run(l, trace, events) && j < |trace|
    ensures
      var s := trace[j];
      var unfinished := s.taken + |s.queue| - s.acknowledged;
      unfinished >= 0 && (unfinished == 0 ==> Flatten(s.handed) == s.accepted)
  {
    InvariantHolds(l, trace, events, j);
    var s := trace[j];
    if s.queue == [] && InHand(s.worker) == [] {
      assert s.accepted == Flatten(s.handed) + [] + [];
    }
  }

  /* ---- Shutdown ---- */

  /** What the worker still has to do after the sentinel is queued. */
  function Remaining(s: State): nat {
    3 * |s.queue| + (
      match s.worker
      case Waiting => 1
      case Collecting(_) => 3
      case Stopping(_) => 2
      case Handling(_, last) => if last then 1 else 2
      case _ => 0)
  }

  /** Once the sentinel is queued the worker cannot get stuck: as long as it has not ended it has a
      step, each of its steps leaves strictly less to do, and no other step adds work. */
  lemma QueuedSentinelDrains(l: Limits, s: State, e: Event)
    requires l.Valid() && Invariant(l, s) && s.closer == Queued && Enabled(l, s, e)
    ensures s.worker == Exited || s.worker == Crashed || exists next :: ByWorker(next) && Enabled(l, s, next)
    ensures Perform(l, s, e).closer == Queued
    ensures if ByWorker(e) then Remaining(Perform(l, s, e)) < Remaining(s) else Perform(l, s, e) == s
  {
    if s.worker == Waiting {
      assert ByWorker(Take) && Enabled(l, s, Take);
    } else if s.worker.Handling? {
      assert ByWorker(Finish(false)) && Enabled(l, s, Finish(false));
    } else if s.worker.Collecting? || s.worker.Stopping? {
      assert ByWorker(Dispatch) && Enabled(l, s, Dispatch);
    }
  }

  lemma EmptyMeansHandled(s: State)
    requires Content(s) && s.worker == Waiting && s.queue == []
    ensures Flatten(s.handed) == s.accepted
  {
    assert s.accepted == Flatten(s.handed) + [] + [];
  }

  lemma ExitedMeansHandled(l: Limits, s: State)
    requires Invariant(l, s)
    ensures s.worker == Exited ==> Flatten(s.handed) == s.accepted
  {
    assert s.worker == Exited ==> s.accepted == Flatten(s.handed) + [] + [];
  }

  lemma GaveUpRuns(l: Limits, s: State)
    requires Invariant(l, s) && s.closer == GaveUp
    ensures s.worker != Exited && s.closed
    ensures s.worker == Waiting && s.queue == [] ==> Flatten(s.handed) == s.accepted
  {
    if s.worker == Waiting && s.queue == [] {
      EmptyMeansHandled(s);
    }
  }

  /** If `close` times out on a full queue the sentinel never arrives: the worker drains what was
      accepted but never exits. */
  lemma GivingUpStrandsTheWorker(l: Limits, trace: seq<State>, events: seq<Event>, i: nat, j: nat)
    requires Run(l, trace, events) && i <= j < |trace| && trace[i].closer == GaveUp
    ensures trace[j].worker != Exited && trace[j].accepted == trace[i].accepted
    ensures trace[j].worker == Waiting && trace[j].queue == [] ==> Flatten(trace[j].handed) == trace[j].accepted
  {
    InvariantHolds(l, trace, events, i);
    GaveUpRuns(l, trace[i]);
    HistoryExtends(l, trace, events, i, j);
    InvariantHolds(l, trace, events, j);
    GaveUpRuns(l, trace[j]);
  }

  function Filled(n: nat, item: Item): State {
    State(seq(n, _ => Entry(item)), false, Absent, Waiting, seq(n, _ => item), [], 0, 0)
  }

  /** A run that gets there, for every capacity: producers fill the queue before the worker takes
      anything, `close` begins, and its timeout passes. */
  lemma CloseCanGiveUp(l: Limits, item: Item) returns (trace: seq<State>, events: seq<Event>)
    requires l.Valid()
    ensures Run(l, trace, events) && trace[|events|].closer == GaveUp && |trace[|events|].accepted| == l.capacity
  {
    var full := Filled(l.capacity, item);
    var closing := full.(closed := true, closer := Offering);
    trace := seq(l.capacity + 1, i requires 0 <= i <= l.capacity => Filled(i, item)) + [closing, closing.(closer := GaveUp)];
    events := seq(l.capacity, _ => Submit(item)) + [BeginClose, GiveUp];
    forall i {:trigger events[i]} | 0 <= i < |events|
      ensures Enabled(l, trace[i], events[i]) && trace[i + 1] == Perform(l, trace[i], events[i])
    {
      if i < l.capacity {
        assert Filled(i, item).queue + [Entry(item)] == Filled(i + 1, item).queue;
        assert Filled(i, item).accepted + [item] == Filled(i + 1, item).accepted;
      }
    }
    assert Filled(0, item).queue == [] && Filled(0, item).accepted == [];
  }

  predicate Possible(l: Limits, s: State, events: seq<Event>)
    decreases |events|
  {
    events == [] || (Enabled(l, s, events[0]) && Possible(l, Perform(l, s, events[0]), events[1..]))
  }

  function After(l: Limits, s: State, events: seq<Event>): State
    requires Possible(l, s, events)
    decreases |events|
  {
    if events == [] then s else After(l, Perform(l, s, events[0]), events[1..])
  }

  ghost predicate CanExit(l: Limits, s: State) {
    exists events :: Possible(l, s, events) && After(l, s, events).worker == Exited
  }

  lemma StepFirst(l: Limits, s: State, e: Event)
    requires Enabled(l, s, e) && CanExit(l, Perform(l, s, e))
    ensures CanExit(l, s)
  {
    var next := Perform(l, s, e);
    var events :| Possible(l, next, events) && After(l, next, events).worker == Exited;
    assert ([e] + events)[1..] == events;
    assert Possible(l, s, [e] + events) && After(l, s, [e] + events).worker == Exited;
  }

  /** The next thing the worker does when its callbacks return. */
  function WorkerStep(w: Worker): Event {
    if w == Waiting then Take else if w.Handling? then Finish(false) else Dispatch
  }

  lemma WorkerGoesOn(l: Limits, s: State)
    requires l.Valid() && Invariant(l, s) && s.closer == Queued && s.worker != Crashed && s.worker != Exited
    ensures
      var e := WorkerStep(s.worker);
      Enabled(l, s, e)
      && var next := Perform(l, s, e);
      Invariant(l, next) && next.closer == Queued && next.worker != Crashed && Remaining(next) < Remaining(s)
  {
    EventKeepsInvariant(l, s, WorkerStep(s.worker));
    QueuedSentinelDrains(l, s, WorkerStep(s.worker));
  }

  lemma {:induction false} QueuedCanExit(l: Limits, s: State)
    requires l.Valid() && Invariant(l, s) && s.closer == Queued && s.worker != Crashed
    ensures CanExit(l, s)
    decreases Remaining(s)
  {
    if s.worker == Exited {
      assert Possible(l, s, []) && After(l, s, []).worker == Exited;
    } else {
      WorkerGoesOn(l, s);
      QueuedCanExit(l, Perform(l, s, WorkerStep(s.worker)));
      StepFirst(l, s, WorkerStep(s.worker));
    }
  }

  lemma {:induction false} GaveUpNeverExits(l: Limits, s: State, events: seq<Event>)
    requires l.Valid() && Invariant(l, s) && s.closer == GaveUp && Possible(l, s, events)
    ensures After(l, s, events).worker != Exited
    decreases |events|
  {
    GaveUpRuns(l, s);
    if events != [] {
      EventKeepsInvariant(l, s, events[0]);
      EventExtends(l, s, events[0]);
      GaveUpNeverExits(l, Perform(l, s, events[0]), events[1..]);
    }
  }

  /** Once `close` is over, a worker that was not killed by its error callback can still end if and
      only if the sentinel was queued. */
  lemma ExitsExactly(l: Limits, trace: seq<State>, events: seq<Event>, j: nat)
    requires Run(l, trace, events) && j < |trace|
    requires trace[j].closer == Queued || trace[j].closer == GaveUp
    requires trace[j].worker != Crashed
    ensures CanExit(l, trace[j]) <==> trace[j].closer == Queued
  {
    InvariantHolds(l, trace, events, j);
    if trace[j].closer == Queued {
      QueuedCanExit(l, trace[j]);
    } else if CanExit(l, trace[j]) {
      var more :| Possible(l, trace[j], more) && After(l, trace[j], more).worker == Exited;
      GaveUpNeverExits(l, trace[j], more);
      assert false;
    }
  }

  /* ---- The worker itself ---- */

  /** What happens around one access of the worker to the queue: events of others before it, whether
      the flush deadline has passed, and whether the error callback raises for the batch. */
  datatype Turn = Turn(others: seq<Event>, expired: bool, crash: bool)

  predicate OthersMay(l: Limits, closer: Closer, queued: nat, e: Event) {
    match e
    case Submit(_) => true
    case BeginClose => true
    case OfferSentinel => closer == Offering && queued < l.capacity
    case GiveUp => closer == Offering && queued >= l.capacity
    case _ => false
  }

  class BoundedBatchWorker {
    const limits: Limits
    var queue: seq<Slot>
    var closed: bool
    var closer: Closer
    var handed: seq<seq<Item>>
    var taken: nat
    var acknowledged: nat
    ghost var worker: Worker
    ghost var accepted: seq<Item>

    ghost function Now(): State
      reads this
    {
      State(queue, closed, closer, worker, accepted, handed, taken, acknowledged)
    }

    constructor (batchSize: int, queueMaxSize: int)
      ensures limits == Limits(Max(1, batchSize), Max(1, queueMaxSize)) && limits.Valid()
      ensures Initial(Now()) && Invariant(limits, Now())
    {
      limits := Limits(Max(1, batchSize), Max(1, queueMaxSize));
      queue, closed, closer, handed, taken, acknowledged := [], false, Absent, [], 0, 0;
      worker, accepted := Waiting, [];
    }

    method Submit(item: Item) returns (ok: bool)
      modifies this
      ensures Now() == Perform(limits, old(Now()), Event.Submit(item))
      ensures ok <==> !old(closed) && |old(queue)| < limits.capacity
    {
      ok := !closed && |queue| < limits.capacity;
      if ok {
        queue, accepted := queue + [Entry(item)], accepted + [item];
      }
    }

    /** The part of `close` under the state lock. */
    method BeginClose() returns (first: bool)
      modifies this
      ensures Now() == Perform(limits, old(Now()), Event.BeginClose) && first == !old(closed)
    {
      first := !closed;
      if first {
        closed, closer := true, Offering;
      }
    }

    /** One attempt to queue the sentinel; at the deadline a full queue ends `close`. */
    method OfferSentinel(expired: bool) returns (ended: bool)
      requires closer == Offering
      modifies this
      ensures |old(queue)| < limits.capacity ==> Now() == Perform(limits, old(Now()), Event.OfferSentinel)
      ensures |old(queue)| >= limits.capacity && expired ==> Now() == Perform(limits, old(Now()), GiveUp)
      ensures !ended ==> |old(queue)| >= limits.capacity && !expired && Now() == old(Now())
    {
      ended := true;
      if |queue| < limits.capacity {
        queue, closer := queue + [Sentinel], Queued;
      } else if expired {
        closer := GaveUp;
      } else {
        ended := false;
      }
    }

    /** Producers and the closer run; what they are not ready for does not happen. */
    method Others(events: seq<Event>)
      requires limits.Valid() && Invariant(limits, Now())
      modifies this
      ensures Invariant(limits, Now()) && worker == old(worker)
      ensures handed == old(handed) && old(accepted) <= accepted
    {
      for i := 0 to |events|
        invariant Invariant(limits, Now()) && worker == old(worker)
        invariant handed == old(handed) && old(accepted) <= accepted
      {
        if OthersMay(limits, closer, |queue|, events[i]) {
          EventKeepsInvariant(limits, Now(), events[i]);
          match events[i]
          case Submit(item) => var _ := Submit(item);
          case BeginClose => var _ := BeginClose();
          case OfferSentinel => var _ := OfferSentinel(false);
          case GiveUp => var _ := OfferSentinel(true);
          case _ =>
        }
      }
    }

    /** `queue.get` on a non-empty queue, and what the worker makes of the entry. */
    method Take() returns (slot: Slot)
      requires limits.Valid() && Invariant(limits, Now()) && Enabled(limits, Now(), Event.Take)
      modifies this
      ensures Now() == Perform(limits, old(Now()), Event.Take) && Invariant(limits, Now())
      ensures slot == old(queue)[0]
    {
      ghost var before := Now();
      slot := queue[0];
      queue, taken := queue[1..], taken + 1;
      if slot == Sentinel {
        acknowledged := acknowledged + 1;
        worker := if worker == Waiting then Exited else Stopping(worker.batch);
      } else {
        worker := Collecting((if worker == Waiting then [] else worker.batch) + [slot.item]);
      }
      assert Now() == Perform(limits, before, Event.Take);
      EventKeepsInvariant(limits, before, Event.Take);
    }

    /** The inner loop: fill the batch until it is full, the deadline passes, the queue is empty or
        the sentinel comes. */
    method Collect(first: Item, schedule: seq<Turn>, from: nat) returns (batch: seq<Item>, stop: bool, n: nat)
      requires limits.Valid() && Invariant(limits, Now()) && worker == Collecting([first]) && from <= |schedule|
      modifies this
      ensures Invariant(limits, Now()) && handed == old(handed) && from <= n <= |schedule|
      ensures worker == if stop then Stopping(batch) else Collecting(batch)
      ensures n == from ==> queue == old(queue)
      ensures old(accepted) <= accepted
    {
      batch, stop, n := [first], false, from;
      while |batch| < limits.batchSize && n < |schedule|
        invariant from <= n <= |schedule| && !stop
        invariant Invariant(limits, Now()) && handed == old(handed) && worker == Collecting(batch)
        invariant n == from ==> queue == old(queue)
        invariant old(accepted) <= accepted
      {
        Others(schedule[n].others);
        n := n + 1;
        if schedule[n - 1].expired || queue == [] {
          break;
        }
        var slot := Take();
        if slot == Sentinel {
          stop := true;
          break;
        }
        batch := batch + [slot.item];
      }
    }

    /** `_run`.  It returns when the worker ends, or blocked on an empty queue when the schedule does.
        A worker that exits has given every accepted item to the handler. */
    method Run(schedule: seq<Turn>) returns (ended: bool)
      requires limits.Valid() && Invariant(limits, Now()) && worker == Waiting
      modifies this
      ensures Invariant(limits, Now())
      ensures if ended then worker == Exited || worker == Crashed else worker == Waiting && queue == []
      ensures worker != Crashed ==> Flatten(handed) == accepted
      ensures old(accepted) <= accepted && old(handed) <= handed
    {
      var n := 0;
      ended := false;
      while !ended && (queue != [] || n < |schedule|)
        invariant n <= |schedule| && Invariant(limits, Now())
        invariant if ended then worker == Exited || worker == Crashed else worker == Waiting
        invariant worker == Exited ==> Flatten(handed) == accepted
        invariant old(accepted) <= accepted && old(handed) <= handed
        decreases !ended, |schedule| - n, |queue|
      {
        if queue == [] {
          Others(schedule[n].others);
          n := n + 1;
        } else {
          ended, n := HandleNext(schedule, n);
        }
      }
      if !ended {
        EmptyMeansHandled(Now());
      }
    }

    /** One pass of the outer loop over a non-empty queue. */
    method HandleNext(schedule: seq<Turn>, from: nat) returns (ended: bool, n: nat)
      requires limits.Valid() && Invariant(limits, Now()) && worker == Waiting && queue != [] && from <= |schedule|
      modifies this
      ensures Invariant(limits, Now()) && from <= n <= |schedule|
      ensures if ended then worker == Exited || worker == Crashed else worker == Waiting
      ensures worker == Exited ==> Flatten(handed) == accepted
      ensures n == from ==> |queue| < |old(queue)|
      ensures old(accepted) <= accepted && old(handed) <= handed
    {
      var slot := Take();
      if slot == Sentinel {
        ExitedMeansHandled(limits, Now());
        return true, from;
      }
      var batch, stop;
      batch, stop, n := Collect(slot.item, schedule, from);
      var crash := n > 0 && schedule[n - 1].crash;
      ended := Handle(batch, stop, crash);
    }

    /** The handler call with its `finally`. */
    method Handle(batch: seq<Item>, stop: bool, crash: bool) returns (ended: bool)
      requires limits.Valid() && Invariant(limits, Now())
      requires worker == if stop then Stopping(batch) else Collecting(batch)
      modifies this
      ensures Invariant(limits, Now()) && handed == old(handed) + [batch] && queue == old(queue) && accepted == old(accepted)
      ensures worker == if crash then Crashed else if stop then Exited else Waiting
      ensures ended <==> crash || stop
      ensures worker == Exited ==> Flatten(handed) == accepted
    {
      CallHandler(batch);
      FinishBatch(batch, crash);
      ended := crash || stop;
    }

    method CallHandler(batch: seq<Item>)
      requires limits.Valid() && Invariant(limits, Now()) && Enabled(limits, Now(), Dispatch) && worker.batch == batch
      modifies this
      ensures Now() == Perform(limits, old(Now()), Dispatch) && Invariant(limits, Now())
    {
      ghost var before := Now();
      handed, worker := handed + [batch], Handling(batch, worker.Stopping?);
      assert Now() == Perform(limits, before, Dispatch);
      EventKeepsInvariant(limits, before, Dispatch);
    }

    method FinishBatch(batch: seq<Item>, crash: bool)
      requires limits.Valid() && Invariant(limits, Now()) && worker.Handling? && worker.batch == batch
      modifies this
      ensures Now() == Perform(limits, old(Now()), Finish(crash)) && Invariant(limits, Now())
      ensures worker == Exited ==> Flatten(handed) == accepted
    {
      ghost var before := Now();
      acknowledged := acknowledged + |batch|;
      worker := if crash then Crashed else if worker.last then Exited else Waiting;
      assert Now() == Perform(limits, before, Finish(crash));
      EventKeepsInvariant(limits, before, Finish(crash));
      ExitedMeansHandled(limits, Now());
    }
  }
}
