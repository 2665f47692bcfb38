/** What the ledger guarantees over whole runs: any number of claims, lookups,
    finishes, operator decisions, restarts and artifact collections, for any
    number of calls, in any order. */
module LedgerRuns {
  import opened Common
  import opened Artifacts
  import opened ToolLedger

  datatype Step =
    | ClaimCall(ctx: Context, files: Files)
    | Lookup(ctx: Context)
    | FinishCall(ctx: Context, message: Message, files: Files, between: seq<Collection>)
    | Operator(key: Key, action: Action)
    | DaemonStart
    | Observe(key: Key, activity: Activity)
    | CollectGarbage
    | CollectionCrash(lost: set<Digest>)
    | PutCrash(content: Bytes)

  ghost function Next(db: Db, step: Step): Db {
    match step
    case ClaimCall(ctx, files) => db.Claim(ctx, files).0
    case Lookup(ctx) => db.ReplayCompleted(ctx).0
    case FinishCall(ctx, m, files, between) => db.Finish(ctx, m, files, between)
    case Operator(key, action) => db.Resolve(key, action)
    case DaemonStart => db.Restart()
    case Observe(key, a) => db.RecordActivity(key, a)
    case CollectGarbage => if db.store.None? then db else db.(store := Some(db.store.value.Collect()))
    case CollectionCrash(lost) =>
      if db.store.None? then db else db.(store := Some(db.store.value.CollectAborted(lost)))
    case PutCrash(content) =>
      if db.store.None? then db else db.(store := Some(db.store.value.PutAborted(content)))
  }

  ghost function Run(db: Db, steps: seq<Step>): Db
    decreases |steps|
  {
    if steps == [] then db else Run(Next(db, steps[0]), steps[1..])
  }

  ghost predicate Executes(db: Db, step: Step, key: Key) {
    step.ClaimCall? && step.ctx.key == key && db.Claim(step.ctx, step.files).1 == Execute
  }

  /** How many times a run answers "execute" to a claim of `key`. */
  ghost function Executions(db: Db, steps: seq<Step>, key: Key): nat
    decreases |steps|
  {
    if steps == [] then 0
    else (if Executes(db, steps[0], key) then 1 else 0) + Executions(Next(db, steps[0]), steps[1..], key)
  }

  predicate OneShot(policy: Policy) { policy != SafeRetry && policy != Reconcile }

  predicate Named(key: Key) { key.execution != [] && key.call != [] }

  /* ---- At most one execution ---- */

  lemma StepKeepsPolicy(db: Db, step: Step, key: Key)
    requires key in db.rows
    ensures key in Next(db, step).rows
    ensures Next(db, step).rows[key].policy ==
            if step.Operator? && step.key == key && step.action == RetryOnce && db.rows[key].Pending()
            then SafeRetry else db.rows[key].policy
    ensures Next(db, step).rows[key].before == db.rows[key].before
  {
  }

  /** Only SAFE_RETRY survives a later operator decision; every other policy is the original one. */
  lemma {:induction false} PolicyIsSettled(db: Db, steps: seq<Step>, key: Key)
    requires key in db.rows
    ensures key in Run(db, steps).rows
    ensures Run(db, steps).rows[key].policy in {SafeRetry, db.rows[key].policy}
    decreases |steps|
  {
    if steps != [] {
      StepKeepsPolicy(db, steps[0], key);
      PolicyIsSettled(Next(db, steps[0]), steps[1..], key);
    }
  }

  lemma {:induction false} KnownOneShotNeverExecutes(db: Db, steps: seq<Step>, key: Key)
    requires Named(key) && key in db.rows && key in Run(db, steps).rows && OneShot(Run(db, steps).rows[key].policy)
    ensures Executions(db, steps, key) == 0
    decreases |steps|
  {
    if steps != [] {
      StepKeepsPolicy(db, steps[0], key);
      PolicyIsSettled(Next(db, steps[0]), steps[1..], key);
      KnownOneShotNeverExecutes(Next(db, steps[0]), steps[1..], key);
    }
  }

  lemma StepWithoutRow(db: Db, step: Step, key: Key)
    requires Named(key) && key !in db.rows
    ensures key in Next(db, step).rows <==> step.ClaimCall? && step.ctx.key == key
    ensures Executes(db, step, key) <==> step.ClaimCall? && step.ctx.key == key && db.ActivitiesOf(key) == []
  {
  }

  /** A call whose row still carries a policy other than SAFE_RETRY and RECONCILE
      (so no operator released it) was told to execute at most once, whatever
      claims, finishes, crashes, restarts and decisions the run contains. */
  lemma {:induction false} AtMostOneExecution(db: Db, steps: seq<Step>, key: Key)
    requires Named(key) && key !in db.rows
    ensures key !in Run(db, steps).rows ==> Executions(db, steps, key) == 0
    ensures key in Run(db, steps).rows && OneShot(Run(db, steps).rows[key].policy)
            ==> Executions(db, steps, key) <= 1
    decreases |steps|
  {
    if steps != [] {
      var next := Next(db, steps[0]);
      StepWithoutRow(db, steps[0], key);
      if key !in next.rows {
        AtMostOneExecution(next, steps[1..], key);
      } else {
        PolicyIsSettled(next, steps[1..], key);
        if OneShot(Run(db, steps).rows[key].policy) {
          KnownOneShotNeverExecutes(next, steps[1..], key);
        }
      }
    }
  }

  /* ---- A stored result is final ---- */

  /** The row of `key` is terminal, its result can be read back as `m`, and an
      artifact that holds it is referenced. */
  ghost predicate Holds(db: Db, key: Key, m: Message) {
    && db.Valid()
    && key in db.rows && db.rows[key].Terminal()
    && db.Stored(db.rows[key]) == Ok(Some(m))
    && (db.rows[key].payload.None? ==>
          db.store.value.Intact(db.rows[key].artifact.value) && db.store.value.Referenced(db.rows[key].artifact.value))
  }

  /** What `finish` can keep: an inline result, or one within the artifact cap whose artifact is new
      or still has its file, and that is either referenced already or spared by every collection
      that runs before the reference is added. */
  ghost predicate Keepable(db: Db, m: Message, between: seq<Collection>) {
    !db.Spills(m) ||
    (var v, d := db.store.value, Sha256(Encode(m));
     && |Encode(m)| <= v.maxBytes
     && (v.Holds(d) ==> d in v.files)
     && ((v.Holds(d) && v.Referenced(v.IdOf(d))) || forall c :: c in between ==> c.Aborted? && d !in c.lost))
  }

  /** A collection deletes the artifact of a spilled result before `finish` can reference it. */
  ghost predicate Raises(db: Db, m: Message, between: seq<Collection>) {
    db.Spills(m) &&
    var (put, id) := db.store.value.Put(Encode(m));
    !put.Referenced(id) && exists c :: c in between && c.Completed?
  }

  /** The vault after a result was spilled and its artifact referenced, if it was still there. */
  ghost function Spilled(v: Vault, raw: Bytes, owner: Text, between: seq<Collection>): (Vault, ArtifactId) {
    var (put, id) := v.Put(raw);
    var w := put.Collections(between);
    (if id in w.rows then w.AddReference(id, owner) else w, id)
  }

  lemma SpilledKeeps(v: Vault, raw: Bytes, owner: Text, between: seq<Collection>, keep: ArtifactId)
    requires v.Valid()
    ensures
      var (a, id) := Spilled(v, raw, owner, between);
      && a.Valid() && a.maxBytes == v.maxBytes
      && (v.Intact(keep) && v.Referenced(keep) ==>
            a.Intact(keep) && a.Referenced(keep) && a.rows[keep] == v.rows[keep])
      && (id in a.rows ==> a.Referenced(id))
  {
    PutKeepsValid(v, raw);
    var (put, id) := v.Put(raw);
    CollectionsKeep(put, between, id);
    SameReferences(v, put);
    if v.Intact(keep) && v.Referenced(keep) {
      CollectionsKeep(put, between, keep);
    }
    SameReferences(put, put.Collections(between));
    if id in put.Collections(between).rows {
      ReferenceAdded(put.Collections(between), id, owner);
    }
  }

  lemma ReferenceAdded(v: Vault, id: ArtifactId, owner: Text)
    requires v.Valid() && id in v.rows
    ensures v.AddReference(id, owner).Valid()
    ensures forall i: ArtifactId :: v.AddReference(id, owner).Referenced(i) <==> v.Referenced(i) || i == id
  {
    var w := v.AddReference(id, owner);
    forall i: ArtifactId ensures w.Referenced(i) <==> v.Referenced(i) || i == id {
      assert (id, owner) in w.references;
      if v.Referenced(i) {
        var o :| (i, o) in v.references;
        assert (i, o) in w.references;
      }
    }
  }

  /** The spilled text reads back exactly under the conditions of `Keepable`. */
  lemma SpilledReadsBack(db: Db, m: Message, owner: Text, between: seq<Collection>)
    requires db.Valid() && db.Spills(m)
    ensures
      var (a, id) := Spilled(db.store.value, Encode(m), owner, between);
      && (id !in a.rows <==> Raises(db, m, between))
      && (Keepable(db, m, between) ==> a.Get(id) == Ok(Encode(m)) && a.Intact(id) && Decode(Encode(m)) == Some(m))
      && (!Keepable(db, m, between) && id in a.rows ==>
            a.Get(id).Err? || Decode(a.Get(id).value) != Some(m))
  {
    var v := db.store.value;
    var (put, id) := v.Put(Encode(m));
    PutRoundTrips(v, Encode(m));
    PutKeepsValid(v, Encode(m));
    CollectionBeforeReference(v, Encode(m));
    CollectionsKeep(put, between, id);
    DecodeEncode(m, |Encode(m)|);
    assert Encode(m)[..|Encode(m)|] == Encode(m);
    DecodeEncode(m, Min(|Encode(m)|, v.maxBytes));
    assert put.rows[id] == Sha256(Encode(m)[..Min(|Encode(m)|, v.maxBytes)]);
  }

  lemma FinishedRow(db: Db, ctx: Context, m: Message, files: Files, between: seq<Collection>)
    requires db.Valid() && ctx.Keyed() && ctx.key in db.rows
    ensures
      var after := db.Finish(ctx, m, files, between);
      if !db.Spills(m) then
        after.store == db.store && ctx.key in after.rows && after.rows[ctx.key].Terminal()
        && after.rows[ctx.key].payload == Some(m)
      else
        var (a, id) := Spilled(db.store.value, Encode(m), Owner(ctx.key), between);
        && after.store == Some(a)
        && (if id in a.rows
            then ctx.key in after.rows && after.rows[ctx.key].Terminal()
                 && after.rows[ctx.key].payload == None && after.rows[ctx.key].artifact == Some(id)
            else after.rows == db.rows)
  {
  }

  /** `finish` followed by a lookup is a round trip exactly for keepable results; a `finish` that
      raises leaves the row as it was. */
  lemma FinishStores(db: Db, ctx: Context, m: Message, files: Files, between: seq<Collection>)
    requires db.Valid() && ctx.Keyed() && ctx.key in db.rows
    ensures db.Finish(ctx, m, files, between).Valid()
    ensures !Raises(db, m, between) ==>
              (Holds(db.Finish(ctx, m, files, between), ctx.key, m) <==> Keepable(db, m, between))
    ensures Raises(db, m, between) ==> !Keepable(db, m, between) && db.Finish(ctx, m, files, between).rows == db.rows
  {
    FinishedRow(db, ctx, m, files, between);
    if db.Spills(m) {
      SpilledKeeps(db.store.value, Encode(m), Owner(ctx.key), between, 0);
      SpilledReadsBack(db, m, Owner(ctx.key), between);
    }
  }

  /** No other step touches a row with a result, readable or not. */
  lemma TerminalRowIsStable(db: Db, step: Step, key: Key)
    requires Named(key) && key in db.rows && db.rows[key].Terminal() && db.Stored(db.rows[key]) != Ok(None)
    requires !(step.FinishCall? && step.ctx.key == key)
    ensures key in Next(db, step).rows && Next(db, step).rows[key] == db.rows[key]
    ensures !Executes(db, step, key)
  {
  }

  /** The artifact a row relies on. */
  function Needed(row: Row): Option<ArtifactId> {
    if row.payload.None? then row.artifact else None
  }

  /** `Holds` depends on the row and the artifact store alone. */
  lemma HoldsTransfers(db: Db, after: Db, key: Key, m: Message)
    requires Holds(db, key, m) && key in after.rows && after.rows[key] == db.rows[key]
    requires db.store.Some? <==> after.store.Some?
    requires db.store.Some? ==> Kept(db.store.value, after.store.value, Needed(db.rows[key]))
    ensures Holds(after, key, m)
  {
  }

  lemma HoldsIsStable(db: Db, step: Step, key: Key, m: Message)
    requires Named(key) && Holds(db, key, m) && !(step.FinishCall? && step.ctx.key == key)
    ensures Holds(Next(db, step), key, m)
    ensures Next(db, step).rows[key] == db.rows[key]
  {
    TerminalRowIsStable(db, step, key);
    StoreStepKeeps(db, step, Needed(db.rows[key]));
    HoldsTransfers(db, Next(db, step), key, m);
  }

  lemma StoreStepKeeps(db: Db, step: Step, keep: Option<ArtifactId>)
    requires db.Valid()
    requires db.store.Some? && keep.Some? ==>
               db.store.value.Intact(keep.value) && db.store.value.Referenced(keep.value)
    ensures db.store.Some? <==> Next(db, step).store.Some?
    ensures db.store.Some? ==> Kept(db.store.value, Next(db, step).store.value, keep)
  {
    if step.FinishCall? {
      FinishKeepsArtifact(db, step.ctx, step.message, step.files, step.between, keep);
    } else if step.CollectGarbage? || step.CollectionCrash? || step.PutCrash? {
      if db.store.Some? {
        CollectionKeepsArtifact(db.store.value, if step.CollectionCrash? then step.lost else {},
                                if step.PutCrash? then step.content else [], keep);
      }
    } else {
      OtherStepsLeaveTheStore(db, step);
    }
  }

  ghost predicate Kept(v: Vault, w: Vault, keep: Option<ArtifactId>) {
    w.Valid() && (keep.Some? ==> w.Intact(keep.value) && w.Referenced(keep.value)
                                 && keep.value in v.rows && w.rows[keep.value] == v.rows[keep.value])
  }

  lemma FinishKeepsArtifact(
    db: Db, ctx: Context, m: Message, files: Files, between: seq<Collection>, keep: Option<ArtifactId>)
    requires db.Valid()
    requires db.store.Some? && keep.Some? ==>
               db.store.value.Intact(keep.value) && db.store.value.Referenced(keep.value)
    ensures db.store.Some? <==> db.Finish(ctx, m, files, between).store.Some?
    ensures db.store.Some? ==> Kept(db.store.value, db.Finish(ctx, m, files, between).store.value, keep)
  {
    if db.store.Some? {
      FinishedStore(db, ctx, m, files, between);
      SpilledKeeps(db.store.value, Encode(m), Owner(ctx.key), between, if keep.Some? then keep.value else 0);
    }
  }

  lemma FinishedStore(db: Db, ctx: Context, m: Message, files: Files, between: seq<Collection>)
    requires db.store.Some?
    ensures db.Finish(ctx, m, files, between).store ==
            if ctx.Keyed() && db.Spills(m) then Some(Spilled(db.store.value, Encode(m), Owner(ctx.key), between).0)
            else db.store
  {
  }

  lemma CollectionKeepsArtifact(v: Vault, lost: set<Digest>, content: Bytes, keep: Option<ArtifactId>)
    requires v.Valid() && (keep.Some? ==> v.Intact(keep.value) && v.Referenced(keep.value))
    ensures Kept(v, v.Collect(), keep) && Kept(v, v.CollectAborted(lost), keep) && Kept(v, v.PutAborted(content), keep)
  {
    CollectKeepsValid(v, lost, content);
    if keep.Some? {
      CollectionKeepsReferenced(v, keep.value, lost, content);
      SameReferences(v, v.CollectAborted(lost));
      SameReferences(v, v.PutAborted(content));
    }
  }

  lemma OtherStepsLeaveTheStore(db: Db, step: Step)
    requires !step.FinishCall? && !step.CollectGarbage? && !step.CollectionCrash? && !step.PutCrash?
    ensures Next(db, step).store == db.store
  {
  }

  lemma HeldIsReplayed(db: Db, key: Key, m: Message, ctx: Context, files: Files)
    requires Named(key) && Holds(db, key, m) && ctx.key == key
    ensures db.Claim(ctx, files).1 != Execute
    ensures db.rows[key].Matches(ctx) ==>
              db.Claim(ctx, files) == (db, Replay(m)) && db.ReplayCompleted(ctx) == (db, Replay(m))
  {
  }

  /** Once a result is stored, every later run of the ledger that does not finish
      the same call again leaves it in place: each matching claim or lookup
      replays exactly that message, and nothing is executed for the call. */
  lemma {:induction false} StoredResultIsFinal(
    db: Db, steps: seq<Step>, key: Key, m: Message, ctx: Context, files: Files)
    requires Named(key) && Holds(db, key, m) && ctx.key == key
    requires forall i :: 0 <= i < |steps| && steps[i].FinishCall? ==> steps[i].ctx.key != key
    ensures Holds(Run(db, steps), key, m) && Run(db, steps).rows[key] == db.rows[key]
    ensures Executions(db, steps, key) == 0
    ensures db.rows[key].Matches(ctx) ==>
              Run(db, steps).Claim(ctx, files) == (Run(db, steps), Replay(m))
              && Run(db, steps).ReplayCompleted(ctx) == (Run(db, steps), Replay(m))
    decreases |steps|
  {
    if steps == [] {
      HeldIsReplayed(db, key, m, ctx, files);
    } else {
      HoldsIsStable(db, steps[0], key, m);
      if steps[0].ClaimCall? && steps[0].ctx.key == key {
        HeldIsReplayed(db, key, m, steps[0].ctx, steps[0].files);
      }
      StoredResultIsFinal(Next(db, steps[0]), steps[1..], key, m, ctx, files);
    }
  }

  /** The whole path: finish, then anything at all, then a replay. */
  lemma FinishedCallIsReplayed(
    db: Db, ctx: Context, m: Message, files: Files, between: seq<Collection>, steps: seq<Step>, later: Files)
    requires db.Valid() && ctx.Keyed() && ctx.key in db.rows && db.rows[ctx.key].Matches(ctx)
    requires Keepable(db, m, between)
    requires forall i :: 0 <= i < |steps| && steps[i].FinishCall? ==> steps[i].ctx.key != ctx.key
    ensures Run(db.Finish(ctx, m, files, between), steps).Claim(ctx, later).1 == Replay(m)
    ensures Run(db.Finish(ctx, m, files, between), steps).ReplayCompleted(ctx).1 == Replay(m)
  {
    FinishStores(db, ctx, m, files, between);
    StoredResultIsFinal(db.Finish(ctx, m, files, between), steps, ctx.key, m, ctx, later);
  }

  /* ---- Every recorded result ends the call ---- */

  /** An id that was given out, for an artifact that is not empty if it still exists. */
  predicate GivenOut(v: Vault, id: ArtifactId) { id < v.nextId && (id in v.rows ==> v.rows[id].of != []) }

  /** The row has a result, which may or may not be readable. */
  ghost predicate Settled(db: Db, key: Key) {
    && db.Valid()
    && key in db.rows && db.rows[key].Terminal()
    && (db.rows[key].payload.Some?
        || (db.rows[key].artifact.Some? && db.store.Some? && GivenOut(db.store.value, db.rows[key].artifact.value)))
  }

  lemma SettledIsNotEmpty(db: Db, key: Key)
    requires Settled(db, key)
    ensures db.Stored(db.rows[key]) != Ok(None)
  {
  }

  lemma SpilledIsGivenOut(v: Vault, raw: Bytes, owner: Text, between: seq<Collection>, id: ArtifactId)
    requires v.Valid() && raw != []
    ensures
      var (a, given) := Spilled(v, raw, owner, between);
      GivenOut(a, given) && (GivenOut(v, id) ==> GivenOut(a, id))
  {
    PutKeepsValid(v, raw);
    CollectionsShrink(v.Put(raw).0, between);
  }

  lemma StoreKeepsGivenOut(db: Db, step: Step, id: ArtifactId)
    requires db.Valid() && db.store.Some?
    ensures Next(db, step).Valid() && Next(db, step).store.Some?
    ensures GivenOut(db.store.value, id) ==> GivenOut(Next(db, step).store.value, id)
  {
    StoreStepKeeps(db, step, None);
    if step.FinishCall? {
      FinishedStore(db, step.ctx, step.message, step.files, step.between);
      SpilledIsGivenOut(db.store.value, Encode(step.message), Owner(step.ctx.key), step.between, id);
    }
  }

  lemma StepKeepsValid(db: Db, step: Step)
    requires db.Valid()
    ensures Next(db, step).Valid()
  {
    StoreStepKeeps(db, step, None);
  }

  /** A finish of the call settles its row, unless it raises. */
  lemma FinishSettles(db: Db, ctx: Context, m: Message, files: Files, between: seq<Collection>)
    requires db.Valid() && ctx.Keyed() && ctx.key in db.rows
    ensures
      var after := db.Finish(ctx, m, files, between);
      Settled(after, ctx.key) || after.rows == db.rows
  {
    FinishedRow(db, ctx, m, files, between);
    StepKeepsValid(db, FinishCall(ctx, m, files, between));
    if db.Spills(m) {
      SpilledIsGivenOut(db.store.value, Encode(m), Owner(ctx.key), between, 0);
    }
  }

  /** A settled row stays settled over every step, later finishes of the call included. */
  lemma SettledStays(db: Db, step: Step, key: Key)
    requires Named(key) && Settled(db, key)
    ensures Settled(Next(db, step), key) && !Executes(db, step, key)
  {
    SettledIsNotEmpty(db, key);
    StepKeepsValid(db, step);
    var row := db.rows[key];
    if db.store.Some? && row.artifact.Some? {
      StoreKeepsGivenOut(db, step, row.artifact.value);
    }
    if step.FinishCall? && step.ctx.key == key {
      FinishSettles(db, step.ctx, step.message, step.files, step.between);
    } else {
      TerminalRowIsStable(db, step, key);
    }
  }

  lemma {:induction false} SettledNeverExecutes(db: Db, steps: seq<Step>, key: Key)
    requires Named(key) && Settled(db, key)
    ensures Settled(Run(db, steps), key) && Executions(db, steps, key) == 0
    decreases |steps|
  {
    if steps != [] {
      SettledStays(db, steps[0], key);
      SettledNeverExecutes(Next(db, steps[0]), steps[1..], key);
    }
  }

  /** The row relies on an artifact whose text is no message. */
  ghost predicate Unreadable(db: Db, key: Key, raw: Bytes) {
    && Settled(db, key) && db.rows[key].payload.None?
    && Decode(raw).None?
    && (db.rows[key].artifact.value in db.store.value.rows ==>
          db.store.value.rows[db.rows[key].artifact.value] == Sha256(raw))
  }

  lemma UnreadableStays(db: Db, step: Step, key: Key, raw: Bytes)
    requires Named(key) && Unreadable(db, key, raw) && !(step.FinishCall? && step.ctx.key == key)
    ensures Unreadable(Next(db, step), key, raw)
  {
    SettledIsNotEmpty(db, key);
    SettledStays(db, step, key);
    TerminalRowIsStable(db, step, key);
    RowsOnlyAdded(db, step);
  }

  /** The store gives out new ids; what stands under an old one never changes. */
  lemma RowsOnlyAdded(db: Db, step: Step)
    requires db.Valid() && db.store.Some?
    ensures Next(db, step).store.Some?
    ensures
      var v, w := db.store.value, Next(db, step).store.value;
      forall i :: i in w.rows && i < v.nextId ==> i in v.rows && w.rows[i] == v.rows[i]
  {
    if step.FinishCall? {
      FinishedStore(db, step.ctx, step.message, step.files, step.between);
      var put := db.store.value.Put(Encode(step.message)).0;
      PutKeepsValid(db.store.value, Encode(step.message));
      CollectionsShrink(put, step.between);
    }
  }

  /** A result above the cap is lost for good: over every run that does not finish the call again
      no claim and no lookup of it replays anything, and nothing is executed for it. */
  lemma OversizedResultIsLost(
    db: Db, ctx: Context, m: Message, files: Files, between: seq<Collection>, steps: seq<Step>, later: Context, at: Files)
    requires db.Valid() && ctx.Keyed() && ctx.key in db.rows && later.key == ctx.key
    requires db.Spills(m) && db.store.value.maxBytes < |Encode(m)| && !Raises(db, m, between)
    requires forall i :: 0 <= i < |steps| && steps[i].FinishCall? ==> steps[i].ctx.key != ctx.key
    ensures
      var finished := db.Finish(ctx, m, files, between);
      var after := Run(finished, steps);
      && Executions(finished, steps, ctx.key) == 0
      && !after.Claim(later, at).1.Replay? && !after.Claim(later, at).1.Execute?
      && !after.ReplayCompleted(later).1.Replay? && !after.ReplayCompleted(later).1.Execute?
  {
    var finished := db.Finish(ctx, m, files, between);
    var raw := Encode(m)[..db.store.value.maxBytes];
    OversizedIsUnreadable(db, ctx, m, files, between);
    SettledNeverExecutes(finished, steps, ctx.key);
    UnreadableForEver(finished, steps, ctx.key, raw);
    SettledIsNotEmpty(Run(finished, steps), ctx.key);
  }

  lemma OversizedIsUnreadable(db: Db, ctx: Context, m: Message, files: Files, between: seq<Collection>)
    requires db.Valid() && ctx.Keyed() && ctx.key in db.rows
    requires db.Spills(m) && db.store.value.maxBytes < |Encode(m)| && !Raises(db, m, between)
    ensures Unreadable(db.Finish(ctx, m, files, between), ctx.key, Encode(m)[..db.store.value.maxBytes])
  {
    var v := db.store.value;
    FinishedRow(db, ctx, m, files, between);
    SpilledReadsBack(db, m, Owner(ctx.key), between);
    StepKeepsValid(db, FinishCall(ctx, m, files, between));
    SpilledIsGivenOut(v, Encode(m), Owner(ctx.key), between, 0);
    DecodeEncode(m, v.maxBytes);
    PutKeepsValid(v, Encode(m));
    var (put, id) := v.Put(Encode(m));
    assert put.rows[id] == Sha256(Encode(m)[..v.maxBytes]);
    CollectionsKeep(put, between, id);
  }

  lemma {:induction false} UnreadableForEver(db: Db, steps: seq<Step>, key: Key, raw: Bytes)
    requires Named(key) && Unreadable(db, key, raw)
    requires forall i :: 0 <= i < |steps| && steps[i].FinishCall? ==> steps[i].ctx.key != key
    ensures Unreadable(Run(db, steps), key, raw)
    decreases |steps|
  {
    if steps != [] {
      UnreadableStays(db, steps[0], key, raw);
      UnreadableForEver(Next(db, steps[0]), steps[1..], key, raw);
    }
  }

  /* ---- What one `retry_once` licenses ---- */

  predicate MatchingClaim(db: Db, step: Step, key: Key) {
    step.ClaimCall? && step.ctx.key == key && key in db.rows && db.rows[key].Matches(step.ctx)
  }

  /** The matching claims of a run that come before the row first becomes terminal. */
  ghost function OpenClaims(db: Db, steps: seq<Step>, key: Key): nat
    decreases |steps|
  {
    if steps == [] || key !in db.rows || db.rows[key].Terminal() then 0
    else (if MatchingClaim(db, steps[0], key) then 1 else 0) + OpenClaims(Next(db, steps[0]), steps[1..], key)
  }

  /** The row `retry_once` leaves behind. */
  ghost predicate Released(db: Db, key: Key) {
    db.Valid() && key in db.rows && db.rows[key].Pending() && db.rows[key].policy == SafeRetry
  }

  /** A released row executes exactly the matching claims, and only a result ends its release. */
  lemma ReleasedStep(db: Db, step: Step, key: Key)
    requires Named(key) && Released(db, key)
    ensures Executes(db, step, key) <==> MatchingClaim(db, step, key)
    ensures Released(Next(db, step), key) || Settled(Next(db, step), key)
  {
    StepKeepsValid(db, step);
    StepKeepsPolicy(db, step, key);
    if step.FinishCall? && step.ctx.key == key {
      FinishSettles(db, step.ctx, step.message, step.files, step.between);
    } else {
      OpenRowStays(db, step, key);
    }
  }

  /** Only a finish and an operator end a released call. */
  lemma OpenRowStays(db: Db, step: Step, key: Key)
    requires Named(key) && Released(db, key) && !(step.FinishCall? && step.ctx.key == key)
    ensures key in Next(db, step).rows
    ensures
      var row := Next(db, step).rows[key];
      row.Pending() || (row.Terminal() && row.payload.Some?)
  {
  }

  /** Over every run that starts with a released row, the call is executed exactly as often as it
      is claimed before its first result, by a finish or by an operator: one decision licenses one
      retry if and only if at most one claim comes before that result. */
  lemma {:induction false} LicenceCountsClaims(db: Db, steps: seq<Step>, key: Key)
    requires Named(key) && Released(db, key)
    ensures Executions(db, steps, key) == OpenClaims(db, steps, key)
    decreases |steps|
  {
    if steps != [] {
      var next := Next(db, steps[0]);
      ReleasedStep(db, steps[0], key);
      if Settled(next, key) {
        SettledNeverExecutes(next, steps[1..], key);
      } else {
        LicenceCountsClaims(next, steps[1..], key);
      }
    }
  }

  /** The same from the decision on, for every call an operator can decide about. */
  lemma RetryOnceLicensesClaims(db: Db, steps: seq<Step>, key: Key)
    requires Named(key) && db.Valid() && key in db.rows && db.rows[key].Pending()
    ensures
      var released := Next(db, Operator(key, RetryOnce));
      Executions(released, steps, key) == OpenClaims(released, steps, key)
  {
    StepKeepsValid(db, Operator(key, RetryOnce));
    LicenceCountsClaims(Next(db, Operator(key, RetryOnce)), steps, key);
  }

  function ClaimsAndCrashes(ctx: Context, files: Files, n: nat): seq<Step> {
    if n == 0 then [] else [ClaimCall(ctx, files), DaemonStart] + ClaimsAndCrashes(ctx, files, n - 1)
  }

  /** One decision licenses any number of retries: every crash before a result is followed by
      another execution, of whatever call the operator released. */
  lemma RetryOnceLicensesAnyNumber(db: Db, ctx: Context, files: Files, n: nat)
    requires ctx.Keyed() && db.Valid() && ctx.key in db.rows
    requires db.rows[ctx.key].Pending() && db.rows[ctx.key].Matches(ctx)
    ensures Executions(Next(db, Operator(ctx.key, RetryOnce)), ClaimsAndCrashes(ctx, files, n), ctx.key) == n
  {
    var released := Next(db, Operator(ctx.key, RetryOnce));
    RetryOnceLicensesClaims(db, ClaimsAndCrashes(ctx, files, n), ctx.key);
    ClaimsAreOpen(released, ctx, files, n);
  }

  lemma {:induction false} ClaimsAreOpen(db: Db, ctx: Context, files: Files, n: nat)
    requires ctx.Keyed() && Released(db, ctx.key) && db.rows[ctx.key].Matches(ctx)
    ensures OpenClaims(db, ClaimsAndCrashes(ctx, files, n), ctx.key) == n
    decreases n
  {
    if n > 0 {
      var steps := ClaimsAndCrashes(ctx, files, n);
      var claimed := Next(db, steps[0]);
      var crashed := Next(claimed, steps[1]);
      StepKeepsValid(db, steps[0]);
      StepKeepsValid(claimed, steps[1]);
      ClaimsAreOpen(crashed, ctx, files, n - 1);
      assert steps[1..][0] == DaemonStart && steps[1..][1..] == ClaimsAndCrashes(ctx, files, n - 1);
      assert OpenClaims(claimed, steps[1..], ctx.key) == n - 1;
    }
  }

  /* ---- Crash-safe side effects of a RECONCILE call ---- */

  /** Where one attempt of the call stands inside the running process. */
  datatype Phase = Idle | Licensed | Applied

  /** The database, the workspace and the single worker that runs the call. */
  datatype System = System(db: Db, files: Files, phase: Phase)

  datatype Event =
    | Attempt                                   // claim; Execute licenses one effect
    | Effect(files: Files)                      // the tool changes the workspace, atomically
    | Recorded(activity: Activity)              // the observer stores what it saw
    | Finished(message: Message, between: seq<Collection>)   // the tool returned
    | Abandoned                                 // the tool raised without a result
    | Crash                                     // process death, then a daemon start
    | Decision(action: Action)                  // an operator resolves the call
    | Elsewhere(files: Files)                   // somebody writes untracked files
    | OtherCall(step: Step)                     // the ledger serves other calls

  ghost predicate Enabled(s: System, e: Event, ctx: Context, f: seq<Option<Bytes>> -> seq<Option<Bytes>>) {
    match e
    case Attempt => s.phase == Idle
    case Effect(files) => s.phase == Licensed && Tracked(ctx.tracked, files) == f(Tracked(ctx.tracked, s.files))
    case Recorded(_) => s.phase == Applied
    case Finished(_, _) => s.phase != Idle
    case Abandoned => s.phase != Idle
    case Crash => true
    case Decision(_) => true
    case Elsewhere(files) => Tracked(ctx.tracked, files) == Tracked(ctx.tracked, s.files)
    case OtherCall(step) =>
      match step
      case ClaimCall(c, _) => c.key != ctx.key
      case Lookup(c) => true
      case FinishCall(c, _, _, _) => c.key != ctx.key
      case Operator(k, _) => k != ctx.key
      case Observe(k, _) => k != ctx.key
      case DaemonStart => false
      case _ => true
  }

  ghost function Perform(s: System, e: Event, ctx: Context): System {
    match e
    case Attempt =>
      var (db, answer) := s.db.Claim(ctx, s.files);
      System(db, s.files, if answer == Execute then Licensed else Idle)
    case Effect(files) => System(s.db, files, Applied)
    case Recorded(a) => s.(db := s.db.RecordActivity(ctx.key, a))
    case Finished(m, between) => System(s.db.Finish(ctx, m, s.files, between), s.files, Idle)
    case Abandoned => s.(phase := Idle)
    case Crash => System(s.db.Restart(), s.files, Idle)
    case Decision(action) => s.(db := s.db.Resolve(ctx.key, action))
    case Elsewhere(files) => s.(files := files)
    case OtherCall(step) => s.(db := Next(s.db, step))
  }

  ghost predicate Behaviour(trace: seq<System>, events: seq<Event>, ctx: Context, f: seq<Option<Bytes>> -> seq<Option<Bytes>>) {
    && |trace| == |events| + 1
    && forall i :: 0 <= i < |events| ==>
         Enabled(trace[i], events[i], ctx, f) && trace[i + 1] == Perform(trace[i], events[i], ctx)
  }

  /** The tracked files hold the captured state or the effect applied to it, and
      a licence to run the tool is only ever outstanding in the captured state. */
  ghost predicate Atomic(s: System, ctx: Context, origin: seq<Option<Bytes>>, f: seq<Option<Bytes>> -> seq<Option<Bytes>>) {
    && ctx.key in s.db.rows
    && (s.db.rows[ctx.key].policy == Reconcile ==>
          && (exists captured: Files :: s.db.rows[ctx.key].before == Capture(ctx.tracked, captured)
                                        && Tracked(ctx.tracked, captured) == origin)
          && Tracked(ctx.tracked, s.files) in {origin, f(origin)}
          && (s.phase == Licensed ==> Tracked(ctx.tracked, s.files) == origin))
  }

  lemma AtomicStep(s: System, e: Event, ctx: Context, origin: seq<Option<Bytes>>, f: seq<Option<Bytes>> -> seq<Option<Bytes>>)
    requires ctx.Keyed() && Atomic(s, ctx, origin, f) && Enabled(s, e, ctx, f)
    ensures Atomic(Perform(s, e, ctx), ctx, origin, f)
  {
    var t := Perform(s, e, ctx);
    var row := s.db.rows[ctx.key];
    EventKeepsRow(s, e, ctx, f);
    if t.db.rows[ctx.key].policy == Reconcile {
      var captured: Files :| row.before == Capture(ctx.tracked, captured) && Tracked(ctx.tracked, captured) == origin;
      assert t.db.rows[ctx.key].before == Capture(ctx.tracked, captured);
      if e.Attempt? {
        CaptureIsExact(ctx.tracked, captured, s.files);
        AttemptLicenses(s, ctx);
      }
    }
  }

  /** No event changes the captured state of the row, and none restores the RECONCILE policy. */
  lemma EventKeepsRow(s: System, e: Event, ctx: Context, f: seq<Option<Bytes>> -> seq<Option<Bytes>>)
    requires ctx.Keyed() && ctx.key in s.db.rows && Enabled(s, e, ctx, f)
    ensures ctx.key in Perform(s, e, ctx).db.rows
    ensures Perform(s, e, ctx).db.rows[ctx.key].before == s.db.rows[ctx.key].before
    ensures Perform(s, e, ctx).db.rows[ctx.key].policy == Reconcile ==> s.db.rows[ctx.key].policy == Reconcile
  {
    if e.OtherCall? {
      StepKeepsPolicy(s.db, e.step, ctx.key);
    }
  }

  /** A RECONCILE row licenses a new attempt only in the state it captured. */
  lemma AttemptLicenses(s: System, ctx: Context)
    requires ctx.Keyed() && ctx.key in s.db.rows && s.db.rows[ctx.key].policy == Reconcile
    ensures s.db.Claim(ctx, s.files).1 == Execute ==>
              s.db.rows[ctx.key].before == Capture(ctx.tracked, s.files)
  {
  }

  /** The headline guarantee.  From the moment the row exists, in every reachable
      state in which the row still has the RECONCILE policy (no operator retried
      it), the tracked files are in the captured state or in the state the effect
      makes of it, no matter where crashes fall; and an execution is only ever
      licensed in the captured state. */
  lemma {:induction false} ReconciledEffectIsAtomic(
    trace: seq<System>, events: seq<Event>, ctx: Context, origin: seq<Option<Bytes>>,
    f: seq<Option<Bytes>> -> seq<Option<Bytes>>, n: nat)
    requires ctx.Keyed() && Behaviour(trace, events, ctx, f) && Atomic(trace[0], ctx, origin, f)
    requires n <= |events|
    ensures Atomic(trace[n], ctx, origin, f)
  {
    if n > 0 {
      ReconciledEffectIsAtomic(trace, events, ctx, origin, f, n - 1);
      AtomicStep(trace[n - 1], events[n - 1], ctx, origin, f);
    }
  }

  /** The first attempt establishes the guarantee with the state it found as origin. */
  lemma FirstAttemptCaptures(s: System, ctx: Context, f: seq<Option<Bytes>> -> seq<Option<Bytes>>)
    requires ctx.Keyed() && ctx.key !in s.db.rows && s.phase == Idle
    ensures Atomic(Perform(s, Attempt, ctx), ctx, Tracked(ctx.tracked, s.files), f)
  {
    var t := Perform(s, Attempt, ctx);
    assert t.db.rows[ctx.key].before == Capture(ctx.tracked, s.files);
  }

  /** When the row precedes the effect, the origin is the state before any effect,
      so over the whole behaviour the tool is applied at most once in substance. */
  lemma EffectHappensOnceFromTheStart(
    trace: seq<System>, events: seq<Event>, ctx: Context, f: seq<Option<Bytes>> -> seq<Option<Bytes>>, n: nat)
    requires ctx.Keyed() && Behaviour(trace, events, ctx, f) && 1 <= n <= |events|
    requires trace[0].phase == Idle && ctx.key !in trace[0].db.rows && events[0] == Attempt
    ensures ctx.key in trace[n].db.rows
    ensures trace[n].db.rows[ctx.key].policy == Reconcile ==>
              Tracked(ctx.tracked, trace[n].files) in
              {Tracked(ctx.tracked, trace[0].files), f(Tracked(ctx.tracked, trace[0].files))}
    ensures trace[n].db.rows[ctx.key].policy == Reconcile && trace[n].phase == Licensed ==>
              Tracked(ctx.tracked, trace[n].files) == Tracked(ctx.tracked, trace[0].files)
  {
    var origin := Tracked(ctx.tracked, trace[0].files);
    FirstAttemptCaptures(trace[0], ctx, f);
    var rest := trace[1..];
    assert Behaviour(rest, events[1..], ctx, f) by {
      forall i | 0 <= i < |events[1..]|
        ensures Enabled(rest[i], events[1..][i], ctx, f) && rest[i + 1] == Perform(rest[i], events[1..][i], ctx)
      {
        assert Enabled(trace[i + 1], events[i + 1], ctx, f);
      }
    }
    ReconciledEffectIsAtomic(rest, events[1..], ctx, origin, f, n - 1);
  }

  /** The converse case, for whatever the activity table holds when the row is first created.
      The first claim replays exactly if every recorded activity still holds.  Otherwise it stops
      for review but captures the state it finds, and the next claim executes again exactly if that
      state is unchanged, some file is tracked and the activities still do not hold. */
  lemma LateRowExecutesAgain(db: Db, ctx: Context, files: Files, later: Files)
    requires ctx.Keyed() && ctx.policy == Reconcile && ctx.key !in db.rows && db.ActivitiesOf(ctx.key) != []
    ensures
      var (after, first) := db.Claim(ctx, files);
      var second := after.Claim(ctx, later).1;
      var held, holds := AllMatch(db.ActivitiesOf(ctx.key), files), AllMatch(db.ActivitiesOf(ctx.key), later);
      && first == (if held then Replay(RecoveredMessage(ctx.tool)) else RecoveryRequired)
      && (held || holds ==> second == Replay(RecoveredMessage(ctx.tool)))
      && (second == Execute <==>
            !held && !holds && ctx.tracked != [] && Tracked(ctx.tracked, files) == Tracked(ctx.tracked, later))
  {
    var after := db.Claim(ctx, files).0;
    CaptureIsExact(ctx.tracked, files, later);
    assert after.ActivitiesOf(ctx.key) == db.ActivitiesOf(ctx.key);
    assert after.rows[ctx.key].before == Capture(ctx.tracked, files);
  }
}
