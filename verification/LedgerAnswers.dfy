/** What the answers of the ledger rest on: where a replayed message comes from, when a claim runs
    the tool, and what restarts and operators leave behind (src/core/state/tool_ledger.py). */
module LedgerAnswers {
  import opened Common
  import opened Artifacts
  import opened ToolLedger
  import opened LedgerRuns

  /* ---- Where a replayed message comes from ---- */

  /** The messages a step may make the result of a call: what a finish reports, the notice of an
      operator who gives an open call up, and the recovery message of a RECONCILE call whose recorded
      activities, at least one, all hold. */
  ghost function Sources(db: Db, step: Step, key: Key): set<Message> {
    match step
    case FinishCall(ctx, m, _, _) => if ctx.key == key then {m} else {}
    case Operator(k, action) =>
      if k == key && action == ReturnError && key in db.rows && db.rows[key].Pending()
      then {SkippedMessage(db.rows[key].tool)} else {}
    case ClaimCall(ctx, files) =>
      if ctx.key == key && (key in db.rows ==> Unfinished(db, ctx)) && PolicyOf(db, ctx) == Reconcile
         && RecordHolds(db.ActivitiesOf(key), files)
      then {RecoveredMessage(ctx.tool)} else {}
    case _ => {}
  }

  function PolicyOf(db: Db, ctx: Context): Policy {
    if ctx.key in db.rows then db.rows[ctx.key].policy else ctx.policy
  }

  predicate RecordHolds(activities: seq<Activity>, files: Files) {
    activities != [] && forall a :: a in activities ==> ActivityMatches(a, files)
  }

  ghost function AllSources(db: Db, steps: seq<Step>, key: Key): set<Message>
    decreases |steps|
  {
    if steps == [] then {} else Sources(db, steps[0], key) + AllSources(Next(db, steps[0]), steps[1..], key)
  }

  /** Whatever can be read back for the call is one of these messages. */
  ghost predicate Backed(db: Db, key: Key, ms: set<Message>) {
    && db.Valid()
    && (key in db.rows ==>
          var row := db.rows[key];
          && (row.payload.Some? ==> row.payload.value in ms)
          && (row.artifact.Some? && db.store.Some? ==> BackedArtifact(db.store.value, row.artifact.value, ms)))
  }

  ghost predicate BackedArtifact(v: Vault, id: ArtifactId, ms: set<Message>) {
    id < v.nextId && (id in v.rows ==> Decode(v.rows[id].of).Some? ==> Decode(v.rows[id].of).value in ms)
  }

  lemma BackedIsRead(db: Db, key: Key, ms: set<Message>)
    requires Backed(db, key, ms) && key in db.rows
    ensures forall m :: db.Stored(db.rows[key]) == Ok(Some(m)) ==> m in ms
  {
  }

  /** An artifact whose text is a cut of a message reads as that message or as none. */
  lemma SpilledIsBacked(v: Vault, m: Message, owner: Text, between: seq<Collection>, ms: set<Message>)
    requires v.Valid() && m in ms
    ensures
      var (a, id) := Spilled(v, Encode(m), owner, between);
      BackedArtifact(a, id, ms)
  {
    PutKeepsValid(v, Encode(m));
    var (put, id) := v.Put(Encode(m));
    CollectionsShrink(put, between);
    DecodeEncode(m, Min(|Encode(m)|, v.maxBytes));
    assert put.rows[id] == Sha256(Encode(m)[..Min(|Encode(m)|, v.maxBytes)]);
  }

  lemma ArtifactStaysBacked(db: Db, step: Step, id: ArtifactId, ms: set<Message>)
    requires db.Valid() && db.store.Some? && BackedArtifact(db.store.value, id, ms)
    ensures Next(db, step).store.Some? && BackedArtifact(Next(db, step).store.value, id, ms)
  {
    RowsOnlyAdded(db, step);
    if step.FinishCall? {
      FinishedStore(db, step.ctx, step.message, step.files, step.between);
      PutKeepsValid(db.store.value, Encode(step.message));
      CollectionsShrink(db.store.value.Put(Encode(step.message)).0, step.between);
    }
  }

  lemma FinishIsBacked(db: Db, step: Step, key: Key, ms: set<Message>)
    requires Named(key) && Backed(db, key, ms) && step.FinishCall? && step.ctx.key == key && step.message in ms
    ensures Backed(Next(db, step), key, ms)
  {
    StepKeepsValid(db, step);
    if key in db.rows {
      FinishedRow(db, step.ctx, step.message, step.files, step.between);
      if db.Spills(step.message) {
        SpilledIsBacked(db.store.value, step.message, Owner(key), step.between, ms);
      }
      if db.store.Some? && db.rows[key].artifact.Some? {
        ArtifactStaysBacked(db, step, db.rows[key].artifact.value, ms);
      }
    }
  }

  lemma StepIsBacked(db: Db, step: Step, key: Key, ms: set<Message>)
    requires Named(key) && Backed(db, key, ms) && Sources(db, step, key) <= ms
    ensures Backed(Next(db, step), key, ms)
  {
    StepKeepsValid(db, step);
    if step.FinishCall? && step.ctx.key == key {
      FinishIsBacked(db, step, key, ms);
    } else {
      if key in db.rows && db.rows[key].artifact.Some? && db.store.Some? {
        ArtifactStaysBacked(db, step, db.rows[key].artifact.value, ms);
      }
      PayloadIsBacked(db, step, key);
      ArtifactIdStays(db, step, key);
    }
  }

  /** Only these steps write a payload, and none but a finish an artifact id. */
  lemma PayloadIsBacked(db: Db, step: Step, key: Key)
    requires Named(key) && !(step.FinishCall? && step.ctx.key == key)
    ensures key in Next(db, step).rows ==>
              var row := Next(db, step).rows[key];
              row.payload.Some? && !(key in db.rows && row.payload == db.rows[key].payload) ==>
                row.payload.value in Sources(db, step, key)
  {
  }

  lemma ArtifactIdStays(db: Db, step: Step, key: Key)
    requires Named(key) && !(step.FinishCall? && step.ctx.key == key)
    ensures key in Next(db, step).rows ==>
              Next(db, step).rows[key].artifact == if key in db.rows then db.rows[key].artifact else None
  {
  }

  lemma {:induction false} RunIsBacked(db: Db, steps: seq<Step>, key: Key, ms: set<Message>)
    requires Named(key) && Backed(db, key, ms) && AllSources(db, steps, key) <= ms
    ensures Backed(Run(db, steps), key, ms)
    decreases |steps|
  {
    if steps != [] {
      StepIsBacked(db, steps[0], key, ms);
      RunIsBacked(Next(db, steps[0]), steps[1..], key, ms);
    }
  }

  /** Over every run from before a call was known: a claim or lookup of it replays only a message that
      a finish reported, that an operator gave it up with, or that recovers it because it is a
      RECONCILE call and all its recorded activities held, at this claim or at an earlier one. */
  lemma ReplayHasASource(db: Db, steps: seq<Step>, ctx: Context, files: Files, m: Message)
    requires db.Valid() && ctx.Keyed() && ctx.key !in db.rows
    ensures Run(db, steps).Claim(ctx, files).1 == Replay(m) ==>
              m in AllSources(db, steps, ctx.key) + Sources(Run(db, steps), ClaimCall(ctx, files), ctx.key)
    ensures Run(db, steps).ReplayCompleted(ctx).1 == Replay(m) ==> m in AllSources(db, steps, ctx.key)
  {
    var after := Run(db, steps);
    RunIsBacked(db, steps, ctx.key, AllSources(db, steps, ctx.key));
    if ctx.key in after.rows {
      BackedIsRead(after, ctx.key, AllSources(db, steps, ctx.key));
    }
  }

  /* ---- When a claim runs the tool, and when it stops ---- */

  predicate Unfinished(db: Db, ctx: Context) {
    ctx.key in db.rows && !db.rows[ctx.key].Terminal() && db.rows[ctx.key].Matches(ctx)
  }

  /** The tool runs for a call nothing is known of, for one an operator or its own policy lets run
      again, and for a RECONCILE call whose tracked files are as they were captured while its record
      does not hold; and for calls without identity. */
  lemma ClaimExecutesExactly(db: Db, ctx: Context, files: Files)
    ensures db.Claim(ctx, files).1 == Execute <==>
              || !ctx.Keyed()
              || (ctx.key !in db.rows && db.ActivitiesOf(ctx.key) == [])
              || (Unfinished(db, ctx) && db.rows[ctx.key].policy == SafeRetry)
              || (Unfinished(db, ctx) && db.rows[ctx.key].policy == Reconcile
                  && !RecordHolds(db.ActivitiesOf(ctx.key), files)
                  && db.rows[ctx.key].before != [] && db.rows[ctx.key].before == Capture(ctx.tracked, files))
  {
  }

  /** What a claim leaves of its own row and of all others: a call that is told to run is running, a new
      row records the call as it was claimed, and nobody else is touched. */
  lemma ClaimLeavesTheRest(db: Db, ctx: Context, files: Files, other: Key)
    ensures
      var (after, answer) := db.Claim(ctx, files);
      && after.activities == db.activities && after.store == db.store
      && (other != ctx.key ==>
            (other in after.rows <==> other in db.rows) && (other in db.rows ==> after.rows[other] == db.rows[other]))
      && (ctx.Keyed() && ctx.key !in db.rows ==>
            && ctx.key in after.rows && after.rows[ctx.key].Matches(ctx)
            && after.rows[ctx.key].policy == ctx.policy && after.rows[ctx.key].attempts == 1
            && after.rows[ctx.key].before == Capture(ctx.tracked, files))
      && (ctx.Keyed() && answer == Execute ==> after.rows[ctx.key].status == Running)
  {
  }

  /** An observed change is added to the record of its call, behind the earlier ones, and changes
      nothing else. */
  lemma ObservedIsRecorded(db: Db, key: Key, a: Activity, other: Key)
    ensures
      var after := db.RecordActivity(key, a);
      && after.rows == db.rows && after.store == db.store
      && after.ActivitiesOf(other) == db.ActivitiesOf(other) + if other == key then [a] else []
  {
  }

  /** An unfinished call that is neither SAFE_RETRY nor RECONCILE always stops for review, and so does
      a call under another identity; the first is left uncertain, the second untouched. */
  lemma OpenOneShotStops(db: Db, ctx: Context, files: Files)
    requires ctx.Keyed() && ctx.key in db.rows
    ensures Unfinished(db, ctx) && OneShot(db.rows[ctx.key].policy) ==>
              db.Claim(ctx, files) == (db.With(ctx.key, db.rows[ctx.key].(status := Uncertain)), RecoveryRequired)
    ensures !db.rows[ctx.key].Matches(ctx) ==> db.Claim(ctx, files) == (db, RecoveryRequired)
  {
  }

  /** A recovered call is finished by the claim: from then on it is replayed. */
  lemma RecoveredStaysRecovered(db: Db, ctx: Context, files: Files, later: Context, at: Files)
    requires db.Valid() && ctx.Keyed() && PolicyOf(db, ctx) == Reconcile && RecordHolds(db.ActivitiesOf(ctx.key), files)
    requires ctx.key in db.rows ==> Unfinished(db, ctx)
    requires later.key == ctx.key && later.tool == ctx.tool && later.args == ctx.args
    ensures
      var (after, answer) := db.Claim(ctx, files);
      answer == Replay(RecoveredMessage(ctx.tool)) && after.rows[ctx.key].status == Succeeded
      && !answer.message.error && answer.message.kind == Recovered
      && after.Claim(later, at) == (after, Replay(RecoveredMessage(ctx.tool)))
  {
    assert AllMatch(db.ActivitiesOf(ctx.key), files);
  }

  /** The pipeline looks a result up before it claims: for a finished call both agree, and for every
      other known one the lookup only says go on. */
  lemma LookupAgreesWithClaim(db: Db, ctx: Context, files: Files)
    ensures ctx.Keyed() && ctx.key in db.rows && db.rows[ctx.key].Terminal() ==> db.ReplayCompleted(ctx) == db.Claim(ctx, files)
    ensures !(ctx.Keyed() && ctx.key in db.rows) || Unfinished(db, ctx) ==> db.ReplayCompleted(ctx) == (db, Execute)
    ensures db.ReplayCompleted(ctx).1 != Execute ==> db.ReplayCompleted(ctx) == db.Claim(ctx, files)
  {
  }

  /** The attempt counter of a known call counts its executions. */
  lemma {:induction false} AttemptsCountExecutions(db: Db, steps: seq<Step>, key: Key)
    requires Named(key) && key in db.rows
    ensures key in Run(db, steps).rows
    ensures Run(db, steps).rows[key].attempts == db.rows[key].attempts + Executions(db, steps, key)
    decreases |steps|
  {
    if steps != [] {
      AttemptStep(db, steps[0], key);
      AttemptsCountExecutions(Next(db, steps[0]), steps[1..], key);
    }
  }

  lemma AttemptStep(db: Db, step: Step, key: Key)
    requires Named(key) && key in db.rows
    ensures key in Next(db, step).rows
    ensures Next(db, step).rows[key].attempts == db.rows[key].attempts + if Executes(db, step, key) then 1 else 0
  {
  }

  /* ---- Restarts and operators ---- */

  /** A start of the daemon leaves no call running and no other row changed. */
  lemma RestartEndsRunning(db: Db, key: Key)
    ensures key in db.Restart().rows <==> key in db.rows
    ensures key in db.rows ==>
              var row, after := db.rows[key], db.Restart().rows[key];
              && after.status != Running
              && (row.status == Running ==> after.Pending())
              && (row.status != Running ==> after == row)
              && after.(status := row.status) == row
    ensures db.Restart().activities == db.activities && db.Restart().store == db.store
    ensures db.Restart().Restart() == db.Restart()
  {
    assert db.Restart().Restart().rows == db.Restart().rows;
  }

  /** What an operator gives up is over: whatever runs later without a finish of the call, the notice
      is replayed and nothing is executed.  Calls that are not open cannot be given up. */
  lemma GivenUpIsReplayed(db: Db, steps: seq<Step>, ctx: Context, files: Files)
    requires db.Valid() && ctx.Keyed() && ctx.key in db.rows && db.rows[ctx.key].Matches(ctx)
    requires forall i :: 0 <= i < |steps| && steps[i].FinishCall? ==> steps[i].ctx.key != ctx.key
    ensures
      var after := db.Resolve(ctx.key, ReturnError);
      if db.rows[ctx.key].Pending() then
        Executions(after, steps, ctx.key) == 0 && SkippedMessage(ctx.tool).error
        && Run(after, steps).Claim(ctx, files) == (Run(after, steps), Replay(SkippedMessage(ctx.tool)))
      else after == db
    ensures db.Resolve(ctx.key, Unsupported) == db
  {
    if db.rows[ctx.key].Pending() {
      StoredResultIsFinal(db.Resolve(ctx.key, ReturnError), steps, ctx.key, SkippedMessage(ctx.tool), ctx, files);
    }
  }

  /** What a finish records: the outcome, the state of the tracked files, and the message, inline
      exactly if there is no artifact store or the message is within the inline limit; no other row is
      touched. */
  lemma FinishRecordsTheOutcome(db: Db, ctx: Context, m: Message, files: Files, between: seq<Collection>, other: Key)
    requires db.Valid() && ctx.Keyed() && ctx.key in db.rows && !Raises(db, m, between)
    ensures
      var after := db.Finish(ctx, m, files, between);
      && ctx.key in after.rows
      && after.rows[ctx.key].status == (if m.error then Failed else Succeeded)
      && after.rows[ctx.key].after == Capture(ctx.tracked, files)
      && (if db.store.None? || |Encode(m)| <= db.inlineLimit
          then after.rows[ctx.key].payload == Some(m) && after.store == db.store
          else after.rows[ctx.key].payload.None? && after.rows[ctx.key].artifact.Some?)
      && after.rows[ctx.key].attempts == db.rows[ctx.key].attempts
    ensures other != ctx.key ==>
              var after := db.Finish(ctx, m, files, between);
              (other in after.rows <==> other in db.rows) && (other in db.rows ==> after.rows[other] == db.rows[other])
  {
    if db.Spills(m) {
      SpilledReadsBack(db, m, Owner(ctx.key), between);
    }
  }

  /* ---- Records of changes ---- */

  /** What the observer records of a file that a tool wrote or removed. */
  function Record(path: Path, files: Files): Activity {
    if path in files then Activity(Some(path), false, false, Some(Sha256(files[path])))
    else Activity(Some(path), true, false, None)
  }

  /** A record of a change holds exactly while the file is as the record found it. */
  lemma RecordIsExact(path: Path, recorded: Files, now: Files)
    ensures ActivityMatches(Record(path, recorded), now) <==> Contents(path, now) == Contents(path, recorded)
  {
  }
}
