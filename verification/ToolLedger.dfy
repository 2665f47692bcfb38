/** The durable idempotency ledger for tool invocations (src/core/state/tool_ledger.py). */
module ToolLedger {
  import opened Common
  import opened Artifacts

  type Path = Text

  /** Contents of the regular files of a workspace; other paths do not exist. */
  type Files = map<Path, Bytes>

  datatype Status = Prepared | Running | Succeeded | Failed | Uncertain | Legacy

  datatype Policy = SafeRetry | ResultReplay | Reconcile | Manual

  datatype Key = Key(execution: Text, call: Text)

  datatype MessageKind = Ordinary | Recovered | RecoverySkipped

  /** A tool message; `error` is its `status == "error"`. */
  datatype Message = Message(kind: MessageKind, error: bool, body: Text)

  /** One tool call as the pipeline presents it: the canonical JSON of its
      arguments stands for their hash, `tracked` for the resolved paths. */
  datatype Context = Context(key: Key, tool: Text, args: Text, policy: Policy, tracked: seq<Path>)
  {
    predicate Keyed() { key.execution != [] && key.call != [] }
  }

  /** `file_snapshot`: nothing for a missing file, length and digest otherwise. */
  datatype Snapshot = Snapshot(path: Path, bytes: nat, digest: Option<Digest>)

  /** An applied row of `resource_activities`; a target outside the workspace scheme is None. */
  datatype Activity = Activity(target: Option<Path>, deletes: bool, moveSource: bool, after: Option<Digest>)

  datatype Row = Row(
    tool: Text, args: Text, policy: Policy, status: Status,
    payload: Option<Message>, artifact: Option<ArtifactId>,
    before: seq<Snapshot>, after: seq<Snapshot>, attempts: nat)
  {
    predicate Terminal() { status == Succeeded || status == Failed }

    predicate Pending() { status == Running || status == Uncertain || status == Legacy }

    predicate Matches(ctx: Context) { tool == ctx.tool && args == ctx.args }
  }

  /** Replies of `claim` and `replay_completed`; the last two are exceptions. */
  datatype Answer = Execute | Replay(message: Message) | RecoveryRequired | Broken(error: StorageError)

  datatype Action = RetryOnce | ReturnError | Unsupported

  /* ---- Messages as JSON text ---- */

  function KindCode(kind: MessageKind): Byte {
    match kind case Ordinary => 1 case Recovered => 2 case RecoverySkipped => 3
  }

  /** Framed text: no proper prefix of an encoding is an encoding. */
  function Encode(m: Message): Bytes {
    [KindCode(m.kind), if m.error then 2 else 1] + m.body + [0]
  }

  function Decode(raw: Bytes): Option<Message> {
    if |raw| < 3 || raw[|raw| - 1] != 0 || !(1 <= raw[0] <= 3) || !(1 <= raw[1] <= 2)
       || exists i :: 2 <= i < |raw| - 1 && raw[i] == 0
    then None
    else
      var body := raw[2..|raw| - 1];
      assert forall i :: 0 <= i < |body| ==> body[i] == raw[i + 2] != 0;
      Some(Message(if raw[0] == 1 then Ordinary else if raw[0] == 2 then Recovered else RecoverySkipped,
                   raw[1] == 2, body))
  }

  lemma DecodeEncode(m: Message, n: nat)
    requires n <= |Encode(m)|
    ensures Decode(Encode(m)[..n]) == if n == |Encode(m)| then Some(m) else None
  {
    var raw := Encode(m);
    assert forall i :: 2 <= i < |raw| - 1 ==> raw[i] == m.body[i - 2];
    if n == |raw| {
      assert raw[..n] == raw;
      assert raw[2..|raw| - 1] == m.body;
    }
  }

  /* ---- Observing the workspace ---- */

  function SnapshotOf(path: Path, files: Files): Snapshot {
    if path in files
    then Snapshot(path, |files[path]|, Some(Sha256(files[path])))
    else Snapshot(path, 0, None)
  }

  /** `_capture_before_state` and `_current_state`. */
  function Capture(tracked: seq<Path>, files: Files): seq<Snapshot> {
    seq(|tracked|, i requires 0 <= i < |tracked| => SnapshotOf(tracked[i], files))
  }

  function Contents(path: Path, files: Files): Option<Bytes> {
    if path in files then Some(files[path]) else None
  }

  function Tracked(tracked: seq<Path>, files: Files): seq<Option<Bytes>> {
    seq(|tracked|, i requires 0 <= i < |tracked| => Contents(tracked[i], files))
  }

  /** A captured state identifies the contents of the tracked files. */
  lemma CaptureIsExact(tracked: seq<Path>, f: Files, g: Files)
    ensures Capture(tracked, f) == Capture(tracked, g) <==> Tracked(tracked, f) == Tracked(tracked, g)
  {
    if Capture(tracked, f) == Capture(tracked, g) {
      forall i | 0 <= i < |tracked| ensures Tracked(tracked, f)[i] == Tracked(tracked, g)[i] {
        assert Capture(tracked, f)[i] == Capture(tracked, g)[i];
      }
    }
    if Tracked(tracked, f) == Tracked(tracked, g) {
      forall i | 0 <= i < |tracked| ensures Capture(tracked, f)[i] == Capture(tracked, g)[i] {
        assert Tracked(tracked, f)[i] == Tracked(tracked, g)[i];
      }
    }
  }

  predicate ActivityMatches(a: Activity, files: Files) {
    match a.target
    case None => false
    case Some(path) =>
      match a.after
      case Some(digest) => path in files && Sha256(files[path]) == digest
      case None => if a.deletes || a.moveSource then path !in files else path in files
  }

  predicate AllMatch(activities: seq<Activity>, files: Files) {
    activities != [] && forall i :: 0 <= i < |activities| ==> ActivityMatches(activities[i], files)
  }

  function RecoveredMessage(tool: Text): Message { Message(Recovered, false, tool) }

  function SkippedMessage(tool: Text): Message { Message(RecoverySkipped, true, tool) }

  function Owner(key: Key): Text { key.execution + [58] + key.call }

  /* ---- The database and what each transaction does to it ---- */

  /** The ledger and activity tables, and the artifact store when one is configured. */
  datatype Db = Db(
    rows: map<Key, Row>, activities: map<Key, seq<Activity>>, store: Option<Vault>, inlineLimit: nat)
  {
    ghost predicate Valid() { store.Some? ==> store.value.Valid() }

    function ActivitiesOf(key: Key): seq<Activity> {
      if key in activities then activities[key] else []
    }

    /** `_result_payload` followed by deserialisation; Ok(None) is the empty payload. */
    function Stored(row: Row): Result<Option<Message>, StorageError> {
      if row.payload.Some? then Ok(row.payload)
      else if row.artifact.None? || store.None? then Ok(None)
      else
        match store.value.Get(row.artifact.value)
        case Err(e) => Err(e)
        case Ok(raw) =>
          if raw == [] then Ok(None)
          else
            match Decode(raw)
            case None => Err(UndecodablePayload)
            case Some(m) => Ok(Some(m))
    }

    function With(key: Key, row: Row): Db { this.(rows := rows[key := row]) }

    function Uncertainly(key: Key): Db
      requires key in rows
    {
      With(key, rows[key].(status := Uncertain))
    }

    function Retried(key: Key): Db
      requires key in rows
    {
      With(key, rows[key].(status := Running, attempts := rows[key].attempts + 1))
    }

    function Reconciled(key: Key): Db
      requires key in rows
    {
      With(key, rows[key].(status := Succeeded, payload := Some(RecoveredMessage(rows[key].tool))))
    }

    function NewRow(ctx: Context, files: Files): Row {
      Row(ctx.tool, ctx.args, ctx.policy, Running, None, None, Capture(ctx.tracked, files), [], 1)
    }

    /** The first claim of a call. */
    function ClaimNew(ctx: Context, files: Files): (Db, Answer) {
      var db := With(ctx.key, NewRow(ctx, files));
      var activities := ActivitiesOf(ctx.key);
      if activities == [] then (db, Execute)
      else if ctx.policy == Reconcile && AllMatch(activities, files)
      then (db.Reconciled(ctx.key), Replay(RecoveredMessage(ctx.tool)))
      else (db.Uncertainly(ctx.key), RecoveryRequired)
    }

    /** A claim of a call whose row has the same identity and no stored result. */
    function ClaimUnfinished(ctx: Context, files: Files): (Db, Answer)
      requires ctx.key in rows
    {
      var row := rows[ctx.key];
      if row.policy == SafeRetry then (Retried(ctx.key), Execute)
      else if row.policy == Reconcile && AllMatch(ActivitiesOf(ctx.key), files)
      then (Reconciled(ctx.key), Replay(RecoveredMessage(row.tool)))
      else if row.policy == Reconcile && row.before != [] && Capture(ctx.tracked, files) == row.before
      then (Retried(ctx.key), Execute)
      else (Uncertainly(ctx.key), RecoveryRequired)
    }

    function Claim(ctx: Context, files: Files): (Db, Answer) {
      if !ctx.Keyed() then (this, Execute)
      else if ctx.key !in rows then ClaimNew(ctx, files)
      else
        var row := rows[ctx.key];
        if !row.Matches(ctx) then (this, RecoveryRequired)
        else if !row.Terminal() then ClaimUnfinished(ctx, files)
        else
          match Stored(row)
          case Err(e) => (this, Broken(e))
          case Ok(Some(m)) => (this, Replay(m))
          case Ok(None) => (Uncertainly(ctx.key), RecoveryRequired)
    }

    /** Execute here only means: go on to `claim`. */
    function ReplayCompleted(ctx: Context): (Db, Answer) {
      if !ctx.Keyed() || ctx.key !in rows then (this, Execute)
      else
        var row := rows[ctx.key];
        if !row.Matches(ctx) then (this, RecoveryRequired)
        else if !row.Terminal() then (this, Execute)
        else
          match Stored(row)
          case Err(e) => (this, Broken(e))
          case Ok(Some(m)) => (this, Replay(m))
          case Ok(None) => (Uncertainly(ctx.key), RecoveryRequired)
    }

    predicate Spills(m: Message) { store.Some? && |Encode(m)| > inlineLimit }

    function WithResult(ctx: Context, error: bool, payload: Option<Message>, artifact: Option<ArtifactId>, files: Files): Db {
      if ctx.key !in rows then this
      else With(ctx.key, rows[ctx.key].(
                  status := if error then Failed else Succeeded,
                  payload := payload, artifact := artifact, after := Capture(ctx.tracked, files)))
    }

    /** `finish`, with the collections that run between its `put` and its `add_reference`.  If one
        of them deletes the artifact the reference violates its foreign key and the call raises. */
    ghost function Finish(ctx: Context, m: Message, files: Files, between: seq<Collection>): Db {
      if !ctx.Keyed() then this
      else if !Spills(m) then WithResult(ctx, m.error, Some(m), None, files)
      else
        var (put, id) := store.value.Put(Encode(m));
        var vault := put.Collections(between);
        if id !in vault.rows then this.(store := Some(vault))
        else this.(store := Some(vault.AddReference(id, Owner(ctx.key)))).WithResult(ctx, m.error, None, Some(id), files)
    }

    /** `mark_running_uncertain`, run by every daemon start. */
    function Restart(): Db {
      this.(rows := map k | k in rows ::
              if rows[k].status == Running then rows[k].(status := Uncertain) else rows[k])
    }

    predicate Resolvable(key: Key, action: Action) {
      key in rows && rows[key].Pending() && action != Unsupported
    }

    function Resolve(key: Key, action: Action): Db {
      if !Resolvable(key, action) then this
      else if action == RetryOnce then With(key, rows[key].(policy := SafeRetry, status := Uncertain))
      else With(key, rows[key].(status := Failed, payload := Some(SkippedMessage(rows[key].tool))))
    }

    function RecordActivity(key: Key, a: Activity): Db {
      this.(activities := activities[key := ActivitiesOf(key) + [a]])
    }
  }

  class ToolLedgerRepository {
    var rows: map<Key, Row>
    var activities: map<Key, seq<Activity>>
    const store: ArtifactStore?
    const inlineLimit: nat

    ghost function State(): Db
      reads this, if store == null then {} else {store}
    {
      Db(rows, activities, if store == null then None else Some(store.State()), inlineLimit)
    }

    constructor (store: ArtifactStore?, inlineLimit: int)
      ensures this.store == store && this.inlineLimit == Max(1024, inlineLimit)
      ensures rows == map[] && activities == map[]
    {
      this.store := store;
      this.inlineLimit := Max(1024, inlineLimit);
      rows, activities := map[], map[];
    }

    method ResultPayload(row: Row) returns (r: Result<Option<Message>, StorageError>)
      ensures r == State().Stored(row)
    {
      if row.payload.Some? {
        return Ok(row.payload);
      }
      if row.artifact.Some? && store != null {
        var raw := store.Get(row.artifact.value);
        if raw.Err? {
          return Err(raw.error);
        }
        if raw.value == [] {
          return Ok(None);
        }
        var m := Decode(raw.value);
        return if m.None? then Err(UndecodablePayload) else Ok(m);
      }
      r := Ok(None);
    }

    method SetStatus(key: Key, status: Status)
      requires key in rows
      modifies this`rows
      ensures rows == old(rows)[key := old(rows)[key].(status := status)]
    {
      rows := rows[key := rows[key].(status := status)];
    }

    method MarkRetry(key: Key)
      requires key in rows
      modifies this`rows
      ensures State() == old(State()).Retried(key)
    {
      rows := rows[key := rows[key].(status := Running, attempts := rows[key].attempts + 1)];
    }

    /** Adopts the recorded activities as the result when every one of them still holds. */
    method TryReconcile(key: Key, files: Files) returns (m: Option<Message>)
      requires key in rows
      modifies this`rows
      ensures m.Some? <==> AllMatch(old(State()).ActivitiesOf(key), files)
      ensures m.Some? ==> m.value == RecoveredMessage(old(rows)[key].tool) && State() == old(State()).Reconciled(key)
      ensures m.None? ==> State() == old(State())
    {
      var applied := if key in activities then activities[key] else [];
      if applied == [] {
        return None;
      }
      for i := 0 to |applied|
        invariant forall j :: 0 <= j < i ==> ActivityMatches(applied[j], files)
        invariant State() == old(State())
      {
        if !ActivityMatches(applied[i], files) {
          return None;
        }
      }
      var message := RecoveredMessage(rows[key].tool);
      rows := rows[key := rows[key].(status := Succeeded, payload := Some(message))];
      m := Some(message);
    }

    method ReplayCompleted(ctx: Context) returns (answer: Answer)
      modifies this`rows
      ensures (State(), answer) == old(State()).ReplayCompleted(ctx)
    {
      if !ctx.Keyed() || ctx.key !in rows {
        return Execute;
      }
      var row := rows[ctx.key];
      if row.tool != ctx.tool || row.args != ctx.args {
        return RecoveryRequired;
      }
      if row.status != Succeeded && row.status != Failed {
        return Execute;
      }
      var payload := ResultPayload(row);
      if payload.Err? {
        return Broken(payload.error);
      }
      if payload.value.Some? {
        return Replay(payload.value.value);
      }
      SetStatus(ctx.key, Uncertain);
      answer := RecoveryRequired;
    }

    method Claim(ctx: Context, files: Files) returns (answer: Answer)
      modifies this`rows
      ensures (State(), answer) == old(State()).Claim(ctx, files)
    {
      if !ctx.Keyed() {
        return Execute;
      }
      if ctx.key !in rows {
        answer := ClaimNew(ctx, files);
        return;
      }
      var row := rows[ctx.key];
      if row.tool != ctx.tool || row.args != ctx.args {
        return RecoveryRequired;
      }
      if row.status == Succeeded || row.status == Failed {
        var payload := ResultPayload(row);
        if payload.Err? {
          return Broken(payload.error);
        }
        if payload.value.Some? {
          return Replay(payload.value.value);
        }
      } else if row.policy == SafeRetry {
        MarkRetry(ctx.key);
        return Execute;
      } else if row.policy == Reconcile {
        var reconciled := TryReconcile(ctx.key, files);
        if reconciled.Some? {
          return Replay(reconciled.value);
        }
        if row.before != [] && Capture(ctx.tracked, files) == row.before {
          MarkRetry(ctx.key);
          return Execute;
        }
      }
      SetStatus(ctx.key, Uncertain);
      answer := RecoveryRequired;
    }

    method ClaimNew(ctx: Context, files: Files) returns (answer: Answer)
      requires ctx.key !in rows
      modifies this`rows
      ensures (State(), answer) == old(State()).ClaimNew(ctx, files)
    {
      rows := rows[ctx.key := Row(ctx.tool, ctx.args, ctx.policy, Running, None, None,
                                  Capture(ctx.tracked, files), [], 1)];
      if ctx.key !in activities || activities[ctx.key] == [] {
        return Execute;
      }
      if ctx.policy == Reconcile {
        var reconciled := TryReconcile(ctx.key, files);
        if reconciled.Some? {
          return Replay(reconciled.value);
        }
      }
      SetStatus(ctx.key, Uncertain);
      answer := RecoveryRequired;
    }

    method Finish(ctx: Context, m: Message, files: Files)
      requires State().Valid()
      modifies this`rows, if store == null then {} else {store}
      ensures State() == old(State()).Finish(ctx, m, files, [])
      ensures State().Valid()
    {
      if !ctx.Keyed() {
        return;
      }
      var status := if m.error then Failed else Succeeded;
      var payload := Encode(m);
      var inlined := Some(m);
      var artifact: Option<ArtifactId> := None;
      if store != null && |payload| > inlineLimit {
        var id := store.Put(payload);
        store.AddReference(id, Owner(ctx.key));
        artifact := Some(id);
        inlined := None;
      }
      if ctx.key in rows {
        rows := rows[ctx.key := rows[ctx.key].(status := status, payload := inlined, artifact := artifact,
                                               after := Capture(ctx.tracked, files))];
      }
    }

    method MarkRunningUncertain() returns (count: nat)
      modifies this`rows
      ensures State() == old(State()).Restart()
      ensures count == |set k | k in old(rows) && old(rows)[k].status == Running|
    {
      count := |set k | k in rows && rows[k].status == Running|;
      rows := map k | k in rows :: if rows[k].status == Running then rows[k].(status := Uncertain) else rows[k];
    }

    method Resolve(key: Key, action: Action) returns (ok: bool)
      modifies this`rows
      ensures ok == old(State()).Resolvable(key, action)
      ensures State() == old(State()).Resolve(key, action)
    {
      if key !in rows || !rows[key].Pending() {
        return false;
      }
      match action
      case RetryOnce =>
        rows := rows[key := rows[key].(policy := SafeRetry, status := Uncertain)];
        ok := true;
      case ReturnError =>
        rows := rows[key := rows[key].(status := Failed, payload := Some(SkippedMessage(rows[key].tool)))];
        ok := true;
      case Unsupported =>
        ok := false;
    }
  }
}
