/**
 * The tables behind managed tasks and the transactions that write them
 * (packages/task-postgres/src/repository.ts). Each SQL update is modelled by the columns it sets, so
 * that agreement with the pure machine of TaskState is something to prove.
 */
module TaskTables {
  import opened Prelude
  import opened TaskState
  import TextOrder

  datatype ArtifactRow = ArtifactRow(
    id: string, tenant: string, task: string, session: string,
    byteSize: nat, storageKey: string, sha256: string, createdAt: Time, expiresAt: Time)

  datatype CreateKey = CreateKey(tenant: string, session: string, key: string)

  datatype KeyRow = KeyRow(hash: string, task: string)

  type TaskRows = map<string, Task>

  datatype Tables = Tables(tasks: TaskRows, artifacts: map<string, ArtifactRow>, keys: map<CreateKey, KeyRow>)

  // ---------------------------------------------------------------------------------------------
  // Column updates

  /** The exhaustion sweep's `set` list. */
  function SweepRow(t: Task, now: Time): Task {
    t.(status := Failed, failureCode := Some(TaskExecutionFailed), failedAt := Some(now), updatedAt := now,
       claimToken := None, leaseExpiresAt := None, version := t.version + 1)
  }

  /** The claim update's `set` list: failure code, result and end times are not written. */
  function ClaimRow(t: Task, n: Task): Task {
    t.(status := n.status, attemptCount := n.attemptCount, updatedAt := n.updatedAt, startedAt := n.startedAt,
       nextAttemptAt := None, claimToken := n.claimToken, leaseExpiresAt := n.leaseExpiresAt, version := n.version)
  }

  /** The generic transition's `set` list. */
  function TransitionRow(t: Task, n: Task): Task {
    t.(status := n.status, attemptCount := n.attemptCount, result := n.result, failureCode := n.failureCode,
       updatedAt := n.updatedAt, startedAt := n.startedAt, completedAt := n.completedAt, failedAt := n.failedAt,
       nextAttemptAt := n.nextAttemptAt, claimToken := n.claimToken, leaseExpiresAt := n.leaseExpiresAt,
       version := n.version)
  }

  /** The artifact completion's `set` list. */
  function CompleteRow(t: Task, n: Task): Task {
    t.(status := n.status, result := n.result, updatedAt := n.updatedAt, completedAt := n.completedAt,
       claimToken := None, leaseExpiresAt := None, version := n.version)
  }

  // ---------------------------------------------------------------------------------------------
  // Predicates of the claim queries

  predicate Leased(t: Task, now: Time) {
    t.status.Running? && t.leaseExpiresAt.Some? && t.leaseExpiresAt.value > now
  }

  predicate Sweepable(t: Task, now: Time) {
    t.status.Running? && t.leaseExpiresAt.Some? && t.leaseExpiresAt.value <= now && t.attemptCount >= t.maxAttempts
  }

  predicate Due(t: Task, now: Time) {
    && (|| t.status.Queued?
        || (t.status.RetryPending? && t.nextAttemptAt.Some? && t.nextAttemptAt.value <= now)
        || (t.status.Running? && t.leaseExpiresAt.Some? && t.leaseExpiresAt.value <= now))
    && t.attemptCount < t.maxAttempts
  }

  /** The tenant's running rows whose lease is still open at `now`. */
  function Active(ts: TaskRows, tenant: string, now: Time): set<string> {
    set id | id in ts && ts[id].tenant == tenant && Leased(ts[id], now)
  }

  predicate SameSession(a: Task, b: Task) {
    a.tenant == b.tenant && a.session == b.session
  }

  /** Another row of the same session holds an open lease. */
  predicate Occupied(ts: TaskRows, id: string, now: Time)
    requires id in ts
  {
    exists other :: other in ts && other != id && SameSession(ts[id], ts[other]) && Leased(ts[other], now)
  }

  predicate Candidate(ts: TaskRows, id: string, now: Time, maxRunning: nat) {
    && id in ts
    && Due(ts[id], now)
    && |Active(ts, ts[id].tenant, now)| < maxRunning
    && !Occupied(ts, id, now)
  }

  /** `order by` of the claim queries: expired leases first, then oldest, then by id. */
  predicate Before(a: Task, b: Task) {
    if a.status.Running? != b.status.Running? then a.status.Running?
    else a.createdAt < b.createdAt || (a.createdAt == b.createdAt && TextOrder.Less(a.id, b.id))
  }

  ghost predicate IsFirst(ts: TaskRows, id: string, now: Time, maxRunning: nat) {
    && Candidate(ts, id, now, maxRunning)
    && forall o :: Candidate(ts, o, now, maxRunning) && o != id ==> Before(ts[id], ts[o])
  }

  function SweepAll(ts: TaskRows, now: Time): TaskRows {
    map id | id in ts :: if Sweepable(ts[id], now) then SweepRow(ts[id], now) else ts[id]
  }

  function ClaimEvent(t: Task, now: Time, token: string, ttl: nat): Event {
    if t.status.Running? then Reclaim(now, token, now + ttl) else Claim(now, token, now + ttl)
  }

  /** `managed_tasks_one_running_per_session_idx` would reject making this row running. */
  predicate IndexConflict(ts: TaskRows, id: string)
    requires id in ts
  {
    exists other :: other in ts && other != id && SameSession(ts[id], ts[other]) && ts[other].status.Running?
  }

  datatype ClaimReply = Nothing | Claimed(task: Task) | ClaimRefused | BadLease

  /** Claiming the chosen row of the swept table, or rolling everything back. */
  predicate ClaimRowSpec(db: Tables, ts: TaskRows, id: string, now: Time, token: string, ttl: nat, indexed: bool,
                         db': Tables, reply: ClaimReply)
    requires id in ts
  {
    match Apply(ts[id], ClaimEvent(ts[id], now, token, ttl))
    case Next(n) =>
      if indexed && IndexConflict(ts, id) then db' == db && reply == Nothing
      else
        var row := ClaimRow(ts[id], n);
        db' == db.(tasks := ts[id := row]) && reply == Claimed(row)
    case _ => db' == db && reply == ClaimRefused
  }

  /**
   * What `claimNext` does when nothing interleaves with it; `pick` is the row it chose, if any.
   * `indexed` says whether the partial unique index exists; when it is violated the transaction rolls
   * back and nothing is claimed.
   */
  ghost predicate ClaimNextSpec(db: Tables, now: Time, token: string, ttl: nat, maxRunning: nat, indexed: bool,
                                pick: Option<string>, db': Tables, reply: ClaimReply)
  {
    var ts := SweepAll(db.tasks, now);
    if ttl < 1000 then db' == db && reply == BadLease && pick == None
    else match pick
      case None =>
        && (forall id :: !Candidate(ts, id, now, maxRunning))
        && db' == db.(tasks := ts) && reply == Nothing
      case Some(id) =>
        && IsFirst(ts, id, now, maxRunning)
        && ClaimRowSpec(db, ts, id, now, token, ttl, indexed, db', reply)
  }

  // ---------------------------------------------------------------------------------------------
  // The other transactions

  datatype Command =
    | DoSucceed(result: TaskResult)
    | DoRetry(retryDelayMs: int, failureCode: FailureCode)
    | DoFail(failureCode: FailureCode)
    | DoCancel

  /** `persistedTransitionEvent`: the command stamped with the database clock. */
  function Persisted(c: Command, at: Time): Option<Event> {
    match c
    case DoSucceed(r) => Some(Succeed(at, r))
    case DoRetry(delay, code) =>
      if 1 <= delay <= 30_000 then Some(ScheduleRetry(at, at + delay, code)) else None
    case DoFail(code) => Some(Fail(at, code))
    case DoCancel => Some(Cancel(at))
  }

  datatype Reply = Committed(db: Tables, row: Task) | Lost | Broken

  /** `transition`: compare-and-set on version and, when given, claim token. */
  function Transition(db: Tables, id: string, expected: nat, token: Option<string>, c: Command, at: Time): Reply {
    if id !in db.tasks then Lost
    else
      var t := db.tasks[id];
      if t.version != expected || (token.Some? && t.claimToken != token) then Lost
      else match Persisted(c, at)
        case None => Lost
        case Some(e) =>
          match Apply(t, e)
          case Next(n) =>
            var row := TransitionRow(t, n);
            Committed(db.(tasks := db.tasks[id := row]), row)
          case TransitionError => Lost
          case SchemaError => Broken
  }

  /** What the worker knows of an artifact before it is persisted. */
  datatype Draft = Draft(id: string, byteSize: nat, storageKey: string, sha256: string)

  function ArtifactOf(snap: Task, d: Draft, at: Time, retention: nat): ArtifactRow {
    ArtifactRow(d.id, snap.tenant, snap.id, snap.session, d.byteSize, d.storageKey, d.sha256, at, at + retention * 1000)
  }

  function Public(a: ArtifactRow): PublicArtifact {
    PublicArtifact(a.id, a.byteSize, a.sha256, a.createdAt, a.expiresAt)
  }

  /**
   * `insertArtifactAndComplete`. The next record is computed from the worker's own snapshot; only the
   * row update compares version and token with the table.
   */
  function Complete(db: Tables, snap: Task, token: string, d: Draft, retention: nat, at: Time): Reply {
    if retention < 60 then Broken
    else if snap.kind.Extract? then Lost
    else
      var a := ArtifactOf(snap, d, at, retention);
      match Apply(snap, Succeed(at, ArtifactResult(snap.kind, Public(a))))
      case TransitionError => Lost
      case SchemaError => Broken
      case Next(n) =>
        if snap.id !in db.tasks || db.tasks[snap.id].version != snap.version || db.tasks[snap.id].claimToken != Some(token)
        then Lost
        else
          var row := CompleteRow(db.tasks[snap.id], n);
          if !SchemaValid(row) then Broken
          else
            var arts := if snap.id in db.artifacts then db.artifacts else db.artifacts[snap.id := a];
            Committed(db.(tasks := db.tasks[snap.id := row], artifacts := arts), row)
  }

  // ---------------------------------------------------------------------------------------------
  // Creation

  datatype SessionView = SessionView(active: bool, expiresAt: Option<Time>)

  datatype CreateReply =
    | Created(task: Task) | Existing(task: Task) | Conflict | QuotaExceeded
    | SessionNotFound | SessionNotActive | SessionExpired | CreateFailed

  /** Rows that count against the tenant's queue quota. */
  function Open(ts: TaskRows, tenant: string): set<string> {
    set id | id in ts && ts[id].tenant == tenant && !Terminal(ts[id].status)
  }

  /** Rows created in the minute before `now`. */
  function Recent(ts: TaskRows, tenant: string, now: Time): set<string> {
    set id | id in ts && ts[id].tenant == tenant && ts[id].createdAt + 60_000 > now
  }

  /**
   * `createIdempotent` under the tenant lock, with the session row it reads as a parameter. A task that
   * clashes with the primary key, the schema or the foreign key of the key row rolls back.
   */
  function Create(db: Tables, key: CreateKey, hash: string, draft: Task, view: Option<SessionView>,
                  maxQueued: nat, maxPerMinute: nat, now: Time): (Tables, CreateReply)
  {
    if key in db.keys then
      if db.keys[key].hash != hash then (db, Conflict)
      else if db.keys[key].task in db.tasks then (db, Existing(db.tasks[db.keys[key].task]))
      else (db, CreateFailed)
    else if view.None? then (db, SessionNotFound)
    else if !view.value.active then (db, SessionNotActive)
    else if view.value.expiresAt.None? || view.value.expiresAt.value <= now then (db, SessionExpired)
    else if |Open(db.tasks, key.tenant)| >= maxQueued || |Recent(db.tasks, key.tenant, now)| >= maxPerMinute
    then (db, QuotaExceeded)
    else
      var task := draft.(createdAt := now, updatedAt := now);
      if task.id in db.tasks || !SchemaValid(task) || task.tenant != key.tenant || task.session != key.session
      then (db, CreateFailed)
      else (db.(tasks := db.tasks[task.id := task], keys := db.keys[key := KeyRow(hash, task.id)]), Created(task))
  }

  // ---------------------------------------------------------------------------------------------
  // The SQL agrees with the pure machine on every sound row

  lemma SweepRefines(t: Task, now: Time)
    requires Sound(t) && Sweepable(t, now)
    ensures Apply(t, Fail(now, TaskExecutionFailed)) == Next(SweepRow(t, now))
  {
  }

  lemma ClaimRefines(t: Task, now: Time, token: string, ttl: nat)
    requires Sound(t)
    ensures match Apply(t, ClaimEvent(t, now, token, ttl))
            case Next(n) => ClaimRow(t, n) == n
            case _ => true
  {
  }

  lemma TransitionRefines(db: Tables, id: string, expected: nat, token: Option<string>, c: Command, at: Time)
    requires id in db.tasks && Sound(db.tasks[id])
    ensures match Transition(db, id, expected, token, c, at)
            case Committed(db', row) =>
              && Persisted(c, at).Some?
              && Apply(db.tasks[id], Persisted(c, at).value) == Next(row)
              && db' == db.(tasks := db.tasks[id := row])
            case Lost => true
            case Broken => false
  {
  }

  /** A snapshot with the row's version is the row, so completing from it is the machine's own step. */
  lemma CompleteRefines(db: Tables, snap: Task, token: string, d: Draft, retention: nat, at: Time)
    requires snap.id in db.tasks && Sound(db.tasks[snap.id]) && Sound(snap)
    requires db.tasks[snap.id].version == snap.version ==> db.tasks[snap.id] == snap
    requires retention >= 60
    ensures match Complete(db, snap, token, d, retention, at)
            case Committed(db', row) =>
              var result := ArtifactResult(snap.kind, Public(ArtifactOf(snap, d, at, retention)));
              && db.tasks[snap.id] == snap
              && Apply(snap, Succeed(at, result)) == Next(row)
              && db'.tasks == db.tasks[snap.id := row]
            case Lost => true
            case Broken => false
  {
  }
}
