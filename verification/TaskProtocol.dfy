/**
 * The managed-task protocol as a whole: any number of workers, the task tables, object storage and a
 * database clock, interleaved one database or storage operation at a time.
 *
 * A claim is taken at commit time with the clock value its transaction read earlier. It may sweep any
 * subset of the exhausted rows and take any row that still passes the guards; TaskContention proves
 * that `claimNext` amid other transactions does no more. Every transaction may also abort, or commit
 * and lose its reply.
 */
module TaskProtocol {
  import opened Prelude
  import opened TaskState
  import opened TaskTables
  import opened StorageKeys

  type Bytes = seq<bv8>

  /** Limits of the deployment, and the hash functions as arbitrary functions. */
  datatype Config = Config(
    maxRunning: nat, maxQueued: nat, maxPerMinute: nat, retention: nat,
    digest: Bytes -> string, tag: string -> string)

  /** Where one `runOnce` call stands once its claim was acknowledged. */
  datatype Phase =
    | Executing(snap: Task, token: string)
    | Uploaded(snap: Task, token: string, bytes: Bytes)
    | Losing(snap: Task, token: string)
    | Failing(snap: Task, token: string, late: Option<Bytes>)
    | Ended(snap: Task, token: string, late: Option<Bytes>)

  datatype World = World(clock: Time, db: Tables, storage: map<string, Bytes>, runs: map<nat, Phase>)

  /** What the caller of a transaction sees besides the transaction's own reply. */
  datatype Fault = Clean | DroppedBefore | DroppedAfter

  datatype Put = PutOk | PutFailed | PutFailedStored

  /** What a run that holds a claim may do next. */
  datatype Op =
    | ExecutionFails
    | ExtractDone(result: TaskResult, at: Time, fault: Fault)
    | Upload(bytes: Bytes, put: Put)
    | CompleteTask(at: Time, fault: Fault)
    | LateWrite
    | DeleteObject
    | ReportFailure(retryable: bool, code: FailureCode, at: Time, fault: Fault)

  datatype ClaimCall = ClaimCall(run: nat, now: Time, sweep: set<string>, pick: Option<string>, token: string, ttl: nat,
                                 acked: bool)

  datatype Action =
    | Tick(to: Time)
    | CreateTask(key: CreateKey, hash: string, draft: Task, view: Option<SessionView>, at: Time)
    | ClaimTask(call: ClaimCall)
    | CancelTask(id: string, expected: nat, at: Time)
    | Work(run: nat, op: Op)

  predicate Formatted(t: Task) {
    NoSlash(t.tenant) && NoSlash(t.id) && 4 <= |t.id|
  }

  function KeyOf(cfg: Config, t: Task, token: string): string
    requires Formatted(t)
  {
    StorageKey(t.tenant, t.id, t.attemptCount, cfg.tag(token))
  }

  function DraftOf(cfg: Config, t: Task, token: string, bytes: Bytes): Draft
    requires Formatted(t)
  {
    Draft(ArtifactId(t.id), |bytes|, KeyOf(cfg, t, token), cfg.digest(bytes))
  }

  function Power(n: nat): nat {
    if n == 0 then 1 else 2 * Power(n - 1)
  }

  /** `min(30000, 1000 * 2 ** max(0, attempt - 1))`. */
  function RetryDelay(attempt: nat): nat {
    var d := 1000 * Power(if attempt == 0 then 0 else attempt - 1);
    if d < 30_000 then d else 30_000
  }

  /** `#handleFailure`: retry while attempts remain, otherwise fail. */
  function FailureCommand(snap: Task, retryable: bool, code: FailureCode): Command {
    if retryable && snap.attemptCount < snap.maxAttempts then DoRetry(RetryDelay(snap.attemptCount), code)
    else DoFail(code)
  }

  // ---------------------------------------------------------------------------------------------
  // Steps

  function SweepSome(ts: TaskRows, ids: set<string>, now: Time): TaskRows {
    map id | id in ts :: if id in ids && Sweepable(ts[id], now) then SweepRow(ts[id], now) else ts[id]
  }

  /** The guards of the claim transaction hold for this row at the clock value it read. */
  predicate MayClaim(cfg: Config, ts: TaskRows, id: string, now: Time, token: string, ttl: nat) {
    Candidate(ts, id, now, cfg.maxRunning) && Apply(ts[id], ClaimEvent(ts[id], now, token, ttl)).Next?
  }

  function ClaimedRow(ts: TaskRows, id: string, now: Time, token: string, ttl: nat): Task
    requires id in ts && Apply(ts[id], ClaimEvent(ts[id], now, token, ttl)).Next?
  {
    ClaimRow(ts[id], Apply(ts[id], ClaimEvent(ts[id], now, token, ttl)).task)
  }

  function DoClaim(cfg: Config, w: World, c: ClaimCall): World {
    if c.now > w.clock || c.run in w.runs then w
    else
      var ts := SweepSome(w.db.tasks, c.sweep, c.now);
      if c.pick.None? then w.(db := w.db.(tasks := ts))
      else if !MayClaim(cfg, ts, c.pick.value, c.now, c.token, c.ttl) then w
      else
        AfterClaim(w.(db := w.db.(tasks := ts)), c, c.pick.value, ClaimedRow(ts, c.pick.value, c.now, c.token, c.ttl))
  }

  /** The row is claimed; the caller holds it only if the reply arrived. */
  function AfterClaim(w: World, c: ClaimCall, id: string, row: Task): World {
    w.(db := w.db.(tasks := w.db.tasks[id := row]),
       runs := if c.acked then w.runs[c.run := Executing(row, c.token)] else w.runs)
  }

  /** The tables after a transaction's reply and the fault that met it. */
  function Settled(db: Tables, reply: Reply, fault: Fault): Tables {
    if reply.Committed? && !fault.DroppedBefore? then reply.db else db
  }

  function DoExtract(w: World, run: nat, result: TaskResult, at: Time, fault: Fault): World
    requires run in w.runs && w.runs[run].Executing?
  {
    var p := w.runs[run];
    var reply := Transition(w.db, p.snap.id, p.snap.version, Some(p.token), DoSucceed(result), at);
    Commit(w, run, DoSucceed(result), at, fault,
           if fault.Clean? && !reply.Broken? then Ended(p.snap, p.token, None) else Failing(p.snap, p.token, None))
  }

  function DoUpload(cfg: Config, w: World, run: nat, bytes: Bytes, put: Put): World
    requires run in w.runs && w.runs[run].Executing? && Formatted(w.runs[run].snap)
  {
    var p := w.runs[run];
    var p' := if put.PutOk? then Uploaded(p.snap, p.token, bytes) else Failing(p.snap, p.token, Some(bytes));
    w.(storage := if put.PutFailed? then w.storage else w.storage[KeyOf(cfg, p.snap, p.token) := bytes],
       runs := w.runs[run := p'])
  }

  function CompleteReply(cfg: Config, w: World, run: nat, at: Time): Reply
    requires run in w.runs && w.runs[run].Uploaded? && Formatted(w.runs[run].snap)
  {
    var p := w.runs[run];
    Complete(w.db, p.snap, p.token, DraftOf(cfg, p.snap, p.token, p.bytes), cfg.retention, at)
  }

  function DoComplete(cfg: Config, w: World, run: nat, at: Time, fault: Fault): World
    requires run in w.runs && w.runs[run].Uploaded? && Formatted(w.runs[run].snap)
  {
    var p := w.runs[run];
    var reply := CompleteReply(cfg, w, run, at);
    var p' :=
      if !fault.Clean? || reply.Broken? then Failing(p.snap, p.token, None)
      else if reply.Lost? then Losing(p.snap, p.token)
      else Ended(p.snap, p.token, None);
    w.(db := Settled(w.db, reply, fault), runs := w.runs[run := p'])
  }

  function DoReport(w: World, run: nat, retryable: bool, code: FailureCode, at: Time, fault: Fault): World
    requires run in w.runs && w.runs[run].Failing?
  {
    var p := w.runs[run];
    Commit(w, run, FailureCommand(p.snap, retryable, code), at, fault, Ended(p.snap, p.token, p.late))
  }

  /** The run transitions its task with its own version and token, then moves to the given phase. */
  function Commit(w: World, run: nat, c: Command, at: Time, fault: Fault, p': Phase): World
    requires run in w.runs
  {
    var p := w.runs[run];
    var reply := Transition(w.db, p.snap.id, p.snap.version, Some(p.token), c, at);
    w.(db := Settled(w.db, reply, fault), runs := w.runs[run := p'])
  }

  /**
   * A step of a run that holds a claim. A write reported as failed may still arrive later, and a
   * losing run deletes its own object, possibly more than once.
   */
  function DoWork(cfg: Config, w: World, run: nat, op: Op): World
    requires run in w.runs && Formatted(w.runs[run].snap)
  {
    var p := w.runs[run];
    var key := KeyOf(cfg, p.snap, p.token);
    match op
    case ExecutionFails =>
      if p.Executing? then w.(runs := w.runs[run := Failing(p.snap, p.token, None)]) else w
    case ExtractDone(result, at, fault) =>
      if p.Executing? && result.ExtractResult? && at <= w.clock then DoExtract(w, run, result, at, fault) else w
    case Upload(bytes, put) =>
      if p.Executing? then DoUpload(cfg, w, run, bytes, put) else w
    case CompleteTask(at, fault) =>
      if p.Uploaded? && at <= w.clock then DoComplete(cfg, w, run, at, fault) else w
    case LateWrite =>
      if (p.Failing? || p.Ended?) && p.late.Some? then w.(storage := w.storage[key := p.late.value]) else w
    case DeleteObject =>
      if p.Losing? then w.(storage := w.storage - {key}) else w
    case ReportFailure(retryable, code, at, fault) =>
      if p.Failing? && at <= w.clock then DoReport(w, run, retryable, code, at, fault) else w
  }

  /** One step. An action that is not enabled changes nothing. */
  function Do(cfg: Config, w: World, a: Action): World {
    match a
    case Tick(to) => if to >= w.clock then w.(clock := to) else w
    case CreateTask(key, hash, draft, view, at) =>
      if at <= w.clock && Fresh(draft) && Formatted(draft) then
        w.(db := Create(w.db, key, hash, draft, view, cfg.maxQueued, cfg.maxPerMinute, at).0)
      else w
    case ClaimTask(call) => DoClaim(cfg, w, call)
    case CancelTask(id, expected, at) =>
      if at <= w.clock then w.(db := Settled(w.db, Transition(w.db, id, expected, None, DoCancel, at), Clean)) else w
    case Work(run, op) => if run in w.runs && Formatted(w.runs[run].snap) then DoWork(cfg, w, run, op) else w
  }

  /** Every run starts from empty tables and storage. */
  function Reached(cfg: Config, acts: seq<Action>): World {
    if acts == [] then World(0, Tables(map[], map[], map[]), map[], map[])
    else Do(cfg, Reached(cfg, acts[..|acts| - 1]), acts[|acts| - 1])
  }
}
