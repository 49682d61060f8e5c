/** What the managed-task protocol promises, for every run and every interleaving. */
module TaskTheorems {
  import opened Prelude
  import opened TaskState
  import opened TaskTables
  import opened TaskProtocol
  import opened TaskSafety

  /**
   * Lease exclusion with stale clocks: at every instant a session has at most one running task with an
   * open lease and a tenant at most `maxRunning`, although every claimer read its clock before it took
   * the tenant lock.
   */
  lemma {:induction false} LeaseExclusion(cfg: Config, acts: seq<Action>)
    ensures var w := Reached(cfg, acts);
            && (forall a, b | a in w.db.tasks && b in w.db.tasks && SameSession(w.db.tasks[a], w.db.tasks[b]) ::
                  Leased(w.db.tasks[a], w.clock) && Leased(w.db.tasks[b], w.clock) ==> a == b)
            && (forall tenant :: |Active(w.db.tasks, tenant, w.clock)| <= cfg.maxRunning)
  {
    RunKeepsInv(cfg, acts);
  }

  /** Every stored row satisfies its schema and stays within its attempt and version bounds. */
  lemma {:induction false} TasksAreBounded(cfg: Config, acts: seq<Action>, id: string)
    requires id in Reached(cfg, acts).db.tasks
    ensures var t := Reached(cfg, acts).db.tasks[id];
            SchemaValid(t) && t.attemptCount <= t.maxAttempts && t.version <= 2 * t.maxAttempts
  {
    RunKeepsInv(cfg, acts);
  }

  /** Creation quota and keys: queues stay capped and each key names one task of its session. */
  lemma {:induction false} CreationIsIdempotent(cfg: Config, acts: seq<Action>)
    ensures var db := Reached(cfg, acts).db;
            && (forall tenant :: |Open(db.tasks, tenant)| <= cfg.maxQueued)
            && (forall k :: k in db.keys ==> db.keys[k].task in db.tasks)
            && (forall k, l :: k in db.keys && l in db.keys && db.keys[k].task == db.keys[l].task ==> k == l)
  {
    RunKeepsInv(cfg, acts);
  }

  /** A used key answers with its task or with a conflict, and never writes. */
  lemma {:induction false} ReplayNeverWrites(cfg: Config, acts: seq<Action>, key: CreateKey, hash: string, draft: Task,
                          view: Option<SessionView>, at: Time)
    requires key in Reached(cfg, acts).db.keys
    ensures var db := Reached(cfg, acts).db;
            var (db', reply) := Create(db, key, hash, draft, view, cfg.maxQueued, cfg.maxPerMinute, at);
            && db' == db
            && (hash != db.keys[key].hash ==> reply == Conflict)
            && (hash == db.keys[key].hash ==>
                  db.keys[key].task in db.tasks && reply == Existing(db.tasks[db.keys[key].task]))
  {
    RunKeepsInv(cfg, acts);
  }

  /**
   * Artifact consistency under lost claims and retries: a row exists exactly for the tasks that
   * succeeded with an artifact, it is the artifact of their result, and the object it names is stored
   * with the recorded digest and size.
   */
  lemma {:induction false} ArtifactConsistency(cfg: Config, acts: seq<Action>, id: string)
    ensures var w := Reached(cfg, acts);
            && (id in w.db.artifacts <==>
                  id in w.db.tasks && w.db.tasks[id].status.Succeeded? && !w.db.tasks[id].kind.Extract?)
            && (id in w.db.artifacts ==>
                  var a := w.db.artifacts[id];
                  && w.db.tasks[id].result == Some(ArtifactResult(w.db.tasks[id].kind, Public(a)))
                  && a.storageKey in w.storage
                  && cfg.digest(w.storage[a.storageKey]) == a.sha256 && |w.storage[a.storageKey]| == a.byteSize)
  {
    RunKeepsInv(cfg, acts);
    ArtifactFacts(cfg, Reached(cfg, acts), id);
  }

  lemma ArtifactFacts(cfg: Config, w: World, id: string)
    requires Inv(cfg, w)
    ensures id in w.db.artifacts <==>
              id in w.db.tasks && w.db.tasks[id].status.Succeeded? && !w.db.tasks[id].kind.Extract?
    ensures id in w.db.artifacts ==> ArtifactMatches(cfg, w.db.tasks[id], w.db.artifacts[id], w.storage)
  {
    if id in w.db.tasks {
      assert Sound(w.db.tasks[id]);
    }
  }

  // ---------------------------------------------------------------------------------------------
  // History only moves forward

  /** Rows only move to later states; keys and artifacts, once written, never change. */
  ghost predicate Forward(db: Tables, db': Tables) {
    && Onward(db.tasks, db'.tasks)
    && (forall k :: k in db.keys ==> k in db'.keys && db'.keys[k] == db.keys[k])
    && (forall id :: id in db.artifacts ==> id in db'.artifacts && db'.artifacts[id] == db.artifacts[id])
  }

  lemma OnwardTransitive(a: TaskRows, b: TaskRows, c: TaskRows)
    requires Onward(a, b) && Onward(b, c)
    ensures Onward(a, c)
  {
    forall id | id in a ensures id in c && Later(a[id], c[id]) {
      assert Later(a[id], b[id]) && Later(b[id], c[id]);
    }
  }

  /** The only two effects a claim has on the tables. */
  lemma ClaimShape(cfg: Config, w: World, c: ClaimCall)
    requires DoClaim(cfg, w, c).db != w.db
    ensures var ts := SweepSome(w.db.tasks, c.sweep, c.now);
            if c.pick.None? then DoClaim(cfg, w, c).db == w.db.(tasks := ts)
            else
              && c.pick.value in ts && Apply(ts[c.pick.value], ClaimEvent(ts[c.pick.value], c.now, c.token, c.ttl)).Next?
              && DoClaim(cfg, w, c).db ==
                   w.db.(tasks := ts[c.pick.value := ClaimedRow(ts, c.pick.value, c.now, c.token, c.ttl)])
  {
  }

  lemma ClaimIsForward(cfg: Config, w: World, c: ClaimCall)
    requires RowsOk(w.db.tasks) && DoClaim(cfg, w, c).db != w.db
    ensures Forward(w.db, DoClaim(cfg, w, c).db)
  {
    var ts, db' := SweepSome(w.db.tasks, c.sweep, c.now), DoClaim(cfg, w, c).db;
    ClaimShape(cfg, w, c);
    assert Onward(w.db.tasks, db'.tasks) by {
      SweepCalms(w.db.tasks, c.sweep, c.now);
      if c.pick.Some? {
        ClaimAfterSweepIsOnward(w.db.tasks, ts, c.pick.value, c.now, c.token, c.ttl);
      }
    }
  }

  lemma ClaimAfterSweepIsOnward(ts0: TaskRows, ts: TaskRows, id: string, now: Time, token: string, ttl: nat)
    requires Onward(ts0, ts) && RowsOk(ts) && id in ts && Apply(ts[id], ClaimEvent(ts[id], now, token, ttl)).Next?
    ensures Onward(ts0, ts[id := ClaimedRow(ts, id, now, token, ttl)])
  {
    var row := ClaimedRow(ts, id, now, token, ttl);
    ClaimedIsLater(ts, id, now, token, ttl);
    ClaimIsOnward(ts, id, row);
    OnwardTransitive(ts0, ts, ts[id := row]);
  }

  lemma TransitionIsForward(db: Tables, id: string, expected: nat, token: Option<string>, c: Command, at: Time, fault: Fault)
    requires RowsOk(db.tasks) && (c.DoSucceed? ==> c.result.ExtractResult?)
    ensures Forward(db, Settled(db, Transition(db, id, expected, token, c, at), fault))
  {
    if Transition(db, id, expected, token, c, at).Committed? {
      TransitionCalms(db, id, expected, token, c, at);
    }
  }

  lemma CompleteIsForward(cfg: Config, w: World, run: nat, at: Time)
    requires Inv(cfg, w) && run in w.runs && w.runs[run].Uploaded? && Formatted(w.runs[run].snap)
    requires CompleteReply(cfg, w, run, at).Committed?
    ensures Forward(w.db, CompleteReply(cfg, w, run, at).db)
  {
    var p, reply := w.runs[run], CompleteReply(cfg, w, run, at);
    var a := ArtifactOf(p.snap, DraftOf(cfg, p.snap, p.token, p.bytes), at, cfg.retention);
    CompletionRecords(cfg, w, run, at);
    RecordIsOnward(w.db, reply.db, p.snap, reply.row, a);
  }

  lemma CommitIsForward(w: World, run: nat, c: Command, at: Time, fault: Fault, p': Phase)
    requires RowsOk(w.db.tasks) && run in w.runs && (c.DoSucceed? ==> c.result.ExtractResult?)
    ensures Forward(w.db, Commit(w, run, c, at, fault, p').db)
  {
    var p := w.runs[run];
    TransitionIsForward(w.db, p.snap.id, p.snap.version, Some(p.token), c, at, fault);
  }

  lemma ReportIsForward(w: World, run: nat, retryable: bool, code: FailureCode, at: Time, fault: Fault)
    requires RowsOk(w.db.tasks) && run in w.runs && w.runs[run].Failing?
    ensures Forward(w.db, DoReport(w, run, retryable, code, at, fault).db)
  {
    var p := w.runs[run];
    CommitIsForward(w, run, FailureCommand(p.snap, retryable, code), at, fault, Ended(p.snap, p.token, p.late));
  }

  lemma ExtractIsForward(w: World, run: nat, result: TaskResult, at: Time, fault: Fault)
    requires RowsOk(w.db.tasks) && run in w.runs && w.runs[run].Executing? && result.ExtractResult?
    ensures Forward(w.db, DoExtract(w, run, result, at, fault).db)
  {
    CommitIsForward(w, run, DoSucceed(result), at, fault, DoExtract(w, run, result, at, fault).runs[run]);
  }

  lemma WorkIsForward(cfg: Config, w: World, run: nat, op: Op)
    requires Inv(cfg, w) && run in w.runs && Formatted(w.runs[run].snap) && DoWork(cfg, w, run, op).db != w.db
    ensures Forward(w.db, DoWork(cfg, w, run, op).db)
  {
    if op.ExtractDone? {
      ExtractIsForward(w, run, op.result, op.at, op.fault);
    } else if op.CompleteTask? {
      CompleteIsForward(cfg, w, run, op.at);
    } else if op.ReportFailure? {
      ReportIsForward(w, run, op.retryable, op.code, op.at, op.fault);
    }
  }

  lemma CreateIsForward(cfg: Config, db: Tables, key: CreateKey, hash: string, draft: Task, view: Option<SessionView>, at: Time)
    ensures Forward(db, Create(db, key, hash, draft, view, cfg.maxQueued, cfg.maxPerMinute, at).0)
  {
    CreatedShape(db, key, hash, draft, view, cfg.maxQueued, cfg.maxPerMinute, at);
  }

  lemma StepIsForward(cfg: Config, w: World, a: Action)
    requires Inv(cfg, w)
    ensures Forward(w.db, Do(cfg, w, a).db)
  {
    if Do(cfg, w, a).db != w.db {
      match a
      case Tick(_) =>
      case CreateTask(key, hash, draft, view, at) => CreateIsForward(cfg, w.db, key, hash, draft, view, at);
      case ClaimTask(call) => ClaimIsForward(cfg, w, call);
      case CancelTask(id, expected, at) => TransitionIsForward(w.db, id, expected, None, DoCancel, at, Clean);
      case Work(run, op) => WorkIsForward(cfg, w, run, op);
    }
  }

  /**
   * Whatever happens next, rows only move on, finished rows never change, a version never stands for
   * two different rows, and keys and artifacts are written once.
   */
  lemma {:induction false} HistoryMovesForward(cfg: Config, acts: seq<Action>, more: seq<Action>)
    ensures Forward(Reached(cfg, acts).db, Reached(cfg, acts + more).db)
  {
    RunKeepsInv(cfg, acts);
    if more == [] {
      assert acts + more == acts;
    } else {
      var init := acts + more[..|more| - 1];
      assert (acts + more)[..|acts + more| - 1] == init;
      HistoryMovesForward(cfg, acts, more[..|more| - 1]);
      RunKeepsInv(cfg, init);
      StepIsForward(cfg, Reached(cfg, init), more[|more| - 1]);
      OnwardTransitive(Reached(cfg, acts).db.tasks, Reached(cfg, init).db.tasks, Reached(cfg, acts + more).db.tasks);
    }
  }

  // ---------------------------------------------------------------------------------------------
  // Workers

  lemma RetryDelayInRange(attempt: nat)
    ensures 1000 <= RetryDelay(attempt) <= 30_000
  {
    var n := if attempt == 0 then 0 else attempt - 1;
    PowerIsPositive(n);
  }

  lemma {:induction false} PowerIsPositive(n: nat)
    ensures Power(n) >= 1
  {
    if n > 0 {
      PowerIsPositive(n - 1);
    }
  }

  /** On the row a snapshot describes, the command `#handleFailure` chooses is always applicable. */
  lemma FailureApplies(s: Task, retryable: bool, code: FailureCode, at: Time)
    requires Sound(s) && s.status.Running? && s.updatedAt <= at
    ensures var c := FailureCommand(s, retryable, code);
            Persisted(c, at).Some? && Apply(s, Persisted(c, at).value).Next?
  {
    RetryDelayInRange(s.attemptCount);
  }

  /**
   * A worker that still holds its claim is always heard: whatever failed, the retry or failure it
   * issues at any time since its claim is accepted, and a worker that lost its claim changes nothing.
   */
  lemma {:induction false} HolderIsHeard(cfg: Config, acts: seq<Action>, run: nat, retryable: bool, code: FailureCode, at: Time)
    requires run in Reached(cfg, acts).runs
    ensures var w := Reached(cfg, acts);
            var p := w.runs[run];
            var reply := Transition(w.db, p.snap.id, p.snap.version, Some(p.token), FailureCommand(p.snap, retryable, code), at);
            && p.snap.id in w.db.tasks && p.snap.updatedAt <= w.clock
            && (w.db.tasks[p.snap.id].version != p.snap.version ==> reply == Lost)
            && (w.db.tasks[p.snap.id].version == p.snap.version && p.snap.updatedAt <= at ==> reply.Committed?)
  {
    RunKeepsInv(cfg, acts);
    var w := Reached(cfg, acts);
    var s := w.runs[run].snap;
    assert Tracks(w.db.tasks, s);
    if s.updatedAt <= at {
      FailureApplies(s, retryable, code, at);
    }
  }

  /** The repository's uncontended `claimNext` is one of the claims the interleaved protocol allows. */
  lemma ClaimNextIsAClaim(cfg: Config, w: World, now: Time, token: string, ttl: nat, indexed: bool,
                          pick: Option<string>, db': Tables, reply: ClaimReply, run: nat)
    requires now <= w.clock && run !in w.runs && RowsOk(w.db.tasks)
    requires ClaimNextSpec(w.db, now, token, ttl, cfg.maxRunning, indexed, pick, db', reply)
    ensures db' != w.db ==>
              Do(cfg, w, ClaimTask(ClaimCall(run, now, w.db.tasks.Keys, pick, token, ttl, true))).db == db'
  {
    assert SweepSome(w.db.tasks, w.db.tasks.Keys, now) == SweepAll(w.db.tasks, now);
  }
}
