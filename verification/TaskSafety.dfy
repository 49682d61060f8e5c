/** Safety of the managed-task protocol over every run and every interleaving. */
module TaskSafety {
  import opened Prelude
  import opened TaskState
  import opened TaskTables
  import opened StorageKeys
  import opened TaskProtocol

  // ---------------------------------------------------------------------------------------------
  // The invariant, part by part

  ghost predicate RowsOk(ts: TaskRows) {
    forall id :: id in ts ==> ts[id].id == id && Sound(ts[id]) && Formatted(ts[id])
  }

  /** At most one open lease per session at this instant. */
  ghost predicate Exclusive(ts: TaskRows, clock: Time) {
    forall a, b :: a in ts && b in ts && a != b && SameSession(ts[a], ts[b]) && Leased(ts[a], clock) ==>
      !Leased(ts[b], clock)
  }

  ghost predicate TenantsCapped(cfg: Config, ts: TaskRows, clock: Time) {
    forall tenant :: |Active(ts, tenant, clock)| <= cfg.maxRunning
  }

  ghost predicate QueuesCapped(cfg: Config, ts: TaskRows) {
    forall tenant :: |Open(ts, tenant)| <= cfg.maxQueued
  }

  ghost predicate Capped(cfg: Config, clock: Time, ts: TaskRows) {
    Exclusive(ts, clock) && TenantsCapped(cfg, ts, clock) && QueuesCapped(cfg, ts)
  }

  /** Each creation key names one task of its own session, and no task has two keys. */
  ghost predicate KeysOk(ts: TaskRows, keys: map<CreateKey, KeyRow>) {
    && (forall k :: k in keys ==>
          keys[k].task in ts && ts[keys[k].task].tenant == k.tenant && ts[keys[k].task].session == k.session)
    && (forall k, l :: k in keys && l in keys && keys[k].task == keys[l].task ==> k == l)
  }

  /** A later state of the same row; equal versions are equal rows and finished rows never change. */
  ghost predicate Later(t: Task, t': Task) {
    && SameTask(t, t')
    && t.version <= t'.version && t.attemptCount <= t'.attemptCount
    && (t.version == t'.version ==> t == t')
    && (Terminal(t.status) ==> t == t')
  }

  type Runs = map<nat, Phase>

  /** A run's snapshot is a past state of its row. */
  ghost predicate Tracks(ts: TaskRows, s: Task) {
    Sound(s) && s.status.Running? && s.id in ts && Later(s, ts[s.id])
  }

  ghost predicate RunsTrack(ts: TaskRows, runs: Runs) {
    forall r :: r in runs ==> Tracks(ts, runs[r].snap)
  }

  /** No two runs ever hold the same attempt. */
  ghost predicate RunsApart(runs: Runs) {
    forall r, q :: r in runs && q in runs && r != q && runs[r].snap.id == runs[q].snap.id ==>
      runs[r].snap.attemptCount != runs[q].snap.attemptCount
  }

  ghost predicate HasArtifact(t: Task) {
    t.result.Some? && !t.result.value.ExtractResult?
  }

  /** The run may still write or delete its object. */
  ghost predicate MayTouch(p: Phase) {
    match p
    case Failing(_, _, late) => late.Some?
    case Ended(_, _, late) => late.Some?
    case _ => true
  }

  type Objects = map<string, Bytes>

  type ArtifactRows = map<string, ArtifactRow>

  /** The artifact row describes the task's result, and the stored object is the one it describes. */
  ghost predicate ArtifactMatches(cfg: Config, t: Task, a: ArtifactRow, storage: Objects) {
    && a.task == t.id && a.tenant == t.tenant && a.session == t.session
    && t.result == Some(ArtifactResult(t.kind, Public(a)))
    && Formatted(t) && (exists token :: a.storageKey == KeyOf(cfg, t, token))
    && a.storageKey in storage
    && cfg.digest(storage[a.storageKey]) == a.sha256 && |storage[a.storageKey]| == a.byteSize
  }

  ghost predicate Artifacts(cfg: Config, ts: TaskRows, arts: ArtifactRows, storage: Objects) {
    && (forall id :: id in arts <==> id in ts && HasArtifact(ts[id]))
    && (forall id :: id in arts ==> ArtifactMatches(cfg, ts[id], arts[id], storage))
  }

  /** Whoever may still touch an object holds an attempt older than the one that succeeded. */
  ghost predicate Untouchable(ts: TaskRows, arts: ArtifactRows, runs: Runs) {
    forall r :: r in runs && MayTouch(runs[r]) && runs[r].snap.id in arts ==>
      runs[r].snap.id in ts && runs[r].snap.attemptCount < ts[runs[r].snap.id].attemptCount
  }

  ghost predicate UploadStored(cfg: Config, p: Phase, storage: Objects) {
    p.Uploaded? && Formatted(p.snap) ==>
      KeyOf(cfg, p.snap, p.token) in storage && storage[KeyOf(cfg, p.snap, p.token)] == p.bytes
  }

  ghost predicate UploadsStored(cfg: Config, storage: Objects, runs: Runs) {
    forall r :: r in runs ==> UploadStored(cfg, runs[r], storage)
  }

  /** Every run knows the token it claimed with, from a time that has passed. */
  ghost predicate HoldTokens(runs: Runs, clock: Time) {
    forall r :: r in runs ==> runs[r].snap.claimToken == Some(runs[r].token) && runs[r].snap.updatedAt <= clock
  }

  ghost predicate Inv(cfg: Config, w: World) {
    && RowsOk(w.db.tasks) && Capped(cfg, w.clock, w.db.tasks) && KeysOk(w.db.tasks, w.db.keys)
    && RunsTrack(w.db.tasks, w.runs) && RunsApart(w.runs) && HoldTokens(w.runs, w.clock)
    && Artifacts(cfg, w.db.tasks, w.db.artifacts, w.storage)
    && Untouchable(w.db.tasks, w.db.artifacts, w.runs) && UploadsStored(cfg, w.storage, w.runs)
  }

  // ---------------------------------------------------------------------------------------------
  // Rows move forward

  /** Every row is still there, in the same or a later state. */
  ghost predicate Onward(ts: TaskRows, ts': TaskRows) {
    forall id :: id in ts ==> id in ts' && Later(ts[id], ts'[id])
  }

  /** No rows appear, and no row gains a lease. */
  ghost predicate Calmed(ts: TaskRows, ts': TaskRows) {
    && ts'.Keys == ts.Keys
    && forall id :: id in ts ==> ts'[id] == ts[id] || (SameTask(ts[id], ts'[id]) && !ts'[id].status.Running? && !Terminal(ts[id].status))
  }

  /** Rows with an artifact are old rows. */
  ghost predicate Plain(ts: TaskRows, ts': TaskRows) {
    forall id :: id in ts' && HasArtifact(ts'[id]) ==> id in ts && ts'[id] == ts[id]
  }

  lemma AppliedIsLater(t: Task, e: Event)
    requires Sound(t) && Apply(t, e).Next?
    ensures Sound(Apply(t, e).task) && Later(t, Apply(t, e).task) && !Terminal(t.status)
  {
    StepKeepsSound(t, e);
  }

  lemma OnwardKeepsRuns(ts: TaskRows, ts': TaskRows, runs: Runs)
    requires RunsTrack(ts, runs) && Onward(ts, ts')
    ensures RunsTrack(ts', runs)
  {
    forall r | r in runs ensures Tracks(ts', runs[r].snap) {
      assert Tracks(ts, runs[r].snap);
    }
  }

  lemma OnwardKeepsKeys(ts: TaskRows, ts': TaskRows, keys: map<CreateKey, KeyRow>)
    requires KeysOk(ts, keys) && Onward(ts, ts')
    ensures KeysOk(ts', keys)
  {
  }

  lemma CalmKeepsCaps(cfg: Config, clock: Time, ts: TaskRows, ts': TaskRows)
    requires Calmed(ts, ts') && Capped(cfg, clock, ts)
    ensures Capped(cfg, clock, ts')
  {
    forall tenant
      ensures |Active(ts', tenant, clock)| <= cfg.maxRunning && |Open(ts', tenant)| <= cfg.maxQueued
    {
      SubsetSize(Active(ts', tenant, clock), Active(ts, tenant, clock));
      SubsetSize(Open(ts', tenant), Open(ts, tenant));
    }
  }

  lemma TickKeepsCaps(cfg: Config, ts: TaskRows, clock: Time, clock': Time)
    requires clock <= clock' && Capped(cfg, clock, ts)
    ensures Capped(cfg, clock', ts)
  {
    forall tenant ensures |Active(ts, tenant, clock')| <= cfg.maxRunning {
      SubsetSize(Active(ts, tenant, clock'), Active(ts, tenant, clock));
    }
  }

  // ---------------------------------------------------------------------------------------------
  // Claims with a stale clock

  lemma SweepCalms(ts: TaskRows, ids: set<string>, now: Time)
    requires RowsOk(ts)
    ensures var ts' := SweepSome(ts, ids, now);
            RowsOk(ts') && Onward(ts, ts') && Calmed(ts, ts') && Plain(ts, ts')
  {
    var ts' := SweepSome(ts, ids, now);
    forall id | id in ts
      ensures Sound(ts'[id]) && Later(ts[id], ts'[id])
      ensures ts'[id] == ts[id] || (!ts'[id].status.Running? && !HasArtifact(ts'[id]) && !Terminal(ts[id].status))
    {
      if ts'[id] != ts[id] {
        SweepRefines(ts[id], now);
        AppliedIsLater(ts[id], Fail(now, TaskExecutionFailed));
      }
    }
  }

  /** The row as a claim leaves it: running, on its next attempt. */
  ghost predicate NewlyClaimed(t: Task, row: Task) {
    && Sound(row) && Later(t, row) && row.status.Running? && !HasArtifact(row)
    && row.attemptCount == t.attemptCount + 1 && !Terminal(t.status)
  }

  lemma ClaimedIsLater(ts: TaskRows, id: string, now: Time, token: string, ttl: nat)
    requires RowsOk(ts) && id in ts && Apply(ts[id], ClaimEvent(ts[id], now, token, ttl)).Next?
    ensures var row := ClaimedRow(ts, id, now, token, ttl);
            NewlyClaimed(ts[id], row) && row.claimToken == Some(token) && row.updatedAt == now
  {
    ClaimRefines(ts[id], now, token, ttl);
    StepKeepsSound(ts[id], ClaimEvent(ts[id], now, token, ttl));
  }

  /**
   * The heart of lease exclusion: the guards looked at leases open at a clock value no later than the
   * current one, so every lease open now was visible to them.
   */
  lemma ClaimKeepsLeases(cfg: Config, ts: TaskRows, id: string, row: Task, now: Time, clock: Time)
    requires Exclusive(ts, clock) && TenantsCapped(cfg, ts, clock)
    requires Candidate(ts, id, now, cfg.maxRunning) && now <= clock && SameTask(ts[id], row)
    ensures Exclusive(ts[id := row], clock) && TenantsCapped(cfg, ts[id := row], clock)
  {
    var ts' := ts[id := row];
    assert forall o :: o in ts && o != id && SameSession(ts[id], ts[o]) ==> !Leased(ts[o], now);
    forall tenant ensures |Active(ts', tenant, clock)| <= cfg.maxRunning {
      if tenant == row.tenant {
        SubsetSize(Active(ts', tenant, clock), Active(ts, tenant, now) + {id});
      } else {
        SubsetSize(Active(ts', tenant, clock), Active(ts, tenant, clock));
      }
    }
  }

  lemma ClaimKeepsQueues(cfg: Config, ts: TaskRows, id: string, row: Task)
    requires QueuesCapped(cfg, ts) && id in ts && SameTask(ts[id], row) && !Terminal(ts[id].status)
    ensures QueuesCapped(cfg, ts[id := row])
  {
    var ts' := ts[id := row];
    forall tenant ensures |Open(ts', tenant)| <= cfg.maxQueued {
      SubsetSize(Open(ts', tenant), Open(ts, tenant));
    }
  }

  lemma ClaimIsOnward(ts: TaskRows, id: string, row: Task)
    requires RowsOk(ts) && id in ts && NewlyClaimed(ts[id], row)
    ensures RowsOk(ts[id := row]) && Onward(ts, ts[id := row]) && Plain(ts, ts[id := row])
  {
  }

  /** A fresh claim raises the attempt counter above every snapshot of the row. */
  lemma ClaimStaysApart(ts: TaskRows, runs: Runs, run: nat, row: Task, token: string)
    requires RunsTrack(ts, runs) && RunsApart(runs) && run !in runs && row.id in ts
    requires row.attemptCount == ts[row.id].attemptCount + 1
    ensures RunsApart(runs[run := Executing(row, token)])
  {
    forall r | r in runs && runs[r].snap.id == row.id ensures runs[r].snap.attemptCount < row.attemptCount {
      assert Tracks(ts, runs[r].snap);
    }
  }

  // ---------------------------------------------------------------------------------------------
  // Artifacts

  /** Rows without artifacts may move: recorded artifacts and their objects are not concerned. */
  lemma PlainKeepsArtifacts(cfg: Config, ts: TaskRows, ts': TaskRows, arts: ArtifactRows, storage: Objects)
    requires RowsOk(ts) && Onward(ts, ts') && Plain(ts, ts')
    requires Artifacts(cfg, ts, arts, storage)
    ensures Artifacts(cfg, ts', arts, storage)
  {
    forall id | id in arts ensures id in ts' && ts'[id] == ts[id] {
      assert Sound(ts[id]) && Terminal(ts[id].status);
    }
  }

  lemma OnwardKeepsUntouchable(ts: TaskRows, ts': TaskRows, arts: ArtifactRows, runs: Runs)
    requires Onward(ts, ts') && Untouchable(ts, arts, runs)
    ensures Untouchable(ts', arts, runs)
  {
  }

  /** A run that may still touch its object shares the key with no artifact. */
  lemma TouchMissesArtifacts(cfg: Config, ts: TaskRows, arts: ArtifactRows, storage: Objects, runs: Runs, r: nat)
    requires Artifacts(cfg, ts, arts, storage) && Untouchable(ts, arts, runs) && RowsOk(ts)
    requires r in runs && MayTouch(runs[r]) && Formatted(runs[r].snap)
    ensures forall id :: id in arts ==> arts[id].storageKey != KeyOf(cfg, runs[r].snap, runs[r].token)
  {
    var s := runs[r].snap;
    forall id | id in arts ensures arts[id].storageKey != KeyOf(cfg, s, runs[r].token) {
      var t := ts[id];
      var token :| arts[id].storageKey == KeyOf(cfg, t, token);
      if KeyOf(cfg, t, token) == KeyOf(cfg, s, runs[r].token) {
        KeysAreInjective(t.tenant, t.id, t.attemptCount, cfg.tag(token), s.tenant, s.id, s.attemptCount, cfg.tag(runs[r].token));
      }
    }
  }

  /** Nor with any other run. */
  lemma TouchMissesRuns(cfg: Config, runs: Runs, r: nat, q: nat)
    requires RunsApart(runs) && r in runs && q in runs && q != r && Formatted(runs[r].snap) && Formatted(runs[q].snap)
    ensures KeyOf(cfg, runs[q].snap, runs[q].token) != KeyOf(cfg, runs[r].snap, runs[r].token)
  {
    var s, t := runs[r].snap, runs[q].snap;
    if KeyOf(cfg, t, runs[q].token) == KeyOf(cfg, s, runs[r].token) {
      KeysAreInjective(t.tenant, t.id, t.attemptCount, cfg.tag(runs[q].token),
                       s.tenant, s.id, s.attemptCount, cfg.tag(runs[r].token));
    }
  }

  /** Only the object under this key may differ. */
  ghost predicate OnlyKey(key: string, a: Objects, b: Objects) {
    forall k :: k != key ==> (k in b <==> k in a) && (k in a ==> b[k] == a[k])
  }

  lemma TouchKeepsArtifacts(cfg: Config, ts: TaskRows, arts: ArtifactRows, storage: Objects, runs: Runs, r: nat,
                            storage': Objects)
    requires Artifacts(cfg, ts, arts, storage) && Untouchable(ts, arts, runs) && RowsOk(ts)
    requires r in runs && MayTouch(runs[r]) && Formatted(runs[r].snap)
    requires OnlyKey(KeyOf(cfg, runs[r].snap, runs[r].token), storage, storage')
    ensures Artifacts(cfg, ts, arts, storage')
  {
    TouchMissesArtifacts(cfg, ts, arts, storage, runs, r);
  }

  lemma TouchKeepsUploads(cfg: Config, storage: Objects, runs: Runs, r: nat, p': Phase, storage': Objects)
    requires UploadsStored(cfg, storage, runs) && RunsApart(runs)
    requires r in runs && Formatted(runs[r].snap)
    requires OnlyKey(KeyOf(cfg, runs[r].snap, runs[r].token), storage, storage') && UploadStored(cfg, p', storage')
    ensures UploadsStored(cfg, storage', runs[r := p'])
  {
    forall q | q in runs && q != r ensures UploadStored(cfg, runs[q], storage') {
      if Formatted(runs[q].snap) {
        TouchMissesRuns(cfg, runs, r, q);
      }
    }
  }

  /** The run keeps its snapshot and gains no right to touch storage. */
  ghost predicate Settles(p: Phase, p': Phase) {
    p'.snap == p.snap && p'.token == p.token && (MayTouch(p') ==> MayTouch(p)) && !p'.Uploaded?
  }

  lemma MoveKeepsRuns(ts: TaskRows, arts: ArtifactRows, runs: Runs, r: nat, p': Phase)
    requires RunsTrack(ts, runs) && RunsApart(runs) && Untouchable(ts, arts, runs)
    requires r in runs && p'.snap == runs[r].snap && (MayTouch(p') ==> MayTouch(runs[r]))
    ensures RunsTrack(ts, runs[r := p']) && RunsApart(runs[r := p']) && Untouchable(ts, arts, runs[r := p'])
  {
  }

  // ---------------------------------------------------------------------------------------------
  // Every step keeps the invariant

  /** Rows may settle while runs stay as they are. */
  lemma QuietStepKeepsInv(cfg: Config, w: World, ts': TaskRows)
    requires Inv(cfg, w) && RowsOk(ts')
    requires Onward(w.db.tasks, ts') && Calmed(w.db.tasks, ts') && Plain(w.db.tasks, ts')
    ensures Inv(cfg, w.(db := w.db.(tasks := ts')))
  {
    CalmKeepsCaps(cfg, w.clock, w.db.tasks, ts');
    OnwardKeepsKeys(w.db.tasks, ts', w.db.keys);
    OnwardKeepsRuns(w.db.tasks, ts', w.runs);
    PlainKeepsArtifacts(cfg, w.db.tasks, ts', w.db.artifacts, w.storage);
    OnwardKeepsUntouchable(w.db.tasks, ts', w.db.artifacts, w.runs);
  }

  /** A run may move to a quieter phase. */
  lemma MoveKeepsInv(cfg: Config, w: World, r: nat, p': Phase)
    requires Inv(cfg, w) && r in w.runs && Settles(w.runs[r], p')
    ensures Inv(cfg, w.(runs := w.runs[r := p']))
  {
    MoveKeepsRuns(w.db.tasks, w.db.artifacts, w.runs, r, p');
  }

  /** A run that may touch its object writes or deletes it and may change phase. */
  lemma TouchKeepsInv(cfg: Config, w: World, r: nat, p': Phase, storage': Objects)
    requires Inv(cfg, w) && r in w.runs && MayTouch(w.runs[r]) && Formatted(w.runs[r].snap)
    requires p'.snap == w.runs[r].snap && p'.token == w.runs[r].token && UploadStored(cfg, p', storage')
    requires OnlyKey(KeyOf(cfg, w.runs[r].snap, w.runs[r].token), w.storage, storage')
    ensures Inv(cfg, w.(storage := storage', runs := w.runs[r := p']))
  {
    TouchKeepsArtifacts(cfg, w.db.tasks, w.db.artifacts, w.storage, w.runs, r, storage');
    TouchKeepsUploads(cfg, w.storage, w.runs, r, p', storage');
    MoveKeepsRuns(w.db.tasks, w.db.artifacts, w.runs, r, p');
  }

  /** One row may be replaced by a later one that holds no lease and no artifact. */
  lemma ReplaceCalms(ts: TaskRows, id: string, row: Task)
    requires RowsOk(ts) && id in ts && Sound(row) && Later(ts[id], row)
    requires !row.status.Running? && !HasArtifact(row) && !Terminal(ts[id].status)
    ensures var ts' := ts[id := row];
            RowsOk(ts') && Onward(ts, ts') && Calmed(ts, ts') && Plain(ts, ts')
  {
  }

  /** What a command other than recording an artifact makes of a row. */
  lemma CommandEndsLease(t: Task, c: Command, at: Time)
    requires Sound(t) && (c.DoSucceed? ==> c.result.ExtractResult?)
    requires Persisted(c, at).Some? && Apply(t, Persisted(c, at).value).Next?
    ensures var row := Apply(t, Persisted(c, at).value).task;
            Sound(row) && Later(t, row) && !row.status.Running? && !HasArtifact(row) && !Terminal(t.status)
  {
    StepKeepsSound(t, Persisted(c, at).value);
  }

  /** A committed transition that records no artifact ends a lease or leaves one row waiting. */
  lemma TransitionCalms(db: Tables, id: string, expected: nat, token: Option<string>, c: Command, at: Time)
    requires RowsOk(db.tasks) && Transition(db, id, expected, token, c, at).Committed?
    requires c.DoSucceed? ==> c.result.ExtractResult?
    ensures var db' := Transition(db, id, expected, token, c, at).db;
            && db' == db.(tasks := db'.tasks) && RowsOk(db'.tasks)
            && Onward(db.tasks, db'.tasks) && Calmed(db.tasks, db'.tasks) && Plain(db.tasks, db'.tasks)
  {
    TransitionRefines(db, id, expected, token, c, at);
    CommandEndsLease(db.tasks[id], c, at);
    ReplaceCalms(db.tasks, id, Transition(db, id, expected, token, c, at).row);
  }

  lemma TransitionKeepsInv(cfg: Config, w: World, id: string, expected: nat, token: Option<string>, c: Command, at: Time,
                           fault: Fault)
    requires Inv(cfg, w) && (c.DoSucceed? ==> c.result.ExtractResult?)
    ensures Inv(cfg, w.(db := Settled(w.db, Transition(w.db, id, expected, token, c, at), fault)))
  {
    var reply := Transition(w.db, id, expected, token, c, at);
    if reply.Committed? && !fault.DroppedBefore? {
      TransitionCalms(w.db, id, expected, token, c, at);
      QuietStepKeepsInv(cfg, w, reply.db.tasks);
    }
  }

  lemma CommitKeepsInv(cfg: Config, w: World, run: nat, c: Command, at: Time, fault: Fault, p': Phase)
    requires Inv(cfg, w) && run in w.runs && (c.DoSucceed? ==> c.result.ExtractResult?) && Settles(w.runs[run], p')
    ensures Inv(cfg, Commit(w, run, c, at, fault, p'))
  {
    var p := w.runs[run];
    TransitionKeepsInv(cfg, w, p.snap.id, p.snap.version, Some(p.token), c, at, fault);
    var db' := Settled(w.db, Transition(w.db, p.snap.id, p.snap.version, Some(p.token), c, at), fault);
    MoveKeepsInv(cfg, w.(db := db'), run, p');
  }

  lemma UnackedClaimKeepsInv(cfg: Config, w: World, id: string, row: Task, now: Time)
    requires Inv(cfg, w) && now <= w.clock
    requires Candidate(w.db.tasks, id, now, cfg.maxRunning) && NewlyClaimed(w.db.tasks[id], row)
    ensures Inv(cfg, w.(db := w.db.(tasks := w.db.tasks[id := row])))
  {
    var ts, ts' := w.db.tasks, w.db.tasks[id := row];
    ClaimIsOnward(ts, id, row);
    ClaimKeepsLeases(cfg, ts, id, row, now, w.clock);
    ClaimKeepsQueues(cfg, ts, id, row);
    OnwardKeepsKeys(ts, ts', w.db.keys);
    OnwardKeepsRuns(ts, ts', w.runs);
    PlainKeepsArtifacts(cfg, ts, ts', w.db.artifacts, w.storage);
    OnwardKeepsUntouchable(ts, ts', w.db.artifacts, w.runs);
  }

  /** The claim's reply arrives: a run starts with the row as its snapshot. */
  lemma AckKeepsInv(cfg: Config, w: World, run: nat, row: Task, token: string)
    requires Inv(cfg, w) && run !in w.runs && row.id in w.db.tasks && w.db.tasks[row.id] == row
    requires row.claimToken == Some(token) && row.updatedAt <= w.clock
    requires Sound(row) && row.status.Running? && !HasArtifact(row) && RunsApart(w.runs[run := Executing(row, token)])
    ensures Inv(cfg, w.(runs := w.runs[run := Executing(row, token)]))
  {
    var runs' := w.runs[run := Executing(row, token)];
    assert RunsTrack(w.db.tasks, runs') && UploadsStored(cfg, w.storage, runs');
    assert Untouchable(w.db.tasks, w.db.artifacts, runs');
  }

  lemma ClaimOneKeepsInv(cfg: Config, w: World, c: ClaimCall, id: string, row: Task)
    requires Inv(cfg, w) && c.now <= w.clock && c.run !in w.runs
    requires Candidate(w.db.tasks, id, c.now, cfg.maxRunning) && NewlyClaimed(w.db.tasks[id], row)
    requires row.claimToken == Some(c.token) && row.updatedAt == c.now
    ensures Inv(cfg, AfterClaim(w, c, id, row))
  {
    UnackedClaimKeepsInv(cfg, w, id, row, c.now);
    if c.acked {
      ClaimStaysApart(w.db.tasks, w.runs, c.run, row, c.token);
      AckKeepsInv(cfg, w.(db := w.db.(tasks := w.db.tasks[id := row])), c.run, row, c.token);
    }
  }

  lemma ClaimKeepsInv(cfg: Config, w: World, c: ClaimCall)
    requires Inv(cfg, w)
    ensures Inv(cfg, DoClaim(cfg, w, c))
  {
    if c.now <= w.clock && c.run !in w.runs {
      var ts := SweepSome(w.db.tasks, c.sweep, c.now);
      SweepCalms(w.db.tasks, c.sweep, c.now);
      QuietStepKeepsInv(cfg, w, ts);
      if c.pick.Some? && MayClaim(cfg, ts, c.pick.value, c.now, c.token, c.ttl) {
        ClaimedIsLater(ts, c.pick.value, c.now, c.token, c.ttl);
        ClaimOneKeepsInv(cfg, w.(db := w.db.(tasks := ts)), c, c.pick.value,
                         ClaimedRow(ts, c.pick.value, c.now, c.token, c.ttl));
      }
    }
  }

  /** The tables gain the row's success and its artifact, and nothing else. */
  ghost predicate Recorded(db: Tables, db': Tables, s: Task, row: Task, a: ArtifactRow) {
    && s.id in db.tasks && db.tasks[s.id] == s && s.id !in db.artifacts
    && Sound(s) && Sound(row) && Later(s, row) && !Terminal(s.status) && row.status.Succeeded?
    && row.attemptCount == s.attemptCount && HasArtifact(row)
    && row.result == Some(ArtifactResult(s.kind, Public(a)))
    && db' == db.(tasks := db.tasks[s.id := row], artifacts := db.artifacts[s.id := a])
  }

  /** A committed completion: the snapshot was the row, and the artifact describes the uploaded bytes. */
  lemma CompletionRecords(cfg: Config, w: World, run: nat, at: Time)
    requires Inv(cfg, w) && run in w.runs && w.runs[run].Uploaded? && Formatted(w.runs[run].snap)
    requires CompleteReply(cfg, w, run, at).Committed?
    ensures var p, reply := w.runs[run], CompleteReply(cfg, w, run, at);
            Recorded(w.db, reply.db, p.snap, reply.row,
                     ArtifactOf(p.snap, DraftOf(cfg, p.snap, p.token, p.bytes), at, cfg.retention))
  {
    var p := w.runs[run];
    assert Tracks(w.db.tasks, p.snap);
    var d := DraftOf(cfg, p.snap, p.token, p.bytes);
    CompleteRefines(w.db, p.snap, p.token, d, cfg.retention, at);
    StepKeepsSound(p.snap, Succeed(at, ArtifactResult(p.snap.kind, Public(ArtifactOf(p.snap, d, at, cfg.retention)))));
  }

  lemma RecordKeepsArtifacts(cfg: Config, db: Tables, db': Tables, storage: Objects, p: Phase, row: Task, a: ArtifactRow)
    requires Artifacts(cfg, db.tasks, db.artifacts, storage) && Formatted(p.snap)
    requires Recorded(db, db', p.snap, row, a) && p.Uploaded? && UploadStored(cfg, p, storage)
    requires a.task == p.snap.id && a.tenant == p.snap.tenant && a.session == p.snap.session
    requires a.storageKey == KeyOf(cfg, p.snap, p.token) && a.sha256 == cfg.digest(p.bytes) && a.byteSize == |p.bytes|
    ensures Artifacts(cfg, db'.tasks, db'.artifacts, storage)
  {
    assert a.storageKey == KeyOf(cfg, row, p.token);
    assert ArtifactMatches(cfg, row, a, storage);
  }

  /** Whoever else works on the task holds an older attempt, and the winner is done with its object. */
  lemma RecordKeepsUntouchable(db: Tables, db': Tables, runs: Runs, run: nat, row: Task, a: ArtifactRow, p': Phase)
    requires RunsTrack(db.tasks, runs) && RunsApart(runs) && Untouchable(db.tasks, db.artifacts, runs) && run in runs
    requires Recorded(db, db', runs[run].snap, row, a) && p'.snap == runs[run].snap && !MayTouch(p')
    ensures Untouchable(db'.tasks, db'.artifacts, runs[run := p'])
  {
    var s, runs' := runs[run].snap, runs[run := p'];
    forall r | r in runs' && MayTouch(runs'[r]) && runs'[r].snap.id in db'.artifacts
      ensures runs'[r].snap.attemptCount < db'.tasks[runs'[r].snap.id].attemptCount
    {
      assert r != run && Tracks(db.tasks, runs[r].snap);
    }
  }

  lemma RecordIsOnward(db: Tables, db': Tables, s: Task, row: Task, a: ArtifactRow)
    requires RowsOk(db.tasks) && Recorded(db, db', s, row, a)
    ensures RowsOk(db'.tasks) && Onward(db.tasks, db'.tasks) && Calmed(db.tasks, db'.tasks)
  {
  }

  lemma CompletionKeepsInv(cfg: Config, w: World, run: nat, at: Time, p': Phase)
    requires Inv(cfg, w) && run in w.runs && w.runs[run].Uploaded? && Formatted(w.runs[run].snap)
    requires CompleteReply(cfg, w, run, at).Committed?
    requires p'.snap == w.runs[run].snap && p'.token == w.runs[run].token && !MayTouch(p') && !p'.Uploaded?
    ensures Inv(cfg, w.(db := CompleteReply(cfg, w, run, at).db, runs := w.runs[run := p']))
  {
    var p, reply := w.runs[run], CompleteReply(cfg, w, run, at);
    var a := ArtifactOf(p.snap, DraftOf(cfg, p.snap, p.token, p.bytes), at, cfg.retention);
    CompletionRecords(cfg, w, run, at);
    RecordKeepsInv(cfg, w, reply.db, run, reply.row, a, p');
  }

  lemma DoneKeepsUploads(cfg: Config, storage: Objects, runs: Runs, clock: Time, run: nat, p': Phase)
    requires UploadsStored(cfg, storage, runs) && HoldTokens(runs, clock) && run in runs
    requires p'.snap == runs[run].snap && p'.token == runs[run].token && !p'.Uploaded?
    ensures UploadsStored(cfg, storage, runs[run := p']) && HoldTokens(runs[run := p'], clock)
  {
  }

  lemma RecordKeepsInv(cfg: Config, w: World, db': Tables, run: nat, row: Task, a: ArtifactRow, p': Phase)
    requires Inv(cfg, w) && run in w.runs && w.runs[run].Uploaded? && Formatted(w.runs[run].snap)
    requires Recorded(w.db, db', w.runs[run].snap, row, a)
    requires var p := w.runs[run];
             && a.task == p.snap.id && a.tenant == p.snap.tenant && a.session == p.snap.session
             && a.storageKey == KeyOf(cfg, p.snap, p.token) && a.sha256 == cfg.digest(p.bytes) && a.byteSize == |p.bytes|
    requires p'.snap == w.runs[run].snap && p'.token == w.runs[run].token && !MayTouch(p') && !p'.Uploaded?
    ensures Inv(cfg, w.(db := db', runs := w.runs[run := p']))
  {
    var ts, ts' := w.db.tasks, db'.tasks;
    RecordIsOnward(w.db, db', w.runs[run].snap, row, a);
    CalmKeepsCaps(cfg, w.clock, ts, ts');
    OnwardKeepsKeys(ts, ts', w.db.keys);
    MoveKeepsRuns(ts, w.db.artifacts, w.runs, run, p');
    OnwardKeepsRuns(ts, ts', w.runs[run := p']);
    RecordKeepsArtifacts(cfg, w.db, db', w.storage, w.runs[run], row, a);
    RecordKeepsUntouchable(w.db, db', w.runs, run, row, a, p');
    DoneKeepsUploads(cfg, w.storage, w.runs, w.clock, run, p');
  }

  lemma CompleteKeepsInv(cfg: Config, w: World, run: nat, at: Time, fault: Fault)
    requires Inv(cfg, w) && run in w.runs && w.runs[run].Uploaded? && Formatted(w.runs[run].snap)
    ensures Inv(cfg, DoComplete(cfg, w, run, at, fault))
  {
    var reply, w' := CompleteReply(cfg, w, run, at), DoComplete(cfg, w, run, at, fault);
    if reply.Committed? && !fault.DroppedBefore? {
      CompletionKeepsInv(cfg, w, run, at, w'.runs[run]);
    } else {
      MoveKeepsInv(cfg, w, run, w'.runs[run]);
    }
  }

  /** Inserting a queued row leaves leases alone and adds one open row for its tenant. */
  lemma InsertKeepsLeases(cfg: Config, ts: TaskRows, task: Task, clock: Time)
    requires Exclusive(ts, clock) && TenantsCapped(cfg, ts, clock)
    requires task.id !in ts && task.status.Queued?
    ensures Exclusive(ts[task.id := task], clock) && TenantsCapped(cfg, ts[task.id := task], clock)
  {
    var ts' := ts[task.id := task];
    forall tenant ensures |Active(ts', tenant, clock)| <= cfg.maxRunning {
      assert Active(ts', tenant, clock) == Active(ts, tenant, clock);
    }
  }

  lemma InsertKeepsQueues(cfg: Config, ts: TaskRows, task: Task)
    requires QueuesCapped(cfg, ts) && task.id !in ts && |Open(ts, task.tenant)| < cfg.maxQueued
    ensures QueuesCapped(cfg, ts[task.id := task])
  {
    var ts' := ts[task.id := task];
    forall tenant ensures |Open(ts', tenant)| <= cfg.maxQueued {
      if tenant == task.tenant {
        SubsetSize(Open(ts', tenant), Open(ts, tenant) + {task.id});
      } else {
        SubsetSize(Open(ts', tenant), Open(ts, tenant));
      }
    }
  }

  lemma InsertIsOnward(ts: TaskRows, task: Task)
    requires RowsOk(ts) && task.id !in ts && Fresh(task) && Formatted(task)
    ensures RowsOk(ts[task.id := task]) && Onward(ts, ts[task.id := task]) && Plain(ts, ts[task.id := task])
  {
  }

  lemma InsertKeepsKeys(ts: TaskRows, keys: map<CreateKey, KeyRow>, key: CreateKey, hash: string, task: Task)
    requires KeysOk(ts, keys) && key !in keys && task.id !in ts
    requires task.tenant == key.tenant && task.session == key.session
    ensures KeysOk(ts[task.id := task], keys[key := KeyRow(hash, task.id)])
  {
  }

  lemma InsertKeepsInv(cfg: Config, w: World, key: CreateKey, hash: string, task: Task)
    requires Inv(cfg, w) && task.id !in w.db.tasks && key !in w.db.keys && Fresh(task) && Formatted(task)
    requires task.tenant == key.tenant && task.session == key.session && |Open(w.db.tasks, task.tenant)| < cfg.maxQueued
    ensures Inv(cfg, w.(db := w.db.(tasks := w.db.tasks[task.id := task], keys := w.db.keys[key := KeyRow(hash, task.id)])))
  {
    var ts, ts' := w.db.tasks, w.db.tasks[task.id := task];
    InsertIsOnward(ts, task);
    InsertKeepsLeases(cfg, ts, task, w.clock);
    InsertKeepsQueues(cfg, ts, task);
    InsertKeepsKeys(ts, w.db.keys, key, hash, task);
    OnwardKeepsRuns(ts, ts', w.runs);
    PlainKeepsArtifacts(cfg, ts, ts', w.db.artifacts, w.storage);
    OnwardKeepsUntouchable(ts, ts', w.db.artifacts, w.runs);
  }

  /** What a successful creation inserted. */
  lemma CreatedShape(db: Tables, key: CreateKey, hash: string, draft: Task, view: Option<SessionView>,
                     maxQueued: nat, maxPerMinute: nat, at: Time)
    ensures var (db', reply) := Create(db, key, hash, draft, view, maxQueued, maxPerMinute, at);
            if reply.Created? then
              var task := reply.task;
              && task == draft.(createdAt := at, updatedAt := at) && task.id !in db.tasks && key !in db.keys
              && task.tenant == key.tenant && task.session == key.session && |Open(db.tasks, task.tenant)| < maxQueued
              && db' == db.(tasks := db.tasks[task.id := task], keys := db.keys[key := KeyRow(hash, task.id)])
            else db' == db
  {
  }

  lemma CreateKeepsInv(cfg: Config, w: World, key: CreateKey, hash: string, draft: Task, view: Option<SessionView>, at: Time)
    requires Inv(cfg, w) && Fresh(draft) && Formatted(draft)
    ensures Inv(cfg, w.(db := Create(w.db, key, hash, draft, view, cfg.maxQueued, cfg.maxPerMinute, at).0))
  {
    CreatedShape(w.db, key, hash, draft, view, cfg.maxQueued, cfg.maxPerMinute, at);
    var reply := Create(w.db, key, hash, draft, view, cfg.maxQueued, cfg.maxPerMinute, at).1;
    if reply.Created? {
      InsertKeepsInv(cfg, w, key, hash, reply.task);
    }
  }

  lemma UploadKeepsInv(cfg: Config, w: World, run: nat, bytes: Bytes, put: Put)
    requires Inv(cfg, w) && run in w.runs && w.runs[run].Executing? && Formatted(w.runs[run].snap)
    ensures Inv(cfg, DoUpload(cfg, w, run, bytes, put))
  {
    var w' := DoUpload(cfg, w, run, bytes, put);
    TouchKeepsInv(cfg, w, run, w'.runs[run], w'.storage);
  }

  lemma RewriteKeepsInv(cfg: Config, w: World, run: nat, storage': Objects)
    requires Inv(cfg, w) && run in w.runs && Formatted(w.runs[run].snap)
    requires MayTouch(w.runs[run]) && !w.runs[run].Uploaded?
    requires OnlyKey(KeyOf(cfg, w.runs[run].snap, w.runs[run].token), w.storage, storage')
    ensures Inv(cfg, w.(storage := storage'))
  {
    TouchKeepsInv(cfg, w, run, w.runs[run], storage');
    assert w.runs[run := w.runs[run]] == w.runs;
  }

  lemma ExtractKeepsInv(cfg: Config, w: World, run: nat, result: TaskResult, at: Time, fault: Fault)
    requires Inv(cfg, w) && run in w.runs && w.runs[run].Executing? && result.ExtractResult?
    ensures Inv(cfg, DoExtract(w, run, result, at, fault))
  {
    CommitKeepsInv(cfg, w, run, DoSucceed(result), at, fault, DoExtract(w, run, result, at, fault).runs[run]);
  }

  lemma ReportKeepsInv(cfg: Config, w: World, run: nat, retryable: bool, code: FailureCode, at: Time, fault: Fault)
    requires Inv(cfg, w) && run in w.runs && w.runs[run].Failing?
    ensures Inv(cfg, DoReport(w, run, retryable, code, at, fault))
  {
    var p := w.runs[run];
    CommitKeepsInv(cfg, w, run, FailureCommand(p.snap, retryable, code), at, fault, Ended(p.snap, p.token, p.late));
  }

  lemma WorkKeepsInv(cfg: Config, w: World, run: nat, op: Op)
    requires Inv(cfg, w) && run in w.runs && Formatted(w.runs[run].snap)
    ensures Inv(cfg, DoWork(cfg, w, run, op))
  {
    var p := w.runs[run];
    if DoWork(cfg, w, run, op) != w {
      match op
      case ExecutionFails => MoveKeepsInv(cfg, w, run, Failing(p.snap, p.token, None));
      case ExtractDone(result, at, fault) => ExtractKeepsInv(cfg, w, run, result, at, fault);
      case Upload(bytes, put) => UploadKeepsInv(cfg, w, run, bytes, put);
      case CompleteTask(at, fault) => CompleteKeepsInv(cfg, w, run, at, fault);
      case LateWrite => RewriteKeepsInv(cfg, w, run, w.storage[KeyOf(cfg, p.snap, p.token) := p.late.value]);
      case DeleteObject => RewriteKeepsInv(cfg, w, run, w.storage - {KeyOf(cfg, p.snap, p.token)});
      case ReportFailure(retryable, code, at, fault) => ReportKeepsInv(cfg, w, run, retryable, code, at, fault);
    }
  }

  lemma StepKeepsInv(cfg: Config, w: World, a: Action)
    requires Inv(cfg, w)
    ensures Inv(cfg, Do(cfg, w, a))
  {
    if Do(cfg, w, a) != w {
      match a
      case Tick(to) => TickKeepsCaps(cfg, w.db.tasks, w.clock, to);
      case CreateTask(key, hash, draft, view, at) => CreateKeepsInv(cfg, w, key, hash, draft, view, at);
      case ClaimTask(call) => ClaimKeepsInv(cfg, w, call);
      case CancelTask(id, expected, at) => TransitionKeepsInv(cfg, w, id, expected, None, DoCancel, at, Clean);
      case Work(run, op) => WorkKeepsInv(cfg, w, run, op);
    }
  }

  lemma {:induction false} RunKeepsInv(cfg: Config, acts: seq<Action>)
    ensures Inv(cfg, Reached(cfg, acts))
  {
    if acts == [] {
      var w := Reached(cfg, acts);
      assert forall tenant :: Active(w.db.tasks, tenant, 0) == {} && Open(w.db.tasks, tenant) == {};
    } else {
      RunKeepsInv(cfg, acts[..|acts| - 1]);
      StepKeepsInv(cfg, Reached(cfg, acts[..|acts| - 1]), acts[|acts| - 1]);
    }
  }
}
