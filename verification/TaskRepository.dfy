/** The task repository as the source writes it: transactions that rewrite rows in place. */
module TaskRepository {
  import opened Prelude
  import opened TaskState
  import opened TaskTables
  import opened TaskClaims
  import TextOrder

  /** Version and token fit, the command is well-formed, and the machine accepts it. */
  predicate Accepted(t: Task, expected: nat, token: Option<string>, c: Command, at: Time) {
    && t.version == expected && (token.Some? ==> t.claimToken == token)
    && Persisted(c, at).Some? && Apply(t, Persisted(c, at).value).Next?
  }

  /** A new key for a live session, room in both quotas, and a task that can be stored. */
  predicate Admissible(db: Tables, key: CreateKey, draft: Task, view: Option<SessionView>, maxQueued: nat, maxPerMinute: nat,
                       now: Time)
  {
    && key !in db.keys
    && view.Some? && view.value.active && view.value.expiresAt.Some? && now < view.value.expiresAt.value
    && |Open(db.tasks, key.tenant)| < maxQueued && |Recent(db.tasks, key.tenant, now)| < maxPerMinute
    && draft.id !in db.tasks && draft.tenant == key.tenant && draft.session == key.session
    && SchemaValid(draft.(createdAt := now, updatedAt := now))
  }

  lemma InsertCounts(ts: TaskRows, task: Task, tenant: string, now: Time)
    requires task.id !in ts
    ensures var ts' := ts[task.id := task];
            && |Open(ts', tenant)| <= |Open(ts, tenant)| + 1
            && |Recent(ts', tenant, now)| <= |Recent(ts, tenant, now)| + 1
  {
    var ts' := ts[task.id := task];
    SubsetSize(Open(ts', tenant), Open(ts, tenant) + {task.id});
    SubsetSize(Recent(ts', tenant, now), Recent(ts, tenant, now) + {task.id});
  }

  /** A candidate, of one tenant when one is given, that no other transaction holds. */
  predicate Eligible(ts: TaskRows, id: string, tenant: Option<string>, locked: set<string>, now: Time, maxRunning: nat) {
    Candidate(ts, id, now, maxRunning) && (tenant.Some? ==> ts[id].tenant == tenant.value) && id !in locked
  }

  /** Comes before everything else that is eligible. */
  ghost predicate Leads(ts: TaskRows, id: string, tenant: Option<string>, locked: set<string>, now: Time, maxRunning: nat) {
    && Eligible(ts, id, tenant, locked, now, maxRunning)
    && forall o :: Eligible(ts, o, tenant, locked, now, maxRunning) && o != id ==> Before(ts[id], ts[o])
  }

  /** `order by … for update skip locked limit 1` over the candidates. */
  method FirstCandidate(ts: TaskRows, tenant: Option<string>, locked: set<string>, now: Time, maxRunning: nat)
    returns (pick: Option<string>)
    requires Keyed(ts)
    ensures pick.None? ==> forall id :: !Eligible(ts, id, tenant, locked, now, maxRunning)
    ensures pick.Some? ==> Leads(ts, pick.value, tenant, locked, now, maxRunning)
  {
    pick := None;
    var todo := ts.Keys;
    while todo != {}
      invariant todo <= ts.Keys
      invariant pick.None? ==> forall id :: Eligible(ts, id, tenant, locked, now, maxRunning) ==> id in todo
      invariant pick.Some? ==>
                  && pick.value !in todo && Eligible(ts, pick.value, tenant, locked, now, maxRunning)
                  && forall o :: Eligible(ts, o, tenant, locked, now, maxRunning) && o !in todo && o != pick.value ==>
                       Before(ts[pick.value], ts[o])
      decreases todo
    {
      var id :| id in todo;
      todo := todo - {id};
      if Eligible(ts, id, tenant, locked, now, maxRunning) {
        if pick.None? {
          pick := Some(id);
        } else if Before(ts[id], ts[pick.value]) {
          forall o | Eligible(ts, o, tenant, locked, now, maxRunning) && o !in todo && o != id && o != pick.value
            ensures Before(ts[id], ts[o])
          {
            BeforeTransitive(ts[id], ts[pick.value], ts[o]);
          }
          pick := Some(id);
        } else {
          BeforeTotal(ts[id], ts[pick.value]);
        }
      }
    }
  }

  /** The two selections of `claimNext` agree: the tenant's first candidate is the global one. */
  lemma SameFirst(ts: TaskRows, leader: string, id: string, tenant: string, now: Time, maxRunning: nat)
    requires Keyed(ts) && Leads(ts, leader, None, {}, now, maxRunning) && ts[leader].tenant == tenant
    requires Leads(ts, id, Some(tenant), {}, now, maxRunning)
    ensures id == leader && IsFirst(ts, id, now, maxRunning)
  {
    assert Eligible(ts, id, None, {}, now, maxRunning) && Eligible(ts, leader, Some(tenant), {}, now, maxRunning);
    if id != leader {
      BeforeTransitive(ts[id], ts[leader], ts[id]);
      TextOrder.Irreflexive(id);
    }
    forall o | Candidate(ts, o, now, maxRunning) && o != id
      ensures Before(ts[id], ts[o])
    {
      assert Eligible(ts, o, None, {}, now, maxRunning);
    }
  }

  class Repository {
    var tasks: TaskRows
    var artifacts: map<string, ArtifactRow>
    var keys: map<CreateKey, KeyRow>

    constructor ()
      ensures Db() == Tables(map[], map[], map[])
    {
      tasks, artifacts, keys := map[], map[], map[];
    }

    function Db(): Tables
      reads this
    {
      Tables(tasks, artifacts, keys)
    }

    /** Fails every running row whose lease ran out on its last attempt. */
    method Sweep(now: Time)
      modifies this`tasks
      ensures tasks == SweepAll(old(tasks), now)
    {
      var todo := tasks.Keys;
      while todo != {}
        invariant todo <= tasks.Keys == old(tasks).Keys
        invariant forall id :: id in tasks ==>
                    tasks[id] == if id in todo then old(tasks)[id] else SweepAll(old(tasks), now)[id]
        decreases todo
      {
        var id :| id in todo;
        if Sweepable(tasks[id], now) {
          tasks := tasks[id := SweepRow(tasks[id], now)];
        }
        todo := todo - {id};
      }
    }

    /** A tenant by the globally first candidate, then the row by the tenant's first candidate. */
    method ChooseRow(now: Time, maxRunning: nat) returns (pick: Option<string>)
      requires Keyed(tasks)
      ensures pick.None? ==> forall id :: !Candidate(tasks, id, now, maxRunning)
      ensures pick.Some? ==> IsFirst(tasks, pick.value, now, maxRunning)
    {
      var leader := FirstCandidate(tasks, None, {}, now, maxRunning);
      if leader.None? {
        forall id ensures !Candidate(tasks, id, now, maxRunning) {
          assert !Eligible(tasks, id, None, {}, now, maxRunning);
        }
        return None;
      }
      var tenant := tasks[leader.value].tenant;
      assert Eligible(tasks, leader.value, Some(tenant), {}, now, maxRunning);
      pick := FirstCandidate(tasks, Some(tenant), {}, now, maxRunning);
      SameFirst(tasks, leader.value, pick.value, tenant, now, maxRunning);
    }

    /** Claims one row of the swept table; a refusal restores the rows as they were before the sweep. */
    method ClaimRowOrUndo(saved: TaskRows, id: string, now: Time, token: string, ttl: nat, indexed: bool)
      returns (reply: ClaimReply)
      requires id in tasks && AllSound(tasks) && AllSound(saved)
      modifies this`tasks
      ensures ClaimRowSpec(old(Db()).(tasks := saved), old(tasks), id, now, token, ttl, indexed, Db(), reply)
      ensures AllSound(tasks)
    {
      var event := ClaimEvent(tasks[id], now, token, ttl);
      var outcome := Apply(tasks[id], event);
      if !outcome.Next? {
        tasks := saved;
        return ClaimRefused;
      }
      if indexed && IndexConflict(tasks, id) {
        tasks := saved;
        return Nothing;
      }
      ClaimRefines(tasks[id], now, token, ttl);
      StepKeepsSound(tasks[id], event);
      tasks := tasks[id := ClaimRow(tasks[id], outcome.task)];
      reply := Claimed(tasks[id]);
    }

    /** `claimNext`: sweep, choose, claim; any refusal after the sweep rolls the sweep back as well. */
    method ClaimNext(now: Time, token: string, ttl: nat, maxRunning: nat, indexed: bool)
      returns (pick: Option<string>, reply: ClaimReply)
      requires AllSound(tasks)
      modifies this`tasks
      ensures ClaimNextSpec(old(Db()), now, token, ttl, maxRunning, indexed, pick, Db(), reply)
      ensures AllSound(tasks)
    {
      if ttl < 1000 {
        return None, BadLease;
      }
      var saved := tasks;
      Sweep(now);
      SweepKeepsSound(saved, now);
      pick := ChooseRow(now, maxRunning);
      if pick.None? {
        return None, Nothing;
      }
      reply := ClaimRowOrUndo(saved, pick.value, now, token, ttl, indexed);
    }

    /**
     * `transition`. A sound row moves by exactly one step of the machine when version, token and command
     * fit and the machine accepts; otherwise the call is lost and nothing changes.
     */
    method TransitionTask(id: string, expected: nat, token: Option<string>, c: Command, at: Time) returns (reply: Reply)
      modifies this`tasks
      ensures reply == Transition(old(Db()), id, expected, token, c, at)
      ensures id !in old(tasks) ==> reply == Lost && tasks == old(tasks)
      ensures id in old(tasks) && Sound(old(tasks)[id]) ==>
                var t := old(tasks)[id];
                if Accepted(t, expected, token, c, at) then
                  var n := Apply(t, Persisted(c, at).value).task;
                  tasks == old(tasks)[id := n] && reply == Committed(Db(), n)
                else reply == Lost && tasks == old(tasks)
    {
      if id in tasks && Sound(tasks[id]) {
        TransitionRefines(Db(), id, expected, token, c, at);
      }
      if id !in tasks {
        return Lost;
      }
      var current := tasks[id];
      if current.version != expected || (token.Some? && current.claimToken != token) {
        return Lost;
      }
      var event := Persisted(c, at);
      if event.None? {
        return Lost;
      }
      match Apply(current, event.value)
      case TransitionError => return Lost;
      case SchemaError => return Broken;
      case Next(n) =>
        tasks := tasks[id := TransitionRow(current, n)];
        reply := Committed(Db(), tasks[id]);
    }

    /** Inserts the artifact first and undoes that when the compare-and-set on the task row fails. */
    method InsertArtifactAndComplete(snap: Task, token: string, d: Draft, retention: nat, at: Time) returns (reply: Reply)
      modifies this`tasks, this`artifacts
      ensures reply == Complete(old(Db()), snap, token, d, retention, at)
      ensures Db() == if reply.Committed? then reply.db else old(Db())
    {
      if retention < 60 {
        return Broken;
      }
      if snap.kind.Extract? {
        return Lost;
      }
      var saved := artifacts;
      var artifact := ArtifactOf(snap, d, at, retention);
      if snap.id !in artifacts {
        artifacts := artifacts[snap.id := artifact];
      }
      var outcome := Apply(snap, Succeed(at, ArtifactResult(snap.kind, Public(artifact))));
      if !outcome.Next? {
        artifacts := saved;
        return if outcome.SchemaError? then Broken else Lost;
      }
      if snap.id !in tasks || tasks[snap.id].version != snap.version || tasks[snap.id].claimToken != Some(token) {
        artifacts := saved;
        return Lost;
      }
      var row := CompleteRow(tasks[snap.id], outcome.task);
      if !SchemaValid(row) {
        artifacts := saved;
        return Broken;
      }
      tasks := tasks[snap.id := row];
      reply := Committed(Db(), row);
    }

    /**
     * `createIdempotent`. A used key is answered from its row and nothing changes. A new key gets a new
     * task exactly when the session is live, both quotas have room and the task can be stored; then that
     * task and key are all that is added, and both quotas still hold.
     */
    method CreateIdempotent(key: CreateKey, hash: string, draft: Task, view: Option<SessionView>,
                            maxQueued: nat, maxPerMinute: nat, now: Time) returns (reply: CreateReply)
      modifies this`tasks, this`keys
      ensures (Db(), reply) == Create(old(Db()), key, hash, draft, view, maxQueued, maxPerMinute, now)
      ensures key in old(keys) ==>
                && Db() == old(Db()) && (reply == Conflict <==> hash != old(keys)[key].hash)
                && (reply.Existing? ==> old(keys)[key].task in tasks && reply.task == tasks[old(keys)[key].task])
      ensures reply.Created? <==> Admissible(old(Db()), key, draft, view, maxQueued, maxPerMinute, now)
      ensures !reply.Created? ==> Db() == old(Db())
      ensures reply.Created? ==>
                && reply.task == draft.(createdAt := now, updatedAt := now)
                && tasks == old(tasks)[draft.id := reply.task] && keys == old(keys)[key := KeyRow(hash, draft.id)]
                && |Open(tasks, key.tenant)| <= maxQueued && |Recent(tasks, key.tenant, now)| <= maxPerMinute
    {
      if key in keys {
        if keys[key].hash != hash {
          return Conflict;
        }
        return if keys[key].task in tasks then Existing(tasks[keys[key].task]) else CreateFailed;
      }
      if view.None? {
        return SessionNotFound;
      }
      if !view.value.active {
        return SessionNotActive;
      }
      if view.value.expiresAt.None? || view.value.expiresAt.value <= now {
        return SessionExpired;
      }
      if |Open(tasks, key.tenant)| >= maxQueued || |Recent(tasks, key.tenant, now)| >= maxPerMinute {
        return QuotaExceeded;
      }
      var task := draft.(createdAt := now, updatedAt := now);
      if task.id in tasks || !SchemaValid(task) || task.tenant != key.tenant || task.session != key.session {
        return CreateFailed;
      }
      InsertCounts(tasks, task, key.tenant, now);
      tasks := tasks[task.id := task];
      keys := keys[key := KeyRow(hash, task.id)];
      reply := Created(task);
    }
  }
}
