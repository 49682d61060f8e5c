/** What the claim transaction guarantees about the whole task table, whatever clock it read. */
module TaskClaims {
  import opened Prelude
  import opened TaskState
  import opened TaskTables
  import TextOrder

  predicate Keyed(ts: TaskRows) {
    forall id :: id in ts ==> ts[id].id == id
  }

  predicate AllSound(ts: TaskRows) {
    Keyed(ts) && forall id :: id in ts ==> Sound(ts[id])
  }

  /** At most one running row per session, expired leases included. */
  predicate OneRunning(ts: TaskRows) {
    forall a, b :: a in ts && b in ts && a != b && SameSession(ts[a], ts[b]) && ts[a].status.Running? ==> !ts[b].status.Running?
  }

  /** When a non-terminal row has to be looked at again. */
  function Deadline(t: Task): Time {
    match t.status
    case RetryPending => if t.nextAttemptAt.Some? then t.nextAttemptAt.value else 0
    case Running => if t.leaseExpiresAt.Some? then t.leaseExpiresAt.value else 0
    case _ => t.updatedAt
  }

  lemma SweepKeepsSound(ts: TaskRows, now: Time)
    requires AllSound(ts)
    ensures AllSound(SweepAll(ts, now))
    ensures OneRunning(ts) ==> OneRunning(SweepAll(ts, now))
  {
    forall id | id in ts
      ensures Sound(SweepAll(ts, now)[id]) && SweepAll(ts, now)[id].id == id
    {
      if Sweepable(ts[id], now) {
        SweepRefines(ts[id], now);
        StepKeepsSound(ts[id], Fail(now, TaskExecutionFailed));
      }
    }
  }

  /** Nothing is stuck: past its deadline a row can be claimed, reclaimed or swept. */
  lemma NeverStuck(t: Task, now: Time, token: string, ttl: nat)
    requires Sound(t) && !Terminal(t.status) && ttl >= 1000
    requires Deadline(t) <= now
    ensures Due(t, now) <==> Apply(t, ClaimEvent(t, now, token, ttl)).Next?
    ensures Sweepable(t, now) <==> !Due(t, now)
  {
  }

  lemma BeforeTransitive(a: Task, b: Task, c: Task)
    requires Before(a, b) && Before(b, c)
    ensures Before(a, c)
  {
    if TextOrder.Less(a.id, b.id) && TextOrder.Less(b.id, c.id) {
      TextOrder.Transitive(a.id, b.id, c.id);
    }
  }

  lemma BeforeTotal(a: Task, b: Task)
    requires a.id != b.id
    ensures Before(a, b) || Before(b, a)
  {
    TextOrder.Total(a.id, b.id);
  }

  lemma FirstIsUnique(ts: TaskRows, a: string, b: string, now: Time, maxRunning: nat)
    requires Keyed(ts) && IsFirst(ts, a, now, maxRunning) && IsFirst(ts, b, now, maxRunning)
    ensures a == b
  {
    if a != b {
      assert Before(ts[a], ts[b]) && Before(ts[b], ts[a]);
      TextOrder.Asymmetric(a, b);
    }
  }

  /** `claimNext` is deterministic: tables, clock and arguments fix the new tables and the reply. */
  lemma ClaimNextDeterministic(db: Tables, now: Time, token: string, ttl: nat, maxRunning: nat, indexed: bool,
                               p1: Option<string>, d1: Tables, r1: ClaimReply,
                               p2: Option<string>, d2: Tables, r2: ClaimReply)
    requires AllSound(db.tasks)
    requires ClaimNextSpec(db, now, token, ttl, maxRunning, indexed, p1, d1, r1)
    requires ClaimNextSpec(db, now, token, ttl, maxRunning, indexed, p2, d2, r2)
    ensures p1 == p2 && d1 == d2 && r1 == r2
  {
    if p1.Some? && p2.Some? {
      SweepKeepsSound(db.tasks, now);
      FirstIsUnique(SweepAll(db.tasks, now), p1.value, p2.value, now, maxRunning);
    }
  }

  /** No row is left that the sweep would fail. */
  predicate Swept(ts: TaskRows, now: Time) {
    forall o :: o in ts ==> !Sweepable(ts[o], now)
  }

  /** A running row sharing the session of a candidate is itself a candidate. */
  lemma RivalIsCandidate(ts: TaskRows, id: string, o: string, now: Time, maxRunning: nat)
    requires AllSound(ts) && OneRunning(ts) && Swept(ts, now)
    requires Candidate(ts, id, now, maxRunning) && o in ts && o != id && SameSession(ts[id], ts[o])
    ensures ts[o].status.Running? ==> Candidate(ts, o, now, maxRunning)
  {
    assert !Leased(ts[o], now);
  }

  /**
   * Sweeping first and preferring expired leases means the chosen row never shares its session with
   * another running row, so the partial unique index can never be what stops an uncontended claim.
   */
  lemma IndexNeverFires(ts: TaskRows, id: string, now: Time, maxRunning: nat)
    requires AllSound(ts) && OneRunning(ts) && Swept(ts, now)
    requires IsFirst(ts, id, now, maxRunning)
    ensures !IndexConflict(ts, id)
  {
    forall o | o in ts && o != id && SameSession(ts[id], ts[o])
      ensures !ts[o].status.Running?
    {
      RivalIsCandidate(ts, id, o, now, maxRunning);
    }
  }

  lemma ClaimRowKeepsOneRunning(ts: TaskRows, id: string, now: Time, token: string, ttl: nat)
    requires AllSound(ts) && OneRunning(ts) && id in ts && !IndexConflict(ts, id)
    requires Apply(ts[id], ClaimEvent(ts[id], now, token, ttl)).Next?
    ensures var row := ClaimRow(ts[id], Apply(ts[id], ClaimEvent(ts[id], now, token, ttl)).task);
            AllSound(ts[id := row]) && OneRunning(ts[id := row]) && ts[id].version < row.version
  {
    ClaimRefines(ts[id], now, token, ttl);
    StepKeepsSound(ts[id], ClaimEvent(ts[id], now, token, ttl));
  }

  /** The claim keeps one running row per session on its own: the index changes neither tables nor reply. */
  lemma ClaimKeepsOneRunning(db: Tables, now: Time, token: string, ttl: nat, maxRunning: nat, indexed: bool,
                             pick: Option<string>, db': Tables, reply: ClaimReply)
    requires AllSound(db.tasks) && OneRunning(db.tasks)
    requires ClaimNextSpec(db, now, token, ttl, maxRunning, indexed, pick, db', reply)
    ensures AllSound(db'.tasks) && OneRunning(db'.tasks)
    ensures ClaimNextSpec(db, now, token, ttl, maxRunning, !indexed, pick, db', reply)
  {
    var ts := SweepAll(db.tasks, now);
    SweepKeepsSound(db.tasks, now);
    if pick.Some? {
      IndexNeverFires(ts, pick.value, now, maxRunning);
      if Apply(ts[pick.value], ClaimEvent(ts[pick.value], now, token, ttl)).Next? {
        ClaimRowKeepsOneRunning(ts, pick.value, now, token, ttl);
      }
    }
  }

  /** Every open row is past its deadline. */
  predicate Overdue(ts: TaskRows, now: Time) {
    forall id :: id in ts && !Terminal(ts[id].status) ==> Deadline(ts[id]) <= now
  }

  predicate Finished(ts: TaskRows) {
    forall id :: id in ts ==> Terminal(ts[id].status)
  }

  /** Same rows, no version goes back, and some version moves on exactly when `moved`. */
  predicate Moves(ts: TaskRows, ts': TaskRows, moved: bool) {
    && ts'.Keys == ts.Keys
    && (forall id :: id in ts ==> ts[id].version <= ts'[id].version)
    && (moved <==> exists id :: id in ts && ts[id].version < ts'[id].version)
  }

  lemma OverdueRowsAreCandidates(ts: TaskRows, id: string, now: Time, maxRunning: nat)
    requires AllSound(ts) && Overdue(ts, now) && Swept(ts, now) && maxRunning >= 1
    requires id in ts
    ensures !Terminal(ts[id].status) <==> Candidate(ts, id, now, maxRunning)
  {
    assert forall o :: o in ts ==> !Leased(ts[o], now);
    assert Active(ts, ts[id].tenant, now) == {};
  }

  /** With nothing overdue left to sweep, the claim takes the first open row if there is one. */
  lemma SweptClaimMoves(db: Tables, ts: TaskRows, id: string, now: Time, token: string, ttl: nat, maxRunning: nat,
                        indexed: bool, db': Tables, reply: ClaimReply)
    requires AllSound(ts) && (indexed ==> OneRunning(ts)) && Overdue(ts, now) && Swept(ts, now) && ttl >= 1000
    requires IsFirst(ts, id, now, maxRunning) && ClaimRowSpec(db, ts, id, now, token, ttl, indexed, db', reply)
    ensures Moves(ts, db'.tasks, true) && reply.Claimed?
  {
    if indexed {
      IndexNeverFires(ts, id, now, maxRunning);
    }
    NeverStuck(ts[id], now, token, ttl);
    ClaimRefines(ts[id], now, token, ttl);
    StepKeepsSound(ts[id], ClaimEvent(ts[id], now, token, ttl));
    assert ts[id].version < db'.tasks[id].version;
  }

  lemma ThenMoves(a: TaskRows, b: TaskRows, c: TaskRows, m: bool)
    requires Moves(a, b, m) && Moves(b, c, true)
    ensures Moves(a, c, true)
  {
    var id :| id in b && b[id].version < c[id].version;
    assert a[id].version < c[id].version;
  }

  lemma SweepMoves(ts: TaskRows, now: Time)
    ensures Moves(ts, SweepAll(ts, now), exists id :: id in ts && Sweepable(ts[id], now))
  {
    var ts' := SweepAll(ts, now);
    forall id | id in ts
      ensures ts[id].version <= ts'[id].version && (ts[id].version < ts'[id].version <==> Sweepable(ts[id], now))
    {
    }
  }

  lemma SweepLeavesOverdue(ts: TaskRows, now: Time)
    requires AllSound(ts) && Overdue(ts, now)
    ensures Swept(SweepAll(ts, now), now) && Overdue(SweepAll(ts, now), now)
    ensures Finished(ts) ==> Finished(SweepAll(ts, now))
  {
  }

  /** Nothing to claim after the sweep: then the sweep finished everything that was open. */
  lemma SweepFinishes(ts: TaskRows, now: Time, maxRunning: nat)
    requires AllSound(ts) && Overdue(ts, now) && maxRunning >= 1
    requires forall id :: !Candidate(SweepAll(ts, now), id, now, maxRunning)
    ensures Moves(ts, SweepAll(ts, now), !Finished(ts))
  {
    var ts' := SweepAll(ts, now);
    SweepKeepsSound(ts, now);
    SweepLeavesOverdue(ts, now);
    SweepMoves(ts, now);
    forall id | id in ts
      ensures Terminal(ts[id].status) <==> !Sweepable(ts[id], now)
    {
      OverdueRowsAreCandidates(ts', id, now, maxRunning);
    }
  }

  lemma ClaimAfterSweepMoves(db: Tables, id: string, now: Time, token: string, ttl: nat, maxRunning: nat, indexed: bool,
                             db': Tables, reply: ClaimReply)
    requires AllSound(db.tasks) && (indexed ==> OneRunning(db.tasks)) && Overdue(db.tasks, now) && ttl >= 1000
    requires IsFirst(SweepAll(db.tasks, now), id, now, maxRunning)
    requires ClaimRowSpec(db, SweepAll(db.tasks, now), id, now, token, ttl, indexed, db', reply)
    ensures Moves(SweepAll(db.tasks, now), db'.tasks, true) && !Finished(db.tasks)
  {
    SweepKeepsSound(db.tasks, now);
    SweepLeavesOverdue(db.tasks, now);
    SweptClaimMoves(db, SweepAll(db.tasks, now), id, now, token, ttl, maxRunning, indexed, db', reply);
  }

  /**
   * The queue drains: once every open row is past its deadline, a claim always moves something on
   * unless all work is finished, and it never undoes work.
   */
  lemma ClaimMakesProgress(db: Tables, now: Time, token: string, ttl: nat, maxRunning: nat, indexed: bool,
                           pick: Option<string>, db': Tables, reply: ClaimReply)
    requires AllSound(db.tasks) && (indexed ==> OneRunning(db.tasks)) && Overdue(db.tasks, now) && ttl >= 1000 && maxRunning >= 1
    requires ClaimNextSpec(db, now, token, ttl, maxRunning, indexed, pick, db', reply)
    ensures Moves(db.tasks, db'.tasks, !Finished(db.tasks))
  {
    if pick.None? {
      SweepFinishes(db.tasks, now, maxRunning);
    } else {
      ClaimAfterSweepMoves(db, pick.value, now, token, ttl, maxRunning, indexed, db', reply);
      SweepMoves(db.tasks, now);
      ThenMoves(db.tasks, SweepAll(db.tasks, now), db'.tasks, exists id :: id in db.tasks && Sweepable(db.tasks[id], now));
    }
  }
}
