/**
 * `claimNext` while other transactions commit between its statements
 * (packages/task-postgres/src/repository.ts:418-531). The others are steps of the whole protocol; those that
 * need a row or an advisory lock this transaction holds wait until it ends. However they interleave, what the
 * transaction commits is one claim of the protocol.
 */
module TaskContention {
  import opened Prelude
  import opened TaskState
  import opened TaskTables
  import opened TaskClaims
  import opened TaskRepository
  import opened TaskProtocol
  import opened TaskSafety
  import opened TaskTheorems

  // ---------------------------------------------------------------------------------------------
  // What other transactions can do to a tenant's rows while its lock is held

  /** The tenant has no row that started running since. */
  ghost predicate Tame(ts: TaskRows, ts': TaskRows, tenant: string) {
    forall id :: id in ts' && ts'[id].tenant == tenant && ts'[id].status.Running? ==> id in ts && ts[id] == ts'[id]
  }

  /** The action claims a row of this tenant, so it needs the tenant's advisory lock. */
  predicate ClaimsIn(w: World, a: Action, tenant: string) {
    && a.ClaimTask? && a.call.pick.Some?
    && a.call.pick.value in w.db.tasks && w.db.tasks[a.call.pick.value].tenant == tenant
  }

  lemma TransitionIsTame(db: Tables, id: string, expected: nat, token: Option<string>, c: Command, at: Time, fault: Fault,
                         tenant: string)
    requires RowsOk(db.tasks) && (c.DoSucceed? ==> c.result.ExtractResult?)
    ensures Tame(db.tasks, Settled(db, Transition(db, id, expected, token, c, at), fault).tasks, tenant)
  {
    if Transition(db, id, expected, token, c, at).Committed? {
      TransitionCalms(db, id, expected, token, c, at);
    }
  }

  lemma CompletionIsTame(cfg: Config, w: World, run: nat, at: Time, fault: Fault, tenant: string)
    requires Inv(cfg, w) && run in w.runs && w.runs[run].Uploaded? && Formatted(w.runs[run].snap)
    ensures Tame(w.db.tasks, DoComplete(cfg, w, run, at, fault).db.tasks, tenant)
  {
    var p, reply := w.runs[run], CompleteReply(cfg, w, run, at);
    if reply.Committed? {
      CompletionRecords(cfg, w, run, at);
      RecordIsOnward(w.db, reply.db, p.snap, reply.row,
                     ArtifactOf(p.snap, DraftOf(cfg, p.snap, p.token, p.bytes), at, cfg.retention));
    }
  }

  lemma WorkIsTame(cfg: Config, w: World, run: nat, op: Op, tenant: string)
    requires Inv(cfg, w) && run in w.runs && Formatted(w.runs[run].snap) && DoWork(cfg, w, run, op).db != w.db
    ensures Tame(w.db.tasks, DoWork(cfg, w, run, op).db.tasks, tenant)
  {
    var p := w.runs[run];
    if op.ExtractDone? {
      TransitionIsTame(w.db, p.snap.id, p.snap.version, Some(p.token), DoSucceed(op.result), op.at, op.fault, tenant);
    } else if op.CompleteTask? {
      CompletionIsTame(cfg, w, run, op.at, op.fault, tenant);
    } else if op.ReportFailure? {
      var c := FailureCommand(p.snap, op.retryable, op.code);
      TransitionIsTame(w.db, p.snap.id, p.snap.version, Some(p.token), c, op.at, op.fault, tenant);
    }
  }

  lemma ClaimIsTame(cfg: Config, w: World, c: ClaimCall, tenant: string)
    requires Inv(cfg, w) && DoClaim(cfg, w, c).db != w.db && !ClaimsIn(w, ClaimTask(c), tenant)
    ensures Tame(w.db.tasks, DoClaim(cfg, w, c).db.tasks, tenant)
  {
    var ts := SweepSome(w.db.tasks, c.sweep, c.now);
    ClaimShape(cfg, w, c);
    SweepIsTame(w.db.tasks, c.sweep, c.now, tenant);
    if c.pick.Some? {
      ElsewhereIsTame(w.db.tasks, ts, c.pick.value, ClaimedRow(ts, c.pick.value, c.now, c.token, c.ttl), tenant);
    }
  }

  lemma SweepIsTame(ts: TaskRows, ids: set<string>, now: Time, tenant: string)
    ensures Tame(ts, SweepSome(ts, ids, now), tenant)
  {
  }

  lemma ElsewhereIsTame(ts0: TaskRows, ts: TaskRows, id: string, row: Task, tenant: string)
    requires Tame(ts0, ts, tenant) && row.tenant != tenant
    ensures Tame(ts0, ts[id := row], tenant)
  {
  }

  lemma StepIsTame(cfg: Config, w: World, a: Action, tenant: string)
    requires Inv(cfg, w) && !ClaimsIn(w, a, tenant)
    ensures Tame(w.db.tasks, Do(cfg, w, a).db.tasks, tenant)
  {
    if Do(cfg, w, a).db != w.db {
      match a
      case Tick(_) =>
      case CreateTask(key, hash, draft, view, at) =>
        CreatedShape(w.db, key, hash, draft, view, cfg.maxQueued, cfg.maxPerMinute, at);
      case ClaimTask(call) => ClaimIsTame(cfg, w, call, tenant);
      case CancelTask(id, expected, at) => TransitionIsTame(w.db, id, expected, None, DoCancel, at, Clean, tenant);
      case Work(run, op) => WorkIsTame(cfg, w, run, op, tenant);
    }
  }

  // ---------------------------------------------------------------------------------------------
  // What the transaction sees

  /** Rows this transaction failed, and has not committed. */
  ghost predicate SweptHere(ts: TaskRows, own: TaskRows, now: Time) {
    forall id :: id in own ==> id in ts && Sweepable(ts[id], now) && own[id] == SweepRow(ts[id], now)
  }

  lemma SeenIsSwept(ts: TaskRows, own: TaskRows, now: Time)
    requires SweptHere(ts, own, now)
    ensures ts + own == SweepSome(ts, own.Keys, now)
  {
  }

  lemma SeenIsKeyed(ts: TaskRows, own: TaskRows, now: Time)
    requires SweptHere(ts, own, now) && RowsOk(ts)
    ensures Keyed(ts + own)
  {
  }

  /** With the tenant's lock held, its leases only go away. */
  lemma StillBelow(ts: TaskRows, ts': TaskRows, own: TaskRows, tenant: string, now: Time)
    requires Tame(ts, ts', tenant) && SweptHere(ts, own, now) && SweptHere(ts', own, now)
    ensures |Active(ts' + own, tenant, now)| <= |Active(ts + own, tenant, now)|
  {
    SubsetSize(Active(ts' + own, tenant, now), Active(ts + own, tenant, now));
  }

  lemma SameLease(ts: TaskRows, ts': TaskRows, own: TaskRows, tenant: string, o: string, now: Time)
    requires Tame(ts, ts', tenant) && SweptHere(ts, own, now) && SweptHere(ts', own, now)
    requires o in ts' + own && (ts' + own)[o].tenant == tenant && Leased((ts' + own)[o], now)
    ensures o in ts + own && (ts + own)[o] == (ts' + own)[o]
  {
    assert o !in own;
  }

  lemma StillFree(ts: TaskRows, ts': TaskRows, own: TaskRows, id: string, now: Time)
    requires id in ts && id in ts' && ts'[id] == ts[id]
    requires Tame(ts, ts', ts[id].tenant) && SweptHere(ts, own, now) && SweptHere(ts', own, now)
    ensures Occupied(ts' + own, id, now) ==> Occupied(ts + own, id, now)
  {
    var a, b := ts + own, ts' + own;
    assert a[id] == b[id] && a[id].tenant == ts[id].tenant;
    if Occupied(b, id, now) {
      var o :| o in b && o != id && SameSession(b[id], b[o]) && Leased(b[o], now);
      SameLease(ts, ts', own, ts[id].tenant, o, now);
    }
  }

  /** A row that may be claimed and is held still may, while the tenant's lock is held. */
  lemma StillCandidate(ts: TaskRows, ts': TaskRows, own: TaskRows, id: string, now: Time, maxRunning: nat)
    requires id in ts && id in ts' && ts'[id] == ts[id] && id !in own
    requires Tame(ts, ts', ts[id].tenant) && SweptHere(ts, own, now) && SweptHere(ts', own, now)
    requires Candidate(ts + own, id, now, maxRunning)
    ensures Candidate(ts' + own, id, now, maxRunning)
  {
    StillBelow(ts, ts', own, ts[id].tenant, now);
    StillFree(ts, ts', own, id, now);
  }

  // ---------------------------------------------------------------------------------------------
  // Runs of other transactions

  lemma {:induction false} ReachedOn(cfg: Config, acts: seq<Action>, a: Action)
    ensures Reached(cfg, acts + [a]) == Do(cfg, Reached(cfg, acts), a)
  {
    assert (acts + [a])[..|acts|] == acts;
  }

  /** The actions that were let through, in their order. */
  function Chosen(acts: seq<Action>, through: seq<bool>): seq<Action>
    requires |through| <= |acts|
    decreases |through|
  {
    var n := |through| - 1;
    if n < 0 then [] else Chosen(acts, through[..n]) + if through[n] then [acts[n]] else []
  }

  lemma {:induction false} ChosenOn(acts: seq<Action>, through: seq<bool>, b: bool)
    requires |through| < |acts|
    ensures Chosen(acts, through + [b]) == Chosen(acts, through) + if b then [acts[|through|]] else []
  {
    assert (through + [b])[..|through|] == through;
  }

  /** Rows held here are as they were, and the tenant locked here gained no running row. */
  ghost predicate Kept(ts: TaskRows, ts': TaskRows, held: set<string>, tenant: Option<string>) {
    && (forall id :: id in held ==> id in ts && id in ts' && ts'[id] == ts[id])
    && (tenant.Some? ==> Tame(ts, ts', tenant.value))
  }

  /** Nothing the action does needs a lock on these rows or on this tenant. */
  predicate Free(w: World, a: Action, w': World, held: set<string>, tenant: Option<string>) {
    && (forall id :: id in held ==> id in w.db.tasks && id in w'.db.tasks && w'.db.tasks[id] == w.db.tasks[id])
    && (tenant.Some? ==> !ClaimsIn(w, a, tenant.value))
  }

  lemma ClockGoesOn(cfg: Config, w: World, a: Action)
    ensures w.clock <= Do(cfg, w, a).clock
  {
  }

  lemma {:induction false} FreeKeeps(cfg: Config, acts: seq<Action>, a: Action, held: set<string>, tenant: Option<string>)
    requires Free(Reached(cfg, acts), a, Do(cfg, Reached(cfg, acts), a), held, tenant)
    ensures var w, w' := Reached(cfg, acts), Reached(cfg, acts + [a]);
            w' == Do(cfg, w, a) && w.clock <= w'.clock && Kept(w.db.tasks, w'.db.tasks, held, tenant)
  {
    RunKeepsInv(cfg, acts);
    ReachedOn(cfg, acts, a);
    ClockGoesOn(cfg, Reached(cfg, acts), a);
    if tenant.Some? {
      StepIsTame(cfg, Reached(cfg, acts), a, tenant.value);
    }
  }

  class Transaction {
    const cfg: Config
    const now: Time
    const run: nat
    /** What other transactions would like to do, in this order. */
    const rivals: seq<Action>
    var next: nat
    /** All that other transactions have committed. */
    var world: World
    /** Rows written here, rows locked here, and the tenant whose advisory lock is held. */
    var own: TaskRows
    var held: set<string>
    var tenant: Option<string>
    /** What was committed before the transaction began, which of the others acted since, and what that is. */
    ghost const past: seq<Action>
    ghost var through: seq<bool>
    ghost var passed: seq<Action>

    ghost predicate Valid()
      reads this
    {
      && |through| == next <= |rivals| && passed == Chosen(rivals, through) && world == Reached(cfg, past + passed)
      && now <= world.clock && run !in world.runs
      && own.Keys <= held <= world.db.tasks.Keys && SweptHere(world.db.tasks, own, now)
    }

    /** The transaction first reads the database time. */
    constructor (cfg: Config, ghost past: seq<Action>, world: World, now: Time, run: nat, rivals: seq<Action>)
      requires world == Reached(cfg, past) && now <= world.clock && run !in world.runs
      ensures Valid() && this.cfg == cfg && this.now == now && this.run == run && this.rivals == rivals && this.past == past
      ensures this.world == world && next == 0 && own == map[] && held == {} && tenant == None
    {
      this.cfg, this.now, this.run, this.rivals, this.world, this.past := cfg, now, run, rivals, world, past;
      next, own, held, tenant, through, passed := 0, map[], {}, None, [], [];
      assert past + [] == past;
    }

    function View(): TaskRows
      reads this
    {
      world.db.tasks + own
    }

    lemma RowsAreSound()
      requires Valid()
      ensures Inv(cfg, world) && Keyed(View())
    {
      RunKeepsInv(cfg, past + passed);
      SeenIsKeyed(world.db.tasks, own, now);
    }

    /** What the action would do, unless it needs a lock that is held here. */
    method Attempt(a: Action) returns (free: bool, w: World)
      requires Valid()
      ensures free ==>
                && w == Reached(cfg, past + (passed + [a])) && world.clock <= w.clock && run !in w.runs
                && Kept(world.db.tasks, w.db.tasks, held, tenant)
    {
      w := Do(cfg, world, a);
      free := Free(world, a, w, held, tenant) && run !in w.runs;
      if free {
        FreeKeeps(cfg, past + passed, a, held, tenant);
      }
      assert (past + passed) + [a] == past + (passed + [a]);
    }

    /** The next of the others acts, or waits for a lock. */
    method Offer()
      requires Valid() && next < |rivals|
      modifies `next, `world, `through, `passed
      ensures Valid() && next == old(next) + 1 && Kept(old(world.db.tasks), world.db.tasks, held, tenant)
    {
      var a := rivals[next];
      var free, w := Attempt(a);
      ChosenOn(rivals, through, free);
      through := through + [free];
      if free {
        passed := passed + [a];
        world := w;
      }
      next := next + 1;
    }

    /** Between two statements any number of the others may act. */
    method Pause()
      requires Valid()
      modifies `next, `world, `through, `passed
      ensures Valid() && Kept(old(world.db.tasks), world.db.tasks, held, tenant)
      ensures rivals == [] ==> world == old(world)
    {
      while next < |rivals|
        invariant Valid() && Kept(old(world.db.tasks), world.db.tasks, held, tenant)
        invariant rivals == [] ==> world == old(world)
        decreases |rivals| - next
      {
        if * {
          return;
        }
        Offer();
      }
    }

    /**
     * The exhaustion sweep: rows that were exhausted when the statement began are failed one after the other,
     * if they still are when their turn comes.
     */
    method Sweep()
      requires Valid() && own == map[] && held == {}
      modifies `next, `world, `through, `passed, `own, `held
      ensures Valid() && held == own.Keys
      ensures rivals == [] ==> world == old(world) && View() == SweepAll(old(world).db.tasks, now)
    {
      var todo := set id | id in world.db.tasks && Sweepable(world.db.tasks[id], now);
      while todo != {}
        invariant Valid() && held == own.Keys
        invariant rivals == [] ==> world == old(world)
        invariant rivals == [] ==> forall id :: id in world.db.tasks && Sweepable(world.db.tasks[id], now) ==> id in todo || id in own
        decreases todo
      {
        Pause();
        var id :| id in todo;
        todo := todo - {id};
        SweepOne(id);
      }
    }

    method SweepOne(id: string)
      requires Valid() && held == own.Keys
      modifies `own, `held
      ensures Valid() && held == own.Keys && old(own).Keys <= own.Keys
      ensures id in world.db.tasks && Sweepable(world.db.tasks[id], now) ==> id in own
    {
      if id in world.db.tasks && Sweepable(world.db.tasks[id], now) {
        own := own[id := SweepRow(world.db.tasks[id], now)];
        held := held + {id};
      }
    }

    /** The query for a tenant, its advisory lock, and the count of its leases. */
    method ChooseTenant() returns (chosen: Option<string>)
      requires Valid() && tenant == None && held == own.Keys
      modifies `next, `world, `through, `passed, `tenant
      ensures Valid()
      ensures chosen.Some? ==> tenant == chosen && |Active(View(), chosen.value, now)| < cfg.maxRunning
      ensures rivals == [] ==>
                && world == old(world)
                && if chosen.None? then forall id :: !Candidate(View(), id, now, cfg.maxRunning)
                   else exists id :: Leads(View(), id, None, {}, now, cfg.maxRunning) && View()[id].tenant == chosen.value
    {
      Pause();
      RowsAreSound();
      var leader := FirstCandidate(View(), None, {}, now, cfg.maxRunning);
      if leader.None? {
        forall id ensures !Candidate(View(), id, now, cfg.maxRunning) {
          assert !Eligible(View(), id, None, {}, now, cfg.maxRunning);
        }
        return None;
      }
      chosen := Some(View()[leader.value].tenant);
      Pause();
      tenant := chosen;
      Pause();
      if |Active(View(), chosen.value, now)| >= cfg.maxRunning {
        chosen := None;
      }
    }

    /**
     * The row to claim, locked, after a second look at its session. The limit that `Candidate` includes was
     * checked under the tenant's lock, so it still holds.
     */
    method ChooseTask(locked: set<string>) returns (pick: Option<string>)
      requires Valid() && tenant.Some? && held == own.Keys && |Active(View(), tenant.value, now)| < cfg.maxRunning
      modifies `next, `world, `through, `passed, `held
      ensures Valid()
      ensures pick.Some? ==>
                && pick.value in held && pick.value !in own
                && Candidate(View(), pick.value, now, cfg.maxRunning) && View()[pick.value].tenant == tenant.value
      ensures rivals == [] ==>
                && world == old(world)
                && if pick.None? then forall id :: !Eligible(View(), id, tenant, locked, now, cfg.maxRunning)
                   else Leads(View(), pick.value, tenant, locked, now, cfg.maxRunning)
    {
      Pause();
      RowsAreSound();
      pick := FirstCandidate(View(), tenant, locked, now, cfg.maxRunning);
      if pick.None? {
        return;
      }
      held := held + {pick.value};
      var free := LookAgain(pick.value);
      if !free {
        pick := None;
      }
    }

    /** The query for open leases of the row's session, now that the row is locked. */
    method LookAgain(id: string) returns (free: bool)
      requires Valid() && tenant.Some? && id in held && id !in own
      requires Candidate(View(), id, now, cfg.maxRunning) && View()[id].tenant == tenant.value
      modifies `next, `world, `through, `passed
      ensures Valid() && View()[id] == old(View())[id]
      ensures free ==> Candidate(View(), id, now, cfg.maxRunning)
      ensures rivals == [] ==> free && world == old(world)
    {
      ghost var before := world.db.tasks;
      Pause();
      StillBelow(before, world.db.tasks, own, tenant.value, now);
      free := !Occupied(View(), id, now);
    }

    /** The tenant first, then its row. */
    method Choose(locked: set<string>) returns (pick: Option<string>)
      requires Valid() && tenant == None && held == own.Keys
      modifies `next, `world, `through, `passed, `tenant, `held
      ensures Valid()
      ensures pick.Some? ==>
                && tenant.Some? && pick.value in held && pick.value !in own
                && Candidate(View(), pick.value, now, cfg.maxRunning) && View()[pick.value].tenant == tenant.value
      ensures rivals == [] ==> world == old(world)
      ensures rivals == [] && locked == {} ==>
                if pick.None? then forall id :: !Candidate(View(), id, now, cfg.maxRunning)
                else IsFirst(View(), pick.value, now, cfg.maxRunning)
    {
      var chosen := ChooseTenant();
      if chosen.None? {
        return None;
      }
      pick := ChooseTask(locked);
      RowsAreSound();
      if rivals == [] && locked == {} {
        ghost var leader :| Leads(View(), leader, None, {}, now, cfg.maxRunning) && View()[leader].tenant == chosen.value;
        assert Eligible(View(), leader, tenant, {}, now, cfg.maxRunning);
        SameFirst(View(), leader, pick.value, chosen.value, now, cfg.maxRunning);
      }
    }

    /** There is nothing to claim: the sweep is all that is committed. */
    method CommitSweep(ghost c: ClaimCall)
      requires Valid() && c.run == run && c.now == now && c.sweep == own.Keys && c.pick == None
      modifies `world
      ensures old(world) == Reached(cfg, past + passed) && world == DoClaim(cfg, old(world), c)
      ensures world.db == old(world).db.(tasks := old(View()))
    {
      SeenIsSwept(world.db.tasks, own, now);
      world := world.(db := world.db.(tasks := View()));
    }

    /** The claim itself, which refuses or commits; a refusal leaves only what the others did. */
    method Update(id: string, token: string, ttl: nat, indexed: bool, acked: bool) returns (reply: ClaimReply)
      requires Valid() && tenant.Some? && id in held && id !in own
      requires Candidate(View(), id, now, cfg.maxRunning) && View()[id].tenant == tenant.value
      modifies `next, `world, `through, `passed
      ensures |through| <= |rivals| && passed == Chosen(rivals, through)
      ensures var w := Reached(cfg, past + passed);
              && now <= w.clock && run !in w.runs
              && if reply.Claimed? then
                   && MayClaim(cfg, SweepSome(w.db.tasks, own.Keys, now), id, now, token, ttl)
                   && world == DoClaim(cfg, w, ClaimCall(run, now, own.Keys, Some(id), token, ttl, acked))
                   && id in world.db.tasks && reply.task == world.db.tasks[id]
                 else world == w
      ensures rivals == [] ==> ClaimRowSpec(old(world).db, old(View()), id, now, token, ttl, indexed, world.db, reply)
    {
      ghost var before := world.db.tasks;
      Pause();
      StillCandidate(before, world.db.tasks, own, id, now, cfg.maxRunning);
      SeenIsSwept(world.db.tasks, own, now);
      var ts := View();
      var outcome := Apply(ts[id], ClaimEvent(ts[id], now, token, ttl));
      if !outcome.Next? {
        return ClaimRefused;
      }
      if indexed && IndexConflict(ts, id) {
        return Nothing;
      }
      var row := ClaimRow(ts[id], outcome.task);
      reply := Claimed(row);
      world := AfterClaim(world.(db := world.db.(tasks := ts)), ClaimCall(run, now, own.Keys, Some(id), token, ttl, acked), id, row);
    }

    /**
     * `claimNext`. What it commits is one claim of the protocol, after those of the others that acted before it
     * committed; a refusal commits nothing. Undisturbed, it is the claim ClaimNextSpec describes.
     */
    method ClaimNext(token: string, ttl: nat, locked: set<string>, indexed: bool, acked: bool)
      returns (reply: ClaimReply, pick: Option<string>, ghost committed: bool)
      requires Valid() && next == 0 && own == map[] && held == {} && tenant == None
      modifies this
      ensures |through| <= |rivals| && passed == Chosen(rivals, through)
      ensures var w := Reached(cfg, past + passed);
              && now <= w.clock && run !in w.runs
              && (committed ==>
                    world == Do(cfg, w, ClaimTask(ClaimCall(run, now, own.Keys, if reply.Claimed? then pick else None, token, ttl, acked))))
              && (!committed ==> world == w)
              && (reply.Claimed? ==>
                    && committed && pick.Some? && MayClaim(cfg, SweepSome(w.db.tasks, own.Keys, now), pick.value, now, token, ttl)
                    && pick.value in world.db.tasks && reply.task == world.db.tasks[pick.value])
      ensures rivals == [] && locked == {} ==>
                ClaimNextSpec(old(world).db, now, token, ttl, cfg.maxRunning, indexed, pick, world.db, reply)
    {
      pick, committed := None, false;
      if ttl < 1000 {
        return BadLease, None, false;
      }
      Sweep();
      pick := Choose(locked);
      if pick.None? {
        CommitSweep(ClaimCall(run, now, own.Keys, None, token, ttl, acked));
        return Nothing, None, true;
      }
      reply := Update(pick.value, token, ttl, indexed, acked);
      committed := reply.Claimed?;
    }
  }
}
