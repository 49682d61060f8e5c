/**
 * The life of one session across its tables and the browser provider, with its creator
 * (apps/api/src/services/session-service.ts), any number of DELETE callers and reconciler passes
 * (apps/api/src/reconciliation/session-reconciler.ts) interleaved one operation at a time.
 *
 * Each database call may be answered, be applied and lose its answer, or have no effect. Row
 * transitions take effect as the atomic step SessionTable proves them to be. Clocks are arbitrary:
 * every event carries whatever time its caller read. A process that stops is one that takes no more
 * steps.
 */
module SessionProtocol {
  import opened Prelude
  import opened SessionState
  import opened SessionTable

  datatype Attempt = NotStarted | Started | AttemptSucceeded | AttemptFailed

  datatype ClaimState = InProgress | CreateSucceeded | CreateFailed

  /** A browser the provider handed back to the creator, and during which allocation attempt. */
  datatype Handed = Handed(reference: nat, attempt: nat)

  /** Where the creator stands; `n` is the allocation attempt, `s` and `cur` are rows it read. */
  datatype Creator =
    | Claimed(s: Session)
    | Routed(s: Session)
    | ToAllocate(n: nat, s: Session)
    | Calling(n: nat, s: Session)
    | Refused(n: nat, s: Session)
    | Choosing(s: Session)
    | Holding(n: nat, s: Session, r: nat)
    | Connected(n: nat, s: Session, r: nat)
    | Recovering(r: nat, encrypted: bool)
    | Retaining(cur: Session, r: nat)
    | Cleaning(r: nat, keep: Option<Session>)
    | Confirming(cur: Session, r: nat)
    | Live(s: Session)
    | Published(s: Session)
    | Unwinding
    | FailingRow(cur: Session)
    | RollingBack(cur: Session)
    | Killing(cur: Session)
    | Closing(cur: Session)
    | Reporting
    | Done

  /** A DELETE caller or a reconciler pass working on this session. */
  datatype Helper =
    | Deleting(s: Session)
    | Reconciling(s: Session)
    | HelperKilling(s: Session)
    | HelperClosing(s: Session)
    | Finalizing
    | Gone

  datatype Cell = Cell(
    hist: seq<Session>,
    first: Attempt,
    second: Attempt,
    handed: seq<Handed>,
    killed: set<nat>,
    calls: nat,
    creator: Creator,
    helpers: map<nat, Helper>,
    claim: ClaimState)

  /** The session row as it is now. */
  function Now(c: Cell): Session
    requires c.hist != []
  {
    c.hist[|c.hist| - 1]
  }

  function AttemptOf(c: Cell, n: nat): Attempt {
    if n == 0 then c.first else c.second
  }

  function SetAttempt(c: Cell, n: nat, a: Attempt): Cell {
    if n == 0 then c.(first := a) else c.(second := a)
  }

  /** What becomes of a database call. */
  datatype Net = Delivered | Dropped | Aborted

  /** A row transition expecting the version of `snap`: the new history, and the answer if one arrives. */
  function Tx(h: seq<Session>, snap: Session, e: Event, net: Net): (r: (seq<Session>, Option<Session>))
    requires h != []
    ensures h <= r.0
  {
    if net.Aborted? then (h, None)
    else
      match Atomic(h[|h| - 1], snap.version, e)
      case (Ok(s), wrote) => (if wrote then h + [s] else h, if net.Delivered? then Some(s) else None)
      case _ => (h, None)
  }

  /** `provider.terminate` on a reference: it may take effect without being confirmed, never the reverse. */
  function Kill(c: Cell, r: Option<nat>, effect: bool): Cell {
    if effect && r.Some? then c.(killed := c.killed + {r.value}) else c
  }

  function ReferenceOf(s: Session): Option<nat> {
    if s.reference.Some? then Decrypt(s.reference.value, s.tenant, s.id) else None
  }

  // ---------------------------------------------------------------------------------------------
  // The creator

  datatype Act =
    | Throw
    | Begin(at: Time, net: Net)
    | SelectRuntime(at: Time, runtime: string, provider: string, decision: Option<string>, net: Net)
    | NoRuntime(at: Time, net: Net)
    | StartAttempt(net: Net)
    | AllocateOk(r: nat)
    | AllocateRefused
    | AllocateBroken
    | RecordRefusal(net: Net)
    | FallBack(at: Time, runtime: string, provider: string, decision: Option<string>, net: Net)
    | ActivateRow(at: Time, expiresAt: Time, net: Net)
    | RecordSuccess(net: Net)
    | Reread
    | RereadFails
    | Retain(at: Time, expiresAt: Time, net: Net)
    | Terminate(effect: bool, confirmed: bool)
    | Confirm(at: Time, reason: string, net: Net)
    | RequestEnd(at: Time, net: Net)
    | FailRow(at: Time, reason: string, net: Net)
    | CompleteClaim(net: Net)

  /** An attempt row moves from one state to another unless the call is lost before it. */
  function MarkAttempt(c: Cell, n: nat, from: Attempt, to: Attempt, net: Net): Cell {
    if net.Aborted? || AttemptOf(c, n) != from then c else SetAttempt(c, n, to)
  }

  /** The idempotency row leaves `in_progress` at most once. */
  function MarkClaim(c: Cell, to: ClaimState, net: Net): Cell {
    if net.Aborted? || !c.claim.InProgress? then c else c.(claim := to)
  }

  /** Sends a transition and moves on to a phase that ignores the answer. */
  function Blind(c: Cell, snap: Session, e: Event, net: Net, p: Creator): Cell
    requires c.hist != []
  {
    c.(hist := Tx(c.hist, snap, e, net).0, creator := p)
  }

  function FromClaimed(c: Cell, s: Session, a: Act): Cell
    requires c.hist != []
  {
    if a.Begin? then
      var at, net := a.at, a.net;
      var reply := Tx(c.hist, s, BeginRouting(at), net).1;
      Blind(c, s, BeginRouting(at), net, if reply.Some? then Routed(reply.value) else Unwinding)
    else if a.Throw? then c.(creator := Unwinding)
    else c
  }

  function FromRouted(c: Cell, s: Session, a: Act): Cell
    requires c.hist != []
  {
    if a.SelectRuntime? then
      var at, r, p, d, net := a.at, a.runtime, a.provider, a.decision, a.net;
      var reply := Tx(c.hist, s, BeginAllocation(at, r, p, d), net).1;
      Blind(c, s, BeginAllocation(at, r, p, d), net, if reply.Some? then ToAllocate(0, reply.value) else Unwinding)
    else if a.NoRuntime? then
      var at, net := a.at, a.net;
      Blind(c, s, Fail(at, "no_compatible_runtime"), net, Unwinding)
    else if a.Throw? then c.(creator := Unwinding)
    else c
  }

  function FromToAllocate(c: Cell, n: nat, s: Session, a: Act): Cell {
    if a.StartAttempt? then
      MarkAttempt(c, n, NotStarted, Started, a.net)
      .(creator := if a.net.Delivered? && AttemptOf(c, n).NotStarted? then Calling(n, s) else Unwinding)
    else if a.Throw? then c.(creator := Unwinding)
    else c
  }

  /** `provider.allocate`: a refusal or any other error hands back no browser. */
  function FromCalling(c: Cell, n: nat, s: Session, a: Act): Cell {
    if a.AllocateOk? then
      c.(calls := c.calls + 1, handed := c.handed + [Handed(a.r, n)], creator := Holding(n, s, a.r))
    else if a.AllocateRefused? then
      c.(calls := c.calls + 1, creator := Refused(n, s))
    else if a.AllocateBroken? then
      c.(calls := c.calls + 1, creator := Unwinding)
    else c
  }

  function FromRefused(c: Cell, n: nat, s: Session, a: Act): Cell {
    if a.RecordRefusal? then
      MarkAttempt(c, n, Started, AttemptFailed, a.net)
      .(creator := if a.net.Delivered? && AttemptOf(c, n).Started? && n == 0 then Choosing(s) else Unwinding)
    else c
  }

  function FromChoosing(c: Cell, s: Session, a: Act): Cell
    requires c.hist != []
  {
    if a.FallBack? then
      var at, r, p, d, net := a.at, a.runtime, a.provider, a.decision, a.net;
      var reply := Tx(c.hist, s, BeginFallback(at, r, p, d), net).1;
      Blind(c, s, BeginFallback(at, r, p, d), net, if reply.Some? then ToAllocate(1, reply.value) else Unwinding)
    else if a.Throw? then c.(creator := Unwinding)
    else c
  }

  function FromHolding(c: Cell, n: nat, s: Session, r: nat, a: Act): Cell
    requires c.hist != []
  {
    if a.ActivateRow? then
      var at, expires, net := a.at, a.expiresAt, a.net;
      var e := Activate(at, expires, Sealed(r, s.tenant, s.id));
      var reply := Tx(c.hist, s, e, net).1;
      Blind(c, s, e, net, if reply.Some? then Connected(n, reply.value, r) else Recovering(r, true))
    else if a.Throw? then
      c.(creator := Recovering(r, false))
    else c
  }

  function FromConnected(c: Cell, n: nat, s: Session, r: nat, a: Act): Cell {
    if a.RecordSuccess? then
      MarkAttempt(c, n, Started, AttemptSucceeded, a.net)
      .(creator := if a.net.Delivered? && AttemptOf(c, n).Started? then Live(s) else Recovering(r, true))
    else c
  }

  function FromLive(c: Cell, s: Session, a: Act): Cell {
    if a.CompleteClaim? then
      MarkClaim(c, CreateSucceeded, a.net).(creator := if a.net.Delivered? && c.claim.InProgress? then Published(s) else Unwinding)
    else if a.Throw? then c.(creator := Unwinding)
    else c
  }

  /** `#recoverAllocatedSession`: what to do with the row depends on what it says now. */
  function FromRecovering(c: Cell, r: nat, encrypted: bool, a: Act): Cell
    requires c.hist != []
  {
    if a.Reread? then
      var cur := Now(c);
      if !encrypted then c.(creator := Cleaning(r, None))
      else if cur.status.Active? || cur.status.Allocating? || cur.status.FallbackAllocating? then
        c.(creator := Retaining(cur, r))
      else c.(creator := Cleaning(r, if cur.status.Terminating? then Some(cur) else None))
    else if a.RereadFails? then
      c.(creator := Cleaning(r, None))
    else c
  }

  function RetainEvent(cur: Session, r: nat, at: Time, expires: Time): Event {
    if cur.status.Active? then RequestTermination(at) else RetainForCleanup(at, expires, Sealed(r, cur.tenant, cur.id))
  }

  function FromRetaining(c: Cell, cur: Session, r: nat, a: Act): Cell
    requires c.hist != []
  {
    if a.Retain? then
      var at, expires, net := a.at, a.expiresAt, a.net;
      var e := RetainEvent(cur, r, at, expires);
      Blind(c, cur, e, net, Cleaning(r, Tx(c.hist, cur, e, net).1))
    else c
  }

  function FromCleaning(c: Cell, r: nat, keep: Option<Session>, a: Act): Cell {
    if a.Terminate? then
      var effect, confirmed := a.effect, a.confirmed;
      Kill(c, Some(r), effect || confirmed)
      .(creator := if confirmed && keep.Some? && keep.value.status.Terminating? then Confirming(keep.value, r) else Unwinding)
    else c
  }

  /** `complete_termination`, whose outcome the creator ignores. */
  function FromClosing(c: Cell, cur: Session, a: Act, p: Creator): Cell
    requires c.hist != []
  {
    if a.Confirm? then
      var at, reason, net := a.at, a.reason, a.net;
      Blind(c, cur, CompleteTermination(at, reason), net, p)
    else c
  }

  /** The catch block of `create` reads the row again. */
  function FromUnwinding(c: Cell, a: Act): Cell
    requires c.hist != []
  {
    if a.RereadFails? then
      c.(creator := Done)
    else if a.Reread? then
      var cur := Now(c);
      c.(creator := if Terminal(cur.status) then Reporting
                    else if cur.status.Active? || cur.status.Terminating? then RollingBack(cur)
                    else FailingRow(cur))
    else c
  }

  function FromFailingRow(c: Cell, cur: Session, a: Act): Cell
    requires c.hist != []
  {
    if a.FailRow? then
      var at, reason, net := a.at, a.reason, a.net;
      Blind(c, cur, Fail(at, reason), net, Reporting)
    else c
  }

  /** `#cleanupPersisted` works on the reference the row itself holds. */
  function FromRollingBack(c: Cell, cur: Session, a: Act): Cell
    requires c.hist != []
  {
    if a.RequestEnd? then
      var at, net := a.at, a.net;
      if !cur.status.Active? then c.(creator := Killing(cur))
      else
        var reply := Tx(c.hist, cur, RequestTermination(at), net).1;
        Blind(c, cur, RequestTermination(at), net, if reply.Some? then Killing(reply.value) else Reporting)
    else if a.Throw? then
      c.(creator := Reporting)
    else c
  }

  function FromKilling(c: Cell, cur: Session, a: Act): Cell {
    if a.Terminate? then
      var effect, confirmed := a.effect, a.confirmed;
      Kill(c, ReferenceOf(cur), effect || confirmed)
      .(creator := if confirmed && ReferenceOf(cur).Some? then Closing(cur) else Reporting)
    else c
  }

  function FromReporting(c: Cell, a: Act): Cell {
    if a.CompleteClaim? then
      MarkClaim(c, CreateFailed, a.net).(creator := Done)
    else c
  }

  /** The way to a published session. */
  function AllocationStep(c: Cell, a: Act): Cell
    requires c.hist != []
  {
    var p := c.creator;
    if p.Claimed? then FromClaimed(c, p.s, a)
    else if p.Routed? then FromRouted(c, p.s, a)
    else if p.ToAllocate? then FromToAllocate(c, p.n, p.s, a)
    else if p.Calling? then FromCalling(c, p.n, p.s, a)
    else if p.Refused? then FromRefused(c, p.n, p.s, a)
    else if p.Choosing? then FromChoosing(c, p.s, a)
    else if p.Holding? then FromHolding(c, p.n, p.s, p.r, a)
    else if p.Connected? then FromConnected(c, p.n, p.s, p.r, a)
    else if p.Live? then FromLive(c, p.s, a)
    else if p.Published? then (if a.Throw? then c.(creator := Unwinding) else c)
    else c
  }

  /** The way back after a failure: the browser first, then the row, then the claim. */
  function RecoveryStep(c: Cell, a: Act): Cell
    requires c.hist != []
  {
    var p := c.creator;
    if p.Recovering? then FromRecovering(c, p.r, p.encrypted, a)
    else if p.Retaining? then FromRetaining(c, p.cur, p.r, a)
    else if p.Cleaning? then FromCleaning(c, p.r, p.keep, a)
    else if p.Confirming? then FromClosing(c, p.cur, a, Unwinding)
    else if p.Unwinding? then FromUnwinding(c, a)
    else if p.FailingRow? then FromFailingRow(c, p.cur, a)
    else if p.RollingBack? then FromRollingBack(c, p.cur, a)
    else if p.Killing? then FromKilling(c, p.cur, a)
    else if p.Closing? then FromClosing(c, p.cur, a, Reporting)
    else if p.Reporting? then FromReporting(c, a)
    else c
  }

  predicate Allocates(p: Creator) {
    || p.Claimed? || p.Routed? || p.ToAllocate? || p.Calling? || p.Refused? || p.Choosing?
    || p.Holding? || p.Connected? || p.Live? || p.Published?
  }

  /** One step of the creator; an action that does not fit its phase changes nothing. */
  function CreatorStep(c: Cell, a: Act): Cell
    requires c.hist != []
  {
    if Allocates(c.creator) then AllocationStep(c, a) else RecoveryStep(c, a)
  }

  // ---------------------------------------------------------------------------------------------
  // DELETE callers and the reconciler

  datatype HelperAct =
    | StartDelete
    | StartReconcile
    | Ask(at: Time, net: Net)
    | FailStale(at: Time, reason: string, net: Net)
    | HelperTerminate(effect: bool, confirmed: bool)
    | HelperConfirm(at: Time, reason: string, net: Net)
    | Finalize(net: Net)

  /** Sends a transition for a helper, which then is in the given phase. */
  function HelperTx(c: Cell, id: nat, snap: Session, e: Event, net: Net, p: Helper): Cell
    requires c.hist != []
  {
    c.(hist := Tx(c.hist, snap, e, net).0, helpers := c.helpers[id := p])
  }

  function StartHelper(c: Cell, id: nat, a: HelperAct): Cell
    requires c.hist != []
  {
    if a.StartDelete? then
      if Terminal(Now(c).status) then c else c.(helpers := c.helpers[id := Deleting(Now(c))])
    else if a.StartReconcile? then
      c.(helpers := c.helpers[id := Reconciling(Now(c))])
    else c
  }

  function FromDeleting(c: Cell, id: nat, s: Session, a: HelperAct): Cell
    requires c.hist != []
  {
    if a.Ask? then
      var at, net := a.at, a.net;
      var reply := Tx(c.hist, s, RequestTermination(at), net).1;
      HelperTx(c, id, s, RequestTermination(at), net, if reply.Some? then HelperKilling(reply.value) else Gone)
    else c
  }

  /** The reconciler fails stale rows, finishes failed ones and takes live ones down. */
  function FromReconciling(c: Cell, id: nat, s: Session, a: HelperAct): Cell
    requires c.hist != []
  {
    if a.Ask? then
      var at, net := a.at, a.net;
      if s.status.Terminating? then c.(helpers := c.helpers[id := HelperKilling(s)])
      else if !s.status.Active? then c
      else
        var reply := Tx(c.hist, s, RequestTermination(at), net).1;
        HelperTx(c, id, s, RequestTermination(at), net,
                 if reply.Some? && reply.value.status.Terminating? then HelperKilling(reply.value) else Gone)
    else if a.FailStale? then
      var at, reason, net := a.at, a.reason, a.net;
      if s.status.Failed? then c.(helpers := c.helpers[id := Finalizing])
      else if !Early(s.status) then c
      else
        var reply := Tx(c.hist, s, Fail(at, reason), net).1;
        HelperTx(c, id, s, Fail(at, reason), net, if reply.Some? then Finalizing else Gone)
    else c
  }

  function FromHelperKilling(c: Cell, id: nat, s: Session, a: HelperAct): Cell {
    if a.HelperTerminate? then
      var effect, confirmed := a.effect, a.confirmed;
      Kill(c, ReferenceOf(s), effect || confirmed)
      .(helpers := c.helpers[id := if confirmed && ReferenceOf(s).Some? then HelperClosing(s) else Gone])
    else c
  }

  function HelperStep(c: Cell, id: nat, a: HelperAct): (r: Cell)
    requires c.hist != []
    ensures c.hist <= r.hist
  {
    if id !in c.helpers then StartHelper(c, id, a)
    else
      match c.helpers[id]
      case Deleting(s) => FromDeleting(c, id, s, a)
      case Reconciling(s) => FromReconciling(c, id, s, a)
      case HelperKilling(s) => FromHelperKilling(c, id, s, a)
      case HelperClosing(s) =>
        if a.HelperConfirm? then HelperTx(c, id, s, CompleteTermination(a.at, a.reason), a.net, Gone) else c
      case Finalizing => if a.Finalize? then MarkClaim(c, CreateFailed, a.net).(helpers := c.helpers[id := Gone]) else c
      case Gone => c
  }

  datatype CellAct = ByCreator(act: Act) | ByHelper(id: nat, help: HelperAct)

  function CellStep(c: Cell, a: CellAct): Cell
    requires c.hist != []
  {
    match a
    case ByCreator(act) => CreatorStep(c, act)
    case ByHelper(id, help) => HelperStep(c, id, help)
  }

  /** The cell right after the claim transaction inserted session and idempotency row. */
  function Born(s: Session, acknowledged: bool): Cell {
    Cell([s], NotStarted, NotStarted, [], {}, 0, if acknowledged then Claimed(s) else Done, map[], InProgress)
  }
}
