/** The invariant of one session's life and the proof that every step of every process keeps it. */
module SessionSafety {
  import opened Prelude
  import opened SessionState
  import opened SessionTable
  import opened SessionProtocol

  // ---------------------------------------------------------------------------------------------
  // The invariant

  ghost predicate Snap(h: seq<Session>, s: Session) {
    s.version < |h| && h[s.version] == s
  }

  /** States in which the row refers to a browser. */
  predicate Refers(s: Status) {
    s.Active? || s.Terminating? || s.Terminated?
  }

  function TheRef(handed: seq<Handed>, s: Session): Option<Sealed> {
    if |handed| == 1 then Some(Sealed(handed[0].reference, s.tenant, s.id)) else None
  }

  /** One state of the row: its reference is the browser handed back, and ends only with that browser. */
  ghost predicate StateOk(s: Session, id: string, tenant: string, handed: seq<Handed>, killed: set<nat>) {
    && s.id == id && s.tenant == tenant && !s.status.Expired?
    && (s.reference.Some? <==> Refers(s.status))
    && (s.reference.Some? ==> s.reference == TheRef(handed, s))
    && (s.status.Terminated? ==> |handed| == 1 && handed[0].reference in killed)
  }

  ghost predicate RowOk(h: seq<Session>, handed: seq<Handed>, killed: set<nat>) {
    && History(h) && |handed| <= 1
    && (forall i :: 0 <= i < |h| ==> StateOk(h[i], h[0].id, h[0].tenant, handed, killed))
    && (forall i :: 0 <= i < |h| && h[i].reference.Some? ==> h[|h| - 1].reference.Some?)
  }

  /** A browser handed back is terminated, referred to by a live row, or covered by a started attempt. */
  ghost predicate Covered(row: Session, first: Attempt, second: Attempt, killed: set<nat>, b: Handed) {
    || b.reference in killed
    || ((row.status.Active? || row.status.Terminating?) && ReferenceOf(row) == Some(b.reference))
    || (if b.attempt == 0 then first else second).Started?
  }

  ghost predicate AllCovered(h: seq<Session>, first: Attempt, second: Attempt, handed: seq<Handed>, killed: set<nat>)
    requires h != []
  {
    forall i :: 0 <= i < |handed| ==> Covered(h[|h| - 1], first, second, killed, handed[i])
  }

  ghost predicate Core(c: Cell) {
    && RowOk(c.hist, c.handed, c.killed)
    && AllCovered(c.hist, c.first, c.second, c.handed, c.killed)
    && (c.claim.CreateSucceeded? ==> Now(c).reference.Some?)
    && c.calls <= 2
  }

  ghost predicate HelperOk(h: seq<Session>, killed: set<nat>, p: Helper) {
    match p
    case Deleting(s) => Snap(h, s)
    case Reconciling(s) => Snap(h, s)
    case HelperKilling(s) => Snap(h, s)
    case HelperClosing(s) => Snap(h, s) && ReferenceOf(s).Some? && ReferenceOf(s).value in killed
    case Finalizing => true
    case Gone => true
  }

  ghost predicate HelpersOk(h: seq<Session>, killed: set<nat>, helpers: map<nat, Helper>) {
    forall id :: id in helpers ==> HelperOk(h, killed, helpers[id])
  }

  /** Nothing was handed back yet, and attempt `n` is in the given state. */
  ghost predicate Empty(c: Cell, n: nat, a: Attempt, calls: nat) {
    n <= 1 && c.handed == [] && AttemptOf(c, n) == a && c.calls <= calls && (n == 0 ==> c.second.NotStarted?)
  }

  ghost predicate Holds(c: Cell, r: nat) {
    |c.handed| == 1 && c.handed[0].reference == r
  }

  ghost predicate CreatorOk(c: Cell) {
    match c.creator
    case Claimed(s) => Snap(c.hist, s) && Empty(c, 0, NotStarted, 0)
    case Routed(s) => Snap(c.hist, s) && s.status.Routing? && Empty(c, 0, NotStarted, 0)
    case ToAllocate(n, s) => Snap(c.hist, s) && Empty(c, n, NotStarted, n)
    case Calling(n, s) => Snap(c.hist, s) && Empty(c, n, Started, n)
    case Refused(n, s) => Snap(c.hist, s) && Empty(c, n, Started, n + 1)
    case Choosing(s) => Snap(c.hist, s) && c.handed == [] && c.second.NotStarted? && c.calls <= 1
    case Holding(n, s, r) => Snap(c.hist, s) && c.handed == [Handed(r, n)] && AttemptOf(c, n).Started?
    case Connected(n, s, r) => Snap(c.hist, s) && c.handed == [Handed(r, n)] && s.reference.Some?
    case Recovering(r, _) => Holds(c, r)
    case Retaining(cur, r) => Snap(c.hist, cur) && Holds(c, r)
    case Cleaning(r, keep) => Holds(c, r) && (keep.Some? ==> Snap(c.hist, keep.value))
    case Confirming(cur, r) => Snap(c.hist, cur) && Holds(c, r) && r in c.killed
    case Live(s) => Snap(c.hist, s) && s.reference.Some?
    case Published(s) => true
    case Unwinding => true
    case FailingRow(cur) => Snap(c.hist, cur) && Early(cur.status)
    case RollingBack(cur) => Snap(c.hist, cur)
    case Killing(cur) => Snap(c.hist, cur)
    case Closing(cur) => Snap(c.hist, cur) && ReferenceOf(cur).Some? && ReferenceOf(cur).value in c.killed
    case Reporting => true
    case Done => true
  }

  /** Everything but what the creator knows. */
  ghost predicate Base(c: Cell) {
    Core(c) && HelpersOk(c.hist, c.killed, c.helpers)
  }

  ghost predicate Inv(c: Cell) {
    Base(c) && CreatorOk(c)
  }

  // ---------------------------------------------------------------------------------------------
  // Row transitions

  /** Events the processes may issue, given what they know when they issue them. */
  ghost predicate Justified(snap: Session, e: Event, handed: seq<Handed>, killed: set<nat>) {
    match e
    case Fail(_, _) => Early(snap.status)
    case Activate(_, _, ref) => Some(ref) == TheRef(handed, snap)
    case RetainForCleanup(_, _, ref) => Some(ref) == TheRef(handed, snap)
    case CompleteTermination(_, _) => |handed| == 1 && handed[0].reference in killed
    case Expire(_, _) => false
    case _ => true
  }

  /** What a transition does: nothing, or one step of the machine from exactly the snapshot. */
  lemma TxEffect(h: seq<Session>, snap: Session, e: Event, net: Net)
    requires History(h) && Snap(h, snap)
    ensures var (h', reply) := Tx(h, snap, e, net);
            && (h' == h || (h[|h| - 1] == snap && Apply(snap, e).Next? && Apply(snap, e).session.version == snap.version + 1
                            && h' == h + [Apply(snap, e).session]))
            && (reply.Some? ==> reply.value == h'[|h'| - 1])
            && h <= h'
  {
    StepKeepsSound(h[|h| - 1], e);
  }

  /** One justified step from a good state gives a good state that still refers to the browser. */
  lemma StepKeepsState(s: Session, e: Event, handed: seq<Handed>, killed: set<nat>)
    requires Sound(s) && StateOk(s, s.id, s.tenant, handed, killed) && Justified(s, e, handed, killed)
    requires Apply(s, e).Next? && Apply(s, e).session.version == s.version + 1
    ensures var n := Apply(s, e).session;
            && Sound(n) && StateOk(n, s.id, s.tenant, handed, killed)
            && (s.reference.Some? ==> n.reference.Some?)
            && (s.status.Active? || s.status.Terminating? ==>
                  n.status.Terminating? || (n.status.Terminated? && handed[0].reference in killed))
  {
    StepKeepsSound(s, e);
  }

  lemma AppendKeepsRow(h: seq<Session>, n: Session, handed: seq<Handed>, killed: set<nat>)
    requires RowOk(h, handed, killed) && Sound(n) && n.version == |h|
    requires StateOk(n, h[0].id, h[0].tenant, handed, killed)
    requires h[|h| - 1].reference.Some? ==> n.reference.Some?
    ensures RowOk(h + [n], handed, killed)
  {
    var h' := h + [n];
    assert forall i :: 0 <= i < |h| ==> h'[i] == h[i];
  }

  lemma TxKeepsRow(h: seq<Session>, snap: Session, e: Event, net: Net, handed: seq<Handed>, killed: set<nat>)
    requires RowOk(h, handed, killed) && Snap(h, snap) && Justified(snap, e, handed, killed)
    ensures var h' := Tx(h, snap, e, net).0;
            && RowOk(h', handed, killed) && h <= h'
            && (h[|h| - 1].reference.Some? ==> h'[|h'| - 1].reference.Some?)
            && (h[|h| - 1].status.Active? || h[|h| - 1].status.Terminating? ==>
                  Refers(h'[|h'| - 1].status))
  {
    TxEffect(h, snap, e, net);
    var h' := Tx(h, snap, e, net).0;
    if h' != h {
      StepKeepsState(snap, e, handed, killed);
      AppendKeepsRow(h, Apply(snap, e).session, handed, killed);
    }
  }

  /** A row that refers to a browser covers it: live by itself, ended because the browser is. */
  lemma ReferringRowCovers(c: Cell, b: Handed)
    requires RowOk(c.hist, c.handed, c.killed) && c.handed == [b] && Refers(Now(c).status)
    ensures Covered(Now(c), c.first, c.second, c.killed, b)
  {
    var s := Now(c);
    assert StateOk(s, c.hist[0].id, c.hist[0].tenant, c.handed, c.killed);
  }

  lemma TxKeepsCore(c: Cell, snap: Session, e: Event, net: Net)
    requires Core(c) && Snap(c.hist, snap) && Justified(snap, e, c.handed, c.killed)
    ensures Core(c.(hist := Tx(c.hist, snap, e, net).0))
    ensures c.hist <= Tx(c.hist, snap, e, net).0
  {
    var c' := c.(hist := Tx(c.hist, snap, e, net).0);
    TxKeepsRow(c.hist, snap, e, net, c.handed, c.killed);
    if |c.handed| == 1 {
      assert Covered(Now(c), c.first, c.second, c.killed, c.handed[0]);
      if Now(c).status.Active? || Now(c).status.Terminating? {
        ReferringRowCovers(c', c.handed[0]);
      }
    }
  }

  /** Helpers only know facts that later history and later terminations keep true. */
  lemma HelpersPersist(c: Cell, c': Cell)
    requires HelpersOk(c.hist, c.killed, c.helpers) && c.hist <= c'.hist && c.killed <= c'.killed && c'.helpers == c.helpers
    ensures HelpersOk(c'.hist, c'.killed, c'.helpers)
  {
    forall id | id in c.helpers ensures HelperOk(c'.hist, c'.killed, c.helpers[id]) {
      assert HelperOk(c.hist, c.killed, c.helpers[id]);
    }
  }

  /** So does the creator, as long as attempts, browsers and calls are as they were. */
  lemma CreatorPersists(c: Cell, c': Cell)
    requires CreatorOk(c) && c.hist <= c'.hist && c.killed <= c'.killed && c'.creator == c.creator
    requires c'.first == c.first && c'.second == c.second && c'.handed == c.handed && c'.calls == c.calls
    ensures CreatorOk(c')
  {
  }

  /** A reference that appeared in the history is still the row's reference. */
  lemma SnapRefers(c: Cell, s: Session)
    requires Core(c) && Snap(c.hist, s)
    ensures s.reference.Some? ==> Now(c).reference.Some? && |c.handed| == 1 && ReferenceOf(s) == Some(c.handed[0].reference)
  {
    assert StateOk(s, c.hist[0].id, c.hist[0].tenant, c.handed, c.killed);
  }

  lemma TxReply(h: seq<Session>, snap: Session, e: Event, net: Net)
    requires History(h) && Snap(h, snap) && Tx(h, snap, e, net).1.Some?
    ensures var (h', reply) := Tx(h, snap, e, net);
            && Snap(h', reply.value)
            && (!e.RequestTermination? ==> Apply(snap, e) == Next(reply.value))
  {
    TxEffect(h, snap, e, net);
    StepKeepsSound(h[|h| - 1], e);
  }

  // ---------------------------------------------------------------------------------------------
  // The creator

  /** What one step does to a session: its history grows, an ended row stays, the claim is write-once. */
  ghost predicate Grows(c: Cell, c': Cell)
    requires c.hist != []
  {
    && c.hist <= c'.hist
    && (Terminal(Now(c).status) ==> c'.hist == c.hist)
    && (!c.claim.InProgress? ==> c'.claim == c.claim)
    && c.calls <= c'.calls && c.handed <= c'.handed && c.killed <= c'.killed
  }

  ghost predicate Advances(c: Cell, c': Cell)
    requires c.hist != []
  {
    Inv(c') && Grows(c, c')
  }

  /** A row that ended stays as it is. */
  lemma EndedRowStays(h: seq<Session>, snap: Session, e: Event, net: Net)
    requires History(h)
    ensures Terminal(h[|h| - 1].status) ==> Tx(h, snap, e, net).0 == h
  {
    StepKeepsSound(h[|h| - 1], e);
  }

  /** Anyone may issue a justified transition. */
  lemma TxKeepsBase(c: Cell, snap: Session, e: Event, net: Net)
    requires Base(c) && Snap(c.hist, snap) && Justified(snap, e, c.handed, c.killed)
    ensures var c' := c.(hist := Tx(c.hist, snap, e, net).0); Base(c') && Grows(c, c')
  {
    EndedRowStays(c.hist, snap, e, net);
    TxKeepsCore(c, snap, e, net);
    HelpersPersist(c, c.(hist := Tx(c.hist, snap, e, net).0));
  }

  /** An attempt row may leave `started` only while nothing was handed back or the row refers to it. */
  lemma AttemptKeepsBase(c: Cell, n: nat, from: Attempt, to: Attempt, net: Net)
    requires Base(c) && (c.handed == [] || (|c.handed| == 1 && Refers(Now(c).status)))
    ensures Base(MarkAttempt(c, n, from, to, net))
  {
    if |c.handed| == 1 {
      ReferringRowCovers(MarkAttempt(c, n, from, to, net), c.handed[0]);
    }
  }

  /** Terminating more browsers endangers nothing. */
  lemma KillKeepsBase(c: Cell, r: Option<nat>, effect: bool)
    requires Base(c)
    ensures Base(Kill(c, r, effect))
  {
    var c' := Kill(c, r, effect);
    forall i | 0 <= i < |c.hist| ensures StateOk(c.hist[i], c.hist[0].id, c.hist[0].tenant, c.handed, c'.killed) {
      assert StateOk(c.hist[i], c.hist[0].id, c.hist[0].tenant, c.handed, c.killed);
    }
    HelpersPersist(c, c');
  }

  /** A transition answered by a phase made from the answer. */
  lemma AnswerFits(c: Cell, snap: Session, e: Event, net: Net)
    requires Core(c) && Snap(c.hist, snap)
    ensures var (h, reply) := Tx(c.hist, snap, e, net);
            && c.hist <= h
            && (reply.Some? ==> Snap(h, reply.value) && (!e.RequestTermination? ==> Apply(snap, e) == Next(reply.value)))
  {
    TxEffect(c.hist, snap, e, net);
    if Tx(c.hist, snap, e, net).1.Some? {
      TxReply(c.hist, snap, e, net);
    }
  }

  lemma ClaimedStep(c: Cell, s: Session, a: Act)
    requires Inv(c) && c.creator == Claimed(s)
    ensures Advances(c, FromClaimed(c, s, a))
  {
    if a.Begin? {
      var at, net := a.at, a.net;
      AnswerFits(c, s, BeginRouting(at), net);
      TxKeepsBase(c, s, BeginRouting(at), net);
    }
  }

  lemma RoutedStep(c: Cell, s: Session, a: Act)
    requires Inv(c) && c.creator == Routed(s)
    ensures Advances(c, FromRouted(c, s, a))
  {
    if a.SelectRuntime? {
      var at, r, p, d, net := a.at, a.runtime, a.provider, a.decision, a.net;
      AnswerFits(c, s, BeginAllocation(at, r, p, d), net);
      TxKeepsBase(c, s, BeginAllocation(at, r, p, d), net);
    } else if a.NoRuntime? {
      var at, net := a.at, a.net;
      TxKeepsBase(c, s, Fail(at, "no_compatible_runtime"), net);
    }
  }

  lemma ToAllocateStep(c: Cell, n: nat, s: Session, a: Act)
    requires Inv(c) && c.creator == ToAllocate(n, s)
    ensures Advances(c, FromToAllocate(c, n, s, a))
  {
    if a.StartAttempt? {
      AttemptKeepsBase(c, n, NotStarted, Started, a.net);
    }
  }

  lemma CallingStep(c: Cell, n: nat, s: Session, a: Act)
    requires Inv(c) && c.creator == Calling(n, s)
    ensures Advances(c, FromCalling(c, n, s, a))
  {
    var c' := FromCalling(c, n, s, a);
    HelpersPersist(c, c');
    forall i | 0 <= i < |c.hist| ensures StateOk(c.hist[i], c.hist[0].id, c.hist[0].tenant, c'.handed, c.killed) {
      assert StateOk(c.hist[i], c.hist[0].id, c.hist[0].tenant, c.handed, c.killed);
    }
  }

  lemma RefusedStep(c: Cell, n: nat, s: Session, a: Act)
    requires Inv(c) && c.creator == Refused(n, s)
    ensures Advances(c, FromRefused(c, n, s, a))
  {
    if a.RecordRefusal? {
      AttemptKeepsBase(c, n, Started, AttemptFailed, a.net);
    }
  }

  lemma ChoosingStep(c: Cell, s: Session, a: Act)
    requires Inv(c) && c.creator == Choosing(s)
    ensures Advances(c, FromChoosing(c, s, a))
  {
    if a.FallBack? {
      var at, r, p, d, net := a.at, a.runtime, a.provider, a.decision, a.net;
      AnswerFits(c, s, BeginFallback(at, r, p, d), net);
      TxKeepsBase(c, s, BeginFallback(at, r, p, d), net);
    }
  }

  lemma HoldingStep(c: Cell, n: nat, s: Session, r: nat, a: Act)
    requires Inv(c) && c.creator == Holding(n, s, r)
    ensures Advances(c, FromHolding(c, n, s, r, a))
  {
    if a.ActivateRow? {
      var at, expires, net := a.at, a.expiresAt, a.net;
      var e := Activate(at, expires, Sealed(r, s.tenant, s.id));
      AnswerFits(c, s, e, net);
      TxKeepsBase(c, s, e, net);
    }
  }

  lemma ConnectedStep(c: Cell, n: nat, s: Session, r: nat, a: Act)
    requires Inv(c) && c.creator == Connected(n, s, r)
    ensures Advances(c, FromConnected(c, n, s, r, a))
  {
    if a.RecordSuccess? {
      var net := a.net;
      SnapRefers(c, s);
      AttemptKeepsBase(c, n, Started, AttemptSucceeded, net);
    }
  }

  lemma LiveStep(c: Cell, s: Session, a: Act)
    requires Inv(c) && c.creator == Live(s)
    ensures Advances(c, FromLive(c, s, a))
  {
    if a.CompleteClaim? {
      var net := a.net;
      SnapRefers(c, s);
    }
  }

  lemma RecoveringStep(c: Cell, r: nat, encrypted: bool, a: Act)
    requires Inv(c) && c.creator == Recovering(r, encrypted)
    ensures Advances(c, FromRecovering(c, r, encrypted, a))
  {
  }

  lemma RetainingStep(c: Cell, cur: Session, r: nat, a: Act)
    requires Inv(c) && c.creator == Retaining(cur, r)
    ensures Advances(c, FromRetaining(c, cur, r, a))
  {
    if a.Retain? {
      var at, expires, net := a.at, a.expiresAt, a.net;
      var e := RetainEvent(cur, r, at, expires);
      AnswerFits(c, cur, e, net);
      TxKeepsBase(c, cur, e, net);
    }
  }

  lemma CleaningStep(c: Cell, r: nat, keep: Option<Session>, a: Act)
    requires Inv(c) && c.creator == Cleaning(r, keep)
    ensures Advances(c, FromCleaning(c, r, keep, a))
  {
    if a.Terminate? {
      var effect, confirmed := a.effect, a.confirmed;
      KillKeepsBase(c, Some(r), effect || confirmed);
    }
  }

  lemma ConfirmStep(c: Cell, cur: Session, a: Act, p: Creator)
    requires Inv(c) && Snap(c.hist, cur) && |c.handed| == 1 && c.handed[0].reference in c.killed
    requires p.Unwinding? || p.Reporting?
    ensures Advances(c, FromClosing(c, cur, a, p))
  {
    if a.Confirm? {
      var at, reason, net := a.at, a.reason, a.net;
      TxKeepsBase(c, cur, CompleteTermination(at, reason), net);
    }
  }

  lemma UnwindingStep(c: Cell, a: Act)
    requires Inv(c) && c.creator == Unwinding
    ensures Advances(c, FromUnwinding(c, a))
  {
    if FromUnwinding(c, a) != c {
      assert StateOk(Now(c), c.hist[0].id, c.hist[0].tenant, c.handed, c.killed);
    }
  }

  lemma FailingRowStep(c: Cell, cur: Session, a: Act)
    requires Inv(c) && c.creator == FailingRow(cur)
    ensures Advances(c, FromFailingRow(c, cur, a))
  {
    if a.FailRow? {
      var at, reason, net := a.at, a.reason, a.net;
      TxKeepsBase(c, cur, Fail(at, reason), net);
    }
  }

  /** Asking an active row to end leaves the creator with the terminating row, if the answer arrives. */
  lemma RequestEndStep(c: Cell, cur: Session, at: Time, net: Net)
    requires Base(c) && Snap(c.hist, cur)
    ensures var (h, reply) := Tx(c.hist, cur, RequestTermination(at), net);
            var c' := c.(hist := h, creator := if reply.Some? then Killing(reply.value) else Reporting);
            Advances(c, c')
  {
    AnswerFits(c, cur, RequestTermination(at), net);
    TxKeepsBase(c, cur, RequestTermination(at), net);
  }

  lemma RollingBackStep(c: Cell, cur: Session, a: Act)
    requires Inv(c) && c.creator == RollingBack(cur)
    ensures Advances(c, FromRollingBack(c, cur, a))
  {
    if a.RequestEnd? {
      var at, net := a.at, a.net;
      RequestEndStep(c, cur, at, net);
    }
  }

  lemma KillingStep(c: Cell, cur: Session, a: Act)
    requires Inv(c) && c.creator == Killing(cur)
    ensures Advances(c, FromKilling(c, cur, a))
  {
    if a.Terminate? {
      var effect, confirmed := a.effect, a.confirmed;
      KillKeepsBase(c, ReferenceOf(cur), effect || confirmed);
    }
  }

  lemma ClosingStep(c: Cell, cur: Session, a: Act)
    requires Inv(c) && c.creator == Closing(cur)
    ensures Advances(c, FromClosing(c, cur, a, Reporting))
  {
    SnapRefers(c, cur);
    ConfirmStep(c, cur, a, Reporting);
  }

  lemma ReportingStep(c: Cell, a: Act)
    requires Inv(c) && c.creator == Reporting
    ensures Advances(c, FromReporting(c, a))
  {
  }

  lemma AllocationKeepsInv(c: Cell, a: Act)
    requires Inv(c)
    ensures Advances(c, AllocationStep(c, a))
  {
    var p := c.creator;
    if p.Claimed? {
      ClaimedStep(c, p.s, a);
    } else if p.Routed? {
      RoutedStep(c, p.s, a);
    } else if p.ToAllocate? {
      ToAllocateStep(c, p.n, p.s, a);
    } else if p.Calling? {
      CallingStep(c, p.n, p.s, a);
    } else if p.Refused? {
      RefusedStep(c, p.n, p.s, a);
    } else if p.Choosing? {
      ChoosingStep(c, p.s, a);
    } else if p.Holding? {
      HoldingStep(c, p.n, p.s, p.r, a);
    } else if p.Connected? {
      ConnectedStep(c, p.n, p.s, p.r, a);
    } else if p.Live? {
      LiveStep(c, p.s, a);
    }
  }

  lemma RecoveryKeepsInv(c: Cell, a: Act)
    requires Inv(c)
    ensures Advances(c, RecoveryStep(c, a))
  {
    var p := c.creator;
    if p.Recovering? {
      RecoveringStep(c, p.r, p.encrypted, a);
    } else if p.Retaining? {
      RetainingStep(c, p.cur, p.r, a);
    } else if p.Cleaning? {
      CleaningStep(c, p.r, p.keep, a);
    } else if p.Confirming? {
      ConfirmStep(c, p.cur, a, Unwinding);
    } else if p.Unwinding? {
      UnwindingStep(c, a);
    } else if p.FailingRow? {
      FailingRowStep(c, p.cur, a);
    } else if p.RollingBack? {
      RollingBackStep(c, p.cur, a);
    } else if p.Killing? {
      KillingStep(c, p.cur, a);
    } else if p.Closing? {
      ClosingStep(c, p.cur, a);
    } else if p.Reporting? {
      ReportingStep(c, a);
    }
  }

  // ---------------------------------------------------------------------------------------------
  // DELETE callers and the reconciler

  /** A helper joins or changes phase. */
  lemma HelperMoveKeepsInv(c: Cell, id: nat, p: Helper)
    requires Inv(c) && HelperOk(c.hist, c.killed, p)
    ensures Advances(c, c.(helpers := c.helpers[id := p]))
  {
    CreatorPersists(c, c.(helpers := c.helpers[id := p]));
  }

  lemma HelperTxKeepsInv(c: Cell, id: nat, snap: Session, e: Event, net: Net, p: Helper)
    requires Inv(c) && Snap(c.hist, snap) && Justified(snap, e, c.handed, c.killed)
    requires HelperOk(Tx(c.hist, snap, e, net).0, c.killed, p)
    ensures Advances(c, HelperTx(c, id, snap, e, net, p))
  {
    var c1 := c.(hist := Tx(c.hist, snap, e, net).0);
    TxEffect(c.hist, snap, e, net);
    TxKeepsBase(c, snap, e, net);
    CreatorPersists(c, c1);
    HelperMoveKeepsInv(c1, id, p);
  }

  lemma DeletingStep(c: Cell, id: nat, s: Session, a: HelperAct)
    requires Inv(c) && Snap(c.hist, s)
    ensures Advances(c, FromDeleting(c, id, s, a))
  {
    if a.Ask? {
      var at, net := a.at, a.net;
      AnswerFits(c, s, RequestTermination(at), net);
      var reply := Tx(c.hist, s, RequestTermination(at), net).1;
      HelperTxKeepsInv(c, id, s, RequestTermination(at), net, if reply.Some? then HelperKilling(reply.value) else Gone);
    }
  }

  lemma ReconcilingStep(c: Cell, id: nat, s: Session, a: HelperAct)
    requires Inv(c) && Snap(c.hist, s)
    ensures Advances(c, FromReconciling(c, id, s, a))
  {
    if a.Ask? {
      var at, net := a.at, a.net;
      if s.status.Terminating? {
        HelperMoveKeepsInv(c, id, HelperKilling(s));
      } else if s.status.Active? {
        AnswerFits(c, s, RequestTermination(at), net);
        HelperTxKeepsInv(c, id, s, RequestTermination(at), net, FromReconciling(c, id, s, a).helpers[id]);
      }
    } else if a.FailStale? {
      var at, reason, net := a.at, a.reason, a.net;
      if s.status.Failed? {
        HelperMoveKeepsInv(c, id, Finalizing);
      } else if Early(s.status) {
        HelperTxKeepsInv(c, id, s, Fail(at, reason), net, FromReconciling(c, id, s, a).helpers[id]);
      }
    }
  }

  lemma HelperKillingStep(c: Cell, id: nat, s: Session, a: HelperAct)
    requires Inv(c) && Snap(c.hist, s)
    ensures Advances(c, FromHelperKilling(c, id, s, a))
  {
    if a.HelperTerminate? {
      var effect, confirmed := a.effect, a.confirmed;
      var c1 := Kill(c, ReferenceOf(s), effect || confirmed);
      KillKeepsBase(c, ReferenceOf(s), effect || confirmed);
      CreatorPersists(c, c1);
      HelperMoveKeepsInv(c1, id, FromHelperKilling(c, id, s, a).helpers[id]);
    }
  }

  lemma FinalizingStep(c: Cell, id: nat, net: Net)
    requires Inv(c)
    ensures Advances(c, MarkClaim(c, CreateFailed, net).(helpers := c.helpers[id := Gone]))
  {
    CreatorPersists(c, MarkClaim(c, CreateFailed, net));
    HelperMoveKeepsInv(MarkClaim(c, CreateFailed, net), id, Gone);
  }

  lemma HelperStepKeepsInv(c: Cell, id: nat, a: HelperAct)
    requires Inv(c)
    ensures Advances(c, HelperStep(c, id, a))
  {
    if id !in c.helpers {
      if StartHelper(c, id, a) != c {
        HelperMoveKeepsInv(c, id, StartHelper(c, id, a).helpers[id]);
      }
    } else {
      assert HelperOk(c.hist, c.killed, c.helpers[id]);
      match c.helpers[id]
      case Deleting(s) => DeletingStep(c, id, s, a);
      case Reconciling(s) => ReconcilingStep(c, id, s, a);
      case HelperKilling(s) => HelperKillingStep(c, id, s, a);
      case HelperClosing(s) =>
        if a.HelperConfirm? {
          SnapRefers(c, s);
          HelperTxKeepsInv(c, id, s, CompleteTermination(a.at, a.reason), a.net, Gone);
        }
      case Finalizing =>
        if a.Finalize? {
          FinalizingStep(c, id, a.net);
        }
      case Gone =>
    }
  }

  lemma CellStepKeepsInv(c: Cell, a: CellAct)
    requires Inv(c)
    ensures Advances(c, CellStep(c, a))
  {
    match a
    case ByCreator(act) =>
      if Allocates(c.creator) {
        AllocationKeepsInv(c, act);
      } else {
        RecoveryKeepsInv(c, act);
      }
    case ByHelper(id, help) => HelperStepKeepsInv(c, id, help);
  }

  lemma BornKeepsInv(s: Session, acknowledged: bool)
    requires Fresh(s)
    ensures Inv(Born(s, acknowledged))
  {
  }
}
