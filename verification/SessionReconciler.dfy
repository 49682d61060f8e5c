/**
 * A reconciler pass over the sessions it was given (apps/api/src/reconciliation/session-reconciler.ts:57-145),
 * while other writers work on the same rows.
 */
module SessionReconciler {
  import opened Prelude
  import opened SessionState
  import opened SessionTable
  import opened SessionProtocol

  /** A session as the query read it, some time ago. */
  datatype Candidate = Candidate(session: Session, now: Time, uncertain: bool)

  /** Other writers around the three queries of one transition. */
  datatype Rivals = Rivals(first: seq<Event>, second: seq<Event>, third: seq<Event>)

  /**
   * What the outside does during one `#reconcile`: rivals of its two transitions, another process that
   * completes the creation first, what becomes of each call, and when the browser was confirmed to be gone.
   */
  datatype Script = Script(
    asking: Rivals, asked: Net, outcome: Option<ClaimState>, finalized: Net,
    effect: bool, confirmed: bool, closing: Rivals, closed: Net, closedAt: Time)

  datatype Verdict = Recovered | NotRecovered | Threw

  ghost predicate ReadFrom(s: Session, row: Row)
    reads row
  {
    row.Valid() && s.version < |row.hist| && row.hist[s.version] == s
  }

  /** Where an accepted reconciler event leaves the row. */
  ghost predicate Reaches(e: Event, s: Session) {
    && (e.Fail? ==> s.status.Failed?)
    && (e.RequestTermination? ==> s.status.Terminating? || Terminal(s.status))
    && (e.CompleteTermination? ==> s.status.Terminated?)
  }

  lemma AnswerReaches(s: Session, expected: nat, e: Event)
    requires Sound(s)
    ensures var reply := Atomic(s, expected, e).0; reply.Ok? ==> Reaches(e, reply.session)
  {
  }

  // ---------------------------------------------------------------------------------------------
  // A pass of the protocol

  /** What rivals attempted by the time a call returned. */
  predicate Among(seen: seq<Event>, x: Rivals) {
    || seen == [] || seen == x.first || seen == x.first + x.second
    || seen == x.first + (x.second + x.third)
  }

  function FailReason(c: Candidate): string {
    if c.uncertain then "allocation_outcome_uncertain" else "reconciliation_timeout"
  }

  function CloseReason(c: Candidate): string {
    if c.session.status.Active? then "session_expired" else "reconciled_cleanup"
  }

  /** Sessions whose creation is given up. */
  predicate Abandoned(s: Session) {
    s.status.Failed? || Early(s.status)
  }

  function Amid(c: Cell, seen: seq<Event>): (r: Cell)
    requires c.hist != []
    ensures r.hist != []
  {
    c.(hist := Others(c.hist, seen))
  }

  /** Fail the row, then settle the key. */
  function GiveUp(cell: Cell, id: nat, c: Candidate, x: Script): Cell
    requires cell.hist != []
  {
    var failed := HelperStep(cell, id, FailStale(c.now, FailReason(c), x.asked));
    var raced := if x.outcome.Some? then MarkClaim(failed, x.outcome.value, Delivered) else failed;
    HelperStep(raced, id, Finalize(x.finalized))
  }

  /** End the browser, then complete the row. */
  function TakeDown(cell: Cell, id: nat, c: Candidate, x: Script, closing: seq<Event>): Cell
    requires cell.hist != []
  {
    var killed := HelperStep(cell, id, HelperTerminate(x.effect, x.confirmed));
    HelperStep(Amid(killed, closing), id, HelperConfirm(x.closedAt, CloseReason(c), x.closed))
  }

  /** The steps of one helper, with what others wrote in between; a step that is not its turn changes nothing. */
  function Pass(cell: Cell, id: nat, c: Candidate, x: Script, asking: seq<Event>, closing: seq<Event>): Cell
    requires cell.hist != []
  {
    var start := Amid(cell, asking);
    if Abandoned(c.session) then GiveUp(start, id, c, x)
    else TakeDown(HelperStep(start, id, Ask(c.now, x.asked)), id, c, x, closing)
  }

  /** The tables and the provider are as in this cell; `killed` are the browsers ended since `before`. */
  ghost predicate Shows(row: Row, claim: ClaimState, killed: set<nat>, before: Cell, after: Cell)
    reads row
  {
    after.hist == row.hist && after.claim == claim && after.killed == before.killed + killed
  }

  /** The helper with this number has read this session. */
  ghost predicate Starts(cell: Cell, id: nat, row: Row, claim: ClaimState, s: Session)
    reads row
  {
    ReadFrom(s, row) && cell.hist == row.hist && cell.claim == claim && id in cell.helpers && cell.helpers[id] == Reconciling(s)
  }

  lemma Idle(cell: Cell, id: nat, c: Candidate, x: Script)
    requires cell.hist != [] && id in cell.helpers && (cell.helpers[id].Gone? || cell.helpers[id].Reconciling?)
    ensures TakeDown(cell, id, c, x, []) == cell
  {
    assert Amid(cell, []) == cell;
  }

  /** The key after another process may have completed the creation. */
  function Raced(claim: ClaimState, x: Script): ClaimState {
    if x.outcome.Some? && claim.InProgress? then x.outcome.value else claim
  }

  /** `finalizeReconciledCreate`: the key leaves `in_progress`, if it still is there. */
  function Finalized(claim: ClaimState, net: Net): ClaimState {
    if claim.InProgress? && !net.Aborted? then CreateFailed else claim
  }

  /** A row that has failed already needs no transition; otherwise the key waits for an answer. */
  lemma GivenUp(cell: Cell, id: nat, s: Session, c: Candidate, x: Script)
    requires cell.hist != [] && id in cell.helpers && cell.helpers[id] == Reconciling(s) && Abandoned(s)
    ensures var d, tx := GiveUp(cell, id, c, x), Tx(cell.hist, s, Fail(c.now, FailReason(c)), x.asked);
            && d.hist == (if s.status.Failed? then cell.hist else tx.0) && d.killed == cell.killed
            && d.claim == if s.status.Failed? || tx.1.Some? then Finalized(Raced(cell.claim, x), x.finalized) else Raced(cell.claim, x)
  {
    var failed := HelperStep(cell, id, FailStale(c.now, FailReason(c), x.asked));
    assert failed.helpers[id].Finalizing? || failed.helpers[id].Gone?;
  }

  /** Without a confirmed termination the helper stops there. */
  lemma Unconfirmed(cell: Cell, id: nat, s: Session, c: Candidate, x: Script)
    requires cell.hist != [] && id in cell.helpers && cell.helpers[id] == HelperKilling(s)
    requires !x.confirmed || ReferenceOf(s).None?
    ensures var d := TakeDown(cell, id, c, x, []);
            && d.hist == cell.hist && d.claim == cell.claim
            && d.killed == cell.killed + if x.effect && ReferenceOf(s).Some? then {ReferenceOf(s).value} else {}
  {
    var killed := HelperStep(cell, id, HelperTerminate(x.effect, x.confirmed));
    assert killed.helpers[id].Gone? && Amid(killed, []) == killed;
  }

  lemma {:induction false} ThenCompleted(cell: Cell, id: nat, s: Session, c: Candidate, x: Script, closing: seq<Event>)
    requires cell.hist != [] && id in cell.helpers && cell.helpers[id] == HelperKilling(s)
    requires x.confirmed && ReferenceOf(s).Some?
    ensures var d := TakeDown(cell, id, c, x, closing);
            && d.hist == Tx(Others(cell.hist, closing), s, CompleteTermination(x.closedAt, CloseReason(c)), x.closed).0
            && d.claim == cell.claim && d.killed == cell.killed + {ReferenceOf(s).value}
  {
    var killed := HelperStep(cell, id, HelperTerminate(x.effect, x.confirmed));
    assert killed.helpers[id] == HelperClosing(s) && killed.hist == cell.hist;
  }

  lemma SameReference(h: seq<Session>, v: nat)
    requires Chained(h) && v < |h| && ReferenceOf(h[v]).Some?
    ensures ReferenceOf(h[|h| - 1]) == ReferenceOf(h[v])
  {
    ChainKeeps(h, v);
  }

  // ---------------------------------------------------------------------------------------------
  // The code

  /** The atomic step, seen through the network. */
  lemma AnsweredTx(h: seq<Session>, snap: Session, e: Event, net: Net, answer: Reply, wrote: bool)
    requires h != [] && !net.Aborted? && (answer, wrote) == Atomic(h[|h| - 1], snap.version, e)
    ensures wrote ==> answer.Ok?
    ensures Tx(h, snap, e, net)
         == (h + if wrote then [answer.session] else [], if answer.Ok? && net.Delivered? then Some(answer.session) else None)
  {
    assert h + [] == h;
  }

  /** One transition; an answer is the row as it is now. */
  method Send(row: Row, snap: Session, e: Event, x: Rivals, net: Net) returns (reply: Option<Session>, ghost seen: seq<Event>)
    requires row.Valid()
    modifies row
    ensures row.Valid() && old(row.hist) <= row.hist && Among(seen, x)
    ensures (row.hist, reply) == Tx(Others(old(row.hist), seen), snap, e, net)
    ensures reply.Some? ==> reply.value == row.row && Reaches(e, row.row)
  {
    if net.Aborted? {
      row.Interfere(x.first);
      return None, x.first;
    }
    ghost var k, wrote;
    var answer;
    answer, k, wrote, seen := row.Transition(snap.version, e, x.first, x.second, x.third);
    AnswerReaches(row.hist[k], snap.version, e);
    AnsweredTx(Others(old(row.hist), seen), snap, e, net, answer, wrote);
    reply := if answer.Ok? && net.Delivered? then Some(answer.session) else None;
  }

  /**
   * `#reconcile`, which is one pass of the protocol's helper. Unless it threw the row has ended; a live session
   * was ended only after its own browser, and a creation that was given up has a settled key.
   */
  method Reconcile(row: Row, claim: ClaimState, c: Candidate, x: Script, ghost cell: Cell, ghost id: nat)
    returns (verdict: Verdict, killed: set<nat>, claim': ClaimState, ghost asking: seq<Event>, ghost closing: seq<Event>)
    requires Starts(cell, id, row, claim, c.session)
    modifies row
    ensures row.Valid() && Among(asking, x.asking) && Among(closing, x.closing)
    ensures Shows(row, claim', killed, cell, Pass(cell, id, c, x, asking, closing))
    ensures !verdict.Threw? ==> Terminal(row.row.status)
    ensures verdict.Recovered? && Abandoned(c.session) ==> row.row.status.Failed? && !claim'.InProgress?
    ensures verdict.Recovered? && !Abandoned(c.session) ==>
              row.row.status.Terminated? && ReferenceOf(row.row).Some? && killed == {ReferenceOf(row.row).value}
  {
    if Abandoned(c.session) {
      verdict, claim', asking := Abandon(row, claim, c, x, cell, id);
      killed, closing := {}, [];
    } else {
      claim' := claim;
      verdict, killed, asking, closing := TakeLiveDown(row, c, x, cell, id);
    }
  }

  /** The first two branches of `#reconcile`. */
  method Abandon(row: Row, claim: ClaimState, c: Candidate, x: Script, ghost cell: Cell, ghost id: nat)
    returns (verdict: Verdict, claim': ClaimState, ghost asking: seq<Event>)
    requires Starts(cell, id, row, claim, c.session) && Abandoned(c.session)
    modifies row
    ensures row.Valid() && Among(asking, x.asking) && !verdict.NotRecovered?
    ensures Shows(row, claim', {}, cell, GiveUp(Amid(cell, asking), id, c, x))
    ensures verdict.Recovered? ==> row.row.status.Failed? && !claim'.InProgress?
  {
    asking := [];
    ChainKeeps(row.hist, c.session.version);
    if !c.session.status.Failed? {
      var reply;
      reply, asking := Send(row, c.session, Fail(c.now, FailReason(c)), x.asking, x.asked);
      if reply.None? {
        GivenUp(Amid(cell, asking), id, c.session, c, x);
        return Threw, Raced(claim, x), asking;
      }
    }
    GivenUp(Amid(cell, asking), id, c.session, c, x);
    claim' := Finalized(Raced(claim, x), x.finalized);
    verdict := if x.finalized.Delivered? then Recovered else Threw;
  }

  /** The rest of `#reconcile`: a live session is asked to end, its browser ended and its row completed. */
  method TakeLiveDown(row: Row, c: Candidate, x: Script, ghost cell: Cell, ghost id: nat)
    returns (verdict: Verdict, killed: set<nat>, ghost asking: seq<Event>, ghost closing: seq<Event>)
    requires Starts(cell, id, row, cell.claim, c.session) && !Abandoned(c.session)
    modifies row
    ensures row.Valid() && Among(asking, x.asking) && Among(closing, x.closing)
    ensures Shows(row, cell.claim, killed, cell, Pass(cell, id, c, x, asking, closing))
    ensures !verdict.Threw? ==> Terminal(row.row.status)
    ensures verdict.Recovered? ==>
              row.row.status.Terminated? && ReferenceOf(row.row).Some? && killed == {ReferenceOf(row.row).value}
  {
    var session;
    session, asking := AskToEnd(row, c, x, cell, id);
    ghost var asked := HelperStep(Amid(cell, asking), id, Ask(c.now, x.asked));
    if session.None? {
      Idle(asked, id, c, x);
      return Threw, {}, asking, [];
    }
    if !session.value.status.Terminating? || session.value.reference.None? {
      Idle(asked, id, c, x);
      return NotRecovered, {}, asking, [];
    }
    verdict, killed, closing := Close(row, session.value, c, x, asked, id);
  }

  /** An active session is asked to end; the session to go on with, unless asking threw. */
  method AskToEnd(row: Row, c: Candidate, x: Script, ghost cell: Cell, ghost id: nat)
    returns (session: Option<Session>, ghost asking: seq<Event>)
    requires Starts(cell, id, row, cell.claim, c.session) && !Abandoned(c.session)
    modifies row
    ensures row.Valid() && Among(asking, x.asking)
    ensures var asked := HelperStep(Amid(cell, asking), id, Ask(c.now, x.asked));
            && Shows(row, cell.claim, {}, cell, asked) && asked.claim == cell.claim && id in asked.helpers
            && (session.None? ==> asked.helpers[id].Gone?)
            && (session.Some? ==>
                  && ReadFrom(session.value, row)
                  && if session.value.status.Terminating? then session.value.reference.Some? && asked.helpers[id] == HelperKilling(session.value)
                     else Terminal(row.row.status) && (asked.helpers[id].Gone? || asked.helpers[id].Reconciling?))
  {
    asking := [];
    session := Some(c.session);
    ChainKeeps(row.hist, c.session.version);
    if c.session.status.Active? {
      session, asking := Send(row, c.session, RequestTermination(c.now), x.asking, x.asked);
    }
  }

  /** Terminate the browser, then complete the row. */
  method Close(row: Row, session: Session, c: Candidate, x: Script, ghost cell: Cell, ghost id: nat)
    returns (verdict: Verdict, killed: set<nat>, ghost closing: seq<Event>)
    requires ReadFrom(session, row) && session.status.Terminating? && session.reference.Some?
    requires cell.hist == row.hist && id in cell.helpers && cell.helpers[id] == HelperKilling(session)
    modifies row
    ensures row.Valid() && Among(closing, x.closing) && !verdict.NotRecovered?
    ensures Shows(row, cell.claim, killed, cell, TakeDown(cell, id, c, x, closing))
    ensures verdict.Recovered? ==>
              row.row.status.Terminated? && ReferenceOf(row.row).Some? && killed == {ReferenceOf(row.row).value}
  {
    killed, closing := {}, [];
    var reference := ReferenceOf(session);
    if reference.Some? && (x.effect || x.confirmed) {
      killed := {reference.value};
    }
    if reference.None? || !x.confirmed {
      Unconfirmed(cell, id, session, c, x);
      return Threw, killed, [];
    }
    var answered;
    answered, closing := CompleteRow(row, session, CompleteTermination(x.closedAt, CloseReason(c)), x);
    ThenCompleted(cell, id, session, c, x, closing);
    verdict := if answered then Recovered else Threw;
  }

  /** The last transition: the row it ends still refers to the browser that was ended. */
  method CompleteRow(row: Row, session: Session, e: Event, x: Script) returns (answered: bool, ghost closing: seq<Event>)
    requires ReadFrom(session, row) && ReferenceOf(session).Some? && e.CompleteTermination?
    modifies row
    ensures row.Valid() && Among(closing, x.closing) && row.hist == Tx(Others(old(row.hist), closing), session, e, x.closed).0
    ensures answered ==> row.row.status.Terminated? && ReferenceOf(row.row) == ReferenceOf(session)
  {
    ghost var v := session.version;
    var reply;
    reply, closing := Send(row, session, e, x.closing, x.closed);
    answered := reply.Some?;
    assert row.hist[v] == session;
    SameReference(row.hist, v);
  }

  // ---------------------------------------------------------------------------------------------
  // The batch

  /** How many of the first `k` pass the test. */
  function Count<T>(test: T -> bool, s: seq<T>, k: nat): nat
    requires k <= |s|
  {
    if k == 0 then 0 else Count(test, s, k - 1) + if test(s[k - 1]) then 1 else 0
  }

  lemma {:induction false} CountPrefix<T>(test: T -> bool, s: seq<T>, x: T, k: nat)
    requires k <= |s|
    ensures Count(test, s + [x], k) == Count(test, s, k)
  {
    if k > 0 {
      CountPrefix(test, s, x, k - 1);
    }
  }

  lemma {:induction false} CountOneMore<T>(test: T -> bool, s: seq<T>, x: T)
    ensures Count(test, s + [x], |s| + 1) == Count(test, s, |s|) + if test(x) then 1 else 0
  {
    CountPrefix(test, s, x, |s|);
  }

  lemma CountNext<T>(test: T -> bool, s: seq<T>, k: nat)
    requires k < |s|
    ensures Count(test, s, k + 1) == Count(test, s, k) + if test(s[k]) then 1 else 0
  {
  }

  const SUCCESS := (v: Verdict) => v.Recovered?
  const SUSPECT := (c: Candidate) => c.uncertain

  /** What a helper sees that has just read this session. */
  function Reading(hist: seq<Session>, claim: ClaimState, s: Session): Cell {
    Cell(hist, NotStarted, NotStarted, [], {}, 0, Done, map[0 := Reconciling(s)], claim)
  }

  /** One session that was handled: it has ended unless its turn threw, and what was given up is settled. */
  ghost predicate Handled(row: Row, claim: ClaimState, c: Candidate, v: Verdict)
    reads row
  {
    row.Valid() && (!v.Threw? ==> Terminal(row.row.status)) && (v.Recovered? && Abandoned(c.session) ==> !claim.InProgress?)
  }

  ghost predicate HandledFirst(rows: seq<Row>, claims: seq<ClaimState>, cs: seq<Candidate>, vs: seq<Verdict>)
    requires |claims| == |vs| <= |rows| == |cs|
    reads rows
  {
    forall i {:trigger rows[i]} :: 0 <= i < |vs| ==> Handled(rows[i], claims[i], cs[i], vs[i])
  }

  ghost predicate WaitingFrom(rows: seq<Row>, cs: seq<Candidate>, k: nat)
    requires |rows| == |cs|
    reads rows
  {
    forall i {:trigger rows[i]} :: k <= i < |rows| ==> ReadFrom(cs[i].session, rows[i])
  }

  predicate Different(rows: seq<Row>) {
    forall i, j :: 0 <= i < j < |rows| ==> rows[i] != rows[j]
  }

  /**
   * `runBatch`: every candidate is counted once, as recovered or as unresolved, whatever happens to the
   * others; every session whose turn did not throw has ended.
   */
  method RunBatch(rows: seq<Row>, claims: seq<ClaimState>, cs: seq<Candidate>, scripts: seq<Script>)
    returns (verdicts: seq<Verdict>, claims': seq<ClaimState>, inspected: nat, recovered: nat, unresolved: nat, leaks: nat)
    requires |rows| == |claims| == |cs| == |scripts|
    requires Different(rows) && WaitingFrom(rows, cs, 0)
    modifies rows
    ensures |verdicts| == |claims'| == |cs| && HandledFirst(rows, claims', cs, verdicts)
    ensures inspected == |cs| == recovered + unresolved
    ensures recovered == Count(SUCCESS, verdicts, |cs|) && leaks == Count(SUSPECT, cs, |cs|)
  {
    verdicts, claims', recovered, unresolved, leaks := [], [], 0, 0, 0;
    for k := 0 to |cs|
      invariant |verdicts| == |claims'| == k == recovered + unresolved
      invariant HandledFirst(rows, claims', cs, verdicts) && WaitingFrom(rows, cs, k)
      invariant recovered == Count(SUCCESS, verdicts, k) && leaks == Count(SUSPECT, cs, k)
    {
      CountNext(SUSPECT, cs, k);
      if cs[k].uncertain {
        leaks := leaks + 1;
      }
      var verdict, claim := Turn(rows, claims[k], cs, scripts[k], verdicts, claims');
      CountOneMore(SUCCESS, verdicts, verdict);
      if verdict.Recovered? {
        recovered := recovered + 1;
      } else {
        unresolved := unresolved + 1;
      }
      verdicts, claims' := verdicts + [verdict], claims' + [claim];
    }
    inspected := |cs|;
  }

  /** The next session's turn, which leaves those before and after it alone. */
  method Turn(rows: seq<Row>, claim: ClaimState, cs: seq<Candidate>, x: Script, verdicts: seq<Verdict>, claims: seq<ClaimState>)
    returns (verdict: Verdict, claim': ClaimState)
    requires |claims| == |verdicts| < |rows| == |cs| && Different(rows)
    requires HandledFirst(rows, claims, cs, verdicts) && WaitingFrom(rows, cs, |verdicts|)
    modifies rows[|verdicts|]
    ensures HandledFirst(rows, claims + [claim'], cs, verdicts + [verdict]) && WaitingFrom(rows, cs, |verdicts| + 1)
  {
    var k := |verdicts|;
    var killed;
    ghost var asking, closing;
    verdict, killed, claim', asking, closing :=
      Reconcile(rows[k], claim, cs[k], x, Reading(rows[k].hist, claim, cs[k].session), 0);
    assert Handled(rows[k], claim', cs[k], verdict);
  }
}
