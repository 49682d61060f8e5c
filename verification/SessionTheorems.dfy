/**
 * What holds after every run of creators, DELETE callers and reconciler passes, over any tenants, keys
 * and sessions, with any database call failing, or committing and losing its answer.
 */
module SessionTheorems {
  import opened Prelude
  import opened SessionState
  import opened SessionProtocol
  import opened SessionSafety
  import opened SessionWorld

  // ---------------------------------------------------------------------------------------------
  // The invariant of the world

  ghost predicate CellsOk(cells: map<string, Cell>) {
    forall id :: id in cells ==> Inv(cells[id])
  }

  /** Sessions sit under their own IDs. */
  ghost predicate Placed(cells: map<string, Cell>)
    requires HaveRows(cells)
  {
    forall id :: id in cells ==> Now(cells[id]).id == id
  }

  /** A key belongs to the tenant of its session, and no two keys share a session. */
  ghost predicate KeysOk(w: World)
    requires Populated(w)
  {
    && (forall k :: k in w.keys ==> Now(w.cells[w.keys[k].session]).tenant == k.0)
    && (forall k, l :: k in w.keys && l in w.keys && w.keys[k].session == w.keys[l].session ==> k == l)
  }

  ghost predicate WithinQuota(cells: map<string, Cell>, max: nat)
    requires HaveRows(cells)
  {
    forall t :: |OpenSessions(cells, t)| <= max
  }

  ghost predicate TablesOk(w: World, max: nat) {
    Populated(w) && Placed(w.cells) && KeysOk(w) && WithinQuota(w.cells, max)
  }

  ghost predicate WorldOk(w: World, max: nat) {
    CellsOk(w.cells) && TablesOk(w, max)
  }

  /** What other sessions can see of a step: the session keeps its identity, and does not reopen. */
  ghost predicate SameSession(c: Cell, c': Cell) {
    && c.hist != [] && c'.hist != []
    && Now(c').id == Now(c).id && Now(c').tenant == Now(c).tenant
    && (Terminal(Now(c).status) ==> Terminal(Now(c').status))
  }

  lemma AdvancesInPlace(c: Cell, c': Cell)
    requires Inv(c) && Advances(c, c')
    ensures SameSession(c, c')
  {
    assert StateOk(Now(c), c.hist[0].id, c.hist[0].tenant, c.handed, c.killed);
    assert StateOk(Now(c'), c'.hist[0].id, c'.hist[0].tenant, c'.handed, c'.killed);
  }

  lemma OpenShrinks(cells: map<string, Cell>, id: string, c': Cell, t: string)
    requires HaveRows(cells) && id in cells && SameSession(cells[id], c')
    ensures HaveRows(cells[id := c']) && |OpenSessions(cells[id := c'], t)| <= |OpenSessions(cells, t)|
  {
    assert OpenSessions(cells[id := c'], t) <= OpenSessions(cells, t);
    SubsetSize(OpenSessions(cells[id := c'], t), OpenSessions(cells, t));
  }

  lemma CellStepKeepsTables(w: World, max: nat, id: string, c': Cell)
    requires TablesOk(w, max) && id in w.cells && SameSession(w.cells[id], c')
    ensures TablesOk(w.(cells := w.cells[id := c']), max)
  {
    var cells' := w.cells[id := c'];
    assert HaveRows(cells');
    forall t ensures |OpenSessions(cells', t)| <= max {
      OpenShrinks(w.cells, id, c', t);
    }
  }

  lemma CellStepKeepsWorld(w: World, max: nat, id: string, act: CellAct)
    requires WorldOk(w, max) && id in w.cells
    ensures WorldOk(w.(cells := w.cells[id := CellStep(w.cells[id], act)]), max)
  {
    CellStepKeepsInv(w.cells[id], act);
    AdvancesInPlace(w.cells[id], CellStep(w.cells[id], act));
    CellStepKeepsTables(w, max, id, CellStep(w.cells[id], act));
  }

  lemma OpenGrows(cells: map<string, Cell>, id: string, c: Cell, t: string)
    requires HaveRows(cells) && c.hist != [] && id !in cells && !Terminal(Now(c).status)
    ensures HaveRows(cells[id := c])
    ensures OpenSessions(cells[id := c], t) == OpenSessions(cells, t) + if t == Now(c).tenant then {id} else {}
  {
  }

  lemma InsertKeepsQuota(cells: map<string, Cell>, max: nat, id: string, c: Cell)
    requires HaveRows(cells) && WithinQuota(cells, max) && c.hist != [] && id !in cells && !Terminal(Now(c).status)
    requires |OpenSessions(cells, Now(c).tenant)| < max
    ensures HaveRows(cells[id := c]) && WithinQuota(cells[id := c], max)
  {
    var cells' := cells[id := c];
    assert HaveRows(cells');
    forall t ensures |OpenSessions(cells', t)| <= max {
      OpenGrows(cells, id, c, t);
    }
  }

  lemma InsertKeepsTables(w: World, max: nat, k: Key, row: KeyRow, c: Cell)
    requires TablesOk(w, max) && k !in w.keys && |OpenSessions(w.cells, k.0)| < max
    requires c.hist != [] && Now(c).id == row.session && row.session !in w.cells
    requires Now(c).tenant == k.0 && !Terminal(Now(c).status)
    ensures TablesOk(World(w.cells[row.session := c], w.keys[k := row]), max)
  {
    InsertKeepsQuota(w.cells, max, row.session, c);
  }

  lemma ClaimKeepsWorld(w: World, max: nat, i: ClaimInput, acknowledged: bool)
    requires WorldOk(w, max) && Presentable(i)
    ensures WorldOk(ClaimTx(w, i, max, acknowledged).0, max)
  {
    if ClaimTx(w, i, max, acknowledged).1.Owner? {
      BornKeepsInv(i.session, acknowledged);
      InsertKeepsTables(w, max, i.key, KeyRow(i.hash, i.owner, i.session.id), Born(i.session, acknowledged));
    }
  }

  lemma StepKeepsWorld(w: World, max: nat, a: Action)
    requires WorldOk(w, max)
    ensures WorldOk(Do(w, max, a), max)
  {
    if a.Present? {
      if !a.net.Aborted? && Presentable(a.input) {
        ClaimKeepsWorld(w, max, a.input, a.net.Delivered?);
      }
    } else if a.id in w.cells {
      CellStepKeepsWorld(w, max, a.id, a.act);
    }
  }

  lemma CellKeepsRow(c: Cell, a: CellAct)
    requires c.hist != []
    ensures c.hist <= CellStep(c, a).hist
  {
    if a.ByCreator? {
      CreatorKeepsRow(c, a.act);
    } else {
      HelperKeepsRow(c, a.id, a.help);
    }
  }

  lemma CreatorKeepsRow(c: Cell, a: Act)
    requires c.hist != []
    ensures c.hist <= CreatorStep(c, a).hist
  {
  }

  lemma HelperKeepsRow(c: Cell, id: nat, a: HelperAct)
    requires c.hist != []
    ensures c.hist <= HelperStep(c, id, a).hist
  {
  }

  lemma StepKeepsPopulated(w: World, max: nat, a: Action)
    requires Populated(w)
    ensures Populated(Do(w, max, a))
  {
    if a.InCell? && a.id in w.cells {
      CellKeepsRow(w.cells[a.id], a.act);
    }
  }

  /** The tables after any run. */
  ghost function Run(w: World, max: nat, acts: seq<Action>): (r: World)
    requires Populated(w)
    ensures Populated(r)
    decreases acts
  {
    if acts == [] then w
    else
      StepKeepsPopulated(w, max, acts[0]);
      Run(Do(w, max, acts[0]), max, acts[1..])
  }

  /** The tables after any run of the deployed system, which starts with empty tables. */
  ghost function Reached(max: nat, acts: seq<Action>): (r: World)
    ensures Populated(r)
  {
    Run(EMPTY, max, acts)
  }

  lemma {:induction false} RunKeepsWorld(w: World, max: nat, acts: seq<Action>)
    requires WorldOk(w, max)
    ensures WorldOk(Run(w, max, acts), max)
    decreases acts
  {
    if acts != [] {
      StepKeepsWorld(w, max, acts[0]);
      RunKeepsWorld(Do(w, max, acts[0]), max, acts[1..]);
    }
  }

  /** Every reachable state satisfies the invariant. */
  lemma ReachedIsOk(max: nat, acts: seq<Action>)
    ensures WorldOk(Reached(max, acts), max)
  {
    assert forall t :: OpenSessions(EMPTY.cells, t) == {};
    RunKeepsWorld(EMPTY, max, acts);
  }

  // ---------------------------------------------------------------------------------------------
  // Safety of every reachable state

  /**
   * No silent leak: every browser handed back is terminated at the provider, or referenced by an active
   * or terminating row, or its attempt row is still `started`.
   */
  lemma NoSilentLeak(max: nat, acts: seq<Action>, id: string, i: nat)
    requires id in Reached(max, acts).cells && i < |Reached(max, acts).cells[id].handed|
    ensures var c := Reached(max, acts).cells[id];
            var browser := c.handed[i];
            || browser.reference in c.killed
            || ((Now(c).status.Active? || Now(c).status.Terminating?)
                && Now(c).reference == Some(Sealed(browser.reference, Now(c).tenant, id)))
            || AttemptOf(c, browser.attempt).Started?
  {
    ReachedIsOk(max, acts);
    var c := Reached(max, acts).cells[id];
    assert Inv(c) && Now(c).id == id;
    assert Covered(Now(c), c.first, c.second, c.killed, c.handed[i]);
    assert StateOk(Now(c), c.hist[0].id, c.hist[0].tenant, c.handed, c.killed);
  }

  /**
   * Across tables: a terminated row refers to a browser that was really terminated, a row that ever held
   * a reference never fails, and a succeeded creation points at an active, terminating or terminated row.
   */
  lemma TablesAgree(max: nat, acts: seq<Action>, id: string)
    requires id in Reached(max, acts).cells
    ensures var c := Reached(max, acts).cells[id];
            && (Now(c).status.Terminated? ==> ReferenceOf(Now(c)).Some? && ReferenceOf(Now(c)).value in c.killed)
            && (forall i :: 0 <= i < |c.hist| && c.hist[i].reference.Some? ==> !Now(c).status.Failed? && Now(c).reference == c.hist[i].reference)
            && (c.claim.CreateSucceeded? ==> Now(c).status.Active? || Now(c).status.Terminating? || Now(c).status.Terminated?)
  {
    ReachedIsOk(max, acts);
    var c := Reached(max, acts).cells[id];
    assert Inv(c);
    assert StateOk(Now(c), c.hist[0].id, c.hist[0].tenant, c.handed, c.killed);
    forall i | 0 <= i < |c.hist| && c.hist[i].reference.Some?
      ensures !Now(c).status.Failed? && Now(c).reference == c.hist[i].reference
    {
      assert StateOk(c.hist[i], c.hist[0].id, c.hist[0].tenant, c.handed, c.killed);
    }
  }

  /** A key has one session of its own tenant that no other key has, which called the provider at most twice. */
  lemma OneSessionPerKey(max: nat, acts: seq<Action>, k: Key, l: Key)
    requires k in Reached(max, acts).keys && l in Reached(max, acts).keys
    ensures var w := Reached(max, acts);
            && w.keys[k].session in w.cells
            && Now(w.cells[w.keys[k].session]).tenant == k.0
            && w.cells[w.keys[k].session].calls <= 2 && |w.cells[w.keys[k].session].handed| <= 1
            && (w.keys[k].session == w.keys[l].session <==> k == l)
  {
    ReachedIsOk(max, acts);
    var w := Reached(max, acts);
    assert Inv(w.cells[w.keys[k].session]);
  }

  lemma OpenWithinQuota(max: nat, acts: seq<Action>, tenant: string)
    ensures |OpenSessions(Reached(max, acts).cells, tenant)| <= max
  {
    ReachedIsOk(max, acts);
  }

  // ---------------------------------------------------------------------------------------------
  // How the tables move

  /** Keys are permanent, histories only grow, ended rows stay and outcomes are written once. */
  ghost predicate Forward(w: World, w': World) {
    && HaveRows(w.cells) && HaveRows(w'.cells)
    && (forall k :: k in w.keys ==> k in w'.keys && w'.keys[k] == w.keys[k])
    && (forall id :: id in w.cells ==> id in w'.cells && Grows(w.cells[id], w'.cells[id]))
  }

  lemma PresentMovesForward(w: World, max: nat, i: ClaimInput, net: Net)
    requires Populated(w)
    ensures Forward(w, DoPresent(w, max, i, net))
  {
  }

  lemma CellMovesForward(w: World, id: string, c': Cell)
    requires Populated(w) && id in w.cells && Grows(w.cells[id], c')
    ensures Forward(w, w.(cells := w.cells[id := c']))
  {
  }

  lemma InCellMovesForward(w: World, id: string, act: CellAct)
    requires Populated(w) && (id in w.cells ==> Inv(w.cells[id]))
    ensures Forward(w, DoInCell(w, id, act))
  {
    if id in w.cells {
      CellStepKeepsInv(w.cells[id], act);
      CellMovesForward(w, id, CellStep(w.cells[id], act));
    }
  }

  lemma StepMovesForward(w: World, max: nat, a: Action)
    requires WorldOk(w, max)
    ensures Forward(w, Do(w, max, a))
  {
    if a.Present? {
      PresentMovesForward(w, max, a.input, a.net);
    } else {
      InCellMovesForward(w, a.id, a.act);
    }
  }

  lemma GrowsTransitive(a: Cell, b: Cell, c: Cell)
    requires a.hist != [] && b.hist != [] && Grows(a, b) && Grows(b, c)
    ensures Grows(a, c)
  {
  }

  lemma ForwardTransitive(w: World, w': World, w'': World)
    requires Forward(w, w') && Forward(w', w'')
    ensures Forward(w, w'')
  {
    forall id | id in w.cells ensures id in w''.cells && Grows(w.cells[id], w''.cells[id]) {
      GrowsTransitive(w.cells[id], w'.cells[id], w''.cells[id]);
    }
  }

  lemma {:induction false} RunMovesForward(w: World, max: nat, acts: seq<Action>)
    requires WorldOk(w, max)
    ensures Forward(w, Run(w, max, acts))
    decreases acts
  {
    if acts != [] {
      StepKeepsWorld(w, max, acts[0]);
      StepMovesForward(w, max, acts[0]);
      RunMovesForward(Do(w, max, acts[0]), max, acts[1..]);
      ForwardTransitive(w, Do(w, max, acts[0]), Run(w, max, acts));
    }
  }

  lemma {:induction false} RunInTwo(w: World, max: nat, acts: seq<Action>, more: seq<Action>)
    requires Populated(w)
    ensures Run(w, max, acts + more) == Run(Run(w, max, acts), max, more)
    decreases acts
  {
    if acts == [] {
      assert acts + more == more;
    } else {
      assert (acts + more)[1..] == acts[1..] + more;
      StepKeepsPopulated(w, max, acts[0]);
      RunInTwo(Do(w, max, acts[0]), max, acts[1..], more);
    }
  }

  lemma LaterClaim(w: World, w': World, max: nat, key: Key, j: ClaimInput, acknowledged: bool)
    requires Populated(w) && Populated(w') && Forward(w, w') && key in w.keys && j.key == key
    ensures var row := w.keys[key];
            ClaimTx(w', j, max, acknowledged)
            == (w', if j.hash != row.hash then HashConflict
                    else Existing(Now(w'.cells[row.session]), w'.cells[row.session].claim))
  {
  }

  /**
   * At most one owner per key: once a claim owned the key, every later claim for it, after any further
   * steps, changes nothing and is answered with that same session, or with a conflict exactly when its
   * hash differs.
   */
  lemma KeyIsOwnedOnce(max: nat, acts: seq<Action>, i: ClaimInput, net: Net, more: seq<Action>, j: ClaimInput, ack: bool)
    requires Presentable(i) && !net.Aborted? && j.key == i.key
    requires ClaimTx(Reached(max, acts), i, max, net.Delivered?).1.Owner?
    ensures var later := Reached(max, acts + [Present(i, net)] + more);
            && i.session.id in later.cells
            && ClaimTx(later, j, max, ack)
               == (later, if j.hash != i.hash then HashConflict
                          else Existing(Now(later.cells[i.session.id]), later.cells[i.session.id].claim))
  {
    ReachedIsOk(max, acts);
    ReachedIsOk(max, acts + [Present(i, net)]);
    RunInTwo(EMPTY, max, acts, [Present(i, net)]);
    RunInTwo(EMPTY, max, acts + [Present(i, net)], more);
    var w, owned := Reached(max, acts), Reached(max, acts + [Present(i, net)]);
    OwnerIsRecorded(w, max, i, net);
    RunMovesForward(owned, max, more);
    LaterClaim(owned, Run(owned, max, more), max, i.key, j, ack);
  }

  lemma {:induction false} RunOfOne(w: World, max: nat, a: Action)
    requires Populated(w)
    ensures Run(w, max, [a]) == Do(w, max, a)
  {
    StepKeepsPopulated(w, max, a);
    assert [a][1..] == [];
  }

  lemma {:induction false} OwnerIsRecorded(w: World, max: nat, i: ClaimInput, net: Net)
    requires Populated(w) && Presentable(i) && !net.Aborted? && ClaimTx(w, i, max, net.Delivered?).1.Owner?
    ensures var w' := Run(w, max, [Present(i, net)]);
            i.key in w'.keys && w'.keys[i.key].hash == i.hash && w'.keys[i.key].session == i.session.id
  {
    RunOfOne(w, max, Present(i, net));
  }
}
