/**
 * Session creation across tenants and idempotency keys
 * (apps/api/src/database/postgres-session-create-coordinator.ts), over the cells of SessionProtocol.
 */
module SessionWorld {
  import opened SessionState
  import opened SessionProtocol

  /** A tenant and the idempotency key its client sent. */
  type Key = (string, string)

  /** An idempotency row; its outcome is the `claim` of the cell of its session. */
  datatype KeyRow = KeyRow(hash: string, owner: string, session: string)

  datatype World = World(cells: map<string, Cell>, keys: map<Key, KeyRow>)

  datatype ClaimInput = ClaimInput(key: Key, hash: string, owner: string, session: Session)

  datatype Claim =
    | Owner(session: Session)
    | Existing(session: Session, state: ClaimState)
    | HashConflict
    | QuotaExceeded
    | ClaimError

  predicate HaveRows(cells: map<string, Cell>) {
    forall id :: id in cells ==> cells[id].hist != []
  }

  predicate Populated(w: World) {
    && HaveRows(w.cells)
    && (forall k :: k in w.keys ==> w.keys[k].session in w.cells)
  }

  /** The sessions of a tenant that count against its quota. */
  function OpenSessions(cells: map<string, Cell>, tenant: string): set<string>
    requires HaveRows(cells)
  {
    set id | id in cells && Now(cells[id]).tenant == tenant && !Terminal(Now(cells[id]).status)
  }

  /** The claim transaction as one step: the tables after it, and the answer computed inside it. */
  function ClaimTx(w: World, i: ClaimInput, max: nat, acknowledged: bool): (World, Claim)
    requires Populated(w)
  {
    if i.key in w.keys then
      var row := w.keys[i.key];
      (w, if row.hash != i.hash then HashConflict else Existing(Now(w.cells[row.session]), w.cells[row.session].claim))
    else if |OpenSessions(w.cells, i.key.0)| >= max then (w, QuotaExceeded)
    else if i.session.id in w.cells then (w, ClaimError)
    else
      (World(w.cells[i.session.id := Born(i.session, acknowledged)],
             w.keys[i.key := KeyRow(i.hash, i.owner, i.session.id)]), Owner(i.session))
  }

  /** A client presents a key, or some process works on one session. */
  datatype Action =
    | Present(input: ClaimInput, net: Net)
    | InCell(id: string, act: CellAct)

  /** What the service passes to the coordinator: a pending session of the tenant that asks. */
  predicate Presentable(i: ClaimInput) {
    Fresh(i.session) && i.session.tenant == i.key.0
  }

  function DoPresent(w: World, max: nat, i: ClaimInput, net: Net): World
    requires Populated(w)
  {
    if net.Aborted? || !Presentable(i) then w else ClaimTx(w, i, max, net.Delivered?).0
  }

  function DoInCell(w: World, id: string, act: CellAct): World
    requires Populated(w)
  {
    if id in w.cells then w.(cells := w.cells[id := CellStep(w.cells[id], act)]) else w
  }

  function Do(w: World, max: nat, a: Action): World
    requires Populated(w)
  {
    if a.Present? then DoPresent(w, max, a.input, a.net) else DoInCell(w, a.id, a.act)
  }

  const EMPTY := World(map[], map[])
}
