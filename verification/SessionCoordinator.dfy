/**
 * The claim transaction statement by statement
 * (apps/api/src/database/postgres-session-create-coordinator.ts:33-75,117-146).
 */
module SessionCoordinator {
  import opened Prelude
  import opened SessionProtocol
  import opened SessionWorld

  /** An idempotency row as the transaction itself sees it, before the session is linked. */
  datatype DraftRow = DraftRow(hash: string, owner: string, session: Option<string>)

  predicate Linked(rows: map<Key, DraftRow>) {
    forall k :: k in rows ==> rows[k].session.Some?
  }

  function Rows(rows: map<Key, DraftRow>): map<Key, KeyRow>
    requires Linked(rows)
  {
    map k | k in rows :: KeyRow(rows[k].hash, rows[k].owner, rows[k].session.value)
  }

  class Coordinator {
    var cells: map<string, Cell>
    var rows: map<Key, DraftRow>

    predicate Valid()
      reads this
    {
      Linked(rows) && Populated(World(cells, Rows(rows)))
    }

    function Tables(): World
      requires Valid()
      reads this
    {
      World(cells, Rows(rows))
    }

    /** `readExisting`. */
    method ReadExisting(key: Key, hash: string) returns (claim: Claim)
      requires Valid() && key in rows
      ensures var row := Tables().keys[key];
              claim == if row.hash != hash then HashConflict else Existing(Now(cells[row.session]), cells[row.session].claim)
    {
      var row := rows[key];
      if row.hash != hash {
        return HashConflict;
      }
      assert Rows(rows)[key].session in cells;
      var c := cells[row.session.value];
      claim := Existing(Now(c), c.claim);
    }

    /**
     * Insert the key, count, and either take the key back, or insert the session and link it. A session
     * ID that exists already violates the primary key and rolls the transaction back.
     */
    method Claim(i: ClaimInput, max: nat, acknowledged: bool) returns (claim: Claim)
      requires Valid()
      modifies this
      ensures Valid() && (Tables(), claim) == ClaimTx(old(Tables()), i, max, acknowledged)
    {
      ghost var before := Tables();
      var saved := rows;
      if i.key in rows {
        claim := ReadExisting(i.key, i.hash);
        return;
      }
      rows := rows[i.key := DraftRow(i.hash, i.owner, None)];
      var count := |OpenSessions(cells, i.key.0)|;
      if count >= max {
        rows := rows - {i.key};
        assert rows == saved;
        return QuotaExceeded;
      }
      if i.session.id in cells {
        rows := saved;
        return ClaimError;
      }
      cells := cells[i.session.id := Born(i.session, acknowledged)];
      rows := rows[i.key := rows[i.key].(session := Some(i.session.id))];
      assert Rows(rows) == before.keys[i.key := KeyRow(i.hash, i.owner, i.session.id)];
      claim := Owner(i.session);
    }
  }
}
