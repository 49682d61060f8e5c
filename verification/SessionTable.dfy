/**
 * Optimistic concurrency on one session row (apps/api/src/database/postgres-session-repository.ts).
 * `transitionSessionForTenant` reads, computes and compare-and-sets in separate queries, so other
 * writers can run between any two of them.
 */
module SessionTable {
  import opened SessionState

  datatype Reply = Ok(session: Session) | Conflict | InvalidTransition | SchemaRejected

  /** The transition as if it were one atomic step on this row: the reply, and whether it wrote. */
  function Atomic(row: Session, expected: nat, e: Event): (Reply, bool) {
    match Apply(row, e)
    case SchemaError => (SchemaRejected, false)
    case Invalid => (if row.version == expected then InvalidTransition else Conflict, false)
    case Next(n) =>
      if n.version == row.version then (Ok(row), false)
      else if row.version == expected then (Ok(n), true)
      else (Conflict, false)
  }

  /** `resolveConflict`: a transition that would change nothing is still a success. */
  function Resolve(row: Session, e: Event): Reply {
    match Apply(row, e)
    case SchemaError => SchemaRejected
    case Invalid => Conflict
    case Next(n) => if n.version == row.version then Ok(row) else Conflict
  }

  /** Losing the race is answered as an atomic step on the row that won it. */
  lemma ResolveIsAtomic(row: Session, expected: nat, e: Event)
    requires row.version != expected
    ensures Atomic(row, expected, e) == (Resolve(row, e), false)
  {
  }

  datatype Decision = Answer(reply: Reply) | Update(next: Session)

  /** What `transitionSessionForTenant` does with the row it read. */
  function Decide(current: Session, expected: nat, e: Event): Decision {
    if current.version != expected then Answer(Resolve(current, e))
    else
      match Apply(current, e)
      case Invalid => Answer(InvalidTransition)
      case SchemaError => Answer(SchemaRejected)
      case Next(n) => if n.version == current.version then Answer(Ok(current)) else Update(n)
  }

  lemma DecideIsAtomic(current: Session, expected: nat, e: Event)
    ensures match Decide(current, expected, e)
            case Answer(reply) => Atomic(current, expected, e) == (reply, false)
            case Update(n) => expected == current.version && Atomic(current, expected, e) == (Ok(n), true) && Apply(current, e) == Next(n)
  {
  }

  /** All states a row went through, version by version, each of them sound. */
  predicate History(h: seq<Session>) {
    && 0 < |h|
    && (forall i :: 0 <= i < |h| ==> Sound(h[i]) && h[i].version == i)
  }

  /** What every accepted step keeps: identity and reference, and that nothing follows an ended state. */
  predicate Follows(a: Session, b: Session) {
    SameSession(a, b) && !Terminal(a.status) && (a.reference.Some? ==> b.reference == a.reference)
  }

  ghost predicate Chained(h: seq<Session>) {
    forall i, j :: 0 <= i < j < |h| && j == i + 1 ==> Follows(h[i], h[j])
  }

  /** Whatever a row once referred to it still refers to, and an ended state is its last. */
  lemma {:induction false} ChainKeeps(h: seq<Session>, i: nat)
    requires Chained(h) && i < |h|
    ensures var last := h[|h| - 1];
            && SameSession(h[i], last) && (h[i].reference.Some? ==> last.reference == h[i].reference)
            && (Terminal(h[i].status) ==> i == |h| - 1)
    decreases |h| - i
  {
    if i + 1 < |h| {
      assert Follows(h[i], h[i + 1]);
      ChainKeeps(h, i + 1);
    }
  }

  /** The history after one attempt by another writer: a step of the machine, or nothing. */
  function Attempted(h: seq<Session>, e: Event): seq<Session>
    requires h != []
  {
    match Apply(h[|h| - 1], e)
    case Next(n) => if n.version != h[|h| - 1].version then h + [n] else h
    case _ => h
  }

  /** The history after other writers attempted these events one after the other, and nobody else wrote. */
  function Others(h: seq<Session>, rivals: seq<Event>): (r: seq<Session>)
    requires h != []
    ensures r != [] && h <= r
  {
    if rivals == [] then h else Attempted(Others(h, rivals[..|rivals| - 1]), rivals[|rivals| - 1])
  }

  lemma {:induction false} OthersNext(h: seq<Session>, rivals: seq<Event>, e: Event)
    requires h != []
    ensures Others(h, rivals + [e]) == Attempted(Others(h, rivals), e)
  {
    assert (rivals + [e])[..|rivals|] == rivals;
  }

  lemma {:induction false} OthersJoin(h: seq<Session>, a: seq<Event>, b: seq<Event>)
    requires h != []
    ensures Others(h, a + b) == Others(Others(h, a), b)
    decreases |b|
  {
    if b == [] {
      assert a + b == a;
    } else {
      var n := |b| - 1;
      OthersJoin(h, a, b[..n]);
      assert a + b == (a + b[..n]) + [b[n]] && b == b[..n] + [b[n]];
      OthersNext(h, a + b[..n], b[n]);
      OthersNext(Others(h, a), b[..n], b[n]);
    }
  }

  class Row {
    var row: Session
    ghost var hist: seq<Session>

    ghost predicate Valid()
      reads this
    {
      History(hist) && Chained(hist) && row == hist[|hist| - 1]
    }

    constructor (initial: Session)
      requires Fresh(initial)
      ensures Valid() && hist == [initial]
    {
      row, hist := initial, [initial];
    }

    method Append(n: Session)
      requires Valid() && Sound(n) && n.version == row.version + 1 && Follows(row, n)
      modifies this
      ensures Valid() && row == n && hist == old(hist) + [n]
    {
      row := n;
      hist := hist + [n];
    }

    /** Other writers: whatever they attempt, the machine accepts it or nothing happens. */
    method Interfere(rivals: seq<Event>)
      requires Valid()
      modifies this
      ensures Valid() && hist == Others(old(hist), rivals)
    {
      for i := 0 to |rivals|
        invariant Valid() && hist == Others(old(hist), rivals[..i])
      {
        assert rivals[..i + 1][..i] == rivals[..i];
        StepKeepsSound(row, rivals[i]);
        var outcome := Apply(row, rivals[i]);
        if outcome.Next? && outcome.session.version != row.version {
          Append(outcome.session);
        }
      }
      assert rivals[..|rivals|] == rivals;
    }

    /** `update … where version = … and status = …`: writes exactly when the row is still the one read. */
    method CompareAndSet(current: Session, next: Session) returns (written: bool)
      requires Valid() && Sound(next) && next.version == current.version + 1 && Follows(current, next)
      requires current.version < |hist| && hist[current.version] == current
      modifies this
      ensures Valid() && written == (old(row) == current)
      ensures hist == if written then old(hist) + [next] else old(hist)
      ensures written <==> old(row.version) == current.version
    {
      written := row.version == current.version && row.status == current.status;
      if written {
        Append(next);
      }
    }

    /**
     * Read, compute, compare-and-set, and on failure read again, while other writers run before and
     * between the queries; `seen` is what they attempted by the time the call returned. The call takes
     * effect as one atomic step at some state `hist[k]` the row had while it ran: the reply is the atomic
     * reply there, and the row has moved by what the others did and, exactly when the atomic step writes,
     * by that one step.
     */
    method Transition(expected: nat, e: Event, first: seq<Event>, second: seq<Event>, third: seq<Event>)
      returns (reply: Reply, ghost k: nat, ghost wrote: bool, ghost seen: seq<Event>)
      requires Valid()
      modifies this
      ensures Valid() && (seen == first || seen == first + second || seen == first + (second + third))
      ensures |old(hist)| - 1 <= k < |hist| && (reply, wrote) == Atomic(hist[k], expected, e)
      ensures if wrote then k == expected == |hist| - 2 && reply.Ok? else k == |hist| - 1
      ensures hist == Others(old(hist), seen) + if wrote then [reply.session] else []
    {
      Interfere(first);
      k, wrote, seen := |hist| - 1, false, first;
      DecideIsAtomic(row, expected, e);
      match Decide(row, expected, e) {
        case Answer(r) => reply := r;
        case Update(next) =>
          ghost var more;
          reply, k, wrote, more := Write(row, next, e, second, third);
          OthersJoin(old(hist), first, more);
          seen := first + more;
      }
    }

    /** The second half: the row was read at the expected version and the event changes it. */
    method Write(current: Session, next: Session, e: Event, second: seq<Event>, third: seq<Event>)
      returns (reply: Reply, ghost k: nat, ghost wrote: bool, ghost seen: seq<Event>)
      requires Valid() && row == current && Atomic(current, current.version, e) == (Ok(next), true) && Apply(current, e) == Next(next)
      modifies this
      ensures Valid() && (seen == second || seen == second + third)
      ensures |old(hist)| - 1 <= k < |hist| && (reply, wrote) == Atomic(hist[k], current.version, e)
      ensures if wrote then k == current.version == |hist| - 2 && reply == Ok(next) else k == |hist| - 1
      ensures hist == Others(old(hist), seen) + if wrote then [next] else []
    {
      StepKeepsSound(current, e);
      Interfere(second);
      var written := CompareAndSet(current, next);
      k, wrote, seen := current.version, written, second;
      if written {
        reply := Ok(row);
      } else {
        reply, k := Resolved(current.version, e, third);
        OthersJoin(old(hist), second, third);
        seen := second + third;
      }
    }

    /** The row is no longer the one read, and is read once more. */
    method Resolved(expected: nat, e: Event, third: seq<Event>) returns (reply: Reply, ghost k: nat)
      requires Valid() && expected < row.version
      modifies this
      ensures Valid() && hist == Others(old(hist), third) && k == |hist| - 1
      ensures (reply, false) == Atomic(hist[k], expected, e)
    {
      Interfere(third);
      k := |hist| - 1;
      reply := Resolve(row, e);
      ResolveIsAtomic(row, expected, e);
    }
  }

  // ---------------------------------------------------------------------------------------------
  // Competing writers

  datatype Call = Call(expected: nat, event: Event)

  /** The row after the calls took effect in this order. */
  function Play(row: Session, calls: seq<Call>): Session
    decreases calls
  {
    if calls == [] then row
    else
      var (reply, wrote) := Atomic(row, calls[0].expected, calls[0].event);
      Play(if wrote then reply.session else row, calls[1..])
  }

  predicate Wins(row: Session, calls: seq<Call>, i: nat)
    requires i < |calls|
  {
    Atomic(Play(row, calls[..i]), calls[i].expected, calls[i].event).1
  }

  lemma {:induction false} PlayExtends(row: Session, calls: seq<Call>, i: nat)
    requires Sound(row) && i < |calls|
    ensures var before := Play(row, calls[..i]);
            var after := Play(row, calls[..i + 1]);
            && Sound(before) && Sound(after)
            && (Wins(row, calls, i) ==> before.version == calls[i].expected && after.version == before.version + 1)
            && (!Wins(row, calls, i) ==> after == before)
    decreases calls
  {
    var (reply, wrote) := Atomic(row, calls[0].expected, calls[0].event);
    StepKeepsSound(row, calls[0].event);
    var row' := if wrote then reply.session else row;
    assert calls[..i + 1][1..] == calls[1..][..i];
    if i > 0 {
      assert calls[..i][1..] == calls[1..][..i - 1];
      PlayExtends(row', calls[1..], i - 1);
    }
  }

  lemma {:induction false} VersionsGrow(row: Session, calls: seq<Call>, i: nat, j: nat)
    requires Sound(row) && i <= j <= |calls|
    ensures Play(row, calls[..i]).version <= Play(row, calls[..j]).version
    decreases j
  {
    if i < j {
      PlayExtends(row, calls, j - 1);
      VersionsGrow(row, calls, i, j - 1);
    }
  }

  /** Of any writers sharing an expected version, at most one changes the row. */
  lemma OneWinnerPerVersion(row: Session, calls: seq<Call>, i: nat, j: nat)
    requires Sound(row) && i < j < |calls| && calls[i].expected == calls[j].expected
    ensures Wins(row, calls, i) ==> !Wins(row, calls, j)
  {
    PlayExtends(row, calls, i);
    PlayExtends(row, calls, j);
    VersionsGrow(row, calls, i + 1, j);
  }
}
