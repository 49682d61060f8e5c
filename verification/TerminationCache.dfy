/**
 * Which browser sessions the provider client remembers as terminated, and how it keeps one upstream DELETE
 * per session in flight (packages/provider-cloudflare/src/cloudflare-browser-run-provider.ts:395-457,524-552).
 */
module TerminationCache {
  import opened Prelude

  const MAX_RECENT: nat := 64
  const TTL: nat := 10 * 60 * 1000

  /** An entry of the map: session and expiry, in insertion order. */
  datatype Entry = Entry(id: string, expiry: nat)

  /** One confirmed termination. */
  datatype Confirmed = Confirmed(id: string, at: Time)

  // ---------------------------------------------------------------------------------------------
  // What the log of confirmed terminations says

  /** Sessions confirmed from position `j` on. */
  ghost function Since(log: seq<Confirmed>, j: nat): set<string> {
    set i | j <= i < |log| :: log[i].id
  }

  /** `j` is the last confirmation of `id`. */
  ghost predicate IsLast(log: seq<Confirmed>, id: string, j: nat) {
    j < |log| && log[j].id == id && id !in Since(log, j + 1)
  }

  /**
   * The promise: the last confirmation is under ten minutes old, and fewer than 64 other sessions were
   * confirmed after it.
   */
  ghost predicate Recent(log: seq<Confirmed>, id: string, now: Time) {
    exists j: nat :: IsLast(log, id, j) && now < log[j].at + TTL && |Since(log, j + 1)| < MAX_RECENT
  }

  ghost predicate Monotone(log: seq<Confirmed>, clock: Time) {
    && (forall i, j :: 0 <= i < j < |log| ==> log[i].at <= log[j].at)
    && (forall i :: 0 <= i < |log| ==> log[i].at <= clock)
  }

  // ---------------------------------------------------------------------------------------------
  // The entries as positions in the log

  /** The entry made by the confirmation at position `j`. */
  ghost function At(log: seq<Confirmed>, j: nat): Entry
    requires j < |log|
  {
    Entry(log[j].id, log[j].at + TTL)
  }

  ghost predicate Expired(log: seq<Confirmed>, j: nat, now: Time)
    requires j < |log|
  {
    log[j].at + TTL <= now
  }

  /** Positions in increasing order, each the last confirmation of its session. */
  ghost predicate Ordered(log: seq<Confirmed>, pos: seq<nat>) {
    && (forall i :: 0 <= i < |pos| ==> pos[i] < |log| && IsLast(log, log[pos[i]].id, pos[i]))
    && (forall i, k :: 0 <= i < k < |pos| ==> pos[i] < pos[k])
  }

  /** Nothing live is missing after a live entry: whatever was dropped is older or expired. */
  ghost predicate Closed(log: seq<Confirmed>, pos: seq<nat>, clock: Time)
    requires Ordered(log, pos)
  {
    forall i, j: nat :: (0 <= i < |pos| && !Expired(log, pos[i], clock) && pos[i] < j < |log|
                         && IsLast(log, log[j].id, j)) ==> j in pos
  }

  /** What is live and missing was pushed out by 64 others. */
  ghost predicate Crowded(log: seq<Confirmed>, pos: seq<nat>, clock: Time) {
    forall j: nat | j < |log| && IsLast(log, log[j].id, j) && !Expired(log, j, clock) && j !in pos
      :: |Since(log, j + 1)| >= MAX_RECENT
  }

  ghost predicate Good(log: seq<Confirmed>, pos: seq<nat>, clock: Time) {
    Monotone(log, clock) && Ordered(log, pos) && Closed(log, pos, clock) && Crowded(log, pos, clock)
  }

  /** The map holds the entries of these positions, in this order. */
  ghost predicate Listed(log: seq<Confirmed>, pos: seq<nat>, entries: seq<Entry>) {
    && |entries| == |pos|
    && (forall i :: 0 <= i < |pos| ==> pos[i] < |log| && entries[i] == At(log, pos[i]))
  }

  function Cut<T>(s: seq<T>, i: nat): seq<T>
    requires i < |s|
  {
    s[..i] + s[i + 1..]
  }

  lemma CutElements(pos: seq<nat>, i: nat)
    requires i < |pos| && (forall k, l :: 0 <= k < l < |pos| ==> pos[k] < pos[l])
    ensures var p := Cut(pos, i);
            && (forall j :: j in p <==> j in pos && j != pos[i])
            && (forall k, l :: 0 <= k < l < |p| ==> p[k] < p[l])
  {
    var p := Cut(pos, i);
    forall j | j in pos && j != pos[i] ensures j in p {
      var k :| 0 <= k < |pos| && pos[k] == j;
      assert p[if k < i then k else k - 1] == j;
    }
  }

  lemma ListedCut(log: seq<Confirmed>, pos: seq<nat>, entries: seq<Entry>, i: nat)
    requires Listed(log, pos, entries) && i < |pos|
    ensures Listed(log, Cut(pos, i), Cut(entries, i))
  {
  }

  lemma ListedConfirm(log: seq<Confirmed>, p: seq<nat>, entries: seq<Entry>, d: nat, c: Confirmed)
    requires d <= |p| && Listed(log, p[d..], entries)
    ensures Listed(log + [c], (p + [|log|])[d..], entries + [Entry(c.id, c.at + TTL)])
  {
    var q := (p + [|log|])[d..];
    assert q == p[d..] + [|log|];
  }

  /** Time passing only expires entries. */
  lemma GoodLater(log: seq<Confirmed>, pos: seq<nat>, clock: Time, now: Time)
    requires Good(log, pos, clock) && clock <= now
    ensures Good(log, pos, now)
  {
  }

  /** An expired entry may go. */
  lemma DropExpired(log: seq<Confirmed>, pos: seq<nat>, clock: Time, i: nat)
    requires Good(log, pos, clock) && i < |pos| && Expired(log, pos[i], clock)
    ensures Good(log, Cut(pos, i), clock)
  {
    var p := Cut(pos, i);
    CutElements(pos, i);
    forall k | 0 <= k < |p| ensures p[k] < |log| && IsLast(log, log[p[k]].id, p[k]) {
      assert p[k] in pos;
    }
    forall k, j: nat | 0 <= k < |p| && !Expired(log, p[k], clock) && p[k] < j < |log| && IsLast(log, log[j].id, j)
      ensures j in p
    {
      assert p[k] in pos && j in pos;
    }
  }

  lemma SinceExtends(log: seq<Confirmed>, c: Confirmed, j: nat)
    requires j <= |log|
    ensures Since(log + [c], j) == Since(log, j) + {c.id}
  {
    var log' := log + [c];
    assert log'[|log|].id == c.id;
    assert forall i :: 0 <= i < |log| ==> log'[i] == log[i];
  }

  lemma LastExtends(log: seq<Confirmed>, c: Confirmed, j: nat)
    requires j < |log|
    ensures IsLast(log + [c], log[j].id, j) <==> IsLast(log, log[j].id, j) && log[j].id != c.id
  {
    SinceExtends(log, c, j + 1);
  }

  /** The positions once the session's old entry, if any, is deleted. */
  ghost predicate Deleted(log: seq<Confirmed>, pos: seq<nat>, id: string, p: seq<nat>) {
    && (forall i :: 0 <= i < |pos| ==> pos[i] < |log|)
    && (forall j :: j in p <==> j in pos && log[j].id != id)
    && (forall i, k :: 0 <= i < k < |p| ==> p[i] < p[k])
  }

  lemma CutOut(log: seq<Confirmed>, pos: seq<nat>, i: nat)
    requires Ordered(log, pos) && i < |pos|
    ensures Deleted(log, pos, log[pos[i]].id, Cut(pos, i))
  {
    CutElements(pos, i);
    forall k | 0 <= k < |pos| && k != i ensures log[pos[k]].id != log[pos[i]].id {
      TellApart(log, pos, if k < i then k else i, if k < i then i else k);
    }
  }

  lemma TellApart(log: seq<Confirmed>, pos: seq<nat>, i: nat, k: nat)
    requires Ordered(log, pos) && i < k < |pos|
    ensures log[pos[i]].id != log[pos[k]].id
  {
    assert IsLast(log, log[pos[i]].id, pos[i]);
    assert log[pos[k]].id in Since(log, pos[i] + 1);
  }

  lemma ConfirmKeepsOrder(log: seq<Confirmed>, pos: seq<nat>, c: Confirmed, p: seq<nat>)
    requires Ordered(log, pos) && Deleted(log, pos, c.id, p)
    ensures Ordered(log + [c], p + [|log|])
  {
    var log', p' := log + [c], p + [|log|];
    forall i | 0 <= i < |p'| ensures p'[i] < |log'| && IsLast(log', log'[p'[i]].id, p'[i]) {
      if i < |p| {
        assert p[i] in pos;
        LastExtends(log, c, p[i]);
      }
    }
    forall i | 0 <= i < |p| ensures p[i] < |log| {
      assert p[i] in pos;
    }
  }

  lemma ConfirmKeepsClosed(log: seq<Confirmed>, pos: seq<nat>, clock: Time, c: Confirmed, p: seq<nat>)
    requires Ordered(log, pos) && Closed(log, pos, clock) && Deleted(log, pos, c.id, p) && Ordered(log + [c], p + [|log|])
    ensures Closed(log + [c], p + [|log|], clock)
  {
    var log', p' := log + [c], p + [|log|];
    forall i, j: nat | 0 <= i < |p'| && !Expired(log', p'[i], clock) && p'[i] < j < |log'| && IsLast(log', log'[j].id, j)
      ensures j in p'
    {
      if j < |log| {
        assert p[i] in pos;
        LastExtends(log, c, j);
        var k :| 0 <= k < |pos| && pos[k] == p[i];
        assert j in pos && j in p;
        var l :| 0 <= l < |p| && p[l] == j;
        assert p'[l] == j;
      } else {
        assert p'[|p|] == j;
      }
    }
  }

  lemma ConfirmKeepsCrowded(log: seq<Confirmed>, pos: seq<nat>, clock: Time, c: Confirmed, p: seq<nat>)
    requires Crowded(log, pos, clock) && Deleted(log, pos, c.id, p)
    ensures Crowded(log + [c], p + [|log|], clock)
  {
    var log', p' := log + [c], p + [|log|];
    forall j: nat | j < |log'| && IsLast(log', log'[j].id, j) && !Expired(log', j, clock) && j !in p'
      ensures |Since(log', j + 1)| >= MAX_RECENT
    {
      assert p'[|p|] == |log|;
      assert forall i :: 0 <= i < |p| ==> p'[i] == p[i];
      LastExtends(log, c, j);
      SinceExtends(log, c, j + 1);
      assert j !in pos;
      SubsetSize(Since(log, j + 1), Since(log', j + 1));
    }
  }

  /** A confirmation moves its session to the back. */
  lemma ConfirmKeepsGood(log: seq<Confirmed>, pos: seq<nat>, c: Confirmed, p: seq<nat>)
    requires Good(log, pos, c.at) && Deleted(log, pos, c.id, p)
    ensures Good(log + [c], p + [|log|], c.at)
  {
    ConfirmKeepsOrder(log, pos, c, p);
    ConfirmKeepsClosed(log, pos, c.at, c, p);
    ConfirmKeepsCrowded(log, pos, c.at, c, p);
  }

  /** The sessions at positions `lo..hi` of the list. */
  ghost function IdsAt(log: seq<Confirmed>, p: seq<nat>, lo: nat, hi: nat): set<string>
    requires lo <= hi <= |p| && (forall i :: 0 <= i < |p| ==> p[i] < |log|)
  {
    set k | lo <= k < hi :: log[p[k]].id
  }

  lemma {:induction false} IdsAtSize(log: seq<Confirmed>, p: seq<nat>, lo: nat, hi: nat)
    requires Ordered(log, p) && lo <= hi <= |p|
    ensures |IdsAt(log, p, lo, hi)| == hi - lo
    decreases hi
  {
    if lo < hi {
      IdsAtSize(log, p, lo, hi - 1);
      var last := log[p[hi - 1]].id;
      assert IdsAt(log, p, lo, hi) == IdsAt(log, p, lo, hi - 1) + {last};
      forall k | lo <= k < hi - 1 ensures log[p[k]].id != last {
        TellApart(log, p, k, hi - 1);
      }
    }
  }

  /** Whatever is listed after an entry was confirmed after it. */
  lemma LaterEntries(log: seq<Confirmed>, p: seq<nat>, i: nat)
    requires Ordered(log, p) && i < |p|
    ensures IdsAt(log, p, i + 1, |p|) <= Since(log, p[i] + 1) && |Since(log, p[i] + 1)| >= |p| - 1 - i
  {
    var later := IdsAt(log, p, i + 1, |p|);
    assert later <= Since(log, p[i] + 1);
    IdsAtSize(log, p, i + 1, |p|);
    SubsetSize(later, Since(log, p[i] + 1));
  }

  lemma DropKeepsClosed(log: seq<Confirmed>, p: seq<nat>, clock: Time, d: nat)
    requires Ordered(log, p) && Closed(log, p, clock) && d <= |p|
    ensures Ordered(log, p[d..]) && Closed(log, p[d..], clock)
  {
    var q := p[d..];
    assert forall k :: 0 <= k < |q| ==> q[k] == p[k + d];
    assert Ordered(log, q);
    forall k, j: nat | 0 <= k < |q| && !Expired(log, q[k], clock) && q[k] < j < |log| && IsLast(log, log[j].id, j)
      ensures j in q
    {
      assert j in p;
      var l :| 0 <= l < |p| && p[l] == j;
      assert d + k < l;
      assert q[l - d] == j;
    }
  }

  lemma DropKeepsCrowded(log: seq<Confirmed>, p: seq<nat>, clock: Time, d: nat)
    requires Ordered(log, p) && Crowded(log, p, clock) && (d == 0 || d + MAX_RECENT <= |p|)
    ensures Crowded(log, p[d..], clock)
  {
    var q := p[d..];
    assert forall i :: d <= i < |p| ==> p[i] == q[i - d];
    forall j: nat | j < |log| && IsLast(log, log[j].id, j) && !Expired(log, j, clock) && j !in q
      ensures |Since(log, j + 1)| >= MAX_RECENT
    {
      if j in p {
        var i :| 0 <= i < |p| && p[i] == j;
        LaterEntries(log, p, i);
      }
    }
  }

  /** Oldest entries may go while 64 remain: that many others were confirmed after each of them. */
  lemma DropOldest(log: seq<Confirmed>, p: seq<nat>, clock: Time, d: nat)
    requires Good(log, p, clock) && (d == 0 || d + MAX_RECENT <= |p|)
    ensures Good(log, p[d..], clock)
  {
    DropKeepsClosed(log, p, clock, d);
    DropKeepsCrowded(log, p, clock, d);
  }

  /** Deleting a session, evicting the `d` oldest and appending it anew. */
  lemma Replaced(log: seq<Confirmed>, pos: seq<nat>, c: Confirmed, p: seq<nat>, d: nat, entries: seq<Entry>)
    requires Good(log, pos, c.at) && Deleted(log, pos, c.id, p)
    requires d <= |p| && (d == 0 || d + MAX_RECENT <= |p| + 1) && Listed(log, p[d..], entries)
    ensures Good(log + [c], (p + [|log|])[d..], c.at)
    ensures Listed(log + [c], (p + [|log|])[d..], entries + [Entry(c.id, c.at + TTL)])
    ensures |(p + [|log|])[d..]| == |entries| + 1
  {
    ConfirmKeepsGood(log, pos, c, p);
    DropOldest(log + [c], p + [|log|], c.at, d);
    ListedConfirm(log, p, entries, d, c);
  }

  /** Every session confirmed since some position has a last confirmation since then. */
  lemma {:induction false} HasLast(log: seq<Confirmed>, id: string, from: nat) returns (j: nat)
    requires id in Since(log, from)
    ensures from <= j && IsLast(log, id, j)
    decreases |log| - from
  {
    if id in Since(log, from + 1) {
      j := HasLast(log, id, from + 1);
    } else {
      j := from;
    }
  }

  /** Whatever was confirmed after a live entry is listed after it. */
  lemma LaterIsListed(log: seq<Confirmed>, pos: seq<nat>, clock: Time, i: nat, x: string)
    requires Ordered(log, pos) && Closed(log, pos, clock) && i < |pos| && !Expired(log, pos[i], clock)
    requires x in Since(log, pos[i] + 1)
    ensures x in IdsAt(log, pos, i + 1, |pos|)
  {
    var j := HasLast(log, x, pos[i] + 1);
    assert j in pos;
    var k :| 0 <= k < |pos| && pos[k] == j;
    assert i < k;
  }

  /** So fewer than 64 sessions were. */
  lemma FewSince(log: seq<Confirmed>, pos: seq<nat>, clock: Time, i: nat)
    requires Ordered(log, pos) && Closed(log, pos, clock) && |pos| <= MAX_RECENT
    requires i < |pos| && !Expired(log, pos[i], clock)
    ensures |Since(log, pos[i] + 1)| < MAX_RECENT
  {
    var since := Since(log, pos[i] + 1);
    forall x | x in since ensures x in IdsAt(log, pos, i + 1, |pos|) {
      LaterIsListed(log, pos, clock, i, x);
    }
    IdsAtSize(log, pos, i + 1, |pos|);
    SubsetSize(since, IdsAt(log, pos, i + 1, |pos|));
  }

  lemma HeldIsRecent(log: seq<Confirmed>, pos: seq<nat>, clock: Time, i: nat)
    requires Good(log, pos, clock) && |pos| <= MAX_RECENT && i < |pos| && !Expired(log, pos[i], clock)
    ensures Recent(log, log[pos[i]].id, clock)
  {
    FewSince(log, pos, clock, i);
    assert IsLast(log, log[pos[i]].id, pos[i]);
  }

  /** The cache answers exactly what the log promises. */
  lemma HeldExactlyIfRecent(log: seq<Confirmed>, pos: seq<nat>, clock: Time, id: string)
    requires Good(log, pos, clock) && |pos| <= MAX_RECENT
    ensures (exists i :: 0 <= i < |pos| && log[pos[i]].id == id && !Expired(log, pos[i], clock)) <==> Recent(log, id, clock)
  {
    if i :| 0 <= i < |pos| && log[pos[i]].id == id && !Expired(log, pos[i], clock) {
      HeldIsRecent(log, pos, clock, i);
    }
    if Recent(log, id, clock) {
      var j: nat :| IsLast(log, id, j) && clock < log[j].at + TTL && |Since(log, j + 1)| < MAX_RECENT;
      assert j in pos;
    }
  }

  // ---------------------------------------------------------------------------------------------
  // The client

  datatype Answer = AlreadyTerminated | Joined(op: nat) | StartedDelete(op: nat)

  /** A termination that was started and whose `finally` has not run. */
  datatype Operation = Operation(id: string, settled: bool)

  class Client {
    /** `#recentlyTerminatedSessionIDs`, a map that iterates in insertion order. */
    var entries: seq<Entry>
    /** `#terminationInFlight`. */
    var inFlight: map<string, nat>
    /** Promises that exist, by number. */
    var operations: map<nat, Operation>
    var next: nat
    ghost var log: seq<Confirmed>
    ghost var pos: seq<nat>
    ghost var clock: Time

    ghost predicate CacheOk()
      reads this
    {
      Good(log, pos, clock) && Listed(log, pos, entries) && |pos| <= MAX_RECENT
    }

    /** Each operation is the one its session maps to, so a session has at most one. */
    ghost predicate FlightOk()
      reads this
    {
      && (forall op :: op in operations ==> op < next && operations[op].id in inFlight && inFlight[operations[op].id] == op)
      && (forall id :: id in inFlight ==> inFlight[id] in operations && operations[inFlight[id]].id == id)
    }

    ghost predicate Valid()
      reads this
    {
      CacheOk() && FlightOk()
    }

    constructor ()
      ensures Valid() && log == [] && clock == 0
    {
      entries, inFlight, operations, next := [], map[], map[], 0;
      log, pos, clock := [], [], 0;
    }

    /** Index of a session in the map, or its size. */
    method IndexOf(id: string) returns (i: nat)
      ensures i <= |entries| && (i < |entries| ==> entries[i].id == id)
      ensures forall k :: 0 <= k < i ==> entries[k].id != id
    {
      i := 0;
      while i < |entries| && entries[i].id != id
        invariant i <= |entries| && (forall k :: 0 <= k < i ==> entries[k].id != id)
      {
        i := i + 1;
      }
    }

    method Delete(i: nat)
      requires CacheOk() && i < |entries| && Expired(log, pos[i], clock)
      modifies `entries, `pos
      ensures CacheOk() && entries == Cut(old(entries), i)
    {
      DropExpired(log, pos, clock, i);
      ListedCut(log, pos, entries, i);
      entries := Cut(entries, i);
      pos := Cut(pos, i);
    }

    /** `#isRecentlyTerminated`: true exactly when the log says so. */
    method IsRecentlyTerminated(id: string, now: Time) returns (recent: bool)
      requires Valid() && clock <= now
      modifies `entries, `pos, `clock
      ensures Valid() && clock == now && recent == Recent(log, id, now)
    {
      GoodLater(log, pos, clock, now);
      clock := now;
      HeldExactlyIfRecent(log, pos, now, id);
      var i := IndexOf(id);
      if i == |entries| {
        return false;
      }
      UniqueEntry(i);
      if entries[i].expiry <= now {
        Delete(i);
        return false;
      }
      recent := true;
    }

    lemma UniqueEntry(i: nat)
      requires CacheOk() && i < |entries|
      ensures forall k :: 0 <= k < |entries| && entries[k].id == entries[i].id ==> k == i
    {
      forall k | 0 <= k < |entries| && k != i ensures entries[k].id != entries[i].id {
        TellApart(log, pos, if k < i then k else i, if k < i then i else k);
      }
    }

    /** The loop that drops every expired entry. */
    method Purge(now: Time)
      requires CacheOk() && clock == now
      modifies `entries, `pos
      ensures CacheOk()
    {
      var i := 0;
      while i < |entries|
        invariant CacheOk() && i <= |entries|
        decreases |entries| - i
      {
        if entries[i].expiry <= now {
          Delete(i);
        } else {
          i := i + 1;
        }
      }
    }

    /** `#markRecentlyTerminated`. */
    method MarkRecentlyTerminated(id: string, now: Time)
      requires Valid() && clock <= now
      modifies `entries, `log, `pos, `clock
      ensures Valid() && clock == now && log == old(log) + [Confirmed(id, now)]
    {
      GoodLater(log, pos, clock, now);
      clock := now;
      Purge(now);
      Append(id, now);
    }

    /** Delete the session, evict the oldest to make room, and append it. */
    method Append(id: string, now: Time)
      requires CacheOk() && clock == now
      modifies `entries, `log, `pos
      ensures CacheOk() && log == old(log) + [Confirmed(id, now)]
    {
      ghost var p := DeleteSession(id);
      ghost var d := Evict(p);
      ghost var c := Confirmed(id, now);
      Replaced(log, pos, c, p, d, entries);
      entries := entries + [Entry(id, now + TTL)];
      log, pos := log + [c], (p + [|log|])[d..];
    }

    /** `Map.delete`. */
    method DeleteSession(id: string) returns (ghost p: seq<nat>)
      requires CacheOk()
      modifies `entries
      ensures Deleted(log, pos, id, p) && Listed(log, p, entries) && |p| <= MAX_RECENT
    {
      p := pos;
      var i := IndexOf(id);
      if i < |entries| {
        ListedCut(log, pos, entries, i);
        CutOut(log, pos, i);
        entries := Cut(entries, i);
        p := Cut(pos, i);
      } else {
        assert forall j :: j in pos ==> log[j].id != id;
      }
    }

    /** The loop that makes room for one more. */
    method Evict(ghost p: seq<nat>) returns (ghost d: nat)
      requires Listed(log, p, entries)
      modifies `entries
      ensures d <= |p| && Listed(log, p[d..], entries)
      ensures |entries| < MAX_RECENT && (d == 0 || |p| - d == MAX_RECENT - 1)
    {
      d := 0;
      while |entries| >= MAX_RECENT
        invariant d <= |p| && Listed(log, p[d..], entries) && (d == 0 || |p| - d >= MAX_RECENT - 1)
        decreases |entries|
      {
        entries := entries[1..];
        d := d + 1;
      }
    }

    // -------------------------------------------------------------------------------------------
    // One DELETE per session

    /** `terminate` past validation: remembered, joined, or sent upstream. */
    method Terminate(id: string, now: Time) returns (answer: Answer)
      requires Valid() && clock <= now
      modifies this
      ensures Valid() && clock == now && log == old(log)
      ensures answer.AlreadyTerminated? <==> Recent(log, id, now)
      ensures answer.Joined? <==> !Recent(log, id, now) && id in old(inFlight)
      ensures answer.Joined? ==> answer.op == old(inFlight)[id] && operations == old(operations)
      ensures answer.StartedDelete? ==> operations == old(operations)[answer.op := Operation(id, false)]
                                        && answer.op !in old(operations)
      ensures answer.AlreadyTerminated? ==> operations == old(operations)
    {
      var recent := IsRecentlyTerminated(id, now);
      if recent {
        return AlreadyTerminated;
      }
      if id in inFlight {
        return Joined(inFlight[id]);
      }
      answer := StartedDelete(next);
      operations := operations[next := Operation(id, false)];
      inFlight := inFlight[id := next];
      next := next + 1;
    }

    /** The upstream request ends; a 404 or a valid success confirms the termination. */
    method Settle(op: nat, confirmed: bool, now: Time)
      requires Valid() && clock <= now && op in operations && !operations[op].settled
      modifies this
      ensures Valid() && operations == old(operations)[op := old(operations)[op].(settled := true)]
      ensures log == if confirmed then old(log) + [Confirmed(old(operations)[op].id, now)] else old(log)
    {
      if confirmed {
        MarkRecentlyTerminated(operations[op].id, now);
      }
      operations := operations[op := operations[op].(settled := true)];
    }

    /** `finally`: the promise leaves the map if it is still the one there. */
    method Finally(op: nat)
      requires Valid() && op in operations && operations[op].settled
      modifies this
      ensures Valid() && operations == old(operations) - {op} && log == old(log)
    {
      var id := operations[op].id;
      if id in inFlight && inFlight[id] == op {
        inFlight := inFlight - {id};
      }
      operations := operations - {op};
    }

    /** Two upstream DELETEs in flight are for different sessions. */
    lemma SingleFlight(op: nat, other: nat)
      requires FlightOk() && op in operations && other in operations && operations[op].id == operations[other].id
      ensures op == other
    {
      assert inFlight[operations[op].id] == op;
    }
  }
}
