/**
 * Which sessions a reconciler pass inspects
 * (apps/api/src/database/postgres-session-repository.ts:170-246).
 */
module Reconciliation {
  import opened Prelude
  import opened Ordering
  import opened SessionState
  import TextOrder

  // ---------------------------------------------------------------------------------------------
  // Choosing in two stages

  function Min(a: nat, b: nat): nat {
    if a < b then a else b
  }

  /** `sel` is a choice of the first `n` of `all` by priority, ties broken in any way. */
  ghost predicate Top<T(!new)>(p: T -> int, n: nat, all: set<T>, sel: set<T>) {
    && sel <= all && |sel| == Min(n, |all|)
    && (forall x, y :: x in sel && y in all - sel ==> p(x) <= p(y))
  }

  ghost function Union<T>(parts: seq<set<T>>): set<T> {
    set i, x | 0 <= i < |parts| && x in parts[i] :: x
  }

  lemma SameSizeSubset<T>(a: set<T>, b: set<T>)
    requires a <= b && |a| == |b|
    ensures a == b
  {
    assert b == a + (b - a);
  }

  /** A choice that left something out is full, and everything in it comes no later than what was left out. */
  lemma LeftOut<T(!new)>(p: T -> int, n: nat, all: set<T>, sel: set<T>, y: T)
    requires Top(p, n, all, sel) && y in all - sel
    ensures |sel| == n
  {
    if |sel| != n {
      SameSizeSubset(sel, all);
    }
  }

  lemma NotAll<T>(a: set<T>, b: set<T>, x: T) returns (z: T)
    requires |a| == |b| && x in a - b
    ensures z in b - a
  {
    SubsetSize(a * b, a - {x});
    assert |b - a| == |b| - |a * b| > 0;
    z :| z in b - a;
  }

  lemma TwoStageSkipsNothing<T(!new)>(p: T -> int, n: nat, parts: seq<set<T>>, picks: seq<set<T>>, sel: set<T>, x: T, y: T)
    requires |parts| == |picks| && (forall i :: 0 <= i < |parts| ==> Top(p, n, parts[i], picks[i]))
    requires Top(p, n, Union(picks), sel) && x in sel && y in Union(parts) - sel
    ensures p(x) <= p(y)
  {
    var i :| 0 <= i < |parts| && y in parts[i];
    assert Top(p, n, parts[i], picks[i]);
    assert forall z :: z in picks[i] ==> z in Union(picks);
    if y !in picks[i] && x !in picks[i] {
      LeftOut(p, n, parts[i], picks[i], y);
      SubsetSize(picks[i], Union(picks));
      var z := NotAll(sel, picks[i], x);
      assert p(x) <= p(z) <= p(y);
    }
  }

  /** Whatever no pick contains was left out of a full one. */
  lemma FullPick<T(!new)>(p: T -> int, n: nat, parts: seq<set<T>>, picks: seq<set<T>>, y: T)
    requires |parts| == |picks| && (forall i :: 0 <= i < |parts| ==> Top(p, n, parts[i], picks[i]))
    requires y in Union(parts) && y !in Union(picks)
    ensures n <= |Union(picks)|
  {
    var i :| 0 <= i < |parts| && y in parts[i];
    assert Top(p, n, parts[i], picks[i]) && y !in picks[i];
    LeftOut(p, n, parts[i], picks[i], y);
    SubsetSize(picks[i], Union(picks));
  }

  lemma TwoStageSize<T(!new)>(p: T -> int, n: nat, parts: seq<set<T>>, picks: seq<set<T>>)
    requires |parts| == |picks| && (forall i :: 0 <= i < |parts| ==> Top(p, n, parts[i], picks[i]))
    ensures Union(picks) <= Union(parts) && Min(n, |Union(picks)|) == Min(n, |Union(parts)|)
  {
    var a, b := Union(picks), Union(parts);
    assert forall x :: x in a ==> x in b;
    SubsetSize(a, b);
    if a != b {
      var y :| y in b && y !in a;
      FullPick(p, n, parts, picks, y);
    }
  }

  /** The first `n` of the firsts of each part are first among all, however ties are broken at either stage. */
  lemma TwoStage<T(!new)>(p: T -> int, n: nat, parts: seq<set<T>>, picks: seq<set<T>>, sel: set<T>)
    requires |parts| == |picks| && (forall i :: 0 <= i < |parts| ==> Top(p, n, parts[i], picks[i]))
    requires Top(p, n, Union(picks), sel)
    ensures Top(p, n, Union(parts), sel)
  {
    TwoStageSize(p, n, parts, picks);
    forall x, y | x in sel && y in Union(parts) - sel ensures p(x) <= p(y) {
      TwoStageSkipsNothing(p, n, parts, picks, sel, x, y);
    }
  }

  // ---------------------------------------------------------------------------------------------
  // The query

  /** A session as the query sees it, with the lease of its create claim while that is in progress. */
  datatype Row = Row(
    tenant: string,
    id: string,
    status: Status,
    updatedAt: Time,
    expiresAt: Option<Time>,
    lease: Option<Time>)

  /** The database reads its clock twice: once as `now`, once to compute `staleBefore`. */
  datatype Clock = Clock(now: Time, staleBefore: int)

  datatype Category = StaleCreation | StaleTermination | ExpiredSession | AbandonedClaim

  /** The four disjoint reasons to inspect a session. */
  function CategoryOf(r: Row, k: Clock): Option<Category> {
    if Early(r.status) then (if r.updatedAt <= k.staleBefore then Some(StaleCreation) else None)
    else if r.status.Terminating? then (if r.updatedAt <= k.staleBefore then Some(StaleTermination) else None)
    else if r.status.Active? then
      (if r.expiresAt.Some? && r.expiresAt.value <= k.now then Some(ExpiredSession) else None)
    else if r.status.Failed? then
      (if r.lease.Some? && r.lease.value <= k.now && r.updatedAt <= k.staleBefore then Some(AbandonedClaim) else None)
    else None
  }

  function OrZero(t: Option<Time>): Time {
    if t.Some? then t.value else 0
  }

  /** `priority_at`: since when the session has been waiting. */
  function Priority(r: Row): int {
    if r.status.Active? then OrZero(r.expiresAt) else if r.status.Failed? then OrZero(r.lease) else r.updatedAt
  }

  /** Lexicographic order on two times and the primary key. */
  predicate KeyBefore(p: int, p': int, u: int, u': int, r: Row, r': Row) {
    || p < p'
    || (p == p' && u < u')
    || (p == p' && u == u' && TextOrder.Less(r.tenant, r'.tenant))
    || (p == p' && u == u' && r.tenant == r'.tenant && TextOrder.Less(r.id, r'.id))
  }

  predicate OldestFirst(r: Row, r': Row) {
    KeyBefore(r.updatedAt, r'.updatedAt, 0, 0, r, r')
  }

  predicate FirstExpired(r: Row, r': Row) {
    KeyBefore(Priority(r), Priority(r'), r.updatedAt, r'.updatedAt, r, r')
  }

  predicate MostUrgent(r: Row, r': Row) {
    KeyBefore(Priority(r), Priority(r'), 0, 0, r, r')
  }

  function Filter(rows: seq<Row>, k: Clock, c: Category): seq<Row> {
    if rows == [] then []
    else (if CategoryOf(rows[0], k) == Some(c) then [rows[0]] else []) + Filter(rows[1..], k, c)
  }

  function Take(n: nat, s: seq<Row>): seq<Row> {
    s[..Min(n, |s|)]
  }

  /** One branch of the union: the first `n` of a category, in that branch's order. */
  function Branch(rows: seq<Row>, k: Clock, n: nat, c: Category): seq<Row> {
    Take(n, Sort(if c.ExpiredSession? then FirstExpired else MostUrgent, Filter(rows, k, c)))
  }

  function Candidates(rows: seq<Row>, k: Clock, n: nat): seq<Row> {
    Branch(rows, k, n, StaleCreation) + Branch(rows, k, n, StaleTermination)
    + Branch(rows, k, n, ExpiredSession) + Branch(rows, k, n, AbandonedClaim)
  }

  /** `findReconciliationCandidates`. */
  function Query(rows: seq<Row>, k: Clock, n: nat): seq<Row> {
    Sort(OldestFirst, Take(n, Sort(MostUrgent, Candidates(rows, k, n))))
  }

  /** `(tenant_id, id)` is the primary key. */
  ghost predicate Keyed(rows: seq<Row>) {
    forall i, j :: 0 <= i < j < |rows| ==> (rows[i].tenant, rows[i].id) != (rows[j].tenant, rows[j].id)
  }

  ghost function Elements(s: seq<Row>): set<Row> {
    set x | x in s
  }

  ghost function Waiting(rows: seq<Row>, k: Clock): set<Row> {
    set r | r in rows && CategoryOf(r, k).Some?
  }

  ghost predicate Distinct(s: seq<Row>) {
    forall i, j :: 0 <= i < j < |s| ==> s[i] != s[j]
  }

  lemma {:induction false} DistinctSize(s: seq<Row>)
    requires Distinct(s)
    ensures |Elements(s)| == |s|
  {
    if s != [] {
      DistinctSize(s[1..]);
      assert s[0] !in s[1..];
      assert Elements(s) == Elements(s[1..]) + {s[0]};
    }
  }

  lemma {:induction false} FilterFacts(rows: seq<Row>, k: Clock, c: Category)
    requires Distinct(rows)
    ensures Distinct(Filter(rows, k, c))
    ensures forall r :: r in Filter(rows, k, c) <==> r in rows && CategoryOf(r, k) == Some(c)
  {
    if rows != [] {
      FilterFacts(rows[1..], k, c);
      assert rows[0] !in rows[1..];
      assert rows == [rows[0]] + rows[1..];
    }
  }

  lemma KeyBeforeTransitive(p: int, p': int, p'': int, u: int, u': int, u'': int, r: Row, r': Row, r'': Row)
    requires KeyBefore(p, p', u, u', r, r') && KeyBefore(p', p'', u', u'', r', r'')
    ensures KeyBefore(p, p'', u, u'', r, r'')
  {
    if TextOrder.Less(r.tenant, r'.tenant) && TextOrder.Less(r'.tenant, r''.tenant) {
      TextOrder.Transitive(r.tenant, r'.tenant, r''.tenant);
    }
    if TextOrder.Less(r.id, r'.id) && TextOrder.Less(r'.id, r''.id) {
      TextOrder.Transitive(r.id, r'.id, r''.id);
    }
  }

  lemma OrdersAreStrict()
    ensures Strict(OldestFirst) && Strict(FirstExpired) && Strict(MostUrgent)
  {
    forall r: Row ensures !OldestFirst(r, r) && !FirstExpired(r, r) && !MostUrgent(r, r) {
      TextOrder.Irreflexive(r.tenant);
      TextOrder.Irreflexive(r.id);
    }
    forall a, b, c | OldestFirst(a, b) && OldestFirst(b, c) ensures OldestFirst(a, c) {
      KeyBeforeTransitive(a.updatedAt, b.updatedAt, c.updatedAt, 0, 0, 0, a, b, c);
    }
    forall a, b, c | FirstExpired(a, b) && FirstExpired(b, c) ensures FirstExpired(a, c) {
      KeyBeforeTransitive(Priority(a), Priority(b), Priority(c), a.updatedAt, b.updatedAt, c.updatedAt, a, b, c);
    }
    forall a, b, c | MostUrgent(a, b) && MostUrgent(b, c) ensures MostUrgent(a, c) {
      KeyBeforeTransitive(Priority(a), Priority(b), Priority(c), 0, 0, 0, a, b, c);
    }
  }

  /** Rows of a keyed table never tie. */
  lemma OrdersDecide(rows: seq<Row>, s: seq<Row>)
    requires Keyed(rows) && Distinct(s) && (forall r :: r in s ==> r in rows)
    ensures Decides(OldestFirst, s) && Decides(FirstExpired, s) && Decides(MostUrgent, s)
  {
    forall i, j | 0 <= i < j < |s|
      ensures OldestFirst(s[i], s[j]) || OldestFirst(s[j], s[i])
      ensures FirstExpired(s[i], s[j]) || FirstExpired(s[j], s[i])
      ensures MostUrgent(s[i], s[j]) || MostUrgent(s[j], s[i])
    {
      assert s[i] in rows && s[j] in rows;
      if s[i].tenant != s[j].tenant {
        TextOrder.Total(s[i].tenant, s[j].tenant);
      } else {
        TextOrder.Total(s[i].id, s[j].id);
      }
    }
  }

  lemma PrefixIsTop(before: (Row, Row) -> bool, n: nat, u: seq<Row>)
    requires Strict(before) && Sorted(before, u) && (forall x, y :: Priority(x) < Priority(y) ==> before(x, y))
    ensures Distinct(Take(n, u)) && Top(Priority, n, Elements(u), Elements(Take(n, u)))
  {
    var t := Take(n, u);
    DistinctSize(u);
    DistinctSize(t);
    forall x, y | x in Elements(t) && y in Elements(u) - Elements(t) ensures Priority(x) <= Priority(y) {
      var i, j := Find(t, x), Find(u, y);
      assert before(u[i], u[j]);
    }
  }

  lemma {:induction false} SortedIsTop(before: (Row, Row) -> bool, n: nat, s: seq<Row>)
    requires Strict(before) && Decides(before, s) && (forall x, y :: Priority(x) < Priority(y) ==> before(x, y))
    ensures var t := Take(n, Sort(before, s)); Distinct(t) && Top(Priority, n, Elements(s), Elements(t))
  {
    SortSorts(before, s);
    SortPermutes(before, s);
    SameElements(s, Sort(before, s));
    PrefixIsTop(before, n, Sort(before, s));
  }

  lemma SameElements(s: seq<Row>, u: seq<Row>)
    requires multiset(s) == multiset(u)
    ensures Elements(s) == Elements(u)
  {
    forall x ensures x in Elements(s) <==> x in Elements(u) {
      assert x in multiset(s) <==> x in multiset(u);
    }
  }

  ghost function Part(rows: seq<Row>, k: Clock, c: Category): set<Row> {
    set r | r in rows && CategoryOf(r, k) == Some(c)
  }

  lemma BranchIsTop(rows: seq<Row>, k: Clock, n: nat, c: Category)
    requires Keyed(rows)
    ensures Distinct(Branch(rows, k, n, c)) && Top(Priority, n, Part(rows, k, c), Elements(Branch(rows, k, n, c)))
  {
    OrdersAreStrict();
    FilterFacts(rows, k, c);
    var f := Filter(rows, k, c);
    OrdersDecide(rows, f);
    assert Elements(f) == Part(rows, k, c);
    SortedIsTop(if c.ExpiredSession? then FirstExpired else MostUrgent, n, f);
  }

  lemma Join(a: seq<Row>, b: seq<Row>)
    requires Distinct(a) && Distinct(b) && Elements(a) !! Elements(b)
    ensures Distinct(a + b) && Elements(a + b) == Elements(a) + Elements(b)
  {
    forall i, j | 0 <= i < |a| && 0 <= j < |b| ensures a[i] != b[j] {
      assert a[i] in Elements(a) && b[j] in Elements(b);
    }
  }

  lemma UnionOfFour(a: set<Row>, b: set<Row>, c: set<Row>, d: set<Row>)
    ensures Union([a, b, c, d]) == a + b + c + d
  {
    var parts := [a, b, c, d];
    assert parts[0] == a && parts[1] == b && parts[2] == c && parts[3] == d;
  }

  ghost function Picks(rows: seq<Row>, k: Clock, n: nat): seq<set<Row>> {
    [Elements(Branch(rows, k, n, StaleCreation)), Elements(Branch(rows, k, n, StaleTermination)),
     Elements(Branch(rows, k, n, ExpiredSession)), Elements(Branch(rows, k, n, AbandonedClaim))]
  }

  ghost function Parts(rows: seq<Row>, k: Clock): seq<set<Row>> {
    [Part(rows, k, StaleCreation), Part(rows, k, StaleTermination), Part(rows, k, ExpiredSession), Part(rows, k, AbandonedClaim)]
  }

  lemma PicksAreTop(rows: seq<Row>, k: Clock, n: nat)
    requires Keyed(rows)
    ensures forall i :: 0 <= i < 4 ==> Top(Priority, n, Parts(rows, k)[i], Picks(rows, k, n)[i])
  {
    forall i | 0 <= i < 4 ensures Top(Priority, n, Parts(rows, k)[i], Picks(rows, k, n)[i]) {
      BranchIsTop(rows, k, n, [StaleCreation, StaleTermination, ExpiredSession, AbandonedClaim][i]);
    }
  }

  lemma BranchFacts(rows: seq<Row>, k: Clock, n: nat, c: Category)
    requires Keyed(rows)
    ensures Distinct(Branch(rows, k, n, c))
    ensures forall r :: r in Elements(Branch(rows, k, n, c)) ==> r in rows && CategoryOf(r, k) == Some(c)
  {
    BranchIsTop(rows, k, n, c);
  }

  /** No session is a candidate twice, because the categories are disjoint. */
  lemma CandidatesFacts(rows: seq<Row>, k: Clock, n: nat)
    requires Keyed(rows)
    ensures var s := Candidates(rows, k, n); Distinct(s) && Elements(s) == Union(Picks(rows, k, n))
  {
    var a, b := Branch(rows, k, n, StaleCreation), Branch(rows, k, n, StaleTermination);
    var c, d := Branch(rows, k, n, ExpiredSession), Branch(rows, k, n, AbandonedClaim);
    BranchFacts(rows, k, n, StaleCreation);
    BranchFacts(rows, k, n, StaleTermination);
    BranchFacts(rows, k, n, ExpiredSession);
    BranchFacts(rows, k, n, AbandonedClaim);
    Join(a, b);
    Join(a + b, c);
    Join(a + b + c, d);
    UnionOfFour(Elements(a), Elements(b), Elements(c), Elements(d));
  }

  lemma WaitingIsUnion(rows: seq<Row>, k: Clock)
    ensures Union(Parts(rows, k)) == Waiting(rows, k)
  {
    UnionOfFour(Part(rows, k, StaleCreation), Part(rows, k, StaleTermination), Part(rows, k, ExpiredSession), Part(rows, k, AbandonedClaim));
    forall r | r in Waiting(rows, k) ensures r in Union(Parts(rows, k)) {
      assert r in Part(rows, k, CategoryOf(r, k).value);
    }
  }

  /**
   * The query returns as many waiting sessions as fit the batch, each once, oldest update first, and never
   * skips a waiting session for one that has been waiting less long.
   */
  lemma QuerySkipsNothing(rows: seq<Row>, k: Clock, n: nat)
    requires Keyed(rows)
    ensures var q := Query(rows, k, n);
            && Sorted(OldestFirst, q) && |q| == Min(n, |Waiting(rows, k)|)
            && (forall r :: r in q ==> r in rows && CategoryOf(r, k).Some?)
            && (forall x, y :: x in q && y in rows && y !in q && CategoryOf(y, k).Some? ==> Priority(x) <= Priority(y))
  {
    OrdersAreStrict();
    CandidatesFacts(rows, k, n);
    PicksAreTop(rows, k, n);
    WaitingIsUnion(rows, k);
    var s := Candidates(rows, k, n);
    TwoStageSize(Priority, n, Parts(rows, k), Picks(rows, k, n));
    forall r | r in s ensures r in rows {
      assert r in Elements(s);
    }
    OrdersDecide(rows, s);
    SortedIsTop(MostUrgent, n, s);
    var t := Take(n, Sort(MostUrgent, s));
    TwoStage(Priority, n, Parts(rows, k), Picks(rows, k, n), Elements(t));
    OutputFacts(rows, t);
    assert forall r :: r in Query(rows, k, n) <==> r in Elements(t);
    DistinctSize(t);
  }

  lemma {:induction false} OutputFacts(rows: seq<Row>, t: seq<Row>)
    requires Keyed(rows) && Distinct(t) && (forall r :: r in Elements(t) ==> r in rows)
    ensures Sorted(OldestFirst, Sort(OldestFirst, t)) && |Sort(OldestFirst, t)| == |t|
    ensures Elements(Sort(OldestFirst, t)) == Elements(t)
  {
    OrdersAreStrict();
    forall r | r in t ensures r in rows {
      assert r in Elements(t);
    }
    OrdersDecide(rows, t);
    SortSorts(OldestFirst, t);
    SortPermutes(OldestFirst, t);
    SameElements(t, Sort(OldestFirst, t));
  }
}
