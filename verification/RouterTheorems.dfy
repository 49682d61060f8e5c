/** What every routing decision satisfies, and what it does not depend on. */
module RouterTheorems {
  import opened Prelude
  import opened Ordering
  import opened RoutingModel
  import opened Eligibility
  import opened Scoring
  import opened RoutingDecision
  import opened Router
  import TextOrder

  /** A valid input on which scoring throws for no candidate. */
  ghost predicate Routes(i: Input) {
    ValidInput(i) && Broken !in Judgements(i)
  }

  // ---------------------------------------------------------------------------------------------
  // Every candidate lands on one side, once

  function CandidateIDOf(c: Candidate): string { c.id }

  function ScoredID(s: Scored): string { s.candidate.id }

  /** The scored and the rejected are a split of these candidates. */
  ghost predicate Splits(scored: seq<Scored>, rejected: seq<Rejected>, cs: seq<Candidate>) {
    && multiset(Map(ScoredID, scored)) + multiset(Map(RejectedID, rejected)) == multiset(Map(CandidateIDOf, cs))
    && |scored| + |rejected| == |cs|
  }

  lemma SplitScored(scored: seq<Scored>, rejected: seq<Rejected>, cs: seq<Candidate>, x: Scored)
    requires Splits(scored, rejected, cs)
    ensures Splits(scored + [x], rejected, cs + [x.candidate])
  {
    MapAppend(ScoredID, scored, x);
    MapAppend(CandidateIDOf, cs, x.candidate);
  }

  lemma SplitRejected(scored: seq<Scored>, rejected: seq<Rejected>, cs: seq<Candidate>, c: Candidate, x: Rejected)
    requires Splits(scored, rejected, cs) && x.who.id == c.id
    ensures Splits(scored, rejected + [x], cs + [c])
  {
    MapAppend(RejectedID, rejected, x);
    MapAppend(CandidateIDOf, cs, c);
  }

  /** A judgement about this candidate. */
  ghost predicate About(j: Judged, c: Candidate) {
    match j
    case In(x) => x.candidate == c
    case Out(x) => x.who.id == c.id
    case Broken => false
  }

  lemma {:induction false} Partition(js: seq<Judged>, cs: seq<Candidate>)
    requires |js| == |cs| && (forall i :: 0 <= i < |js| ==> About(js[i], cs[i]))
    ensures Splits(ScoredOf(js), RejectedOf(js), cs)
  {
    if js != [] {
      var n := |js| - 1;
      forall i | 0 <= i < n ensures About(js[..n][i], cs[..n][i]) {
        assert About(js[i], cs[i]);
      }
      Partition(js[..n], cs[..n]);
      var scored, rejected := ScoredOf(js[..n]), RejectedOf(js[..n]);
      assert cs == cs[..n] + [cs[n]] && About(js[n], cs[n]);
      if js[n].In? {
        SplitScored(scored, rejected, cs[..n], js[n].scored);
        assert ScoredOf(js) == scored + [js[n].scored] && RejectedOf(js) == rejected;
      } else {
        SplitRejected(scored, rejected, cs[..n], cs[n], js[n].rejected);
        assert ScoredOf(js) == scored && RejectedOf(js) == rejected + [js[n].rejected];
      }
    }
  }

  /** Whatever holds of each judgement holds of everything that comes out of them. */
  lemma {:induction false} JudgedFacts(js: seq<Judged>)
    ensures forall x :: x in ScoredOf(js) <==> In(x) in js
    ensures forall x :: x in RejectedOf(js) <==> Out(x) in js
  {
    if js != [] {
      var n := |js| - 1;
      JudgedFacts(js[..n]);
      assert js == js[..n] + [js[n]];
    }
  }

  lemma {:induction false} DistinctIDs(ids: seq<string>)
    requires forall i, j :: 0 <= i < j < |ids| ==> ids[i] != ids[j]
    ensures UniqueIDs(ids)
  {
    if ids != [] {
      var rest := ids[1..];
      DistinctIDs(rest);
      assert ids == [ids[0]] + rest && ids[0] !in rest;
      assert forall id :: multiset(ids)[id] == multiset(rest)[id] + if id == ids[0] then 1 else 0;
    }
  }

  lemma UniqueAt(ids: seq<string>, i: nat, j: nat)
    requires UniqueIDs(ids) && i < j < |ids|
    ensures ids[i] != ids[j]
  {
    if ids[i] == ids[j] {
      TwoPlaces(ids, i, j);
    }
  }

  lemma {:induction false} CandidateIDsUnique(cs: seq<Candidate>)
    requires Sorted(ById, cs)
    ensures UniqueIDs(Map(CandidateIDOf, cs))
  {
    var ids := Map(CandidateIDOf, cs);
    MapFacts(CandidateIDOf, cs);
    forall i, j | 0 <= i < j < |ids| ensures ids[i] != ids[j] {
      assert ById(cs[i], cs[j]);
      TextOrder.Irreflexive(ids[i]);
    }
    DistinctIDs(ids);
  }

  lemma JudgedAbout(c: Candidate, q: Request, s: Signals)
    ensures Judge(c, q, s) != Broken ==> About(Judge(c, q, s), c)
  {
  }

  lemma JudgementsFacts(i: Input)
    requires Routes(i)
    ensures var cs, js := Candidates(i.sources), Judgements(i);
            && |js| == |cs| == |i.sources| && (forall k :: 0 <= k < |cs| ==> js[k] == Judges(i.request, i.signals)(cs[k]))
            && Splits(ScoredOf(js), RejectedOf(js), cs)
  {
    CandidatesFacts(i.sources);
    var js, cs := Judgements(i), Candidates(i.sources);
    MapFacts(Judges(i.request, i.signals), cs);
    forall k | 0 <= k < |js| ensures About(js[k], cs[k]) {
      assert js[k] in js;
      JudgedAbout(cs[k], i.request, i.signals);
    }
    Partition(js, cs);
  }

  /** All candidate IDs of an input, eligible first. */
  lemma IDsOfSplit(i: Input)
    requires Routes(i)
    ensures var cs, js := Candidates(i.sources), Judgements(i);
            && UniqueIDs(Map(CandidateIDOf, cs))
            && UniqueIDs(Map(ScoredID, ScoredOf(js)))
  {
    CandidatesFacts(i.sources);
    CandidateIDsUnique(Candidates(i.sources));
    JudgementsFacts(i);
    var ids, all := Map(ScoredID, ScoredOf(Judgements(i))), Map(CandidateIDOf, Candidates(i.sources));
    forall id ensures multiset(ids)[id] <= 1 {
      assert multiset(ids)[id] <= multiset(all)[id];
    }
  }

  /** The ranking is a strict order of the eligible candidates. */
  lemma RankedFacts(i: Input)
    requires Routes(i)
    ensures multiset(Ranked(i)) == multiset(ScoredOf(Judgements(i))) && Sorted(RankedBefore, Ranked(i))
  {
    var scored := ScoredOf(Judgements(i));
    IDsOfSplit(i);
    MapFacts(ScoredID, scored);
    RankedIsStrict();
    forall k, l | 0 <= k < l < |scored| ensures RankedBefore(scored[k], scored[l]) || RankedBefore(scored[l], scored[k]) {
      UniqueAt(Map(ScoredID, scored), k, l);
      RankingDecides(scored[k].candidate.id, scored[k].score, scored[l].candidate.id, scored[l].score);
    }
    SortSorts(RankedBefore, scored);
    SortPermutes(RankedBefore, scored);
  }

  lemma {:induction false} ReportAt(ranked: seq<Scored>, n: nat)
    requires n <= |ranked|
    ensures |ReportUpTo(ranked, n)| == n && (forall k :: 0 <= k < n ==> ReportUpTo(ranked, n)[k] == Report(ranked, k))
  {
    if n > 0 {
      ReportAt(ranked, n - 1);
    }
  }

  lemma {:induction false} ReportedIDs(ranked: seq<Scored>)
    ensures Map(EligibleID, ReportUpTo(ranked, |ranked|)) == Map(ScoredID, ranked)
  {
    ReportAt(ranked, |ranked|);
    MapFacts(EligibleID, ReportUpTo(ranked, |ranked|));
    MapFacts(ScoredID, ranked);
  }

  /** The decision lists every candidate exactly once. */
  lemma DecisionListsAll(i: Input)
    requires Routes(i)
    ensures multiset(DecisionIDs(Decided(i))) == multiset(Map(CandidateIDOf, Candidates(i.sources)))
    ensures |DecisionIDs(Decided(i))| == |i.sources| && |Decided(i).eligible| + |Decided(i).rejected| == |i.sources|
  {
    var ranked, scored, rejected := Ranked(i), ScoredOf(Judgements(i)), RejectedOf(Judgements(i));
    JudgementsFacts(i);
    RankedFacts(i);
    ReportedIDs(ranked);
    ReportAt(ranked, |ranked|);
    MapPermutes(ScoredID, ranked, scored);
    assert |multiset(ranked)| == |ranked| && |multiset(scored)| == |scored|;
    MapFacts(RejectedID, rejected);
    MapFacts(ScoredID, ranked);
  }

  lemma SnapshotsListAll(i: Input)
    requires Routes(i)
    ensures SnapshotIDs(Decided(i)) == Map(CandidateIDOf, Candidates(i.sources))
    ensures |Decided(i).snapshots| == |i.sources|
  {
    var cs := Candidates(i.sources);
    CandidatesFacts(i.sources);
    MapFacts(TakeSnapshot, cs);
    MapFacts(SnapshotID, Map(TakeSnapshot, cs));
    MapFacts(CandidateIDOf, cs);
  }

  lemma HealthAgrees(i: Input)
    requires Routes(i)
    ensures UniqueIDs(DecisionIDs(Decided(i))) && HealthMatches(Decided(i))
  {
    IDsOfSplit(i);
    DecisionListsAll(i);
    SnapshotsListAll(i);
    var ids, all := DecisionIDs(Decided(i)), SnapshotIDs(Decided(i));
    MapFacts(CandidateIDOf, Candidates(i.sources));
    CandidatesFacts(i.sources);
    forall id | id in all ensures id in ids {
      assert id in multiset(all);
    }
  }

  lemma EligibleOrderIsStrict()
    ensures Strict(EligibleBefore)
  {
    forall a: Eligible ensures !EligibleBefore(a, a) {
      TextOrder.Irreflexive(a.who.id);
    }
    forall a, b, c | EligibleBefore(a, b) && EligibleBefore(b, c) ensures EligibleBefore(a, c) {
      OutranksTransitive(a.who.id, a.score, b.who.id, b.score, c.who.id, c.score);
    }
  }

  /** Sorting the report changes nothing. */
  lemma RankingAgrees(i: Input)
    requires Routes(i)
    ensures Sorted(EligibleBefore, Decided(i).eligible) && RankingMatches(Decided(i))
  {
    var ranked, es := Ranked(i), Decided(i).eligible;
    RankedFacts(i);
    ReportAt(ranked, |ranked|);
    forall k, l | 0 <= k < l < |es| ensures EligibleBefore(es[k], es[l]) {
      assert RankedBefore(ranked[k], ranked[l]);
    }
    EligibleOrderIsStrict();
    SortSorts(EligibleBefore, es);
    SortPermutes(EligibleBefore, es);
    SortedUnique(EligibleBefore, Sort(EligibleBefore, es), es);
  }

  lemma {:induction false} VerdictAlone(rs: seq<Reason>, v: Reason)
    requires (forall r :: r in rs ==> !RankReason(r)) && RankReason(v)
    ensures RankReasons(rs + [v]) == [v]
  {
    if rs == [] {
      assert rs + [v] == [v];
      assert [v][1..] == [];
    } else {
      var all := rs + [v];
      assert all[0] == rs[0] && rs[0] in rs && all[1..] == rs[1..] + [v];
      VerdictAlone(rs[1..], v);
    }
  }

  lemma AddVerdict(rs: seq<Reason>, v: Reason)
    requires rs != [] && Unique(rs) && (forall r :: r in rs ==> !RankReason(r)) && RankReason(v)
    ensures RankReasons(Add(rs, v)) == [v] && ValidReasons(Add(rs, v))
  {
    VerdictAlone(rs, v);
    AddFacts(rs, v, v);
  }

  lemma JudgedIn(c: Candidate, q: Request, s: Signals, x: Scored)
    requires Judge(c, q, s) == In(x)
    ensures x.candidate == c && IsEligible(c, q) && Scorable(c, s) && x.score == ScoreOf(c, q, s) && x.reasons == ScoreReasons(c, q, s)
  {
  }

  lemma ScoredMember(i: Input, x: Scored) returns (c: Candidate)
    requires Routes(i) && x in ScoredOf(Judgements(i))
    ensures c in Candidates(i.sources) && Judge(c, i.request, i.signals) == In(x)
  {
    var js := Judgements(i);
    JudgedFacts(js);
    JudgementsFacts(i);
    var n := Find(js, In(x));
    c := Candidates(i.sources)[n];
  }

  /** Whoever is in the ranking was scored by the router, with an explanation that has no verdict yet. */
  lemma RankedMember(i: Input, k: nat)
    requires Routes(i) && k < |Ranked(i)|
    ensures var x := Ranked(i)[k];
            && x.candidate in Candidates(i.sources) && IsEligible(x.candidate, i.request) && Scorable(x.candidate, i.signals)
            && x.score == ScoreOf(x.candidate, i.request, i.signals) && x.reasons == ScoreReasons(x.candidate, i.request, i.signals)
  {
    var x := Ranked(i)[k];
    RankedFacts(i);
    assert x in multiset(Ranked(i));
    assert x in multiset(ScoredOf(Judgements(i)));
    var c := ScoredMember(i, x);
    JudgedIn(c, i.request, i.signals, x);
  }

  /** The reasons of a ranked candidate are ready for a verdict. */
  lemma RankedReasons(i: Input, k: nat)
    requires Routes(i) && k < |Ranked(i)|
    ensures var rs := Ranked(i)[k].reasons; rs != [] && Unique(rs) && (forall r :: r in rs ==> !RankReason(r))
  {
    RankedMember(i, k);
    ScoreReasonsFacts(Ranked(i)[k].candidate, i.request, i.signals);
  }

  lemma {:induction false} ReportExplained(ranked: seq<Scored>, es: seq<Eligible>, k: nat)
    requires es == ReportUpTo(ranked, |ranked|) && k < |ranked|
    requires var rs := ranked[k].reasons; rs != [] && Unique(rs) && (forall r :: r in rs ==> !RankReason(r))
    ensures |es| == |ranked| && Explained(es, k) && ValidReasons(es[k].reasons)
  {
    ReportAt(ranked, |ranked|);
    AddVerdict(ranked[k].reasons, RankReasonOf(ranked, k));
    SameVerdict(ranked, es, k);
  }

  /** Each explanation gives exactly the verdict its rank calls for. */
  lemma ExplanationsAgree(i: Input, k: nat)
    requires Routes(i) && k < |Ranked(i)|
    ensures |Decided(i).eligible| == |Ranked(i)| && Explained(Decided(i).eligible, k) && ValidReasons(Decided(i).eligible[k].reasons)
  {
    RankedReasons(i, k);
    ReportExplained(Ranked(i), Decided(i).eligible, k);
  }

  lemma SameVerdict(ranked: seq<Scored>, es: seq<Eligible>, k: nat)
    requires |es| == |ranked| && k < |es| && (forall n :: 0 <= n < |es| ==> es[n].score == ranked[n].score)
    ensures Verdict(es, k) == RankReasonOf(ranked, k)
  {
  }

  lemma WinnerAgrees(i: Input)
    ensures WinnerMatches(Decided(i))
  {
    ReportAt(Ranked(i), |Ranked(i)|);
  }

  lemma EligiblePartsValid(i: Input, k: nat)
    requires Routes(i) && k < |Ranked(i)|
    ensures |Decided(i).eligible| == |Ranked(i)| && ValidWho(Decided(i).eligible[k].who) && ValidBreakdown(Decided(i).eligible[k].score)
  {
    var ranked := Ranked(i);
    ReportAt(ranked, |ranked|);
    RankedMember(i, k);
    CandidatesFacts(i.sources);
    ScoreIsValid(ranked[k].candidate, i.request, i.signals);
  }

  lemma JudgedOut(c: Candidate, q: Request, s: Signals, x: Rejected)
    requires Judge(c, q, s) == Out(x)
    ensures x == Rejected(WhoIs(c), Eligibility.Rejections(c, q)) && !IsEligible(c, q)
  {
  }

  lemma RejectedMember(i: Input, x: Rejected) returns (c: Candidate)
    requires Routes(i) && x in RejectedOf(Judgements(i))
    ensures c in Candidates(i.sources) && Judge(c, i.request, i.signals) == Out(x)
  {
    var js := Judgements(i);
    JudgedFacts(js);
    JudgementsFacts(i);
    var n := Find(js, Out(x));
    c := Candidates(i.sources)[n];
  }

  lemma RejectedPartsValid(i: Input, k: nat)
    requires Routes(i) && k < |Decided(i).rejected|
    ensures ValidWho(Decided(i).rejected[k].who) && ValidReasons(Decided(i).rejected[k].reasons)
  {
    var x := Decided(i).rejected[k];
    assert x in RejectedOf(Judgements(i));
    var c := RejectedMember(i, x);
    JudgedOut(c, i.request, i.signals, x);
    CandidatesFacts(i.sources);
    EligibleMeansCompatible(c, i.request);
  }

  lemma PartsAgree(i: Input)
    requires Routes(i)
    ensures ValidParts(Decided(i))
  {
    var d, ranked := Decided(i), Ranked(i);
    ReportAt(ranked, |ranked|);
    DecisionListsAll(i);
    SnapshotsListAll(i);
    forall k | 0 <= k < |d.eligible|
      ensures ValidWho(d.eligible[k].who) && ValidBreakdown(d.eligible[k].score) && ValidReasons(d.eligible[k].reasons)
    {
      EligiblePartsValid(i, k);
      ExplanationsAgree(i, k);
    }
    forall k | 0 <= k < |d.rejected| ensures ValidWho(d.rejected[k].who) && ValidReasons(d.rejected[k].reasons) {
      RejectedPartsValid(i, k);
    }
    assert d.selected.Some? ==> d.selected.value == d.eligible[0].who;
    assert Unique([NoCompatibleRuntime]);
  }

  lemma DecisionIsValid(i: Input)
    requires Routes(i)
    ensures ValidParts(Decided(i)) && CrossFieldsValid(Decided(i))
  {
    PartsAgree(i);
    HealthAgrees(i);
    RankingAgrees(i);
    WinnerAgrees(i);
    ReportAt(Ranked(i), |Ranked(i)|);
    forall k | 0 <= k < |Decided(i).eligible| ensures Explained(Decided(i).eligible, k) {
      ExplanationsAgree(i, k);
    }
  }

  /** An eligible candidate whose runtime name the efficiency table inherits a property for, and no signal. */
  ghost predicate Unscorable(i: Input, c: Candidate) {
    && c in Candidates(i.sources) && IsEligible(c, i.request)
    && c.identity.runtime == "constructor" && SignalScore(i.signals.efficiency, c.id).None?
  }

  lemma {:induction false} JudgedBroken(i: Input, c: Candidate)
    requires c in Candidates(i.sources)
    ensures Judges(i.request, i.signals)(c) == Broken <==> Unscorable(i, c)
  {
  }

  /** Scoring throws exactly if such a candidate is there. */
  lemma {:induction false} BrokenExactly(i: Input)
    ensures Broken in Judgements(i) <==> exists c :: Unscorable(i, c)
  {
    var f, cs := Judges(i.request, i.signals), Candidates(i.sources);
    if Broken in Judgements(i) {
      var n := Find(Judgements(i), Broken);
      MapFacts(f, cs);
      JudgedBroken(i, cs[n]);
    }
    if c :| Unscorable(i, c) {
      JudgedBroken(i, c);
      MapAt(f, cs, Find(cs, c));
    }
  }

  /**
   * On a valid input routing throws exactly when an eligible candidate cannot be scored; otherwise the
   * decision passes its validator, so the final parse does not throw.
   */
  lemma ProducerMeetsValidator(i: Input)
    requires ValidInput(i)
    ensures Route(i).None? <==> exists c :: Unscorable(i, c)
    ensures Route(i).Some? ==> ValidParts(Route(i).value) && CrossFieldsValid(Route(i).value)
  {
    BrokenExactly(i);
    if Route(i).Some? {
      DecisionIsValid(i);
    }
  }
}
