/** What a routing decision does not depend on, and how far a requested runtime is preferred. */
module RouterLaws {
  import opened Prelude
  import opened CandidateId
  import opened Ordering
  import opened RoutingModel
  import opened Eligibility
  import opened Scoring
  import opened Router
  import opened RouterTheorems
  import TextOrder

  // ---------------------------------------------------------------------------------------------
  // Order independence

  ghost predicate OneSignalEach(s: seq<Signal>) {
    forall i, j :: 0 <= i < j < |s| ==> s[i].id != s[j].id
  }

  lemma {:induction false} SignalFound(s: seq<Signal>, id: string)
    ensures SignalScore(s, id).Some? ==> Signal(id, SignalScore(s, id).value) in s
    ensures SignalScore(s, id).None? ==> forall x :: Signal(id, x) !in s
  {
    if s != [] && s[0].id != id {
      SignalFound(s[1..], id);
    }
  }

  lemma {:induction false} SignalsAgree(s: seq<Signal>, t: seq<Signal>, id: string)
    requires OneSignalEach(s) && multiset(s) == multiset(t)
    ensures SignalScore(s, id) == SignalScore(t, id)
  {
    SignalFound(s, id);
    SignalFound(t, id);
    forall x ensures Signal(id, x) in s <==> Signal(id, x) in t {
      assert Signal(id, x) in multiset(s) <==> Signal(id, x) in multiset(t);
    }
  }

  /** The same input with its sources and signals listed in another order. */
  ghost predicate Rearranged(i: Input, j: Input) {
    && i.request == j.request && multiset(i.sources) == multiset(j.sources)
    && multiset(i.signals.compatibility) == multiset(j.signals.compatibility)
    && multiset(i.signals.efficiency) == multiset(j.signals.efficiency)
    && multiset(i.signals.latency) == multiset(j.signals.latency)
  }

  lemma SameCandidates(i: Input, j: Input)
    requires ValidInput(i) && Rearranged(i, j)
    ensures Candidates(i.sources) == Candidates(j.sources)
  {
    ByIdIsStrict();
    CandidatesDecided(i.sources);
    MapPermutes(Build, i.sources, j.sources);
    SortIgnoresOrder(ById, Map(Build, i.sources), Map(Build, j.sources));
  }

  lemma JudgeReadsScores(c: Candidate, q: Request, s: Signals, t: Signals)
    requires SignalScore(s.compatibility, c.id) == SignalScore(t.compatibility, c.id)
    requires SignalScore(s.efficiency, c.id) == SignalScore(t.efficiency, c.id)
    requires SignalScore(s.latency, c.id) == SignalScore(t.latency, c.id)
    ensures Judge(c, q, s) == Judge(c, q, t)
  {
  }

  lemma SameJudgements(i: Input, j: Input)
    requires ValidInput(i) && Rearranged(i, j)
    ensures Judgements(i) == Judgements(j)
  {
    SameCandidates(i, j);
    var q, cs := i.request, Candidates(i.sources);
    MapFacts(Judges(q, i.signals), cs);
    MapFacts(Judges(q, j.signals), cs);
    forall k | 0 <= k < |cs| ensures Judge(cs[k], q, i.signals) == Judge(cs[k], q, j.signals) {
      SignalsAgree(i.signals.compatibility, j.signals.compatibility, cs[k].id);
      SignalsAgree(i.signals.efficiency, j.signals.efficiency, cs[k].id);
      SignalsAgree(i.signals.latency, j.signals.latency, cs[k].id);
      JudgeReadsScores(cs[k], q, i.signals, j.signals);
    }
    assert Judgements(i) == Judgements(j);
  }

  /** The whole decision is the same, however sources and signals are ordered. */
  lemma OrderDoesNotMatter(i: Input, j: Input)
    requires ValidInput(i) && Rearranged(i, j)
    ensures Route(i) == Route(j)
  {
    SameCandidates(i, j);
    SameJudgements(i, j);
  }

  // ---------------------------------------------------------------------------------------------
  // How far an explicit preference reaches

  predicate NoSignals(s: Signals) {
    s.compatibility == [] && s.efficiency == [] && s.latency == []
  }

  /** Compatibility of a candidate about which nothing was signalled. */
  function Unsignalled(c: Candidate, q: Request): nat {
    CompatibilityScore(c, q, 50)
  }

  /** All of the total that does not come from compatibility. */
  function Base(c: Candidate, q: Request): nat
    requires RuntimeEfficiency(c.identity.runtime).Some?
  {
    300 * PreferenceScore(c, q) + 250 * RuntimeEfficiency(c.identity.runtime).value + 150 * HealthScore(c.health.status)
    + 2500 + 50 * CapacityScore(c.health.capacity)
  }

  lemma TotalSplits(c: Candidate, q: Request, s: Signals)
    requires NoSignals(s) && Scorable(c, s)
    ensures ScoreOf(c, q, s).total == Base(c, q) + Round(Unsignalled(c, q), 5)
    ensures ScoreOf(c, q, s).preference == POINT * PreferenceScore(c, q)
  {
    RoundSplits(Base(c, q), Unsignalled(c, q));
  }

  lemma RoundSplits(base: nat, k: nat)
    ensures Round(100 * base + 20 * k, 100) == base + Round(k, 5)
  {
    assert 2 * (100 * base + 20 * k) + 100 == 200 * base + 20 * (2 * k + 5);
    assert (200 * base + 20 * (2 * k + 5)) / 200 == base + (20 * (2 * k + 5)) / 200;
    assert (20 * (2 * k + 5)) / 200 == (2 * k + 5) / 10;
  }

  lemma RoundAtLeast(n: nat, d: nat, m: nat)
    requires d > 0 && m * d <= n
    ensures m <= Round(n, d)
  {
    RoundIsNearest(n, d);
    assert (2 * d) * (Round(n, d) + 1) == 2 * d * Round(n, d) + 2 * d;
    assert (2 * d) * m == 2 * (m * d);
    Cancel(2 * d, m, Round(n, d) + 1);
  }

  lemma UnsignalledBounds(c: Candidate, q: Request)
    ensures 25 * POINT <= Unsignalled(c, q) <= 75 * POINT
  {
    var count, sum := PreferredCount(q, |CAPABILITY_NAMES|), PreferredSum(c, q, |CAPABILITY_NAMES|);
    PreferredBounds(c, q, |CAPABILITY_NAMES|);
    BlendBounds(count, sum);
  }

  lemma BlendBounds(count: nat, sum: nat)
    requires sum <= 100 * count
    ensures 25 * POINT <= Blend(50, count, sum) <= 75 * POINT
  {
    if count > 0 {
      var n := POINT * (50 * count + sum);
      assert 25 * POINT * (2 * count) <= n <= 75 * POINT * (2 * count);
      RoundAtLeast(n, 2 * count, 25 * POINT);
      RoundBounded(n, 2 * count, 75 * POINT);
    }
  }

  /**
   * The one situation in which a rival beats a candidate of the requested runtime: Chromium was requested
   * and offers a degraded, constrained candidate, the rival is a healthy, available Kitesurf, and the rival
   * also supports the preferred capabilities better by more than 8.75 points of the total.
   */
  predicate Upset(m: Candidate, w: Candidate, q: Request) {
    && q.preference == Some("chromium") && w.identity.runtime == "kitesurf"
    && m.health.status.Degraded? && w.health.status.Healthy?
    && m.health.capacity.Constrained? && w.health.capacity.Available?
    && Round(Unsignalled(w, q), 5) - Round(Unsignalled(m, q), 5) > 8750
  }

  predicate Live(c: Candidate) {
    !c.health.status.Unavailable? && !c.health.capacity.Exhausted?
  }

  predicate Requests(q: Request) {
    q.preference == Some("chromium") || q.preference == Some("kitesurf")
  }

  lemma BaseGap(m: Candidate, w: Candidate, q: Request)
    requires Requests(q) && Live(m) && Live(w) && m.identity.runtime == q.preference.value != w.identity.runtime
    requires RuntimeEfficiency(m.identity.runtime).Some? && RuntimeEfficiency(w.identity.runtime).Some?
    ensures Base(w, q) - Base(m, q) > -10000 <==> q.preference == Some("chromium") && w.identity.runtime == "kitesurf"
                                                  && m.health.status.Degraded? && w.health.status.Healthy?
                                                  && m.health.capacity.Constrained? && w.health.capacity.Available?
    ensures Base(w, q) - Base(m, q) > -10000 ==> Base(w, q) - Base(m, q) == -8750
  {
    assert "chromium" != "kitesurf" by {
      assert "chromium"[0] != "kitesurf"[0];
    }
  }

  /** Between a requested and another runtime, the requested one ranks first unless there is an upset. */
  lemma RivalWinsExactly(m: Candidate, w: Candidate, q: Request, s: Signals)
    requires NoSignals(s) && Requests(q) && Live(m) && Live(w) && Scorable(m, s) && Scorable(w, s)
    requires m.identity.runtime == q.preference.value != w.identity.runtime
    ensures Outranks(w.id, ScoreOf(w, q, s), m.id, ScoreOf(m, q, s)) <==> Upset(m, w, q)
  {
    TotalSplits(m, q, s);
    TotalSplits(w, q, s);
    UnsignalledBounds(m, q);
    UnsignalledBounds(w, q);
    BaseGap(m, w, q);
    RoundBounded(Unsignalled(w, q), 5, 15000);
    RoundAtLeast(Unsignalled(m, q), 5, 5000);
  }

  lemma EligibleIsLive(c: Candidate, q: Request)
    requires IsEligible(c, q)
    ensures Live(c)
  {
    EligibleMeansCompatible(c, q);
  }

  /** Where routing does not throw, every eligible candidate is scored and somewhere in the ranking. */
  lemma EligibleIsRanked(i: Input, c: Candidate) returns (k: nat)
    requires Routes(i) && c in Candidates(i.sources) && IsEligible(c, i.request)
    ensures Scorable(c, i.signals)
    ensures k < |Ranked(i)| && Ranked(i)[k].candidate == c && Ranked(i)[k].score == ScoreOf(c, i.request, i.signals)
  {
    var x := EligibleIsScored(i, c);
    JudgedIn(c, i.request, i.signals, x);
    RankedFacts(i);
    assert x in multiset(ScoredOf(Judgements(i)));
    assert x in multiset(Ranked(i));
    k := Find(Ranked(i), x);
  }

  lemma EligibleIsScored(i: Input, c: Candidate) returns (x: Scored)
    requires Routes(i) && c in Candidates(i.sources) && IsEligible(c, i.request)
    ensures Judge(c, i.request, i.signals) == In(x) && x in ScoredOf(Judgements(i))
  {
    var js, cs := Judgements(i), Candidates(i.sources);
    JudgementsFacts(i);
    JudgedFacts(js);
    var n := Find(cs, c);
    assert js[n] in js;
    x := js[n].scored;
  }

  /** A candidate of the requested runtime that no eligible rival upsets. */
  ghost predicate Safe(i: Input, m: Candidate) {
    && m in Candidates(i.sources) && IsEligible(m, i.request) && i.request.preference == Some(m.identity.runtime)
    && (forall w :: w in Candidates(i.sources) && IsEligible(w, i.request) && w.identity.runtime != m.identity.runtime
                    ==> !Upset(m, w, i.request))
  }

  /** The first of the ranking is outranked by nobody. */
  lemma FirstIsBest(i: Input, c: Candidate)
    requires Routes(i) && c in Candidates(i.sources) && IsEligible(c, i.request)
    ensures Ranked(i) != [] && Scorable(c, i.signals)
    ensures var x := Ranked(i)[0];
            c != x.candidate ==>
              && Outranks(x.candidate.id, x.score, c.id, ScoreOf(c, i.request, i.signals))
              && !Outranks(c.id, ScoreOf(c, i.request, i.signals), x.candidate.id, x.score)
  {
    var k := EligibleIsRanked(i, c);
    var x := Ranked(i)[0];
    RankedFacts(i);
    if c != x.candidate {
      assert RankedBefore(x, Ranked(i)[k]);
      OneWay(x, Ranked(i)[k]);
    }
  }

  lemma OneWay(a: Scored, b: Scored)
    requires RankedBefore(a, b)
    ensures !RankedBefore(b, a)
  {
    if TextOrder.Less(a.candidate.id, b.candidate.id) {
      TextOrder.Asymmetric(a.candidate.id, b.candidate.id);
    }
  }

  lemma WinnerIsEligible(i: Input)
    requires Routes(i) && Ranked(i) != []
    ensures var x := Ranked(i)[0];
            && x.candidate in Candidates(i.sources) && IsEligible(x.candidate, i.request) && Scorable(x.candidate, i.signals)
            && x.score == ScoreOf(x.candidate, i.request, i.signals)
            && Decided(i).selected == Some(WhoIs(x.candidate))
  {
    RankedMember(i, 0);
  }

  lemma SafeMeansPreferred(i: Input, m: Candidate)
    requires Routes(i) && NoSignals(i.signals) && Requests(i.request) && Safe(i, m)
    ensures Ranked(i) != [] && Ranked(i)[0].candidate.identity.runtime == m.identity.runtime
  {
    FirstIsBest(i, m);
    WinnerIsEligible(i);
    var w := Ranked(i)[0].candidate;
    EligibleIsLive(m, i.request);
    EligibleIsLive(w, i.request);
    if w.identity.runtime != m.identity.runtime {
      RivalWinsExactly(m, w, i.request, i.signals);
    }
  }

  lemma PreferredMeansSafe(i: Input)
    requires Routes(i) && NoSignals(i.signals) && Requests(i.request) && Ranked(i) != []
    requires Some(Ranked(i)[0].candidate.identity.runtime) == i.request.preference
    ensures Safe(i, Ranked(i)[0].candidate)
  {
    var m := Ranked(i)[0].candidate;
    WinnerIsEligible(i);
    EligibleIsLive(m, i.request);
    forall w | w in Candidates(i.sources) && IsEligible(w, i.request) && w.identity.runtime != m.identity.runtime
      ensures !Upset(m, w, i.request)
    {
      FirstIsBest(i, w);
      EligibleIsLive(w, i.request);
      RivalWinsExactly(m, w, i.request, i.signals);
    }
  }

  /** Routing returns a decision for the requested runtime. */
  predicate GetsRequested(i: Input) {
    Route(i).Some? && Route(i).value.selected.Some? && Some(Route(i).value.selected.value.identity.runtime) == i.request.preference
  }

  /**
   * Without signals, the requested runtime wins exactly when routing does not throw and one of its eligible
   * candidates is upset by nobody.
   */
  lemma PreferenceHoldsExactly(i: Input)
    requires ValidInput(i) && NoSignals(i.signals) && Requests(i.request)
    ensures GetsRequested(i) <==> !(exists c :: Unscorable(i, c)) && (exists m :: Safe(i, m))
  {
    BrokenExactly(i);
    if Routes(i) {
      if m :| Safe(i, m) {
        SafeMeansPreferred(i, m);
      }
      if Ranked(i) != [] && Some(Ranked(i)[0].candidate.identity.runtime) == i.request.preference {
        PreferredMeansSafe(i);
      }
    }
  }

  /**
   * So where routing does not throw it wins whenever an eligible candidate of it exists, unless that is
   * constrained while the winner is available.
   */
  lemma PreferenceBound(i: Input, m: Candidate)
    requires ValidInput(i) && NoSignals(i.signals) && Requests(i.request) && Route(i).Some?
    requires m in Candidates(i.sources) && IsEligible(m, i.request) && Some(m.identity.runtime) == i.request.preference
    ensures Route(i).value.selected.Some?
    ensures var w := Ranked(i)[0].candidate;
            w.identity.runtime == m.identity.runtime || (m.health.capacity.Constrained? && w.health.capacity.Available?)
  {
    FirstIsBest(i, m);
    WinnerIsEligible(i);
    var w := Ranked(i)[0].candidate;
    EligibleIsLive(m, i.request);
    EligibleIsLive(w, i.request);
    if w.identity.runtime != m.identity.runtime {
      RivalWinsExactly(m, w, i.request, i.signals);
    }
  }

  // ---------------------------------------------------------------------------------------------
  // An upset does happen

  function EverySupport(s: Support): map<Capability, Support> {
    map k | k in CAPABILITY_NAMES :: s
  }

  lemma EverySupportIsTotal(s: Support)
    ensures forall k: Capability :: k in EverySupport(s) && EverySupport(s)[k] == s
  {
    forall k: Capability ensures k in EverySupport(s) {
      assert CAPABILITY_NAMES[Place(k)] == k;
    }
  }

  const OPEN_POLICY := Policy(None, [], None, [], None, None, true, true, true)

  /** Chromium requested, downloads preferred. */
  const UPSET_REQUEST := Request("", map[Downloads := Preferred], Some("chromium"), true, true, 1000, OPEN_POLICY)

  const TIRED := Source(Identity("a", "chromium", None, None), true, EverySupport(Unsupported),
                        Health(Degraded, true, Constrained, ""), Safety(false, None))

  const FRESH := Source(Identity("b", "kitesurf", None, None), true, EverySupport(Supported),
                        Health(Healthy, true, Available, ""), Safety(false, None))

  const UPSET_INPUT := Input(UPSET_REQUEST, [TIRED, FRESH], Signals([], [], []))

  lemma {:induction false} OnePreferred(c: Candidate, n: nat)
    requires n <= |CAPABILITY_NAMES|
    ensures PreferredCount(UPSET_REQUEST, n) == if n > 10 then 1 else 0
    ensures PreferredSum(c, UPSET_REQUEST, n) == if n > 10 then SupportScore(SupportOf(c, Downloads), true) else 0
  {
    if n > 0 {
      OnePreferred(c, n - 1);
      assert CAPABILITY_NAMES[n - 1] == Downloads <==> n - 1 == 10;
    }
  }

  lemma UpsetScores()
    ensures Unsignalled(Build(TIRED), UPSET_REQUEST) == 25000 && Unsignalled(Build(FRESH), UPSET_REQUEST) == 75000
  {
    EverySupportIsTotal(Unsupported);
    EverySupportIsTotal(Supported);
    OnePreferred(Build(TIRED), |CAPABILITY_NAMES|);
    OnePreferred(Build(FRESH), |CAPABILITY_NAMES|);
  }

  lemma UpsetInputIsValid()
    ensures ValidInput(UPSET_INPUT)
  {
    EverySupportIsTotal(Unsupported);
    EverySupportIsTotal(Supported);
    assert TIRED.identity.provider[0] != FRESH.identity.provider[0];
    assert "a" == ['a'] && "b" == ['b'] && |"chromium"| == 8 && |"kitesurf"| == 8;
  }

  /** The two candidates, and no others. */
  lemma UpsetCandidates(c: Candidate)
    ensures c in Candidates(UPSET_INPUT.sources) <==> c == Build(TIRED) || c == Build(FRESH)
  {
    BuiltFrom(UPSET_INPUT.sources, c);
    assert UPSET_INPUT.sources[0] == TIRED && UPSET_INPUT.sources[1] == FRESH;
  }

  lemma UpsetRoutes()
    ensures Routes(UPSET_INPUT)
  {
    UpsetInputIsValid();
    BrokenExactly(UPSET_INPUT);
    assert "chromium"[1] != "constructor"[1] && "kitesurf"[0] != "constructor"[0];
    forall c ensures !Unscorable(UPSET_INPUT, c) {
      UpsetCandidates(c);
    }
  }

  lemma FreshIsEligible()
    ensures IsEligible(Build(FRESH), UPSET_REQUEST)
  {
    EverySupportIsTotal(Supported);
    EligibleMeansCompatible(Build(FRESH), UPSET_REQUEST);
  }

  /** If the tired candidate is eligible at all, the fresh one outranks it. */
  lemma FreshOutranksTired()
    ensures var m, w, s := Build(TIRED), Build(FRESH), UPSET_INPUT.signals;
            && Scorable(m, s) && Scorable(w, s)
            && Outranks(w.id, ScoreOf(w, UPSET_REQUEST, s), m.id, ScoreOf(m, UPSET_REQUEST, s))
  {
    assert "chromium"[1] != "constructor"[1] && "kitesurf"[0] != "constructor"[0] && "chromium"[0] != "kitesurf"[0];
    UpsetScores();
    RivalWinsExactly(Build(TIRED), Build(FRESH), UPSET_REQUEST, UPSET_INPUT.signals);
  }

  /** Chromium was requested, fallback is allowed, and Kitesurf is selected. */
  lemma UpsetHappens()
    ensures ValidInput(UPSET_INPUT) && Route(UPSET_INPUT).Some?
    ensures Route(UPSET_INPUT).value.selected == Some(WhoIs(Build(FRESH)))
  {
    UpsetRoutes();
    UpsetCandidates(Build(FRESH));
    FreshIsEligible();
    FirstIsBest(UPSET_INPUT, Build(FRESH));
    WinnerIsEligible(UPSET_INPUT);
    UpsetCandidates(Ranked(UPSET_INPUT)[0].candidate);
    FreshOutranksTired();
  }

  // ---------------------------------------------------------------------------------------------
  // And routing does throw

  const NAMESAKE := Source(Identity("a", "constructor", None, None), true, EverySupport(Supported),
                           Health(Healthy, true, Available, ""), Safety(false, None))

  const THROWING_INPUT := Input(UPSET_REQUEST, [NAMESAKE], Signals([], [], []))

  lemma NamesakeIsEligible()
    ensures ValidInput(THROWING_INPUT) && IsEligible(Build(NAMESAKE), UPSET_REQUEST)
  {
    EverySupportIsTotal(Supported);
    assert "a" == ['a'] && |"constructor"| == 11;
    EligibleMeansCompatible(Build(NAMESAKE), UPSET_REQUEST);
  }

  /** One healthy candidate with a permitted runtime name, and scoring it throws. */
  lemma RoutingThrows()
    ensures ValidInput(THROWING_INPUT) && Route(THROWING_INPUT).None?
  {
    NamesakeIsEligible();
    BuiltFrom(THROWING_INPUT.sources, Build(NAMESAKE));
    assert THROWING_INPUT.sources[0] == NAMESAKE;
    assert Unscorable(THROWING_INPUT, Build(NAMESAKE));
    BrokenExactly(THROWING_INPUT);
  }
}
