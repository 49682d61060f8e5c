/**
 * Scores and ranking of eligible candidates (packages/router/src/scoring.ts, policy-v1.ts), in exact
 * thousandths of a point.
 */
module Scoring {
  import opened Prelude
  import opened Ordering
  import opened RoutingModel
  import opened Eligibility
  import TextOrder

  const POINT := 1000

  datatype Breakdown = Breakdown(
    preference: int,
    efficiency: int,
    compatibility: int,
    health: int,
    latency: int,
    capacity: int,
    total: int)

  /** `n / d` rounded to the nearest integer, halves up. */
  function Round(n: nat, d: nat): nat
    requires d > 0
  {
    (2 * n + d) / (2 * d)
  }

  lemma RoundIsNearest(n: nat, d: nat)
    requires d > 0
    ensures 2 * n - d < 2 * d * Round(n, d) <= 2 * n + d
  {
  }

  function Weighted(s: Breakdown): int {
    s.preference * 30 + s.efficiency * 25 + s.compatibility * 20 + s.health * 15 + s.latency * 5 + s.capacity * 5
  }

  predicate InScale(x: int) {
    0 <= x <= 100 * POINT
  }

  /** `CandidateScoreBreakdownSchema`: every score in scale, and the total the rounded weighted mean. */
  predicate ValidBreakdown(s: Breakdown) {
    && InScale(s.preference) && InScale(s.efficiency) && InScale(s.compatibility) && InScale(s.health)
    && InScale(s.latency) && InScale(s.capacity) && InScale(s.total)
    && s.total == Round(Weighted(s), 100)
  }

  // ---------------------------------------------------------------------------------------------
  // Scores

  /** The value a signal list has for a candidate. */
  function SignalScore(signals: seq<Signal>, id: string): Option<nat> {
    if signals == [] then None
    else if signals[0].id == id then Some(signals[0].score)
    else SignalScore(signals[1..], id)
  }

  function OrElse(x: Option<nat>, y: nat): nat {
    if x.Some? then x.value else y
  }

  function PreferenceScore(c: Candidate, q: Request): nat {
    if q.preference.Some? then (if c.identity.runtime == q.preference.value then 100 else 0)
    else if q.policy.preferredRuntime.Some? then (if c.identity.runtime == q.policy.preferredRuntime.value then 100 else 25)
    else 50
  }

  /**
   * The table of runtime efficiencies, with 50 for a runtime it does not list. It is a plain object, so the
   * one runtime name it inherits a property for finds that property, which is no number.
   */
  function RuntimeEfficiency(runtime: string): Option<nat> {
    if runtime == "kitesurf" then Some(100) else if runtime == "chromium" then Some(60)
    else if runtime == "constructor" then None else Some(50)
  }

  function HealthScore(h: HealthStatus): nat {
    if h.Healthy? then 100 else if h.Degraded? then 50 else 0
  }

  function CapacityScore(c: Capacity): nat {
    if c.Available? then 100 else if c.Constrained? then 25 else if c.Exhausted? then 0 else 50
  }

  function SupportScore(s: Support, experiments: bool): nat {
    if s.Supported? then 100 else if s.Experimental? then (if experiments then 80 else 40)
    else if s.UnknownSupport? then 25 else 0
  }

  predicate Prefers(q: Request, k: Capability) {
    k in q.requirements && q.requirements[k].Preferred?
  }

  /** How many of the first `n` capabilities are preferred, and the sum of their support scores. */
  function PreferredCount(q: Request, n: nat): nat
    requires n <= |CAPABILITY_NAMES|
  {
    if n == 0 then 0 else PreferredCount(q, n - 1) + if Prefers(q, CAPABILITY_NAMES[n - 1]) then 1 else 0
  }

  function PreferredSum(c: Candidate, q: Request, n: nat): nat
    requires n <= |CAPABILITY_NAMES|
  {
    if n == 0 then 0
    else
      var k := CAPABILITY_NAMES[n - 1];
      PreferredSum(c, q, n - 1) + if Prefers(q, k) then SupportScore(SupportOf(c, k), Experiments(q)) else 0
  }

  /** The signal, or its mean with the average support of the preferred capabilities. */
  function Blend(signal: nat, count: nat, sum: nat): nat {
    if count == 0 then POINT * signal else Round(POINT * (signal * count + sum), 2 * count)
  }

  function CompatibilityScore(c: Candidate, q: Request, signal: nat): nat {
    Blend(signal, PreferredCount(q, |CAPABILITY_NAMES|), PreferredSum(c, q, |CAPABILITY_NAMES|))
  }

  /** Some preferred capability is there. */
  predicate Matches(c: Candidate, q: Request, n: nat)
    requires n <= |CAPABILITY_NAMES|
  {
    exists i :: 0 <= i < n && Prefers(q, CAPABILITY_NAMES[i]) && Satisfies(SupportOf(c, CAPABILITY_NAMES[i]), Experiments(q))
  }

  /** The efficiency signal, or else the table's entry; without a number scoring throws. */
  function EfficiencyScore(c: Candidate, s: Signals): Option<nat> {
    var signal := SignalScore(s.efficiency, c.id);
    if signal.Some? then signal else RuntimeEfficiency(c.identity.runtime)
  }

  predicate Scorable(c: Candidate, s: Signals) {
    EfficiencyScore(c, s).Some?
  }

  function WithTotal(s: Breakdown): Breakdown
    requires Weighted(s) >= 0
  {
    s.(total := Round(Weighted(s), 100))
  }

  function ScoreOf(c: Candidate, q: Request, s: Signals): Breakdown
    requires Scorable(c, s)
  {
    WithTotal(Breakdown(
                POINT * PreferenceScore(c, q),
                POINT * EfficiencyScore(c, s).value,
                CompatibilityScore(c, q, OrElse(SignalScore(s.compatibility, c.id), 50)),
                POINT * HealthScore(c.health.status),
                POINT * OrElse(SignalScore(s.latency, c.id), 50),
                POINT * CapacityScore(c.health.capacity),
                0))
  }

  function ScoreReasons(c: Candidate, q: Request, s: Signals): seq<Reason>
    requires Scorable(c, s)
  {
    var r1 := AddIf(Context(c), q.preference.Some? && c.identity.runtime == q.preference.value, RequestedRuntimePreference);
    var r2 := AddIf(r1, q.preference.None? && q.policy.preferredRuntime.Some? && c.identity.runtime == q.policy.preferredRuntime.value, TenantRuntimePreference);
    var r3 := AddIf(r2, EfficiencyScore(c, s).value >= 90, FastPathPreferred);
    var r4 := AddIf(r3, OrElse(SignalScore(s.compatibility, c.id), 50) < 40, DomainCompatibilityLow);
    AddIf(r4, Matches(c, q, |CAPABILITY_NAMES|), PreferredCapabilityMatch)
  }

  datatype Scored = Scored(candidate: Candidate, score: Breakdown, reasons: seq<Reason>)

  // ---------------------------------------------------------------------------------------------
  // Ranking

  /** `compareRankedCandidates`: higher total, then preference, then efficiency, then the smaller ID. */
  predicate Outranks(id: string, s: Breakdown, id': string, s': Breakdown) {
    || s.total > s'.total
    || (s.total == s'.total && s.preference > s'.preference)
    || (s.total == s'.total && s.preference == s'.preference && s.efficiency > s'.efficiency)
    || (ExactTie(s, s') && TextOrder.Less(id, id'))
  }

  /** `hasExactRankTie`. */
  predicate ExactTie(s: Breakdown, s': Breakdown) {
    s.total == s'.total && s.preference == s'.preference && s.efficiency == s'.efficiency
  }

  predicate RankedBefore(a: Scored, b: Scored) {
    Outranks(a.candidate.id, a.score, b.candidate.id, b.score)
  }

  lemma OutranksTransitive(a: string, s: Breakdown, b: string, t: Breakdown, c: string, u: Breakdown)
    requires Outranks(a, s, b, t) && Outranks(b, t, c, u)
    ensures Outranks(a, s, c, u)
  {
    if TextOrder.Less(a, b) && TextOrder.Less(b, c) {
      TextOrder.Transitive(a, b, c);
    }
  }

  lemma RankedIsStrict()
    ensures Strict(RankedBefore)
  {
    forall a: Scored ensures !RankedBefore(a, a) {
      TextOrder.Irreflexive(a.candidate.id);
    }
    forall a, b, c | RankedBefore(a, b) && RankedBefore(b, c) ensures RankedBefore(a, c) {
      OutranksTransitive(a.candidate.id, a.score, b.candidate.id, b.score, c.candidate.id, c.score);
    }
  }

  /** Candidates with different IDs never tie. */
  lemma RankingDecides(a: string, s: Breakdown, b: string, t: Breakdown)
    requires a != b
    ensures Outranks(a, s, b, t) || Outranks(b, t, a, s)
  {
    TextOrder.Total(a, b);
  }

  // ---------------------------------------------------------------------------------------------
  // Scores are in scale

  lemma {:induction false} PreferredBounds(c: Candidate, q: Request, n: nat)
    requires n <= |CAPABILITY_NAMES|
    ensures PreferredSum(c, q, n) <= 100 * PreferredCount(q, n)
  {
    if n > 0 {
      PreferredBounds(c, q, n - 1);
    }
  }

  lemma BlendInScale(signal: nat, count: nat, sum: nat)
    requires signal <= 100 && sum <= 100 * count
    ensures Blend(signal, count, sum) <= 100 * POINT
  {
    if count > 0 {
      assert signal * count <= 100 * count;
      RoundBounded(POINT * (signal * count + sum), 2 * count, 100 * POINT);
    }
  }

  lemma RoundBounded(n: nat, d: nat, m: nat)
    requires d > 0 && n <= m * d
    ensures Round(n, d) <= m
  {
    var k := Round(n, d);
    RoundIsNearest(n, d);
    assert 2 * n + d <= 2 * (m * d) + d;
    assert (2 * d) * (m + 1) == 2 * (m * d) + 2 * d;
    Cancel(2 * d, k, m + 1);
  }

  lemma Cancel(d: nat, a: int, b: int)
    requires d > 0 && d * a < d * b
    ensures a < b
  {
    assert d * (a - b) < 0;
  }

  lemma {:induction false} SignalBounded(signals: seq<Signal>, id: string)
    requires forall i :: 0 <= i < |signals| ==> signals[i].score <= 100
    ensures SignalScore(signals, id).Some? ==> SignalScore(signals, id).value <= 100
  {
    if signals != [] {
      SignalBounded(signals[1..], id);
    }
  }

  ghost predicate Bounded(s: Signals) {
    && (forall i :: 0 <= i < |s.compatibility| ==> s.compatibility[i].score <= 100)
    && (forall i :: 0 <= i < |s.efficiency| ==> s.efficiency[i].score <= 100)
    && (forall i :: 0 <= i < |s.latency| ==> s.latency[i].score <= 100)
  }

  /** Every computed breakdown passes its schema. */
  lemma ScoreIsValid(c: Candidate, q: Request, s: Signals)
    requires Bounded(s) && Scorable(c, s)
    ensures ValidBreakdown(ScoreOf(c, q, s))
  {
    SignalBounded(s.compatibility, c.id);
    SignalBounded(s.efficiency, c.id);
    SignalBounded(s.latency, c.id);
    PreferredBounds(c, q, |CAPABILITY_NAMES|);
    BlendInScale(OrElse(SignalScore(s.compatibility, c.id), 50), PreferredCount(q, |CAPABILITY_NAMES|), PreferredSum(c, q, |CAPABILITY_NAMES|));
    RoundBounded(Weighted(ScoreOf(c, q, s)), 100, 100 * POINT);
  }

  predicate RankReason(r: Reason) {
    r.SelectedHighestScore? || r.LowerScore? || r.StableTieBreak?
  }

  /** Reasons that say something, repeat nothing and do not speak of the rank. */
  ghost predicate Unranked(reasons: seq<Reason>) {
    reasons != [] && Unique(reasons) && forall r :: r in reasons ==> !RankReason(r)
  }

  lemma AddIfFacts(reasons: seq<Reason>, condition: bool, reason: Reason)
    requires Unranked(reasons) && !RankReason(reason)
    ensures Unranked(AddIf(reasons, condition, reason))
  {
  }

  /** An explanation starts without a verdict on the rank, and repeats nothing. */
  lemma ScoreReasonsFacts(c: Candidate, q: Request, s: Signals)
    requires Scorable(c, s)
    ensures Unranked(ScoreReasons(c, q, s))
  {
    var r1 := AddIf(Context(c), q.preference.Some? && c.identity.runtime == q.preference.value, RequestedRuntimePreference);
    var r2 := AddIf(r1, q.preference.None? && q.policy.preferredRuntime.Some? && c.identity.runtime == q.policy.preferredRuntime.value, TenantRuntimePreference);
    var r3 := AddIf(r2, EfficiencyScore(c, s).value >= 90, FastPathPreferred);
    AddIfFacts(Context(c), q.preference.Some? && c.identity.runtime == q.preference.value, RequestedRuntimePreference);
    AddIfFacts(r1, q.preference.None? && q.policy.preferredRuntime.Some? && c.identity.runtime == q.policy.preferredRuntime.value, TenantRuntimePreference);
    AddIfFacts(r2, EfficiencyScore(c, s).value >= 90, FastPathPreferred);
    AddIfFacts(r3, OrElse(SignalScore(s.compatibility, c.id), 50) < 40, DomainCompatibilityLow);
    AddIfFacts(AddIf(r3, OrElse(SignalScore(s.compatibility, c.id), 50) < 40, DomainCompatibilityLow),
               Matches(c, q, |CAPABILITY_NAMES|), PreferredCapabilityMatch);
  }

  // ---------------------------------------------------------------------------------------------
  // The computation

  /** The preferred capabilities: how many, their support scores added up, and whether one is there. */
  method Survey(c: Candidate, q: Request) returns (count: nat, sum: nat, match_: bool)
    ensures count == PreferredCount(q, |CAPABILITY_NAMES|) && sum == PreferredSum(c, q, |CAPABILITY_NAMES|)
    ensures match_ == Matches(c, q, |CAPABILITY_NAMES|)
  {
    count, sum, match_ := 0, 0, false;
    for n := 0 to |CAPABILITY_NAMES|
      invariant count == PreferredCount(q, n) && sum == PreferredSum(c, q, n) && match_ == Matches(c, q, n)
    {
      var k := CAPABILITY_NAMES[n];
      if Prefers(q, k) {
        count := count + 1;
        sum := sum + SupportScore(SupportOf(c, k), Experiments(q));
        if Satisfies(SupportOf(c, k), Experiments(q)) {
          match_ := true;
        }
      }
    }
  }

  /** `scoreEligibleCandidate`; `None` is the error its last parse throws. */
  method ScoreEligible(c: Candidate, context: seq<Reason>, q: Request, s: Signals) returns (r: Option<Scored>)
    requires context == Context(c)
    ensures r.Some? <==> Scorable(c, s)
    ensures r.Some? ==> r == Some(Scored(c, ScoreOf(c, q, s), ScoreReasons(c, q, s)))
  {
    var reasons := context;
    if q.preference.Some? {
      if c.identity.runtime == q.preference.value {
        reasons := Add(reasons, RequestedRuntimePreference);
      }
    } else if q.policy.preferredRuntime.Some? && c.identity.runtime == q.policy.preferredRuntime.value {
      reasons := Add(reasons, TenantRuntimePreference);
    }
    var efficiency := SignalScore(s.efficiency, c.id);
    if efficiency.None? {
      efficiency := RuntimeEfficiency(c.identity.runtime);
    }
    if efficiency.Some? && efficiency.value >= 90 {
      reasons := Add(reasons, FastPathPreferred);
    }
    var signal := OrElse(SignalScore(s.compatibility, c.id), 50);
    if signal < 40 {
      reasons := Add(reasons, DomainCompatibilityLow);
    }
    var count, sum, match_ := Survey(c, q);
    if match_ {
      reasons := Add(reasons, PreferredCapabilityMatch);
    }
    var latency := OrElse(SignalScore(s.latency, c.id), 50);
    if efficiency.None? {
      return None;
    }
    var score := Breakdown(POINT * PreferenceScore(c, q), POINT * efficiency.value, Blend(signal, count, sum),
                           POINT * HealthScore(c.health.status), POINT * latency, POINT * CapacityScore(c.health.capacity), 0);
    r := Some(Scored(c, WithTotal(score), reasons));
  }
}
