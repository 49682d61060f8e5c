/** Hard constraints on candidates (packages/router/src/eligibility.ts). */
module Eligibility {
  import opened Prelude
  import opened RoutingModel

  predicate Experiments(q: Request) {
    q.allowExperimental && q.policy.allowExperimental
  }

  predicate FallsBack(q: Request) {
    q.allowFallback && q.policy.allowFallback
  }

  predicate Allowed(allowlist: Option<seq<string>>, denylist: seq<string>, value: string) {
    (allowlist.Some? ==> value in allowlist.value) && value !in denylist
  }

  predicate Fits(limit: Option<nat>, duration: nat) {
    limit.Some? ==> duration <= limit.value
  }

  function SupportOf(c: Candidate, k: Capability): Support {
    if k in c.capabilities then c.capabilities[k] else UnknownSupport
  }

  predicate Needs(q: Request, k: Capability) {
    k in q.requirements && q.requirements[k].Required?
  }

  predicate Satisfies(s: Support, experiments: bool) {
    s.Supported? || (s.Experimental? && experiments)
  }

  predicate Lacks(c: Candidate, q: Request, k: Capability) {
    Needs(q, k) && !Satisfies(SupportOf(c, k), Experiments(q))
  }

  // ---------------------------------------------------------------------------------------------
  // The meaning: which candidates are compatible, and what each rejection says

  /** A candidate meets every hard constraint of the request, its tenant and the product. */
  ghost predicate Compatible(c: Candidate, q: Request) {
    Usable(c, q) && (forall k :: !Lacks(c, q, k))
  }

  ghost predicate Usable(c: Candidate, q: Request) {
    && c.configured
    && !c.health.status.Unavailable? && (c.health.status.Degraded? ==> q.policy.allowDegraded)
    && !c.health.capacity.Exhausted?
    && Allowed(q.policy.allowedProviders, q.policy.deniedProviders, c.identity.provider)
    && Allowed(q.policy.allowedRuntimes, q.policy.deniedRuntimes, c.identity.runtime)
    && (q.preference.Some? && !FallsBack(q) ==> c.identity.runtime == q.preference.value)
    && !c.safety.blocked
    && Fits(c.safety.maxDuration, q.maxDuration) && Fits(q.policy.maxDuration, q.maxDuration)
  }

  // ---------------------------------------------------------------------------------------------
  // The checks, in the order they are made

  /** A reason to reject, and whether it applies. */
  datatype Check = Check(reason: Reason, applies: bool)

  /** The checks before the capability loop. */
  function GeneralChecks(c: Candidate, q: Request): seq<Check> {
    [ Check(CandidateNotConfigured, !c.configured),
      Check(CandidateUnhealthy, c.configured && c.health.status.Unavailable?),
      Check(CandidateDegraded, c.configured && c.health.status.Degraded? && !q.policy.allowDegraded),
      Check(ProviderCapacityExhausted, c.health.capacity.Exhausted?),
      Check(CandidateForbiddenByPolicy, !Allowed(q.policy.allowedProviders, q.policy.deniedProviders, c.identity.provider)),
      Check(RuntimeForbiddenByPolicy, !Allowed(q.policy.allowedRuntimes, q.policy.deniedRuntimes, c.identity.runtime)),
      Check(RuntimePreferenceRequired, q.preference.Some? && !FallsBack(q) && c.identity.runtime != q.preference.value),
      Check(CandidateBlockedBySafety, c.safety.blocked),
      Check(SessionDurationUnsupported, !Fits(c.safety.maxDuration, q.maxDuration) || !Fits(q.policy.maxDuration, q.maxDuration)) ]
  }

  function SpecialReason(k: Capability): Option<Reason> {
    if k.Webgl? then Some(RequiresWebgl) else if k.Video? then Some(RequiresVideo)
    else if k.PersistentAuth? then Some(RequiresPersistentAuth) else if k.RealBrowserTLS? then Some(RequiresRealBrowserTLS)
    else None
  }

  function SupportReason(s: Support): Reason {
    if s.Unsupported? then RequiredCapabilityUnsupported
    else if s.UnknownSupport? then CapabilityUnknown
    else CapabilityExperimentalNotAllowed
  }

  /** A missing capability is named if it has a reason of its own, and then described by how it is missing. */
  function ChecksOf(c: Candidate, q: Request, k: Capability): seq<Check> {
    var special := SpecialReason(k);
    (if special.Some? then [Check(special.value, Lacks(c, q, k))] else [])
    + [Check(SupportReason(SupportOf(c, k)), Lacks(c, q, k))]
  }

  /** The general checks and those of the first `n` capabilities. */
  function Checks(c: Candidate, q: Request, n: nat): seq<Check>
    requires n <= |CAPABILITY_NAMES|
  {
    if n == 0 then GeneralChecks(c, q) else Checks(c, q, n - 1) + ChecksOf(c, q, CAPABILITY_NAMES[n - 1])
  }

  /** The reasons that apply, each where it applied first. */
  function Collect(checks: seq<Check>): seq<Reason> {
    if checks == [] then []
    else
      var last := checks[|checks| - 1];
      AddIf(Collect(checks[..|checks| - 1]), last.applies, last.reason)
  }

  function Rejections(c: Candidate, q: Request): seq<Reason> {
    Collect(Checks(c, q, |CAPABILITY_NAMES|))
  }

  /** What an eligible candidate starts its explanation with. */
  function Context(c: Candidate): seq<Reason> {
    [CapabilitiesSatisfied] + if c.health.status.Degraded? then [CandidateDegraded] else []
  }

  ghost predicate Applies(checks: seq<Check>, r: Reason) {
    exists i :: 0 <= i < |checks| && checks[i] == Check(r, true)
  }

  /** Collecting lists exactly the reasons that apply, each once. */
  lemma {:induction false} CollectExplained(checks: seq<Check>, r: Reason)
    ensures Unique(Collect(checks)) && (r in Collect(checks) <==> Applies(checks, r))
  {
    if checks != [] {
      var init, last := checks[..|checks| - 1], checks[|checks| - 1];
      CollectExplained(init, r);
      AddFacts(Collect(init), last.reason, r);
      assert checks == init + [last];
      assert Applies(checks, r) <==> Applies(init, r) || last == Check(r, true);
    }
  }

  lemma {:induction false} CollectStep(checks: seq<Check>, check: Check)
    ensures Collect(checks + [check]) == AddIf(Collect(checks), check.applies, check.reason)
  {
    assert (checks + [check])[..|checks|] == checks;
  }

  ghost predicate NoneApply(checks: seq<Check>) {
    forall i :: 0 <= i < |checks| ==> !checks[i].applies
  }

  lemma {:induction false} CollectsNothing(checks: seq<Check>)
    ensures Collect(checks) == [] <==> NoneApply(checks)
  {
    if checks != [] {
      CollectsNothing(checks[..|checks| - 1]);
    }
  }

  lemma UsableMeans(c: Candidate, q: Request)
    ensures NoneApply(GeneralChecks(c, q)) <==> Usable(c, q)
  {
    var g := GeneralChecks(c, q);
    assert |g| == 9;
    assert NoneApply(g) <==> !g[0].applies && !g[1].applies && !g[2].applies && !g[3].applies && !g[4].applies
                             && !g[5].applies && !g[6].applies && !g[7].applies && !g[8].applies;
  }

  lemma {:induction false} ChecksMean(c: Candidate, q: Request, n: nat)
    requires n <= |CAPABILITY_NAMES|
    ensures NoneApply(Checks(c, q, n)) <==> Usable(c, q) && (forall i :: 0 <= i < n ==> !Lacks(c, q, CAPABILITY_NAMES[i]))
  {
    if n == 0 {
      UsableMeans(c, q);
    } else {
      ChecksMean(c, q, n - 1);
      ChecksOfMean(c, q, CAPABILITY_NAMES[n - 1]);
      NoneApplyJoin(Checks(c, q, n - 1), ChecksOf(c, q, CAPABILITY_NAMES[n - 1]));
    }
  }

  lemma ChecksOfMean(c: Candidate, q: Request, k: Capability)
    ensures NoneApply(ChecksOf(c, q, k)) <==> !Lacks(c, q, k)
  {
    var checks := ChecksOf(c, q, k);
    assert checks[|checks| - 1] == Check(SupportReason(SupportOf(c, k)), Lacks(c, q, k));
  }

  lemma NoneApplyJoin(a: seq<Check>, b: seq<Check>)
    ensures NoneApply(a + b) <==> NoneApply(a) && NoneApply(b)
  {
    assert forall i :: 0 <= i < |b| ==> (a + b)[|a| + i] == b[i];
    assert forall i :: 0 <= i < |a| ==> (a + b)[i] == a[i];
  }

  /** A candidate is eligible exactly when it is compatible, and its reasons are never repeated. */
  lemma EligibleMeansCompatible(c: Candidate, q: Request)
    ensures Rejections(c, q) == [] <==> Compatible(c, q)
    ensures Unique(Rejections(c, q))
  {
    CollectsNothing(Checks(c, q, |CAPABILITY_NAMES|));
    ChecksMean(c, q, |CAPABILITY_NAMES|);
    forall k | forall i :: 0 <= i < |CAPABILITY_NAMES| ==> !Lacks(c, q, CAPABILITY_NAMES[i]) ensures !Lacks(c, q, k) {
      assert CAPABILITY_NAMES[Place(k)] == k;
    }
    CollectExplained(Checks(c, q, |CAPABILITY_NAMES|), LowerScore);
  }

  // ---------------------------------------------------------------------------------------------
  // The evaluation

  /** `evaluateCandidateEligibility`. */
  method Evaluate(c: Candidate, q: Request) returns (eligible: bool, reasons: seq<Reason>)
    ensures eligible == (Rejections(c, q) == [])
    ensures reasons == if eligible then Context(c) else Rejections(c, q)
  {
    var rejections, context := EvaluateHealth(c, q);
    rejections := EvaluatePolicy(c, q, rejections);
    rejections := EvaluateCapabilities(c, q, rejections);
    if rejections != [] {
      return false, rejections;
    }
    EligibleMeansCompatible(c, q);
    return true, [CapabilitiesSatisfied] + context;
  }

  lemma NextCheck(checks: seq<Check>, n: nat)
    requires n < |checks|
    ensures Collect(checks[..n + 1]) == AddIf(Collect(checks[..n]), checks[n].applies, checks[n].reason)
  {
    assert checks[..n + 1] == checks[..n] + [checks[n]];
    CollectStep(checks[..n], checks[n]);
  }

  /** Configuration, health and capacity. */
  method EvaluateHealth(c: Candidate, q: Request) returns (rejections: seq<Reason>, context: seq<Reason>)
    ensures rejections == Collect(GeneralChecks(c, q)[..4])
    ensures context == if c.configured && c.health.status.Degraded? && q.policy.allowDegraded then [CandidateDegraded] else []
  {
    ghost var g := GeneralChecks(c, q);
    rejections, context := [], [];
    if !c.configured {
      rejections := Add(rejections, CandidateNotConfigured);
    } else if c.health.status.Unavailable? {
      rejections := Add(rejections, CandidateUnhealthy);
    } else if c.health.status.Degraded? {
      if q.policy.allowDegraded {
        context := Add(context, CandidateDegraded);
      } else {
        rejections := Add(rejections, CandidateDegraded);
      }
    }
    if c.health.capacity.Exhausted? {
      rejections := Add(rejections, ProviderCapacityExhausted);
    }
    NextCheck(g, 0);
    NextCheck(g, 1);
    NextCheck(g, 2);
    NextCheck(g, 3);
  }

  /** Tenant policy, preference, safety and duration. */
  method EvaluatePolicy(c: Candidate, q: Request, before: seq<Reason>) returns (rejections: seq<Reason>)
    requires before == Collect(GeneralChecks(c, q)[..4])
    ensures rejections == Collect(GeneralChecks(c, q))
  {
    ghost var g := GeneralChecks(c, q);
    rejections := before;
    if !Allowed(q.policy.allowedProviders, q.policy.deniedProviders, c.identity.provider) {
      rejections := Add(rejections, CandidateForbiddenByPolicy);
    }
    NextCheck(g, 4);
    if !Allowed(q.policy.allowedRuntimes, q.policy.deniedRuntimes, c.identity.runtime) {
      rejections := Add(rejections, RuntimeForbiddenByPolicy);
    }
    NextCheck(g, 5);
    if q.preference.Some? && !FallsBack(q) && c.identity.runtime != q.preference.value {
      rejections := Add(rejections, RuntimePreferenceRequired);
    }
    NextCheck(g, 6);
    if c.safety.blocked {
      rejections := Add(rejections, CandidateBlockedBySafety);
    }
    NextCheck(g, 7);
    if !Fits(c.safety.maxDuration, q.maxDuration) || !Fits(q.policy.maxDuration, q.maxDuration) {
      rejections := Add(rejections, SessionDurationUnsupported);
    }
    NextCheck(g, 8);
    assert g[..9] == g;
  }

  lemma ChecksStep(c: Candidate, q: Request, n: nat)
    requires n < |CAPABILITY_NAMES|
    ensures var k := CAPABILITY_NAMES[n];
            var before, special := Collect(Checks(c, q, n)), SpecialReason(k);
            Collect(Checks(c, q, n + 1))
            == AddIf(if special.Some? then AddIf(before, Lacks(c, q, k), special.value) else before,
                     Lacks(c, q, k), SupportReason(SupportOf(c, k)))
  {
    var k, checks := CAPABILITY_NAMES[n], Checks(c, q, n);
    var last := Check(SupportReason(SupportOf(c, k)), Lacks(c, q, k));
    var special := SpecialReason(k);
    if special.Some? {
      var first := Check(special.value, Lacks(c, q, k));
      assert checks + ChecksOf(c, q, k) == checks + [first] + [last];
      CollectStep(checks, first);
      CollectStep(checks + [first], last);
    } else {
      assert checks + ChecksOf(c, q, k) == checks + [last];
      CollectStep(checks, last);
    }
  }

  /** The capability loop. */
  method EvaluateCapabilities(c: Candidate, q: Request, general: seq<Reason>) returns (rejections: seq<Reason>)
    requires general == Collect(GeneralChecks(c, q))
    ensures rejections == Rejections(c, q)
  {
    rejections := general;
    for n := 0 to |CAPABILITY_NAMES|
      invariant rejections == Collect(Checks(c, q, n))
    {
      var k := CAPABILITY_NAMES[n];
      ChecksStep(c, q, n);
      if !Lacks(c, q, k) {
        continue;
      }
      var special := SpecialReason(k);
      if special.Some? {
        rejections := Add(rejections, special.value);
      }
      rejections := Add(rejections, SupportReason(SupportOf(c, k)));
    }
  }
}
