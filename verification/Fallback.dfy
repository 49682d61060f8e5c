/**
 * The bounded fallback machine (packages/router/src/fallback.ts) and the service's own fallback
 * (apps/api/src/services/session-service.ts:535-624), which never calls it.
 */
module Fallback {
  import opened Prelude
  import opened CandidateId
  import opened RoutingModel
  import opened RoutingDecision

  datatype FailureClass =
    | ProviderTransient | AllocationTimeout | ProviderRateLimited | ProviderCapacityExhaustedClass | ConnectionFailure
    | RuntimeIncompatibility | ProviderConfiguration | ProviderAuthentication | OperationCanceled | InvalidClientRequest
    | PolicyDenial | SecurityDenial | TenantQuotaExhausted | NoCompatibleCandidate | MalformedRequest
    | InvalidProviderResponse | TerminationFailure | UnknownFailure

  predicate MayFallBack(f: FailureClass) {
    || f.ProviderTransient? || f.AllocationTimeout? || f.ProviderRateLimited? || f.ProviderCapacityExhaustedClass?
    || f.ConnectionFailure? || f.RuntimeIncompatibility?
  }

  datatype ErrorCode =
    | ConfigurationError | AuthorizationError | OperationAborted | OperationTimeout | RateLimited | CapacityExhausted
    | TransientUpstreamFailure | UnsupportedByProvider | ConnectionFailed | InvalidResponse | TerminationFailed | UnknownError

  datatype Operation = Allocate | Terminate | OtherOperation

  /** `classifyProviderErrorForFallback`. */
  function Classify(code: ErrorCode, op: Operation): FailureClass {
    if code.ConfigurationError? then ProviderConfiguration
    else if code.AuthorizationError? then ProviderAuthentication
    else if code.OperationAborted? then OperationCanceled
    else if op.Terminate? then TerminationFailure
    else if op.OtherOperation? then UnknownFailure
    else if code.OperationTimeout? then AllocationTimeout
    else if code.RateLimited? then ProviderRateLimited
    else if code.CapacityExhausted? then ProviderCapacityExhaustedClass
    else if code.TransientUpstreamFailure? then ProviderTransient
    else if code.UnsupportedByProvider? then RuntimeIncompatibility
    else if code.ConnectionFailed? then ConnectionFailure
    else if code.InvalidResponse? then InvalidProviderResponse
    else if code.TerminationFailed? then TerminationFailure
    else UnknownFailure
  }

  // ---------------------------------------------------------------------------------------------
  // The machine

  datatype FallbackPolicy = FallbackPolicy(allowed: bool, max: nat)

  datatype State =
    | Requested(policy: FallbackPolicy)
    | Routed(current: Who, attempted: seq<Who>, used: nat, policy: FallbackPolicy)
    | Allocating(current: Who, attempted: seq<Who>, used: nat, policy: FallbackPolicy)
    | FallbackRouted(original: Who, current: Who, attempted: seq<Who>, used: nat, policy: FallbackPolicy,
                     first: FailureClass, reasons: seq<Reason>)
    | FallbackAllocating(original: Who, current: Who, attempted: seq<Who>, used: nat, policy: FallbackPolicy,
                         first: FailureClass, reasons: seq<Reason>)
    | Active(active: Who, attempted: seq<Who>, used: nat, policy: FallbackPolicy, primary: Option<FailureClass>)
    | Failed(attempted: seq<Who>, used: nat, policy: FallbackPolicy, primary: Option<FailureClass>,
             failure: FailureClass, reasons: seq<Reason>)

  datatype Event =
    | RouteSelected(candidate: Who)
    | RouteFailed
    | AllocationStarted
    | AllocationSucceeded
    | AllocationFailed(failure: FailureClass, fallback: Option<Who>)

  ghost predicate ValidPolicy(p: FallbackPolicy) {
    p.max <= 1 && p.allowed == (p.max == 1)
  }

  ghost predicate ValidAttempts(attempted: seq<Who>, used: nat, p: FallbackPolicy) {
    && |attempted| <= 2 && used <= 1
    && (forall i :: 0 <= i < |attempted| ==> ValidWho(attempted[i]))
    && (|attempted| == 2 ==> attempted[0].id != attempted[1].id)
    && used <= p.max && (used == 1 ==> p.allowed)
    && (used == 1 ==> |attempted| == 2 && attempted[0].identity.runtime != attempted[1].identity.runtime)
  }

  /** `FallbackStateSchema`. */
  ghost predicate ValidState(s: State) {
    && ValidPolicy(s.policy)
    && (!s.Requested? ==> ValidAttempts(s.attempted, s.used, s.policy))
    && (s.Routed? || s.Allocating? ==>
          s.used == 0 && |s.attempted| == 1 && ValidWho(s.current) && s.current.id == s.attempted[0].id)
    && (s.FallbackRouted? || s.FallbackAllocating? ==>
          && s.used == 1 && |s.attempted| == 2 && ValidWho(s.original) && ValidWho(s.current)
          && s.original.id == s.attempted[0].id && s.current.id == s.attempted[1].id
          && MayFallBack(s.first) && ValidReasons(s.reasons))
    && (s.Active? || s.Failed? ==> (s.primary.Some? ==> MayFallBack(s.primary.value)) && (s.used == 1 <==> s.primary.Some?))
    && (s.Active? ==> |s.attempted| == s.used + 1 && ValidWho(s.active) && s.active.id == s.attempted[|s.attempted| - 1].id)
    && (s.Failed? ==> (if s.used == 1 then |s.attempted| == 2 else |s.attempted| <= 1) && ValidReasons(s.reasons))
  }

  ghost predicate ValidEvent(e: Event) {
    && (e.RouteSelected? ==> ValidWho(e.candidate))
    && (e.AllocationFailed? && e.fallback.Some? ==> ValidWho(e.fallback.value))
  }

  predicate CanFallBack(s: State, e: Event)
    requires s.Allocating? && e.AllocationFailed?
  {
    && MayFallBack(e.failure) && s.policy.allowed && s.policy.max == 1
    && e.fallback.Some? && e.fallback.value.id != s.current.id
    && e.fallback.value.identity.runtime != s.current.identity.runtime
  }

  function Refusal(s: State, e: Event): seq<Reason>
    requires s.Allocating? && e.AllocationFailed?
  {
    if !MayFallBack(e.failure) then [FallbackNotEligible]
    else if !s.policy.allowed then [FallbackNotEligible, FallbackDisabled]
    else if e.fallback.None? then [FallbackNotEligible, FallbackCandidateUnavailable]
    else [FallbackNotEligible, FallbackSameRuntime]
  }

  /** `transitionFallbackState`; `None` is the thrown error. */
  function Step(s: State, e: Event): Option<State> {
    if s.Requested? && e.RouteSelected? then Some(Routed(e.candidate, [e.candidate], 0, s.policy))
    else if s.Requested? && e.RouteFailed? then
      Some(Failed([], 0, s.policy, None, NoCompatibleCandidate, [FallbackNotEligible, NoCompatibleRuntime]))
    else if s.Routed? && e.AllocationStarted? then Some(Allocating(s.current, s.attempted, s.used, s.policy))
    else if s.FallbackRouted? && e.AllocationStarted? then
      Some(FallbackAllocating(s.original, s.current, s.attempted, s.used, s.policy, s.first, s.reasons))
    else if s.Allocating? && e.AllocationSucceeded? then Some(Active(s.current, s.attempted, s.used, s.policy, None))
    else if s.Allocating? && e.AllocationFailed? then
      if CanFallBack(s, e) then
        Some(FallbackRouted(s.current, e.fallback.value, [s.current, e.fallback.value], 1, s.policy, e.failure,
                            [FallbackEligible, FallbackFromRuntime]))
      else Some(Failed(s.attempted, s.used, s.policy, None, e.failure, Refusal(s, e)))
    else if s.FallbackAllocating? && e.AllocationSucceeded? then
      Some(Active(s.current, s.attempted, s.used, s.policy, Some(s.first)))
    else if s.FallbackAllocating? && e.AllocationFailed? then
      Some(Failed(s.attempted, s.used, s.policy, Some(s.first), e.failure, [FallbackNotEligible, FallbackLimitReached]))
    else None
  }

  lemma TwoReasons(a: Reason, b: Reason)
    requires a != b
    ensures ValidReasons([a, b]) && ValidReasons([a])
  {
  }

  lemma PrimaryStepKeepsSchema(s: State, e: Event)
    requires ValidState(s) && ValidEvent(e) && (s.Requested? || s.Routed?)
    ensures Step(s, e).Some? ==> ValidState(Step(s, e).value)
  {
    TwoReasons(FallbackNotEligible, NoCompatibleRuntime);
  }

  lemma RefusalKeepsSchema(s: State, e: Event)
    requires ValidState(s) && s.Allocating? && e.AllocationFailed?
    ensures ValidState(Failed(s.attempted, s.used, s.policy, None, e.failure, Refusal(s, e)))
  {
    TwoReasons(FallbackNotEligible, FallbackDisabled);
    TwoReasons(FallbackNotEligible, FallbackCandidateUnavailable);
    TwoReasons(FallbackNotEligible, FallbackSameRuntime);
  }

  lemma FallbackKeepsSchema(s: State, e: Event)
    requires ValidState(s) && ValidEvent(e) && s.Allocating? && e.AllocationFailed? && CanFallBack(s, e)
    ensures ValidState(FallbackRouted(s.current, e.fallback.value, [s.current, e.fallback.value], 1, s.policy, e.failure,
                                      [FallbackEligible, FallbackFromRuntime]))
  {
    TwoReasons(FallbackEligible, FallbackFromRuntime);
  }

  lemma AllocatingStepKeepsSchema(s: State, e: Event)
    requires ValidState(s) && ValidEvent(e) && s.Allocating?
    ensures Step(s, e).Some? ==> ValidState(Step(s, e).value)
  {
    if e.AllocationFailed? {
      if CanFallBack(s, e) {
        FallbackKeepsSchema(s, e);
      } else {
        RefusalKeepsSchema(s, e);
      }
    }
  }

  lemma SecondaryStartKeepsSchema(s: State)
    requires ValidState(s) && s.FallbackRouted?
    ensures ValidState(FallbackAllocating(s.original, s.current, s.attempted, s.used, s.policy, s.first, s.reasons))
  {
  }

  lemma SecondarySuccessKeepsSchema(s: State)
    requires ValidState(s) && s.FallbackAllocating?
    ensures ValidState(Active(s.current, s.attempted, s.used, s.policy, Some(s.first)))
  {
  }

  lemma SecondaryFailureKeepsSchema(s: State, failure: FailureClass)
    requires ValidState(s) && s.FallbackAllocating?
    ensures ValidState(Failed(s.attempted, s.used, s.policy, Some(s.first), failure, [FallbackNotEligible, FallbackLimitReached]))
  {
    TwoReasons(FallbackNotEligible, FallbackLimitReached);
  }

  lemma SecondaryStepKeepsSchema(s: State, e: Event)
    requires ValidState(s) && (s.FallbackRouted? || s.FallbackAllocating?)
    ensures Step(s, e).Some? ==> ValidState(Step(s, e).value)
  {
    if s.FallbackRouted? {
      SecondaryStartKeepsSchema(s);
    } else if e.AllocationSucceeded? {
      SecondarySuccessKeepsSchema(s);
    } else if e.AllocationFailed? {
      SecondaryFailureKeepsSchema(s, e.failure);
    }
  }

  /** No transition the machine accepts fails its own schema. */
  lemma StepKeepsSchema(s: State, e: Event)
    requires ValidState(s) && ValidEvent(e)
    ensures Step(s, e).Some? ==> ValidState(Step(s, e).value)
  {
    if s.Requested? || s.Routed? {
      PrimaryStepKeepsSchema(s, e);
    } else if s.Allocating? {
      AllocatingStepKeepsSchema(s, e);
    } else if s.FallbackRouted? || s.FallbackAllocating? {
      SecondaryStepKeepsSchema(s, e);
    }
  }

  /** An event the machine rejects leaves it where it is. */
  function After(s: State, e: Event): State {
    var r := Step(s, e);
    if r.Some? then r.value else s
  }

  function Run(s: State, es: seq<Event>): State
    decreases es
  {
    if es == [] then s else Run(After(s, es[0]), es[1..])
  }

  lemma {:induction false} RunKeepsSchema(s: State, es: seq<Event>)
    requires ValidState(s) && (forall i :: 0 <= i < |es| ==> ValidEvent(es[i]))
    ensures ValidState(Run(s, es))
    decreases es
  {
    if es != [] {
      StepKeepsSchema(s, es[0]);
      RunKeepsSchema(After(s, es[0]), es[1..]);
    }
  }

  /** On every run: at most two candidates, distinct, and a second one only of another runtime and if allowed. */
  lemma {:induction false} FallbackIsBounded(policy: FallbackPolicy, es: seq<Event>)
    requires ValidPolicy(policy) && (forall i :: 0 <= i < |es| ==> ValidEvent(es[i]))
    ensures var s := Run(Requested(policy), es);
            !s.Requested? ==>
              && s.used <= 1 && |s.attempted| <= 2 && (s.used == 1 <==> |s.attempted| == 2)
              && (|s.attempted| == 2 ==> s.policy.allowed && s.attempted[0].identity != s.attempted[1].identity
                                         && s.attempted[0].identity.runtime != s.attempted[1].identity.runtime)
  {
    RunKeepsSchema(Requested(policy), es);
  }

  // ---------------------------------------------------------------------------------------------
  // The service

  /** How an allocation ends, apart from errors that are not the provider's. */
  datatype Ending = Allocated | ProviderFailure(code: ErrorCode)

  /** What the service does: candidates tried, failures recorded for them, and the candidate that is live. */
  datatype Served = Served(tried: seq<Who>, recorded: seq<FailureClass>, live: Option<Who>)

  /** Position of the first eligible candidate of another runtime. */
  function Other(es: seq<Eligible>, runtime: string): Option<Who> {
    if es == [] then None
    else if es[0].who.identity.runtime != runtime then Some(es[0].who)
    else Other(es[1..], runtime)
  }

  /** `Array.find` over the eligible candidates. */
  method FindOther(es: seq<Eligible>, runtime: string) returns (r: Option<Who>)
    ensures r == Other(es, runtime)
  {
    for i := 0 to |es|
      invariant Other(es, runtime) == Other(es[i..], runtime)
    {
      if es[i].who.identity.runtime != runtime {
        return Some(es[i].who);
      }
      assert es[i..][1..] == es[i + 1..];
    }
    r := None;
  }

  function Policy(d: Decision): FallbackPolicy {
    FallbackPolicy(d.fallbackAllowed, d.maxFallbacks)
  }

  function FailureOf(e: Ending, fallback: Option<Who>): Event {
    if e.Allocated? then AllocationSucceeded else AllocationFailed(Classify(e.code, Allocate), fallback)
  }

  /** Routing and the first allocation. */
  function FirstEvents(d: Decision, selected: Who, first: Ending): seq<Event> {
    [RouteSelected(selected), AllocationStarted, FailureOf(first, Other(d.eligible, selected.identity.runtime))]
  }

  /** A run of the machine in which allocations end like this: a second one only where the machine wants one. */
  function Events(d: Decision, selected: Who, first: Ending, second: Ending): seq<Event> {
    var events := FirstEvents(d, selected, first);
    events + if Run(Requested(Policy(d)), events).FallbackRouted? then [AllocationStarted, FailureOf(second, None)] else []
  }

  /** The machine throws on none of these events. */
  predicate Accepts(s: State, es: seq<Event>)
    decreases es
  {
    es == [] || (Step(s, es[0]).Some? && Accepts(After(s, es[0]), es[1..]))
  }

  /** The service and the machine agree on candidates, on the outcome and on why it failed. */
  ghost predicate Agrees(v: Served, s: State) {
    && (s.Active? || s.Failed?)
    && v.tried == s.attempted && s.used == |v.tried| - 1
    && (v.live.Some? <==> s.Active?)
    && (s.Active? ==> v.live == Some(s.active) && v.recorded == if s.primary.Some? then [s.primary.value] else [])
    && (s.Failed? ==> v.recorded == (if s.primary.Some? then [s.primary.value] else []) + [s.failure])
  }

  lemma {:induction false} OtherFacts(es: seq<Eligible>, runtime: string)
    ensures match Other(es, runtime)
            case None => forall i :: 0 <= i < |es| ==> es[i].who.identity.runtime == runtime
            case Some(w) => w.identity.runtime != runtime && exists i :: 0 <= i < |es| && es[i].who == w
  {
    if es != [] && es[0].who.identity.runtime == runtime {
      OtherFacts(es[1..], runtime);
      assert forall i :: 1 <= i < |es| ==> es[i] == es[1..][i - 1];
    }
  }

  lemma {:induction false} RunOne(s: State, e: Event, es: seq<Event>)
    ensures Run(s, [e] + es) == Run(After(s, e), es)
    ensures Accepts(s, [e] + es) <==> Step(s, e).Some? && Accepts(After(s, e), es)
  {
    assert ([e] + es)[0] == e && ([e] + es)[1..] == es;
  }

  /** A candidate of another runtime is another candidate. */
  lemma OtherRuntimeOtherId(v: Who, w: Who)
    requires ValidWho(v) && ValidWho(w) && v.identity.runtime != w.identity.runtime
    ensures v.id != w.id
  {
    IdsAreInjective(v.identity, w.identity);
  }

  /** Where the machine stands once the first allocation ended. */
  lemma AfterFirst(d: Decision, selected: Who, first: Ending)
    requires ValidParts(d) && ValidWho(selected)
    ensures var p, other := Policy(d), Other(d.eligible, selected.identity.runtime);
            var s := After(Allocating(selected, [selected], 0, p), FailureOf(first, other));
            if first.Allocated? then s == Active(selected, [selected], 0, p, None)
            else
              var failure := Classify(first.code, Allocate);
              if MayFallBack(failure) && d.fallbackAllowed && other.Some? then
                s == FallbackRouted(selected, other.value, [selected, other.value], 1, p, failure, [FallbackEligible, FallbackFromRuntime])
              else s.Failed? && s.attempted == [selected] && s.used == 0 && s.primary.None? && s.failure == failure
  {
    OtherFacts(d.eligible, selected.identity.runtime);
    var other := Other(d.eligible, selected.identity.runtime);
    if other.Some? {
      var i :| 0 <= i < |d.eligible| && d.eligible[i].who == other.value;
      OtherRuntimeOtherId(selected, other.value);
    }
  }

  /** Up to the end of the first allocation the machine accepts everything, and stands where AfterFirst says. */
  lemma {:induction false} FirstRun(d: Decision, selected: Who, first: Ending, more: seq<Event>)
    ensures var p, other := Policy(d), Other(d.eligible, selected.identity.runtime);
            var s, e := Allocating(selected, [selected], 0, p), FailureOf(first, other);
            && Step(s, e).Some?
            && Run(Requested(p), FirstEvents(d, selected, first) + more) == Run(After(s, e), more)
            && (Accepts(Requested(p), FirstEvents(d, selected, first) + more) <==> Accepts(After(s, e), more))
  {
    var p, es := Policy(d), FirstEvents(d, selected, first);
    RunOne(Requested(p), es[0], [es[1], es[2]] + more);
    RunOne(After(Requested(p), es[0]), es[1], [es[2]] + more);
    RunOne(Allocating(selected, [selected], 0, p), es[2], more);
    assert es + more == [es[0]] + ([es[1], es[2]] + more);
    assert [es[1], es[2]] + more == [es[1]] + ([es[2]] + more);
  }

  /** The second allocation ends the run, whichever way it goes. */
  lemma {:induction false} SecondRun(s: State, second: Ending)
    requires s.FallbackRouted?
    ensures var es := [AllocationStarted, FailureOf(second, None)];
            && Accepts(s, es)
            && var t := Run(s, es);
               if second.Allocated? then t == Active(s.current, s.attempted, s.used, s.policy, Some(s.first))
               else t.Failed? && t.attempted == s.attempted && t.used == s.used && t.primary == Some(s.first)
                    && t.failure == Classify(second.code, Allocate)
  {
    var es := [AllocationStarted, FailureOf(second, None)];
    RunOne(s, es[0], [es[1]]);
    RunOne(After(s, es[0]), es[1], []);
    assert es == [es[0]] + [es[1]] && [es[1]] == [es[1]] + [];
  }

  /** The whole run: nothing is rejected, and it goes on after the first allocation exactly when that may fall back. */
  lemma {:induction false} WholeRun(d: Decision, selected: Who, first: Ending, second: Ending)
    ensures var p, other := Policy(d), Other(d.eligible, selected.identity.runtime);
            var s := After(Allocating(selected, [selected], 0, p), FailureOf(first, other));
            var es := Events(d, selected, first, second);
            && Accepts(Requested(p), es)
            && Run(Requested(p), es) == if s.FallbackRouted? then Run(s, [AllocationStarted, FailureOf(second, None)]) else s
  {
    var p, es := Policy(d), FirstEvents(d, selected, first);
    var s := After(Allocating(selected, [selected], 0, p), es[2]);
    FirstRun(d, selected, first, []);
    assert es + [] == es;
    if s.FallbackRouted? {
      SecondRun(s, second);
      FirstRun(d, selected, first, [AllocationStarted, FailureOf(second, None)]);
    }
  }

  /**
   * `#allocateWithFallback` simulates the machine on every run whose allocations succeed or end in a provider
   * error: the machine accepts the run, and both try the same candidates with the same outcome and failures.
   */
  method AllocateWithFallback(d: Decision, selected: Who, first: Ending, second: Ending) returns (v: Served)
    requires ValidParts(d) && ValidWho(selected)
    ensures var es := Events(d, selected, first, second);
            Accepts(Requested(Policy(d)), es) && Agrees(v, Run(Requested(Policy(d)), es))
  {
    AfterFirst(d, selected, first);
    WholeRun(d, selected, first, second);
    if first.Allocated? {
      return Served([selected], [], Some(selected));
    }
    var failure := Classify(first.code, Allocate);
    var fallback := FindOther(d.eligible, selected.identity.runtime);
    if !MayFallBack(failure) || !d.fallbackAllowed || fallback.None? {
      return Served([selected], [failure], None);
    }
    ghost var s := After(Allocating(selected, [selected], 0, Policy(d)), FailureOf(first, fallback));
    SecondRun(s, second);
    if second.Allocated? {
      return Served([selected, fallback.value], [failure], fallback);
    }
    v := Served([selected, fallback.value], [failure, Classify(second.code, Allocate)], None);
  }
}
