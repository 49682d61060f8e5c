/**
 * What the router decides on: requests, sources and the candidates built from them
 * (packages/router/src/candidate.ts:128-158, routing-input.ts, reason-code.ts). Scores are in thousandths.
 */
module RoutingModel {
  import opened Prelude
  import opened CandidateId
  import opened Ordering
  import TextOrder

  datatype Capability =
    | Javascript | Dom | Xhr | Svg | Screenshot | Pdf | Webgl | Video | PersistentAuth | RealBrowserTLS
    | Downloads | Uploads | MultiTab | LongSession

  const CAPABILITY_NAMES: seq<Capability> :=
    [Javascript, Dom, Xhr, Svg, Screenshot, Pdf, Webgl, Video, PersistentAuth, RealBrowserTLS,
     Downloads, Uploads, MultiTab, LongSession]

  /** Every capability is in the registry. */
  function Place(k: Capability): (i: nat)
    ensures i < |CAPABILITY_NAMES| && CAPABILITY_NAMES[i] == k
  {
    match k
    case Javascript => 0
    case Dom => 1
    case Xhr => 2
    case Svg => 3
    case Screenshot => 4
    case Pdf => 5
    case Webgl => 6
    case Video => 7
    case PersistentAuth => 8
    case RealBrowserTLS => 9
    case Downloads => 10
    case Uploads => 11
    case MultiTab => 12
    case LongSession => 13
  }

  datatype Support = Supported | Unsupported | Experimental | UnknownSupport

  datatype Requirement = Required | Preferred | NotRequired

  datatype HealthStatus = Healthy | Degraded | Unavailable

  datatype Capacity = Available | Constrained | Exhausted | UnknownCapacity

  /** `detail` stands for the measurements and the diagnostic code, which the router only passes on. */
  datatype Health = Health(status: HealthStatus, configured: bool, capacity: Capacity, detail: string)

  datatype Safety = Safety(blocked: bool, maxDuration: Option<nat>)

  datatype Source = Source(
    identity: Identity,
    configured: bool,
    capabilities: map<Capability, Support>,
    health: Health,
    safety: Safety)

  datatype Candidate = Candidate(
    id: string,
    identity: Identity,
    configured: bool,
    capabilities: map<Capability, Support>,
    health: Health,
    safety: Safety)

  /** A runtime preference of `None` is `auto`. */
  datatype Policy = Policy(
    allowedProviders: Option<seq<string>>,
    deniedProviders: seq<string>,
    allowedRuntimes: Option<seq<string>>,
    deniedRuntimes: seq<string>,
    preferredRuntime: Option<string>,
    maxDuration: Option<nat>,
    allowDegraded: bool,
    allowFallback: bool,
    allowExperimental: bool)

  /** `meta` stands for the decision, tenant and request IDs, the registry version and the time. */
  datatype Request = Request(
    meta: string,
    requirements: map<Capability, Requirement>,
    preference: Option<string>,
    allowFallback: bool,
    allowExperimental: bool,
    maxDuration: nat,
    policy: Policy)

  datatype Signal = Signal(id: string, score: nat)

  datatype Signals = Signals(compatibility: seq<Signal>, efficiency: seq<Signal>, latency: seq<Signal>)

  datatype Input = Input(request: Request, sources: seq<Source>, signals: Signals)

  datatype Reason =
    | CapabilitiesSatisfied | FastPathPreferred | RequestedRuntimePreference | TenantRuntimePreference
    | CandidateUnhealthy | CandidateDegraded | CandidateNotConfigured | CandidateForbiddenByPolicy
    | RuntimeForbiddenByPolicy | RuntimePreferenceRequired | SessionDurationUnsupported
    | CandidateBlockedBySafety | RequiredCapabilityUnsupported | RequiresWebgl | RequiresVideo
    | RequiresPersistentAuth | RequiresRealBrowserTLS | CapabilityUnknown | CapabilityExperimentalNotAllowed
    | PreferredCapabilityMatch | DomainCompatibilityLow | ProviderCapacityExhausted
    | SelectedHighestScore | LowerScore | StableTieBreak | NoCompatibleRuntime
    | FallbackEligible | FallbackNotEligible | FallbackDisabled | FallbackCandidateUnavailable
    | FallbackSameRuntime | FallbackFromRuntime | FallbackLimitReached

  /** `addReason`: a reason is listed once. */
  function Add(reasons: seq<Reason>, reason: Reason): seq<Reason> {
    if reason in reasons then reasons else reasons + [reason]
  }

  function AddIf(reasons: seq<Reason>, condition: bool, reason: Reason): seq<Reason> {
    if condition then Add(reasons, reason) else reasons
  }

  ghost predicate Unique(s: seq<Reason>) {
    forall r :: multiset(s)[r] <= 1
  }

  lemma AddFacts(reasons: seq<Reason>, reason: Reason, r: Reason)
    requires Unique(reasons)
    ensures Unique(Add(reasons, reason)) && (r in Add(reasons, reason) <==> r in reasons || r == reason)
  {
  }

  // ---------------------------------------------------------------------------------------------
  // Valid input

  ghost predicate ValidSource(s: Source) {
    && ValidIdentity(s.identity)
    && (forall k: Capability :: k in s.capabilities)
    && (!s.health.configured ==> s.health.status.Unavailable? && s.health.capacity.UnknownCapacity?)
  }

  ghost predicate ValidSignals(s: seq<Signal>, ids: set<string>) {
    && |s| <= 64 && (forall i :: 0 <= i < |s| ==> s[i].score <= 100 && s[i].id in ids)
    && (forall i, j :: 0 <= i < j < |s| ==> s[i].id != s[j].id)
  }

  ghost function SourceIDs(sources: seq<Source>): set<string> {
    set s | s in sources :: CandidateID(s.identity)
  }

  ghost predicate DistinctSources(sources: seq<Source>) {
    forall i, j :: 0 <= i < j < |sources| ==> sources[i].identity != sources[j].identity
  }

  /** `RoutingInputSchema`. Distinct IDs are distinct identities, since IDs are an injective code. */
  ghost predicate ValidInput(i: Input) {
    && 1 <= |i.sources| <= 64 && (forall s :: s in i.sources ==> ValidSource(s)) && DistinctSources(i.sources)
    && ValidSignals(i.signals.compatibility, SourceIDs(i.sources))
    && ValidSignals(i.signals.efficiency, SourceIDs(i.sources))
    && ValidSignals(i.signals.latency, SourceIDs(i.sources))
  }

  // ---------------------------------------------------------------------------------------------
  // Candidates

  function Build(s: Source): Candidate {
    Candidate(CandidateID(s.identity), s.identity, s.configured && s.health.configured, s.capabilities, s.health, s.safety)
  }

  predicate ById(a: Candidate, b: Candidate) {
    TextOrder.Less(a.id, b.id)
  }

  /** `buildRoutingCandidates`: one candidate per source, in the order of their IDs. */
  function Candidates(sources: seq<Source>): seq<Candidate> {
    Sort(ById, Map(Build, sources))
  }

  lemma ByIdIsStrict()
    ensures Strict(ById)
  {
    forall a: Candidate ensures !ById(a, a) {
      TextOrder.Irreflexive(a.id);
    }
    forall a, b, c | ById(a, b) && ById(b, c) ensures ById(a, c) {
      TextOrder.Transitive(a.id, b.id, c.id);
    }
  }

  lemma {:induction false} CandidatesDecided(sources: seq<Source>)
    requires (forall s :: s in sources ==> ValidSource(s)) && DistinctSources(sources)
    ensures Decides(ById, Map(Build, sources))
  {
    MapFacts(Build, sources);
    forall i, j | 0 <= i < j < |sources|
      ensures ById(Map(Build, sources)[i], Map(Build, sources)[j]) || ById(Map(Build, sources)[j], Map(Build, sources)[i])
    {
      assert sources[i] in sources && sources[j] in sources;
      IdsAreInjective(sources[i].identity, sources[j].identity);
      TextOrder.Total(CandidateID(sources[i].identity), CandidateID(sources[j].identity));
    }
  }

  /** What the router may rely on: candidates carry their own ID and all capabilities, in strict ID order. */
  ghost predicate ValidCandidate(c: Candidate) {
    && ValidIdentity(c.identity) && c.id == CandidateID(c.identity)
    && (forall k: Capability :: k in c.capabilities)
  }

  lemma BuiltFrom(sources: seq<Source>, c: Candidate)
    ensures c in Candidates(sources) <==> exists s :: s in sources && c == Build(s)
  {
    var built := Map(Build, sources);
    SortPermutes(ById, built);
    MapFacts(Build, sources);
    assert c in Candidates(sources) <==> c in multiset(built);
    if s :| s in sources && c == Build(s) {
      var i := Find(sources, s);
      assert built[i] == c;
    }
    if c in built {
      var i := Find(built, c);
      assert sources[i] in sources;
    }
  }

  lemma CandidatesFacts(sources: seq<Source>)
    requires (forall s :: s in sources ==> ValidSource(s)) && DistinctSources(sources)
    ensures var cs := Candidates(sources);
            && |cs| == |sources| && Sorted(ById, cs)
            && (forall c :: c in cs <==> exists s :: s in sources && c == Build(s))
            && (forall c :: c in cs ==> ValidCandidate(c))
  {
    ByIdIsStrict();
    CandidatesDecided(sources);
    SortSorts(ById, Map(Build, sources));
    SortPermutes(ById, Map(Build, sources));
    MapFacts(Build, sources);
    forall c ensures c in Candidates(sources) <==> exists s :: s in sources && c == Build(s) {
      BuiltFrom(sources, c);
    }
  }
}
