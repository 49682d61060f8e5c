/** The session record and its pure state machine (apps/api/src/domain/session.ts). */
module SessionState {
  import opened Prelude

  datatype Status =
    | Pending | Routing | Allocating | FallbackAllocating | Active | Terminating | Terminated | Expired | Failed

  /** A provider session reference encrypted for one session: only that context decrypts it. */
  datatype Sealed = Sealed(reference: nat, tenant: string, session: string)

  function Decrypt(s: Sealed, tenant: string, session: string): Option<nat> {
    if s.tenant == tenant && s.session == session then Some(s.reference) else None
  }

  datatype Session = Session(
    id: string,
    tenant: string,
    status: Status,
    runtime: Option<string>,
    provider: Option<string>,
    reference: Option<Sealed>,
    decision: Option<string>,
    createdAt: Time,
    updatedAt: Time,
    connectedAt: Option<Time>,
    expiresAt: Option<Time>,
    terminatedAt: Option<Time>,
    reason: Option<string>,
    version: nat)

  datatype Event =
    | BeginRouting(at: Time)
    | BeginAllocation(at: Time, runtime: string, provider: string, decision: Option<string>)
    | BeginFallback(at: Time, runtime: string, provider: string, decision: Option<string>)
    | Activate(at: Time, expiresAt: Time, reference: Sealed)
    | RetainForCleanup(at: Time, expiresAt: Time, reference: Sealed)
    | RequestTermination(at: Time)
    | CompleteTermination(at: Time, reason: string)
    | Expire(at: Time, reason: string)
    | Fail(at: Time, reason: string)

  datatype Outcome = Next(session: Session) | Invalid | SchemaError

  predicate Terminal(s: Status) {
    s.Terminated? || s.Expired? || s.Failed?
  }

  predicate Allocated(s: Status) {
    s.Active? || s.Terminating? || s.Terminated? || s.Expired?
  }

  /** The cross-field rules of the session schema, as written in the source. */
  predicate SchemaValid(s: Session) {
    && s.createdAt <= s.updatedAt
    && (s.connectedAt.Some? ==> s.createdAt <= s.connectedAt.value)
    && (s.terminatedAt.Some? ==> s.createdAt <= s.terminatedAt.value)
    && (Allocated(s.status) ==>
          s.runtime.Some? && s.provider.Some? && s.reference.Some? && s.connectedAt.Some? && s.expiresAt.Some?)
    && (Terminal(s.status) <==> s.terminatedAt.Some? && s.reason.Some?)
    && (s.connectedAt.Some? && s.expiresAt.Some? ==> s.connectedAt.value < s.expiresAt.value)
  }

  function Parsed(s: Session, changed: Session): Outcome {
    var n := changed.(version := s.version + 1);
    if SchemaValid(n) then Next(n) else SchemaError
  }

  function Choose(s: Session, status: Status, at: Time, runtime: string, provider: string, decision: Option<string>): Outcome {
    Parsed(s, s.(status := status, updatedAt := at, runtime := Some(runtime), provider := Some(provider),
                 decision := if decision.Some? then decision else s.decision))
  }

  function Connect(s: Session, status: Status, at: Time, expiresAt: Time, reference: Sealed): Outcome {
    Parsed(s, s.(status := status, updatedAt := at, connectedAt := Some(at), expiresAt := Some(expiresAt),
                 reference := Some(reference)))
  }

  function Finish(s: Session, status: Status, at: Time, reason: string): Outcome {
    Parsed(s, s.(status := status, updatedAt := at, terminatedAt := Some(at), reason := Some(reason)))
  }

  /** `applySessionTransition`. */
  function Apply(s: Session, e: Event): Outcome {
    if !SchemaValid(s) then SchemaError
    else if e.RequestTermination? && (s.status.Terminating? || Terminal(s.status)) then Next(s)
    else if e.at < s.updatedAt then Invalid
    else match e
      case RequestTermination(at) =>
        if s.status.Active? then Parsed(s, s.(status := Terminating, updatedAt := at)) else Invalid
      case Fail(at, reason) => if Terminal(s.status) then Invalid else Finish(s, Failed, at, reason)
      case BeginRouting(at) =>
        if s.status.Pending? then Parsed(s, s.(status := Routing, updatedAt := at)) else Invalid
      case BeginAllocation(at, r, p, d) => if s.status.Routing? then Choose(s, Allocating, at, r, p, d) else Invalid
      case BeginFallback(at, r, p, d) => if s.status.Allocating? then Choose(s, FallbackAllocating, at, r, p, d) else Invalid
      case Activate(at, expires, ref) =>
        if s.status.Allocating? || s.status.FallbackAllocating? then Connect(s, Active, at, expires, ref) else Invalid
      case RetainForCleanup(at, expires, ref) =>
        if s.status.Allocating? || s.status.FallbackAllocating? then Connect(s, Terminating, at, expires, ref) else Invalid
      case Expire(at, reason) => if s.status.Active? then Finish(s, Expired, at, reason) else Invalid
      case CompleteTermination(at, reason) => if s.status.Terminating? then Finish(s, Terminated, at, reason) else Invalid
  }

  /** The record as a creator inserts it. */
  predicate Fresh(s: Session) {
    && s.status.Pending? && s.runtime.None? && s.provider.None? && s.reference.None? && s.decision.None?
    && s.connectedAt.None? && s.expiresAt.None? && s.terminatedAt.None? && s.reason.None?
    && s.createdAt == s.updatedAt && s.version == 0
  }

  predicate Early(s: Status) {
    s.Pending? || s.Routing? || s.Allocating? || s.FallbackAllocating?
  }

  /** The latest version at which a session can be in this state. */
  function VersionBound(s: Status): nat {
    match s
    case Pending => 0
    case Routing => 1
    case Allocating => 2
    case FallbackAllocating => 3
    case Active => 4
    case Terminating => 5
    case Terminated => 6
    case Expired => 5
    case Failed => 6
  }

  /** The strengthened invariant: the schema, plus what each state implies about the other fields. */
  predicate Sound(s: Session) {
    && SchemaValid(s)
    && (Early(s.status) ==> s.reference.None? && s.connectedAt.None? && s.expiresAt.None?)
    && (s.status.Allocating? || s.status.FallbackAllocating? ==> s.runtime.Some? && s.provider.Some?)
    && (s.terminatedAt.Some? <==> Terminal(s.status)) && (s.reason.Some? <==> Terminal(s.status))
    && s.version <= VersionBound(s.status)
  }

  predicate SameSession(a: Session, b: Session) {
    a.id == b.id && a.tenant == b.tenant && a.createdAt == b.createdAt
  }

  /** The event connects a browser to a session that is being allocated. */
  predicate Connects(s: Session, e: Event) {
    && (e.Activate? || e.RetainForCleanup?)
    && (s.status.Allocating? || s.status.FallbackAllocating?)
    && s.updatedAt <= e.at
  }

  /** Exactly when a schema-valid session is turned into one the schema rejects. */
  lemma SchemaErrorExactly(s: Session, e: Event)
    requires SchemaValid(s)
    ensures Apply(s, e).SchemaError? <==> Connects(s, e) && (e.expiresAt <= e.at || s.runtime.None? || s.provider.None?)
  {
  }

  /**
   * One event on a sound session: the schema rejects the result exactly when the event connects a
   * browser that has already expired; otherwise an accepted event keeps the invariant and moves forward.
   */
  lemma StepKeepsSound(s: Session, e: Event)
    requires Sound(s)
    ensures Apply(s, e).SchemaError? <==> Connects(s, e) && e.expiresAt <= e.at
    ensures Apply(s, e).Next? ==>
              var n := Apply(s, e).session;
              && Sound(n) && SameSession(s, n) && s.updatedAt <= n.updatedAt
              && (n == s || n.version == s.version + 1)
              && (s.reference.Some? ==> n.reference == s.reference)
    ensures Terminal(s.status) ==> Apply(s, e) == Invalid || Apply(s, e) == Next(s)
  {
    SchemaErrorExactly(s, e);
  }

  /** Applies the events in order; a refused event leaves the record unchanged. */
  function Run(s: Session, es: seq<Event>): Session
    decreases es
  {
    if es == [] then s else Run(match Apply(s, es[0]) case Next(n) => n case _ => s, es[1..])
  }

  /** Every run from a fresh session: at most six versions, time never goes back, terminal states absorb. */
  lemma {:induction false} RunIsBounded(s: Session, es: seq<Event>)
    requires Sound(s)
    ensures var r := Run(s, es);
            && Sound(r) && r.version <= 6 && s.version <= r.version && s.updatedAt <= r.updatedAt
            && (Terminal(s.status) ==> r == s)
            && (s.reference.Some? ==> r.reference == s.reference)
    decreases es
  {
    if es != [] {
      StepKeepsSound(s, es[0]);
      RunIsBounded(match Apply(s, es[0]) case Next(n) => n case _ => s, es[1..]);
    }
  }
}
