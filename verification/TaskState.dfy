/** The managed-task record and its pure state machine (packages/task-core/src/task-state.ts). */
module TaskState {
  import opened Prelude

  datatype Kind = Extract | Screenshot | Pdf

  datatype Status = Queued | Running | RetryPending | Succeeded | Failed | Cancelled

  datatype FailureCode =
    | TaskInvalidState | TaskUnsupported | TaskExecutionFailed | TaskTimeout | TaskCancelled
    | TaskOutputTooLarge | ArtifactStorageFailed | ArtifactTooLarge | DependencyUnavailable

  datatype PublicArtifact = PublicArtifact(id: string, byteSize: nat, sha256: string, createdAt: Time, expiresAt: Time)

  datatype TaskResult =
    | ExtractResult(title: string, text: string)
    | ScreenshotResult(artifact: PublicArtifact)
    | PdfResult(artifact: PublicArtifact)

  function ResultKind(r: TaskResult): Kind {
    match r
    case ExtractResult(_, _) => Extract
    case ScreenshotResult(_) => Screenshot
    case PdfResult(_) => Pdf
  }

  /** The result of a screenshot or PDF task. */
  function ArtifactResult(k: Kind, a: PublicArtifact): TaskResult {
    if k.Screenshot? then ScreenshotResult(a) else PdfResult(a)
  }

  datatype Task = Task(
    id: string,
    tenant: string,
    session: string,
    kind: Kind,
    status: Status,
    attemptCount: nat,
    maxAttempts: nat,
    result: Option<TaskResult>,
    failureCode: Option<FailureCode>,
    createdAt: Time,
    updatedAt: Time,
    startedAt: Option<Time>,
    completedAt: Option<Time>,
    failedAt: Option<Time>,
    nextAttemptAt: Option<Time>,
    claimToken: Option<string>,
    leaseExpiresAt: Option<Time>,
    version: nat)

  datatype Event =
    | Claim(at: Time, claimToken: string, lease: Time)
    | Reclaim(at: Time, claimToken: string, lease: Time)
    | Succeed(at: Time, result: TaskResult)
    | ScheduleRetry(at: Time, nextAttemptAt: Time, failureCode: FailureCode)
    | Fail(at: Time, failureCode: FailureCode)
    | Cancel(at: Time)

  /** What applying an event gives: the next record, a refusal, or a record the schema rejects. */
  datatype Outcome = Next(task: Task) | TransitionError | SchemaError

  predicate Terminal(s: Status) {
    s.Succeeded? || s.Failed? || s.Cancelled?
  }

  /** The cross-field rules of the record schema, as written in the source. */
  predicate SchemaValid(t: Task) {
    && t.attemptCount <= 100
    && 1 <= t.maxAttempts <= 10
    && t.attemptCount <= t.maxAttempts
    && (t.status.Running? <==> t.claimToken.Some? && t.leaseExpiresAt.Some?)
    && (t.status.Succeeded? <==> t.result.Some? && t.completedAt.Some?)
    && (t.status.Failed? <==> t.failureCode.Some? && t.failedAt.Some?)
    && (t.status.RetryPending? ==> t.nextAttemptAt.Some?)
    && (t.status.Running? ==> t.startedAt.Some?)
    && (t.status.Cancelled? ==> t.completedAt.Some?)
    && (t.result.Some? ==> ResultKind(t.result.value) == t.kind)
  }

  /** Bumps the version and parses the changed record. */
  function Parsed(t: Task, changed: Task): Outcome {
    var n := changed.(version := t.version + 1);
    if SchemaValid(n) then Next(n) else SchemaError
  }

  predicate Claimable(t: Task, e: Event)
    requires e.Claim? || e.Reclaim?
  {
    if e.Claim? then
      || t.status.Queued?
      || (t.status.RetryPending? && t.nextAttemptAt.Some? && t.nextAttemptAt.value <= e.at)
    else
      t.status.Running? && t.leaseExpiresAt.Some? && t.leaseExpiresAt.value <= e.at
  }

  /** `applyTaskTransition`. */
  function Apply(t: Task, e: Event): Outcome {
    if !SchemaValid(t) then SchemaError
    else if e.at < t.updatedAt || Terminal(t.status) then TransitionError
    else match e
      case Claim(_, _, _) => ApplyClaim(t, e)
      case Reclaim(_, _, _) => ApplyClaim(t, e)
      case Cancel(at) =>
        Parsed(t, t.(status := Cancelled, updatedAt := at, completedAt := Some(at), claimToken := None,
                     leaseExpiresAt := None, nextAttemptAt := None))
      case Succeed(at, result) =>
        if !t.status.Running? || ResultKind(result) != t.kind then TransitionError
        else Parsed(t, t.(status := Succeeded, result := Some(result), updatedAt := at, completedAt := Some(at),
                          claimToken := None, leaseExpiresAt := None))
      case ScheduleRetry(at, nextAt, _) =>
        if !t.status.Running? || t.attemptCount >= t.maxAttempts || nextAt <= at then TransitionError
        else Parsed(t, t.(status := RetryPending, failureCode := None, updatedAt := at,
                          nextAttemptAt := Some(nextAt), claimToken := None, leaseExpiresAt := None))
      case Fail(at, code) =>
        if !t.status.Running? then TransitionError
        else Parsed(t, t.(status := Failed, failureCode := Some(code), updatedAt := at, failedAt := Some(at),
                          claimToken := None, leaseExpiresAt := None, nextAttemptAt := None))
  }

  function ApplyClaim(t: Task, e: Event): Outcome
    requires e.Claim? || e.Reclaim?
  {
    if !Claimable(t, e) || t.attemptCount >= t.maxAttempts || e.lease <= e.at then TransitionError
    else Parsed(t, t.(status := Running, attemptCount := t.attemptCount + 1, updatedAt := e.at,
                      startedAt := Some(e.at), nextAttemptAt := None, claimToken := Some(e.claimToken),
                      leaseExpiresAt := Some(e.lease), failureCode := None))
  }

  /** The record as `createIdempotent` inserts it. */
  predicate Fresh(t: Task) {
    && t.status.Queued? && t.attemptCount == 0 && 1 <= t.maxAttempts <= 10
    && t.result.None? && t.failureCode.None? && t.startedAt.None? && t.completedAt.None? && t.failedAt.None?
    && t.nextAttemptAt.None? && t.claimToken.None? && t.leaseExpiresAt.None?
    && t.createdAt == t.updatedAt && t.version == 0
  }

  /** How many versions a record in this state can have gone through. */
  function VersionBound(t: Task): int {
    match t.status
    case Queued => 0
    case Running => 2 * t.attemptCount - 1
    case RetryPending => 2 * t.attemptCount
    case _ => 2 * t.maxAttempts
  }

  /**
   * The strengthened invariant. The schema alone is not inductive and does not order timestamps or
   * bound the version; this does.
   */
  predicate Sound(t: Task) {
    && SchemaValid(t)
    && (t.result.Some? <==> t.status.Succeeded?)
    && (t.completedAt.Some? <==> t.status.Succeeded? || t.status.Cancelled?)
    && (t.failureCode.Some? <==> t.status.Failed?)
    && (t.failedAt.Some? <==> t.status.Failed?)
    && (t.nextAttemptAt.Some? <==> t.status.RetryPending?)
    && (t.claimToken.Some? <==> t.status.Running?)
    && (t.leaseExpiresAt.Some? <==> t.status.Running?)
    && t.createdAt <= t.updatedAt
    && (t.status.Queued? ==> t.attemptCount == 0)
    && (t.status.Running? ==> t.startedAt == Some(t.updatedAt) && t.updatedAt < t.leaseExpiresAt.value)
    && (t.status.Running? || t.status.RetryPending? ==> 1 <= t.attemptCount)
    && (t.status.RetryPending? ==> t.updatedAt < t.nextAttemptAt.value && t.attemptCount < t.maxAttempts)
    && t.attemptCount <= t.version <= VersionBound(t)
  }

  /** The columns no transition rewrites. */
  predicate SameTask(a: Task, b: Task) {
    && a.id == b.id && a.tenant == b.tenant && a.session == b.session && a.kind == b.kind
    && a.maxAttempts == b.maxAttempts && a.createdAt == b.createdAt
  }

  /** One accepted event: the machine moves strictly forward and stays sound. */
  lemma StepKeepsSound(t: Task, e: Event)
    requires Sound(t)
    ensures !Apply(t, e).SchemaError?
    ensures Apply(t, e).Next? ==>
              var n := Apply(t, e).task;
              && Sound(n) && SameTask(t, n) && n.version == t.version + 1
              && t.updatedAt <= n.updatedAt == e.at
              && t.attemptCount <= n.attemptCount <= t.attemptCount + 1
              && (n.attemptCount == t.attemptCount + 1 <==> e.Claim? || e.Reclaim?)
              && (n.status.Running? <==> e.Claim? || e.Reclaim?)
  {
  }

  /** Exactly when a schema-valid record is turned into one the schema rejects. */
  lemma SchemaErrorExactly(t: Task, e: Event)
    requires SchemaValid(t)
    ensures Apply(t, e).SchemaError? <==>
              e.Cancel? && !Terminal(t.status) && t.updatedAt <= e.at && t.result.Some?
  {
  }

  /** The schema alone admits such a record, so it is not an inductive invariant. */
  lemma SchemaIsNotInductive()
    ensures exists t: Task, e: Event :: SchemaValid(t) && !Terminal(t.status) && Apply(t, e).SchemaError?
  {
    var t := Task("t", "n", "s", Extract, Queued, 0, 1, Some(ExtractResult("", "")), None, 0, 0, None, None, None,
                  None, None, None, 0);
    assert SchemaValid(t) && Apply(t, Cancel(0)).SchemaError?;
  }

  // ---------------------------------------------------------------------------------------------
  // Whole runs of one record

  /** Applies the events in order; a refused event leaves the record unchanged. */
  function Run(t: Task, es: seq<Event>): Task
    decreases es
  {
    if es == [] then t else Run(After(t, es[0]), es[1..])
  }

  function After(t: Task, e: Event): Task {
    match Apply(t, e)
    case Next(n) => n
    case _ => t
  }

  /** How many of the events were accepted claims or reclaims. */
  function Claims(t: Task, es: seq<Event>): nat
    decreases es
  {
    if es == [] then 0
    else (if (es[0].Claim? || es[0].Reclaim?) && Apply(t, es[0]).Next? then 1 else 0) + Claims(After(t, es[0]), es[1..])
  }

  lemma {:induction false} RunKeepsSound(t: Task, es: seq<Event>)
    requires Sound(t)
    ensures var r := Run(t, es);
            && Sound(r) && SameTask(t, r) && r.attemptCount == t.attemptCount + Claims(t, es)
            && t.version <= r.version && t.updatedAt <= r.updatedAt
            && (Terminal(t.status) ==> r == t)
    decreases es
  {
    if es != [] {
      StepKeepsSound(t, es[0]);
      RunKeepsSound(After(t, es[0]), es[1..]);
    }
  }

  /**
   * Every run of a freshly inserted task: claims never exceed the configured attempts, the version
   * never exceeds twice that, and the claim counter is exactly the number of accepted claims.
   */
  lemma {:induction false} RunIsBounded(t: Task, es: seq<Event>)
    requires Fresh(t)
    ensures var r := Run(t, es);
            && Claims(t, es) == r.attemptCount <= t.maxAttempts
            && r.version <= 2 * t.maxAttempts
  {
    RunKeepsSound(t, es);
  }

  /** Terminal states absorb: nothing that happens afterwards changes the record. */
  lemma {:induction false} TerminalAbsorbs(t: Task, es: seq<Event>, later: seq<Event>)
    requires Sound(t) && Terminal(Run(t, es).status)
    ensures Run(t, es + later) == Run(t, es)
    decreases es
  {
    if es == [] {
      assert es + later == later;
      RunKeepsSound(t, later);
    } else {
      StepKeepsSound(t, es[0]);
      assert (es + later)[1..] == es[1..] + later;
      TerminalAbsorbs(After(t, es[0]), es[1..], later);
    }
  }
}
