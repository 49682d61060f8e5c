# SurfGate: verified model

SurfGate hands out remote browser sessions and runs managed tasks in them. This project models its four
stateful or algorithmic cores in Dafny 4.11 and proves what they keep over every input and every
interleaving. `dafny verify dfyconfig.toml` checks all of it.

* **Managed tasks** (`TaskState`, `TaskTables`, `TaskClaims`, `TaskRepository`, `StorageKeys`,
  `TaskProtocol`, `TaskSafety`, `TaskTheorems`, `TaskContention`). The record machine, the hand-written SQL
  over it, the repository's transactions as an object, the protocol of any number of workers over task rows,
  artifact rows, object storage and a clock, and the claim transaction amid others.
* **Sessions** (`SessionState`, `SessionTable`, `SessionProtocol`, `SessionSafety`, `SessionWorld`,
  `SessionCoordinator`, `SessionTheorems`, `Reconciliation`, `SessionReconciler`). The session machine,
  optimistic concurrency on its row, the protocol of creators, DELETE callers and reconciler passes over
  session, attempt and idempotency rows and the provider's browsers, and the reconciler's query and batch.
* **Routing** (`CandidateId`, `RoutingModel`, `Eligibility`, `Scoring`, `RoutingDecision`, `Router`,
  `RouterTheorems`, `RouterLaws`, `Fallback`). Candidate IDs as a code, filtering, scoring, ranking, the
  validator of decisions, and bounded fallback.
* **Two structures** (`MessagePump`, `TerminationCache`). The relay's bounded pump and the provider client's
  memory of terminated sessions.

`Prelude`, `TextOrder` and `Ordering` hold the vocabulary, string order and sorting they share.

## How it is modelled

* Times are natural numbers of milliseconds. Schemas are predicates. Scores are exact thousandths, so the
  floating-point rounding of the original is replaced by exact half-up rounding.
* Encryption is ideal: a sealed reference opens only for the tenant and session it was sealed for. Hashes are
  arbitrary functions.
* Concurrency is interleaving of atomic steps: one database transaction or query, one storage operation, one
  provider call. Each database call may be answered, may take effect and lose its answer, or may have no
  effect. A process that stops takes no more steps. Clocks are arbitrary where the source reads its own clock;
  a task claim uses any database time read earlier.
* Where the source reads, computes and writes in separate queries (`transitionSessionForTenant`), the method
  runs with arbitrary other writers between the queries, and is proved to act as one atomic step. The claim
  transaction runs with steps of the whole protocol between its statements, except those that wait for its row
  locks or for the tenant's advisory lock, and is proved to commit one atomic claim.
* The safety of task claims is proved without the partial unique index that
  `apps/api/migrations/0008-managed-tasks.sql:46` declares, and with it. The index never fires for an
  uncontended claim; one that skips a locked row may choose its session mate and meet the index.
* The efficiency table of `packages/router/src/scoring.ts:155-160` is a plain object, so the permitted runtime
  class `constructor` finds an inherited property instead of the default score, and the parse of the score
  throws. The model keeps this: routing returns no decision there.
* A call to `provider.allocate` that throws is taken to have handed back no browser. Provider references are
  unique per session.

## Model

| member | source | states |
|---|---|---|
| TaskState.StepKeepsSound | packages/task-core/src/task-state.ts:130-209 | an accepted event on a sound task never fails the schema, keeps the task sound, adds one version, never moves `updatedAt` back, and counts an attempt exactly for claims and reclaims |
| TaskState.SchemaErrorExactly | packages/task-core/src/task-state.ts:15-71 | a schema-valid record is turned into an invalid one exactly by cancelling an open record that carries a result |
| TaskState.SchemaIsNotInductive | packages/task-core/src/task-state.ts:15-71 | such a record exists, so the schema alone is no invariant |
| TaskState.RunKeepsSound | packages/task-core/src/task-state.ts:130-209 | along every run the task stays sound, its attempt count is the number of accepted claims and finished tasks stay as they are |
| TaskState.RunIsBounded | packages/task-core/src/task-state.ts:136-209 | from insertion, claims never exceed `maxAttempts` and versions never exceed twice that |
| TaskState.TerminalAbsorbs | packages/task-core/src/task-state.ts:136-209 | whatever follows a terminal state changes nothing |
| TaskTables.SweepRefines | packages/task-postgres/src/repository.ts:434-448 | the exhaustion sweep's partial update is the machine's `fail` on the full record |
| TaskTables.ClaimRefines | packages/task-postgres/src/repository.ts:503-527 | the partial claim update writes exactly the record the machine computes |
| TaskTables.TransitionRefines | packages/task-postgres/src/repository.ts:359-416 | the generic transition commits exactly one machine step of the stored row and touches no other row |
| TaskTables.CompleteRefines | packages/task-postgres/src/repository.ts:572-643 | completing from the worker's old snapshot is the machine's own step, because equal versions mean equal records |
| TaskClaims.SweepKeepsSound | packages/task-postgres/src/repository.ts:434-448 | sweeping keeps all rows sound and at most one running row per session |
| TaskClaims.NeverStuck | packages/task-core/src/task-state.ts:136-209 | past its own deadline a non-terminal row is claimable or reclaimable, or else sweepable, and never both |
| TaskClaims.FirstIsUnique | packages/task-postgres/src/repository.ts:450-490 | at most one row is first in claim order |
| TaskClaims.ClaimNextDeterministic | packages/task-postgres/src/repository.ts:418-531 | tables, clock and arguments fix the picked row, the new tables and the reply |
| TaskClaims.IndexNeverFires | packages/task-postgres/src/repository.ts:434-490 | after the sweep the first candidate never shares its session with another running row |
| TaskClaims.ClaimKeepsOneRunning | packages/task-postgres/src/repository.ts:418-531 | a claim keeps one running row per session, and tables and reply are the same with and without the unique index |
| TaskClaims.ClaimMakesProgress | packages/task-postgres/src/repository.ts:418-531 | once all open rows are past their deadlines a claim, with or without the index, moves some row on unless everything is finished, and undoes none |
| TaskRepository.Repository.Sweep | packages/task-postgres/src/repository.ts:434-448 | the loop over exhausted rows fails each of them and changes nothing else |
| TaskRepository.FirstCandidate | packages/task-postgres/src/repository.ts:450-490 | it finds the first eligible row in claim order that no other transaction holds, or there is none |
| TaskRepository.Repository.ChooseRow | packages/task-postgres/src/repository.ts:450-500 | picking the tenant first and then its row gives the globally first candidate |
| TaskRepository.Repository.ClaimRowOrUndo | packages/task-postgres/src/repository.ts:492-531 | the chosen row is claimed, or the transaction's earlier sweep is undone as well |
| TaskRepository.Repository.ClaimNext | packages/task-postgres/src/repository.ts:418-531 | sweep, choice and claim together meet the declarative claim specification, rollback included |
| TaskRepository.Repository.TransitionTask | packages/task-postgres/src/repository.ts:359-416 | a sound row moves by exactly one step of the machine when version, token and command fit and the machine accepts; otherwise the call is lost and nothing changes |
| TaskRepository.Repository.InsertArtifactAndComplete | packages/task-postgres/src/repository.ts:572-643 | artifact and completion are committed together or not at all |
| TaskRepository.Repository.CreateIdempotent | packages/task-postgres/src/repository.ts:237-307 | a used key is answered from its row and writes nothing; a new key gets a task exactly when the session is live, both quotas have room and the task can be stored, and then task and key are all that is added and both quotas hold |
| StorageKeys.DecimalIsReadable | apps/worker/src/managed-task-worker.ts:50-53 | an attempt number can be read back from a storage key |
| StorageKeys.KeysAreInjective | apps/worker/src/managed-task-worker.ts:47-53 | two attempts share a storage key only if they are the same attempt of the same task |
| TaskTheorems.LeaseExclusion | packages/task-postgres/src/repository.ts:425-531 | after every run each session has at most one running task with an open lease and each tenant at most `maxRunning`, with claimers using stale clocks |
| TaskTheorems.TasksAreBounded | packages/task-core/src/task-state.ts:136-209 | after every run each stored row is schema-valid, with attempts and version within their bounds |
| TaskTheorems.CreationIsIdempotent | packages/task-postgres/src/repository.ts:237-307 | after every run open tasks per tenant are within the quota and each key names one task no other key names |
| TaskTheorems.ReplayNeverWrites | packages/task-postgres/src/repository.ts:217-307 | a used key answers with its task, or with a conflict exactly when the hash differs, and writes nothing |
| TaskTheorems.ArtifactConsistency | apps/worker/src/managed-task-worker.ts:245-322 | after every run an artifact row exists exactly for the tasks that succeeded with an artifact, is the artifact of their result, and its object is stored with the recorded digest and size |
| TaskTheorems.HistoryMovesForward | packages/task-postgres/src/repository.ts:359-643 | rows only move on, finished rows never change, a version never stands for two records, keys and artifacts are written once |
| TaskTheorems.RetryDelayInRange | apps/worker/src/managed-task-worker.ts:325-349 | the retry delay is between one and thirty seconds, the range the repository demands |
| TaskTheorems.FailureApplies | apps/worker/src/managed-task-worker.ts:325-349 | the retry or failure chosen for a running record is always one the machine accepts |
| TaskTheorems.HolderIsHeard | apps/worker/src/managed-task-worker.ts:325-349 | after every run a worker that still holds its claim has its retry or failure committed, from its claim time on, and one that lost it changes nothing |
| TaskTheorems.ClaimNextIsAClaim | packages/task-postgres/src/repository.ts:418-531 | the repository's `claimNext` is one of the claims the interleaved protocol allows |
| TaskContention.StepIsTame | packages/task-postgres/src/repository.ts:359-643 | a step of the protocol that claims no row of a tenant starts none of its rows |
| TaskContention.Transaction.Sweep | packages/task-postgres/src/repository.ts:434-448 | the sweep fails rows that still are exhausted when it reaches them, and undisturbed all of them |
| TaskContention.Transaction.Choose | packages/task-postgres/src/repository.ts:450-500 | the row chosen and locked passes every guard once the others have acted, and undisturbed it is the first candidate |
| TaskContention.Transaction.Update | packages/task-postgres/src/repository.ts:501-531 | the claim update commits one claim whose guards hold at that moment, or a refusal leaves only what others did |
| TaskContention.Transaction.ClaimNext | packages/task-postgres/src/repository.ts:418-531 | from any reachable tables and with any steps of others between its statements, what `claimNext` commits is one claim of the protocol after those steps; undisturbed it is the specified claim |
| TaskSafety.RunKeepsInv | apps/worker/src/managed-task-worker.ts:83-349 | the invariant behind these theorems holds after every run |
| SessionState.SchemaErrorExactly | apps/api/src/domain/session.ts:56-119 | a schema-valid session is turned into an invalid one exactly by connecting it without a runtime or provider or with an expiry that is not later |
| SessionState.StepKeepsSound | apps/api/src/domain/session.ts:214-329 | on a sound session only an expiry that is not later is rejected by the schema; accepted events keep it sound, add at most one version and never move `updatedAt` back; terminal states absorb |
| SessionState.RunIsBounded | apps/api/src/domain/session.ts:214-329 | on every run the version never exceeds six and a reference, once stored, stays |
| SessionTable.ResolveIsAtomic | apps/api/src/database/postgres-session-repository.ts:272-284 | a lost race is answered like an atomic step on the row that won it |
| SessionTable.DecideIsAtomic | apps/api/src/database/postgres-session-repository.ts:112-125 | what the code decides from the row it read is the atomic step on that row |
| SessionTable.Row.CompareAndSet | apps/api/src/database/postgres-session-repository.ts:127-165 | the conditional update writes exactly when the row is still the one read |
| SessionTable.Row.Transition | apps/api/src/database/postgres-session-repository.ts:112-168 | with other writers between its queries the transition acts as one atomic step at some state the row had while it ran: the row moves by what the others did and, exactly when the atomic step writes, by that one step |
| SessionTable.ChainKeeps | apps/api/src/domain/session.ts:214-329 | whatever a row once referred to it still refers to, and an ended state is its last |
| SessionTable.OneWinnerPerVersion | apps/api/src/database/postgres-session-repository.ts:112-168 | of any writers sharing an expected version at most one changes the row |
| SessionCoordinator.Coordinator.Claim | apps/api/src/database/postgres-session-create-coordinator.ts:33-75 | the transaction, statement by statement, is the specified claim; an exceeded quota leaves no key behind |
| SessionSafety.StepKeepsState | apps/api/src/domain/session.ts:214-329 | a justified step keeps the row's reference tied to the browser handed back and never ends a row before its browser |
| SessionSafety.EndedRowStays | apps/api/src/database/postgres-session-repository.ts:112-168 | a terminal row is never changed by any later transition |
| SessionSafety.AllocationKeepsInv | apps/api/src/services/session-service.ts:204-356 | every step towards a published session, lost answers included, keeps the invariant |
| SessionSafety.RecoveryKeepsInv | apps/api/src/services/session-service.ts:716-801 | so does every step of recovery, cleanup and rollback |
| SessionSafety.HoldingStep | apps/api/src/services/session-service.ts:683-712 | a browser in hand is stored in the row or stays covered by its attempt |
| SessionSafety.RecoveringStep | apps/api/src/services/session-service.ts:759-801 | what recovery does with the row depends on what the row says then |
| SessionSafety.HelperStepKeepsInv | apps/api/src/reconciliation/session-reconciler.ts:82-145 | every step of a reconciler pass or a DELETE caller keeps the invariant |
| SessionSafety.DeletingStep | apps/api/src/services/session-service.ts:444-533 | the DELETE caller's first step does |
| SessionSafety.CellStepKeepsInv | apps/api/src/services/session-service.ts:120-386 | all processes of one session keep the invariant, and its history, claim and browsers only grow |
| SessionTheorems.ReachedIsOk | apps/api/src/services/session-service.ts:120-386 | after every run from empty tables all sessions satisfy the invariant, keys and tenants match, and quotas hold |
| SessionTheorems.NoSilentLeak | apps/api/src/services/session-service.ts:626-801 | after every run each browser handed back is terminated, or referenced by an active or terminating row, or covered by a started attempt |
| SessionTheorems.TablesAgree | apps/api/src/services/session-service.ts:338-384 | after every run a terminated row's browser was terminated, a row that ever held a reference has it still and is not failed, and a succeeded creation points at an active, terminating or terminated row |
| SessionTheorems.OneSessionPerKey | apps/api/src/database/postgres-session-create-coordinator.ts:33-75 | after every run a key has one session of its own tenant that no other key has, which called the provider at most twice |
| SessionTheorems.OpenWithinQuota | apps/api/src/database/postgres-session-create-coordinator.ts:53-65 | after every run open sessions per tenant are within the quota |
| SessionTheorems.RunMovesForward | apps/api/src/database/postgres-session-create-coordinator.ts:77-96 | along every run keys are permanent, histories grow and outcomes are written once |
| SessionTheorems.KeyIsOwnedOnce | apps/api/src/database/postgres-session-create-coordinator.ts:33-146 | once a key is owned every later claim for it changes nothing and gets that session, or a conflict exactly when the hash differs |
| Reconciliation.TwoStage | apps/api/src/database/postgres-session-repository.ts:188-224 | the first N of the first N of each part are first among all, for any tie-breaking at either stage |
| Reconciliation.QuerySkipsNothing | apps/api/src/database/postgres-session-repository.ts:170-246 | the query returns as many waiting sessions as fit, each once, in update order, and never skips one for another that waited less long |
| SessionReconciler.Reconcile | apps/api/src/reconciliation/session-reconciler.ts:82-145 | with others writing in between and with any call failing or losing its answer, the code is one pass of the helper of the session protocol: same row history, same browsers ended, same state of the key; unless it threw the row has ended, a live session only after its own browser, and a creation that was given up has a settled key |
| SessionReconciler.Close | apps/api/src/reconciliation/session-reconciler.ts:125-144 | the last part of that pass: a terminating row is completed only after the provider confirmed the end of the browser it refers to |
| SessionReconciler.RunBatch | apps/api/src/reconciliation/session-reconciler.ts:57-80 | while others write to the same rows every candidate is counted once, as recovered or unresolved, suspected leaks are the uncertain allocations, every session whose turn did not throw has ended and every creation given up is settled |
| CandidateId.EncodePresentComponent | packages/router/src/candidate.ts:78-98 | the index loop that skips surrogate pairs yields the code of the whole text |
| CandidateId.CharacterCode | packages/router/src/candidate.ts:71-76 | both encoding stages together leave letters, digits and `-_.` alone and percent-encode the UTF-8 bytes of all else |
| CandidateId.RoundTrip | packages/router/src/candidate.ts:78-98 | every text decodes to itself, unpaired surrogates included |
| CandidateId.IdDecodes | packages/router/src/candidate.ts:114-126 | an ID decodes to its identity |
| CandidateId.IdsAreInjective | packages/router/src/candidate.ts:114-126 | two IDs are equal exactly when their identities are |
| CandidateId.IdFits | packages/router/src/candidate.ts:13-18 | every ID uses only allowed characters and at most 1288 of the 2048 allowed |
| RoutingModel.CandidatesFacts | packages/router/src/candidate.ts:128-158 | candidates are exactly those of the sources, each with its own ID, in strict ID order |
| Eligibility.CollectExplained | packages/router/src/eligibility.ts:35-39 | a rejection lists exactly the reasons that apply, each once |
| Eligibility.EligibleMeansCompatible | packages/router/src/eligibility.ts:41-138 | a candidate is eligible exactly when it meets every hard constraint |
| Eligibility.Evaluate | packages/router/src/eligibility.ts:41-138 | the evaluation finds eligibility and the reasons in their order |
| Eligibility.EvaluateHealth | packages/router/src/eligibility.ts:51-65 | the configuration, health and capacity checks |
| Eligibility.EvaluatePolicy | packages/router/src/eligibility.ts:67-99 | the policy, preference, safety and duration checks |
| Eligibility.EvaluateCapabilities | packages/router/src/eligibility.ts:101-122 | the capability loop adds exactly the reasons of missing required capabilities |
| Scoring.RoundIsNearest | packages/router/src/scoring.ts:114-116 | rounding goes to the nearest integer, halves up |
| Scoring.ScoreIsValid | packages/router/src/scoring.ts:10-40 | every breakdown that can be computed is in scale and its total is the rounded weighted mean |
| Scoring.ScoreReasonsFacts | packages/router/src/scoring.ts:118-196 | an explanation repeats nothing and has no verdict on the rank yet |
| Scoring.RankedIsStrict | packages/router/src/scoring.ts:49-69 | the ranking comparator is a strict order |
| Scoring.RankingDecides | packages/router/src/scoring.ts:49-69 | candidates with different IDs never tie |
| Scoring.Survey | packages/router/src/scoring.ts:172-196 | the loops over preferred capabilities give their number, score sum and whether one matches |
| Scoring.ScoreEligible | packages/router/src/scoring.ts:148-226 | the computation yields the specified breakdown and reasons, or throws exactly when there is no efficiency score |
| RoutingDecision.CheckExplanations | packages/router/src/routing-decision.ts:161-189 | the loop finds no issue exactly when each explanation has the one verdict its rank calls for |
| RoutingDecision.CheckWinner | packages/router/src/routing-decision.ts:191-234 | no issue exactly when the winner, its record and the decision agree |
| RoutingDecision.CrossCheck | packages/router/src/routing-decision.ts:119-235 | the validator finds no issue exactly when all fields agree |
| Router.JudgeAll | packages/router/src/router.ts:30-43 | the loop splits candidates into rejected and scored in their order, or throws exactly when one of them cannot be scored |
| Router.RouteBrowserRuntime | packages/router/src/router.ts:27-100 | the computation yields the specified decision, or throws where scoring does |
| RouterTheorems.DecisionListsAll | packages/router/src/router.ts:33-68 | every candidate appears exactly once in a decision |
| RouterTheorems.RankingAgrees | packages/router/src/router.ts:45-68 | eligible candidates are listed in strict rank order, so sorting them changes nothing |
| RouterTheorems.ExplanationsAgree | packages/router/src/router.ts:51-68 | each explanation ends with exactly the verdict its rank calls for |
| RouterTheorems.ProducerMeetsValidator | packages/router/src/router.ts:72-99 | for every valid input routing throws exactly when an eligible candidate has runtime `constructor` and no efficiency signal, and otherwise the decision satisfies every rule of the decision schema |
| RouterTheorems.BrokenExactly | packages/router/src/scoring.ts:155-160 | some judgement throws exactly when an eligible candidate has runtime `constructor` and no efficiency signal |
| RouterLaws.RoutingThrows | packages/router/src/scoring.ts:155-160 | a valid input with one healthy candidate of that runtime makes routing throw |
| RouterLaws.OrderDoesNotMatter | packages/router/src/router.ts:27-100 | rearranging sources and signal lists yields the identical decision |
| RouterLaws.RivalWinsExactly | packages/router/src/scoring.ts:49-69 | without signals a rival outranks a candidate of the requested runtime exactly in one described situation |
| RouterLaws.PreferenceHoldsExactly | packages/router/src/scoring.ts:114-211 | without signals the requested runtime wins exactly when scoring throws for no candidate and one of its eligible candidates is upset by no eligible rival |
| RouterLaws.PreferenceBound | packages/router/src/policy-v1.ts:3-47 | so where routing does not throw it wins whenever it has an eligible candidate, unless that is constrained while the winner is available |
| RouterLaws.UpsetHappens | packages/router/src/policy-v1.ts:3-47 | a concrete input requests Chromium, allows fallback and selects Kitesurf |
| Fallback.StepKeepsSchema | packages/router/src/fallback.ts:407-509 | no accepted transition fails the machine's own schema |
| Fallback.FallbackIsBounded | packages/router/src/fallback.ts:239-345 | on every run at most two candidates are tried, distinct and of distinct runtimes, the second only if allowed |
| Fallback.FindOther | apps/api/src/services/session-service.ts:568-570 | it finds the first eligible candidate of another runtime |
| Fallback.AllocateWithFallback | apps/api/src/services/session-service.ts:535-624 | when allocations succeed or end in provider errors the machine accepts every event of the run, and the service tries the same candidates as the machine, with the same outcome and failure classes |
| MessagePump.Pump.Enqueue | apps/relay/src/message-pump.ts:52-73 | the two limits, the queue, the pause and the drain together are the specified step of the log |
| MessagePump.Pump.Drain | apps/relay/src/message-pump.ts:85-107 | draining, with callbacks that come from inside `send` or later, or a `send` that throws, is the specified step, and says whether that exception comes out |
| MessagePump.Pump.Callback | apps/relay/src/message-pump.ts:96-106 | so is the callback, after success or error, open or closed |
| MessagePump.Pump.Close | apps/relay/src/message-pump.ts:75-83 | so is closing |
| MessagePump.RunFlows | apps/relay/src/message-pump.ts:52-107 | along every run accepted, handed over and delivered messages only grow, in order, and the laws of the pump hold |
| MessagePump.ThrowWedges | apps/relay/src/message-pump.ts:85-107 | once a `send` threw, nothing is sent or delivered any more whatever follows, and a paused source stays paused until the pump is closed |
| MessagePump.PumpConserves | apps/relay/src/message-pump.ts:52-107 | after every run every accepted byte of an open pump is delivered or unsettled, unsettled bytes fit the limit, waiting messages mean a paused source, and an idle or closed pump has not paused it |
| MessagePump.RunPump | apps/relay/src/message-pump.ts:52-107 | any run of actions on a new pump leaves its fields balanced: the target got a prefix of the accepted messages, an open pump queues the rest within the limit, except one whose `send` threw, and has delivered or counted every byte, a backlog means a paused source, and an idle or closed pump has not paused it |
| TerminationCache.HeldExactlyIfRecent | packages/provider-cloudflare/src/cloudflare-browser-run-provider.ts:524-552 | a live entry exists exactly when the last confirmation is under ten minutes old and fewer than 64 other sessions were confirmed since |
| TerminationCache.Client.IsRecentlyTerminated | packages/provider-cloudflare/src/cloudflare-browser-run-provider.ts:524-534 | the answer is exactly what the log of confirmations says |
| TerminationCache.Client.MarkRecentlyTerminated | packages/provider-cloudflare/src/cloudflare-browser-run-provider.ts:536-552 | purging, deleting, evicting and appending keep the entries in step with the log, at most 64 of them |
| TerminationCache.Client.Terminate | packages/provider-cloudflare/src/cloudflare-browser-run-provider.ts:395-431 | a termination is remembered, joined or sent upstream, each exactly when it should be |
| TerminationCache.Client.Settle | packages/provider-cloudflare/src/cloudflare-browser-run-provider.ts:459-494 | a confirmed termination is logged, a failed one is not |
| TerminationCache.Client.Finally | packages/provider-cloudflare/src/cloudflare-browser-run-provider.ts:445-457 | a settled operation leaves the map |
| TerminationCache.Client.SingleFlight | packages/provider-cloudflare/src/cloudflare-browser-run-provider.ts:422-457 | two operations in flight are for different sessions |

## Left out

- Relay server, Redis coordination and upstream connections: sockets, timers and pub/sub.
- Relay tokens, key hashing, redaction and target policy: foreign cryptography, DNS and patterns.
- HTTP routes, authentication, configuration, health servers, telemetry and audit rows: plumbing; an audit append is a step that may throw.
- The browser executor, object-storage client and provider transport: they become steps that succeed or fail in any way.
- The rate limiters and the session-duration limit: steps that may throw.
- Floating-point rounding of scores, locale-dependent comparison and trimming of text.
- Input parsing: members over `ValidInput`, `ValidIdentity` and similar predicates speak about inputs that passed their schema.
- Liveness of sessions: the session theorems are safety statements, and a DELETE caller that loses to a full termination gets an error.
- The polling loop of `waitForCompletion` and the read-only queries: they only repeat `ReadExisting`.
- TaskContention.Transaction.ClaimNext: statements are atomic; that row locks and the advisory lock make others wait is the database's promise, not proved.
- SessionSafety.HoldingStep: the creator's control flow is a state machine over its awaits, not a method with local variables.
- MessagePump.Pump.Drain: listeners that call back into the pump are not modelled, and a `send` that threw is taken never to call back.
- TerminationCache.Client.Terminate: the timeouts of callers that join a termination are not modelled; a joiner that retries is another call.
- Fallback.AllocateWithFallback: errors that are not the provider's end the service's run early and have no counterpart in the machine.
- Reconciliation.QuerySkipsNothing: sessions that expired at the same instant are cut off by update time first and by ID only afterwards, so ties at the limit do not follow the final order; nothing is promised about ties.
