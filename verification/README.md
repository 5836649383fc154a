# Verified model of the platform modules

Five parts of the TypeScript backend are modelled here and their guarantees proved for every
input and every run.

**Eventing** (`Eventing*.dfy`, `OutboxPublisher.dfy`, `RabbitDelivery.dfy`, `ConfirmPort.dfy`,
`ConsumerAdapter.dfy`). Outbox rows are claimed with a fencing token, published to a confirming
broker, retried or isolated, and consumed under an inbox receipt; jobs add a lifecycle. Store,
service, publisher and delivery handling are classes whose methods are proved equal to functions on
the stored facts. `EventingPipeline.dfy` puts them together as a transition system: each step is one
atomic action of a client, a publisher, the broker, a confirm channel or a worker, and processes may
interleave, crash or lose their connection between any two steps. Publishers and workers learn of their
publications only through the confirm channels, which answer by message id. `EventingTheorems.dfy`
holds the statements over all runs; `EventingAccounts.dfy`, `EventingNoLoss.dfy`,
`EventingSingleFile.dfy`, `EventingExposure.dfy` and `EventingLoss.dfy` settle when a message can be
lost; and
`EventingRefinement.dfy` shows the publishing loop and the handling of a delivery to be runs of the
pipeline.

**Browser sessions** (`Session*.dfy`). Each Redis script is one atomic step. Login, refresh and logout
are sequences of steps that interleave freely while any key may expire and any request may die.
`SessionService.dfy` shows each service call to be such a sequence.

**Canonical text** (`CanonicalJson.dfy`, `CanonicalUniqueness.dfy`, `JsonValues.dfy`). The printer
behind every fingerprint and digest, over UTF-16 code units, with strings escaped as in section 7 of
RFC 8259 and lone surrogates escaped as the language prescribes.

**Authorization policies** (`Policy*.dfy`). Validation, canonical form, evaluation, cache lifetime and
publication. Reorderings are stated through bags: two snapshots are reorderings of each other when
their nested multisets agree.

**Business configuration** (`Configuration*.dfy`) and **application registry** (`Registry*.dfy`).
Stores with receipts, half-open activation intervals, priority resolution; a parent-pointer graph, the
walk over it, and the fingerprint of a mutation.

`Prelude.dfy` and `Texts.dfy` hold sorting, permutations and the code-unit order they all use.

## Reading the model

- State machines are folds: `Apply` takes one step, `Run` a sequence of them. A step that is not
  enabled leaves the state as it is, so a statement about `Run(Start, steps)` is one about every run.
  What is not determined by the code (the broker, clocks, failures, fresh ids) is carried by the steps.
- Hashes are taken to be injective, so a digest is represented by what it hashes. Credentials, session
  ids, claim tokens and lease owners are fresh where the code draws them at random.
- Identifiers that are only compared are numbers; texts whose order or spelling matters are sequences
  of code units. Validated records are typed inputs: only the uniqueness, range and size rules that
  later steps rely on are kept.
- In the configuration model an instant is an integer, ordered as its ISO text is; no accepted text
  sorts after 9999-12-31T23:59:59.999Z, called the sentinel.

## Where the code and its intent part

- A retry is meant to be confirmed before the old copy is acknowledged. All consumers of a consumer
  adapter share one confirm channel for their retries, and the channel answers by message id for the
  first publication that is claimed and confirmed. Two consumers of one message that retry it at once
  may therefore be told of each other's copy, and one that was returned may be acknowledged away. A
  retry layer hands an expired copy back to its consumer's exchange under that consumer's routing key,
  so the copy that was routed comes back to every queue the key reaches. Nothing is lost, then, when
  both consumers are reached by both keys, as two on one direct exchange are; but a consumer out of
  reach of the other's key loses the message (`SharedChannelLoses`). `AnswerMovesOneCopy` says exactly
  what such an answer does, and `NoLossExactly` when a consumer can lose a message: when it is
  `Exposed`, which is computed from the routes, bindings, retry layers, adapters and the delivery policy
  alone. With copies of the message put into queues by hand, `NoLoss` needs no more than that no retry
  goes out while its channel is in use for the same message id on behalf of another message or consumer.
- Activation intervals of one scope are meant never to overlap. The in-memory configuration store
  compares an activation without an end as if it ended at the sentinel, but lists it as in force for
  ever, so an activation that starts at the sentinel is accepted beside one without an end
  (`SentinelCollision`). `DisjointExactlyWhen` and `AcceptedKeepsDisjoint` say exactly when intervals
  are disjoint, and `DisjointBelowSentinel` that nothing goes wrong below the sentinel. The resolution
  theorems hold at every instant before the sentinel, and at the sentinel whenever the intervals are
  disjoint.
- A termination repeated after its end has passed is refused as invalid input by the service although
  the store would answer from the receipt (`ReceiptsAreFinal`, `LateRepetitionRefused`).

## Model

| member | source | states |
|---|---|---|
| EventingStore.InMemoryEventingStore.AppendOutbox | packages/platform-modules/eventing-outbox/src/memory-store.ts:24 | appends a row unless its message id is taken; nothing else changes |
| EventingStore.InMemoryEventingStore.ClaimOutbox | packages/platform-modules/eventing-outbox/src/memory-store.ts:26-31 | claims the selected rows in order with the tokens given, one more attempt each, and returns them as claimed |
| EventingStore.ClaimSelectionIsClaimable | packages/platform-modules/eventing-outbox/src/memory-store.ts:27 | a claim selects at most the limit, each row once, and only due pending rows or publishing rows with a lapsed lease |
| EventingStore.ClaimSelectionTakesOldest | packages/platform-modules/eventing-outbox/src/memory-store.ts:27 | a claimable row is left behind only when the limit is used up by rows available no later |
| EventingStore.ClaimRowsEffect | packages/platform-modules/eventing-outbox/src/memory-store.ts:28-29 | claiming changes exactly the claimed rows: publishing, one more attempt, the token and the claim instant |
| EventingStore.InMemoryEventingStore.MarkOutboxPublished | packages/platform-modules/eventing-outbox/src/memory-store.ts:32 | marks a row published only for the token that holds it, and says whether it did |
| EventingStore.InMemoryEventingStore.MarkOutboxFailure | packages/platform-modules/eventing-outbox/src/memory-store.ts:33 | puts a row back or isolates it only for the token that holds it, and says whether it did |
| EventingStore.InMemoryEventingStore.ReplayOutboxRow | packages/platform-modules/eventing-outbox/src/memory-store.ts:34 | makes an isolated row pending again with no attempts used; any other row is left alone |
| EventingStore.InMemoryEventingStore.FindJobByIdempotencyKey | packages/platform-modules/eventing-outbox/src/memory-store.ts:39 | finds a job holding the key exactly when one does |
| EventingStore.InMemoryEventingStore.CreateJobRow | packages/platform-modules/eventing-outbox/src/memory-store.ts:40 | creates a queued job unless its id or its idempotency key is taken |
| EventingStore.InMemoryEventingStore.ClaimJob | packages/platform-modules/eventing-outbox/src/memory-store.ts:41 | moves a queued job to processing; any other job is left alone |
| EventingStore.InMemoryEventingStore.CompleteJob | packages/platform-modules/eventing-outbox/src/memory-store.ts:43 | moves a processing job to completed; any other job is left alone |
| EventingStore.InMemoryEventingStore.IsolateJob | packages/platform-modules/eventing-outbox/src/memory-store.ts:44 | moves a processing job to isolated; any other job is left alone |
| EventingStore.InMemoryEventingStore.CancelJobRow | packages/platform-modules/eventing-outbox/src/memory-store.ts:42 | cancels a queued job and returns the row; a job in another state is returned as it is |
| EventingStore.InMemoryEventingStore.CreateInboxReceipt | packages/platform-modules/eventing-outbox/src/memory-store.ts:36 | writes the receipt of a message and consumer once |
| EventingStore.InMemoryEventingStore.CreateIsolation | packages/platform-modules/eventing-outbox/src/memory-store.ts:37 | records an isolation once per message, consumer, digest and reason |
| EventingService.EventingCore.AppendEvent | packages/platform-modules/eventing-outbox/src/service.ts:20-30 | an event is appended, or reported pending when the same content is already there; other content under the id is refused |
| EventingService.EventingCore.SubmitJob | packages/platform-modules/eventing-outbox/src/service.ts:31-40 | job row and outbox row are written together or not at all, with other clients writing in between; the same key and content answers with the job on record |
| EventingService.EventingCore.CancelJob | packages/platform-modules/eventing-outbox/src/service.ts:41-44 | cancelling a job changes it only while it is queued and returns the status it then has |
| EventingService.EventingCore.RunClaimedJob | packages/platform-modules/eventing-outbox/src/service.ts:62-73 | after a claim the job ends completed with its effect, isolated with a receipt, or the transaction throws |
| EventingService.EventingCore.ConsumeInTransaction | packages/platform-modules/eventing-outbox/src/service.ts:55-74 | the ordered writes inside the inbox transaction come to the one atomic transition of the pipeline, and to nothing when they throw |
| EventingService.EventingCore.Consume | packages/platform-modules/eventing-outbox/src/service.ts:45-75 | the whole call: unsupported and conflicting messages are isolated, duplicates answered, the rest handled in the transaction |
| EventingTheorems.EveryRunIsSound | packages/platform-modules/eventing-outbox/src/service.ts:20-75 | in every run every invariant of rows, jobs, effects, claims, copies and workers holds |
| EventingTheorems.EffectivelyOnce | packages/platform-modules/eventing-outbox/src/service.ts:45-75 | in every interleaving of publishers, crashes, reclaims, duplicated and redelivered copies and consumers, a message and consumer have at most one committed handler effect, and it is of the content on the receipt |
| EventingTheorems.HandledPayloadIsFinal | packages/platform-modules/eventing-outbox/src/service.ts:53-57 | once a content was handled for a message id and consumer, no other content under that id is ever handled there |
| EventingAccounts.AnswerMovesOneCopy | apps/worker/src/rabbit-adapter.ts:355-361 | telling a worker that its retry was routed moves exactly one acknowledgement, from every account the copy told about counts for to that of the worker; the worker's own account stays as it is exactly when that copy counts for it |
| EventingAccounts.AccountStays | apps/worker/src/rabbit-adapter.ts:502-527 | while those of an account are told only of copies that count for it no step closes it: copies never fall below the acknowledgements they back, with a copy in a retry layer counted for its own consumer or for every consumer it comes back to |
| EventingNoLoss.NoLoss | packages/platform-modules/eventing-outbox/src/publisher.ts:17-22 | in every run in which each retry goes out on a channel that nobody uses for its message id on behalf of another message or consumer, every bound consumer of a published row has a live or dead-letter copy, a receipt or an isolation |
| EventingNoLoss.NoLossAfterConfirm | packages/platform-modules/eventing-outbox/src/rabbit.ts:31-35 | the same from the moment a publisher hears of the confirm and in every later state, with the answers of all confirm channels, also exchanged ones, as the channels give them |
| EventingNoLoss.AccountOutlivesRun | apps/worker/src/rabbit-adapter.ts:502-527 | in such runs the account of a message and consumer, once open, is kept by every continuation, whichever way it is counted |
| EventingExposure.StuckStays | apps/worker/src/rabbit-adapter.ts:502-504 | a message on record at a consumer, or in a copy the consumer has no retry layer or attempt left for, stays so in every step: that copy is never acknowledged away |
| EventingExposure.UnexposedNeverLoses | apps/worker/src/rabbit-adapter.ts:392-423 | no run loses a message at a consumer that is not exposed, whatever answers the confirm channels exchange |
| EventingLoss.SharedChannelLoses | apps/worker/src/rabbit-adapter.ts:502-527 | two consumers of a route behind one adapter with room for two deliveries, both with a retry layer for the first delay: when the routing key of the one does not reach the other, some run loses the message at the other; both retry at once, one retry is routed and the other returned, and the second takes the answer to the first and acknowledges |
| EventingLoss.NoLossExactly | apps/worker/src/rabbit-adapter.ts:567-581 | some run loses a given message at a given consumer exactly when the consumer is exposed: when it can send on all copies it may get, and shares an adapter with room for two deliveries with a consumer the message can come to, that can send it on, and whose routing key does not reach it |
| EventingRefinement.BatchIsARun | packages/platform-modules/eventing-outbox/src/publisher.ts:12-38 | what one batch of the publishing loop does to the store, a run of the pipeline does |
| EventingRefinement.DeliveryIsARun | packages/platform-modules/eventing-outbox/src/rabbit.ts:31-35 | handling a delivery ends as a run of the pipeline does: its copy acknowledged, dead-lettered or left, a confirmed retry in its layer, and a consumed message on record |
| EventingTheorems.OutboxFencing | packages/platform-modules/eventing-outbox/src/memory-store.ts:32-33 | only the latest claim of a row can mark it; a row put back is delayed by the backoff its attempt names, which exists |
| EventingTheorems.OutboxRowsKeepShape | packages/platform-modules/eventing-outbox/src/memory-store.ts:24-34 | a token is present exactly while publishing, a pending row has attempts left, an isolated row has none |
| EventingTheorems.PublishedIsAbsorbing | packages/platform-modules/eventing-outbox/src/memory-store.ts:32-34 | a published row never changes again |
| EventingTheorems.JobLifecycle | packages/platform-modules/eventing-outbox/src/service.ts:58-73 | no committed job is processing; a job is completed exactly when one handler effect committed over all consumers and the others have none; every job has its outbox row with the same content, and keys are unique |
| EventingTheorems.FinishedJobsStay | packages/platform-modules/eventing-outbox/src/memory-store.ts:41-44 | completed, cancelled and isolated jobs never change |
| EventingTheorems.EveryLiveCopyCanFinish | packages/platform-modules/eventing-outbox/src/service.ts:45-75 | from every reachable state any live copy can be brought on record in a few steps |
| EventingTheorems.RowMovesDown | packages/platform-modules/eventing-outbox/src/memory-store.ts:26-34 | outside replays and lapsed claims every change of a row lowers the number of changes it has left |
| EventingTheorems.RowsDrain | packages/platform-modules/eventing-outbox/src/publisher.ts:12-38 | over a run without replays and lapsed claims the changes of a row are bounded by its remaining attempts, and none are left exactly when it is published or isolated |
| OutboxPublisher.Publisher.PublishClaimed | packages/platform-modules/eventing-outbox/src/publisher.ts:16-35 | the loop over the claimed rows sends, marks and counts each as specified, and stops where the store fails |
| OutboxPublisher.Publisher.PublishBatch | packages/platform-modules/eventing-outbox/src/publisher.ts:12-38 | one batch claims, publishes and reports as specified |
| OutboxPublisher.BatchReturns | packages/platform-modules/eventing-outbox/src/publisher.ts:16-38 | a batch returns exactly when the store fails for none of the rows it claimed |
| OutboxPublisher.BatchDoesItsRows | packages/platform-modules/eventing-outbox/src/publisher.ts:16-35 | a batch that returns leaves each claimed row in the state its own send and attempts decide and no other row changed |
| OutboxPublisher.BatchConserves | packages/platform-modules/eventing-outbox/src/publisher.ts:33-37 | claimed equals published plus retained plus isolated, and each count is the number of claimed rows in that state afterwards |
| OutboxPublisher.BatchMakesProgress | packages/platform-modules/eventing-outbox/src/publisher.ts:12-38 | a batch without store failures never raises the attempts left over all rows, and lowers them unless the outbox is drained |
| OutboxPublisher.BatchesDrain | packages/platform-modules/eventing-outbox/src/publisher.ts:12-38 | enough batches leave every row published or isolated |
| RabbitDelivery.Delivery.HandleRabbitDelivery | packages/platform-modules/eventing-outbox/src/rabbit.ts:31-35 | the calls made on a delivery, in order, are those specified for its header, body, policy and failures |
| RabbitDelivery.OneDisposition | packages/platform-modules/eventing-outbox/src/rabbit.ts:31-35 | a delivery is acknowledged or dead-lettered exactly once, or left to the broker exactly when its retry copy could not be confirmed or the call that should dispose of it throws in the catch block |
| ConfirmPort.Channel.PublishMandatory | apps/worker/src/rabbit-adapter.ts:300-326 | queues a publication unless the channel is closed or under backpressure, and takes it back when sending throws |
| ConfirmPort.Channel.OnReturn | apps/worker/src/rabbit-adapter.ts:269-281 | a return marks its own publication, or fails the channel when there is none |
| ConfirmPort.Channel.OnConfirm | apps/worker/src/rabbit-adapter.ts:316-320 | a confirm or refusal is noted on its own publication, which stays queued |
| ConfirmPort.Channel.OnRejected | apps/worker/src/rabbit-adapter.ts:346-352 | the waiter of a refused publication takes it off the queue |
| ConfirmPort.Channel.WaitForConfirms | apps/worker/src/rabbit-adapter.ts:341-354 | claims the oldest publication nobody waits for |
| ConfirmPort.Channel.TakeReturned | apps/worker/src/rabbit-adapter.ts:355-361 | answers for the first claimed and confirmed publication of the message and takes it off the queue |
| ConfirmPort.EveryReportIsBacked | apps/worker/src/rabbit-adapter.ts:264-361 | in every interleaving a message is reported published at most as often as the broker confirmed a copy of it without returning it, plus the times a refused publication is taken for an answer; that happens in no run in which refusals are acted on before anyone asks |
| ConfirmPort.LateRefusalMisreports | apps/worker/src/rabbit-adapter.ts:346-361 | without that order a refused publication passes for a published one: a concrete run |
| ConfirmPort.OnlyPublicationDecides | apps/worker/src/rabbit-adapter.ts:355-361 | with one publication of a message in the queue the answer is about that one |
| ConsumerAdapter.Consumer.Schedule | apps/worker/src/rabbit-adapter.ts:486-489 | a waiting delivery is admitted only below the bound and never after a stop |
| ConsumerAdapter.Consumer.Finished | apps/worker/src/rabbit-adapter.ts:531-533 | a finished delivery frees its place; a failed one stops the worker |
| ConsumerAdapter.Run | apps/worker/src/rabbit-adapter.ts:486-533 | in every run the count is the number of deliveries being handled and never exceeds the bound |
| ConsumerAdapter.NothingStartsAfterStop | apps/worker/src/rabbit-adapter.ts:487-488 | after a stop nothing new is handled or taken in |
| SessionStore.RedisSessionStore.GetSession | apps/api/src/auth/session-store.ts:56-72 | hands out a record only while it has not expired and its family points at it; an expired one is removed with its family |
| SessionStore.RedisSessionStore.CreateSession | apps/api/src/auth/session-store.ts:74-79 | creates record and family together, or neither when either exists |
| SessionStore.RedisSessionStore.DeleteSession | apps/api/src/auth/session-store.ts:81-89 | removes a record, and its family only if the family points at it |
| SessionStore.RedisSessionStore.RotateSession | apps/api/src/auth/session-store.ts:91-105 | replaces record and family only under the expected revision, the same session and the current family |
| SessionStore.RedisSessionStore.RevokeSession | apps/api/src/auth/session-store.ts:107-118 | removes the family and the record it points at |
| SessionStore.RedisSessionStore.AcquireRefreshLease | apps/api/src/auth/session-store.ts:230-242 | takes a lease nobody holds |
| SessionStore.RedisSessionStore.ReleaseRefreshLease | apps/api/src/auth/session-store.ts:120-123 | releases a lease only for its owner |
| SessionService.BrowserSessionService.Refresh | apps/api/src/auth/session-service.ts:333-380 | a refresh call is a sequence of protocol steps; when it succeeds the session has gone from the old credential to the new one |
| SessionService.BrowserSessionService.Logout | apps/api/src/auth/session-service.ts:316-331 | a logout call is a sequence of protocol steps that ends in revoking the family |
| SessionService.BrowserSessionService.CompleteLogin | apps/api/src/auth/session-service.ts:275-310 | a login call is a sequence of protocol steps: a new record, taken back when the audit fails |
| SessionTheorems.EveryRunIsSound | apps/api/src/auth/session-service.ts:275-380 | in every interleaving, with keys expiring and requests dying at any moment, records, families, rotations and refreshes in flight agree |
| SessionTheorems.LogoutIsFinal | apps/api/src/auth/session-store.ts:107-118 | once the revoke of a logout has run, no continuation accepts any credential of that session, whatever refreshes are in flight |
| SessionTheorems.RotationIsCompareAndSwap | apps/api/src/auth/session-store.ts:91-105 | at most one rotation succeeds per session and revision, and each takes the session one revision on |
| SessionTheorems.RotatedOutIsRefused | apps/api/src/auth/session-store.ts:91-105 | a credential that was rotated out is never accepted again |
| SessionTheorems.OneCredentialAtATime | apps/api/src/auth/session-store.ts:56-72 | at any instant at most one credential of a session is accepted, the newest of its chain |
| SessionTheorems.NothingOutlivesItsLogin | apps/api/src/auth/session-service.ts:123-127 | no credential of a chain is accepted at or after the expiry its login fixed, however often it was rotated |
| SessionTheorems.LoginIsAccepted | apps/api/src/auth/session-service.ts:275-300 | a fresh credential is accepted after login until its expiry |
| SessionTheorems.RotationIsAccepted | apps/api/src/auth/session-service.ts:348-365 | after a rotation the new credential is accepted exactly until the expiry and the old one not at all |
| CanonicalUniqueness.EscapeReadable | packages/platform-modules/app-registry/src/validation.ts:107-108 | an escaped string ends where it ends: the string and what follows can be read back |
| CanonicalUniqueness.NumeralsReadable | packages/platform-modules/app-registry/src/validation.ts:108 | numerals in front of a delimiter can be read back |
| CanonicalUniqueness.JoinReadable | packages/platform-modules/app-registry/src/validation.ts:106-107 | a bracketed list of texts can be read back, whatever follows |
| CanonicalUniqueness.CanonicalTextDecides | packages/platform-modules/app-registry/src/validation.ts:105-109 | two values print to the same canonical text exactly when they are equal up to key order |
| CanonicalUniqueness.TextDecides | packages/platform-modules/business-configuration/src/validation.ts:12 | the same as a prefix property, for the printer that keeps undefined fields and the one that drops them |
| RegistryFingerprint.FingerprintDecides | packages/platform-modules/app-registry/src/validation.ts:111-115 | two mutations share a fingerprint exactly when they are equal up to trace id and order of deep-link sources |
| RegistryFingerprint.MutationWellFormed | packages/platform-modules/app-registry/src/validation.ts:111-114 | the fingerprinted value is one the uniqueness theorem covers: distinct keys, no undefined outside of fields |
| PolicyTerms.TermTextDecides | packages/platform-modules/authorization/src/policy.ts:92-93 | comparing and deduplicating terms by their text is comparing the terms |
| PolicyTerms.NormTermsForgetOrder | packages/platform-modules/authorization/src/policy.ts:89-94 | collapsing, deduplicating and sorting terms forgets the order they came in |
| PolicyCanonical.ScopeSettles | packages/platform-modules/authorization/src/policy.ts:58-95 | normalising a scope a second time changes nothing, and neither does sorting it again |
| PolicyCanonical.NormScopeStaysValid | packages/platform-modules/authorization/src/policy.ts:58-95 | a normalised scope is valid again, also against reordered dimensions |
| PolicyValidation.ValidatePermissions | packages/platform-modules/authorization/src/policy.ts:124-136 | one pass over the permissions accepts exactly lists of valid permissions with distinct codes, and normalises them |
| PolicyValidation.ValidateRole | packages/platform-modules/authorization/src/policy.ts:141-158 | one pass over the bindings accepts exactly roles whose bindings are valid and distinct, and normalises them |
| PolicyValidation.ValidateRoles | packages/platform-modules/authorization/src/policy.ts:138-160 | one pass over the roles accepts exactly lists of valid roles with distinct lower-cased ids |
| PolicyValidation.ValidateGrants | packages/platform-modules/authorization/src/policy.ts:162-183 | one pass over the grants accepts exactly grants of known roles with distinct lower-cased ids and non-empty intervals |
| PolicyValidation.ValidatePolicySnapshot | packages/platform-modules/authorization/src/policy.ts:109-185 | validation accepts exactly the valid snapshots of the expected version and returns their normal form |
| PolicyTheorems.CanonicalizeIsIdempotent | packages/platform-modules/authorization/src/postgres-persistence.ts:50-83 | canonicalising a canonical policy gives it back, and validation leaves it as it is |
| PolicyTheorems.CanonicalizeForgetsOrder | packages/platform-modules/authorization/src/postgres-persistence.ts:57-82 | every reordering of permissions, dimensions, roles, bindings, terms, constraints, values and grants canonicalises to the same policy or is refused alike |
| PolicyTheorems.FinalIsValid | packages/platform-modules/authorization/src/postgres-persistence.ts:57-82 | the canonical form of a valid policy is valid |
| PolicyMeaning.CanonicalPolicyMeansTheSame | packages/platform-modules/authorization/src/postgres-persistence.ts:50-83 | canonicalising changes the outcome of no query, for every subject, request, instant and operation |
| PolicyMeaning.EvaluationDependsOn | packages/platform-modules/authorization/src/engine.ts:79-114 | evaluation sees of a policy only its version, its lookups by code and role, and its grants as a bag |
| PolicyEvaluation.ResolveIsTheUnion | packages/platform-modules/authorization/src/engine.ts:102-113 | resolving allows exactly when something is granted, and its scope matches a context exactly when some granted term does |
| PolicyEvaluation.QueriesAgree | packages/platform-modules/authorization/src/engine.ts:57-114 | a point check with a complete context allows exactly when the resolved scope matches it, which is exactly when an applicable grant has a matching term for the code |
| PolicyEvaluation.ChecksSayWhy | packages/platform-modules/authorization/src/engine.ts:86-113 | a point check is answered by the first that applies of: no such permission, context missing, other dimensions, nothing granted, nothing granted matching, allowed; told from what the policy declares and grants |
| PolicyEvaluation.CombiningLosesNothing | packages/platform-modules/authorization/src/engine.ts:57-64 | collapsing, deduplicating and sorting terms loses no match and adds none |
| PolicyEvaluation.CompleteMeansSameDimensions | packages/platform-modules/authorization/src/engine.ts:70-77 | a context is complete exactly when its keys are the dimensions |
| PolicyMeaning.EvaluationHoldsUntilBoundary | packages/platform-modules/authorization/src/engine.ts:123-127 | up to the next grant boundary every evaluation comes out the same |
| PolicyMeaning.CachedEvaluationStaysFresh | packages/platform-modules/authorization/src/engine.ts:204-208 | for as long as a cached evaluation may live, evaluating afresh gives it |
| PolicyMeaning.AuthorizationEngine.Decide | packages/platform-modules/authorization/src/engine.ts:150-225 | the decision is the fresh evaluation whatever the cache holds, live entries stay right, and a live entry never shows as an error |
| PolicyPublication.PostgresPolicyStore.Publish | packages/platform-modules/authorization/src/postgres-persistence.ts:143-219 | the writes in order, undone when a later check fails, come to one atomic publication; the readback never fails |
| PolicyPublication.PostgresPolicyStore.LoadVersion | packages/platform-modules/authorization/src/postgres-persistence.ts:119-140 | loading a version re-canonicalises what is stored and checks its digest |
| PolicyPublication.StoredPoliciesLoad | packages/platform-modules/authorization/src/postgres-persistence.ts:129-130 | a stored policy always passes the digest check and comes back as it was stored |
| PolicyText.DigestDecides | packages/platform-modules/authorization/src/postgres-persistence.ts:42-48 | two policies have the same digest exactly when they are the same policy |
| PolicyPublication.VersionsAreWriteOnce | packages/platform-modules/authorization/src/postgres-persistence.ts:171-180 | whatever snapshot is published under a version, first or again, canonicalises to exactly what is stored under it in every later state |
| PolicyPublication.CurrentAndChain | packages/platform-modules/authorization/src/postgres-persistence.ts:181-200 | the current pointer names the last publication and a stored version with its digest; each publication names the version of the one before it |
| PolicyPublication.ReplayReturnsTheOriginal | packages/platform-modules/authorization/src/postgres-persistence.ts:164-170 | a repeated publication id returns the original result in any later state exactly when the snapshot canonicalises to the same policy (as every reordering does) and time and expectation agree, and is a conflict otherwise; nothing changes either way |
| ConfigurationStore.MemoryConfigurationStore.SaveDictionaryDraft | packages/platform-modules/business-configuration/src/memory-store.ts:42-52 | saves the draft one revision on, under the expected revision and owner |
| ConfigurationStore.MemoryConfigurationStore.PublishDictionary | packages/platform-modules/business-configuration/src/memory-store.ts:53-69 | releases the draft as the next version only if it keeps every code released before |
| ConfigurationStore.MemoryConfigurationStore.PublishedCodes | packages/platform-modules/business-configuration/src/memory-store.ts:58 | gathers the codes of all releases of a dictionary |
| ConfigurationStore.MemoryConfigurationStore.RegisterParameter | packages/platform-modules/business-configuration/src/memory-store.ts:70-78 | registers a parameter once |
| ConfigurationStore.MemoryConfigurationStore.PublishParameterValue | packages/platform-modules/business-configuration/src/memory-store.ts:79-91 | releases a value as the next version of a registered parameter |
| ConfigurationStore.MemoryConfigurationStore.OverlapsExisting | packages/platform-modules/business-configuration/src/memory-store.ts:95-96 | finds an overlap exactly when some activation of the slot clashes |
| ConfigurationStore.MemoryConfigurationStore.Activate | packages/platform-modules/business-configuration/src/memory-store.ts:92-104 | adds an activation of a released value unless it overlaps one of its slot |
| ConfigurationStore.MemoryConfigurationStore.TerminateActivation | packages/platform-modules/business-configuration/src/memory-store.ts:105-117 | ends an activation once, within its interval and not in the past |
| ConfigurationStore.MemoryConfigurationStore.ListEffectiveActivations | packages/platform-modules/business-configuration/src/memory-store.ts:38-41 | lists the activations in force for the requested scopes, with their effective ends |
| ConfigurationStore.ValidateDefinition | packages/platform-modules/business-configuration/src/validation.ts:9 | accepts exactly definitions with distinct priorities and scope types, and a default exactly when the policy uses one |
| ConfigurationStore.ValidateItems | packages/platform-modules/business-configuration/src/validation.ts:7 | accepts exactly item lists with distinct codes |
| ConfigurationInvariants.RunIsSound | packages/platform-modules/business-configuration/src/service.ts:139-230 | in every run releases are numbered, codes kept, activations apart and backed by a definition and a released value |
| ConfigurationTheorems.ReceiptsAreFinal | packages/platform-modules/business-configuration/src/memory-store.ts:15-21 | a repeated operation returns the first result in any later state, or a conflict for other content; the service refuses only a termination repeated after its end |
| ConfigurationTheorems.LateRepetitionRefused | packages/platform-modules/business-configuration/src/service.ts:218-230 | a concrete run: a termination repeated after its end is refused by the service where the store would answer from the receipt |
| ConfigurationTheorems.DraftSavesTakeTurns | packages/platform-modules/business-configuration/src/memory-store.ts:45-47 | no two operations saved a dictionary under the same expected revision |
| ConfigurationTheorems.ReleasesAreAppendOnly | packages/platform-modules/business-configuration/src/memory-store.ts:57-66 | dictionary releases are numbered 1..n without gaps, never edited, and keep every earlier code |
| ConfigurationTheorems.ValuesAreAppendOnly | packages/platform-modules/business-configuration/src/memory-store.ts:83-86 | value releases are numbered 1..n without gaps and never edited |
| ConfigurationTheorems.DisjointExactlyWhen | packages/platform-modules/business-configuration/src/memory-store.ts:95-96 | in every reachable store the intervals are disjoint exactly when no two activations of a slot are both without an end |
| ConfigurationTheorems.DisjointBelowSentinel | packages/platform-modules/business-configuration/src/memory-store.ts:92-104 | with every activation starting before the sentinel no two ever collide |
| ConfigurationTheorems.AcceptedKeepsDisjoint | packages/platform-modules/business-configuration/src/memory-store.ts:92-104 | an accepted activation keeps the intervals disjoint exactly unless it has no end and its slot holds one without an end |
| ConfigurationTheorems.SentinelCollision | packages/platform-modules/business-configuration/src/memory-store.ts:95-96 | four accepted calls after which two values are in force for one slot at the sentinel |
| ConfigurationTheorems.CollisionsAreAtTheSentinel | packages/platform-modules/business-configuration/src/memory-store.ts:38-41 | two activations of a slot collide only at the sentinel, both without an end and one starting there |
| ConfigurationTheorems.TerminationEffect | packages/platform-modules/business-configuration/src/memory-store.ts:105-117 | a termination changes what is in force at no instant before its end, ends what it names there, and touches nothing else |
| ConfigurationTheorems.IntervalsOnlyShrink | packages/platform-modules/business-configuration/src/memory-store.ts:22-31 | what is in force in a later state was in force all along |
| ConfigurationResolution.ConfigurationService.ResolveParameter | packages/platform-modules/business-configuration/src/service.ts:231-277 | the result is what the store says, whatever the cache answers |
| ConfigurationResolution.ResolutionFollowsPriority | packages/platform-modules/business-configuration/src/service.ts:255-270 | the result is the value, which always exists, of the one activation in force that outranks all others, or the default when none is |
| ConfigurationResolution.ResolutionIgnoresOrder | packages/platform-modules/business-configuration/src/service.ts:255-256 | the order in which the store lists activations does not matter |
| RegistryModel.MemoryRegistryStore.Commit | packages/platform-modules/app-registry/src/memory-store.ts:11-44 | a commit answers from its receipt, is refused, or applies its change and writes the receipt |
| RegistryTheorems.RunIsConsistent | packages/platform-modules/app-registry/src/memory-store.ts:11-44 | every reachable registry has unique ids, routes and items of registered parents in their own application, and no cycle; only enabled flags are ever edited |
| RegistryTheorems.CommittedOnce | packages/platform-modules/app-registry/src/memory-store.ts:13-16 | a committed operation id answers replayed to the same mutation in any later state and conflict to any other, and changes nothing; a refused mutation leaves everything as it was |
| RegistryWalk.AncestorWalk.HasAuthorizedAncestors | packages/platform-modules/app-registry/src/service.ts:63-78 | the memoised walk terminates and is right on every parent graph, cycles and missing parents included |
| RegistryWalk.RegistryService.LoadNavigation | packages/platform-modules/app-registry/src/service.ts:60-79 | the walk over all candidates keeps exactly the rooted ones |
| RegistryWalk.RegistryService.LoadRegistry | packages/platform-modules/app-registry/src/service.ts:44-80 | loading gathers applications, routes and navigation as specified |
| RegistryTheorems.KeptExactlyWhenRooted | packages/platform-modules/app-registry/src/service.ts:64-79 | an item is kept exactly when its parents form a chain of candidates that ends at a root |
| RegistryTheorems.SnapshotIsClosed | packages/platform-modules/app-registry/src/service.ts:44-80 | the application of every route, and the route, application and parent of every item, are in the snapshot |
| RegistryTheorems.SnapshotIsLargest | packages/platform-modules/app-registry/src/service.ts:79 | on registries the store can build, every parent-closed set of candidates is kept |
| RegistryTheorems.ApplicationsExactly | packages/platform-modules/app-registry/src/service.ts:47-52 | a snapshot holds exactly the enabled applications of the audience the viewer may see |
| RegistryTheorems.RoutesExactly | packages/platform-modules/app-registry/src/service.ts:54-59 | a snapshot holds exactly the enabled, authorised routes of its applications |
| RegistryTheorems.CandidatesExactly | packages/platform-modules/app-registry/src/service.ts:60-61 | navigation candidates are exactly the enabled items of visible applications and routes |
| RegistryTheorems.SnapshotInDisplayOrder | packages/platform-modules/app-registry/src/memory-store.ts:48 | the navigation of a snapshot is in display order, ties broken by id |

## Left out

- EventingService.EventingCore.Consume: the timeout around a handler is a handler that fails; telemetry is not modelled.
- EventingStore: the in-memory store's snapshot rollback across overlapping transactions, which is meant for tests; a transaction is one atomic step, as with the advisory lock and real transaction of the PostgreSQL store. The backlog and reconciliation reports are not part of this model.
- EventingTheorems.EveryLiveCopyCanFinish: says a copy can always be finished, not that it will be; no fairness of the broker or the scheduler is assumed.
- EventingLoss.NoLossExactly: speaks of runs in which nothing is put into the queues by hand under the id of the message; runs with such copies are covered by EventingNoLoss.NoLoss. A consumer has a queue of its own, and its retry layers have exchanges and keys no other consumer's layers share.
- EventingPipeline: a refusal and the reaction of its waiter are one step, as in the event loop the reaction to a rejected wait runs before that to a later confirmation. Not so for an operation refused while its own publisher still waits for drain: whoever claims it later hears of the refusal only after its claim, and a waiter whose confirmation came before, and who waits on an operation of another message, may take it in between. That window is not part of the model; ConfirmPort.LateRefusalMisreports shows what such a take reports. A publisher that met backpressure may go on to wait at any time; a message id is the same in the envelope and in the transport properties.
- EventingRefinement.DeliveryIsARun: what a handler that succeeds writes is its effect on record; a body that cannot be read has no envelope and is covered by RabbitDelivery alone.
- EventingTheorems.RowsDrain: a lapsed claim adds an attempt without bound when a publisher keeps dying, so runs with reclaims are outside the bound.
- ConfirmPort.Channel: the order of promise reactions, by which the waiter of a refused publication mostly takes it off the queue before anyone can ask; EveryReportIsBacked counts what happens otherwise, LateRefusalMisreports shows it.
- ConsumerAdapter.Run: connection events, consumer tags and shutdown order are not part of this model.
- RabbitDelivery.Delivery.HandleRabbitDelivery: parsing and validating a body is an input; the shape of retry headers is not modelled.
- SessionStore.RedisSessionStore: time to live is not a number; any key may expire at any step, which covers every setting of it. The login transaction, the encryption of tokens and the verification of access tokens are opaque results.
- SessionService.BrowserSessionService.Refresh: the call is shown to be a sequence of protocol steps when nothing runs in between; interleavings are covered by the theorems over the protocol.
- CanonicalUniqueness.CanonicalTextDecides: values with undefined inside an array or at the top are excluded, where two different values do print alike or printing fails; no fingerprinted record has one. A number is given by the decimal text it prints as, so negative zero is zero and non-finite numbers are excluded.
- PolicyPublication: SQL, the advisory lock and JSON columns are one database value changed one transaction at a time; a stored snapshot comes back with the same content. Decision records are not part of this model.
- PolicyValidation.ValidatePolicySnapshot: patterns of identifiers, codes, values and timestamps are not modelled; lower-casing acts on the characters a UUID has.
- PolicyMeaning.AuthorizationEngine.Decide: subjects and requests arrive validated; a failing clock, the recording of decisions and telemetry are not part of this model.
- PolicyMeaning.CanonicalPolicyMeansTheSame: the collation that orders the returned terms is assumed to be a strict total order on their texts.
- ConfigurationResolution: value schemas and value types are not modelled, nor the parsing of cached results beyond their being compared with the result.
- ConfigurationStore: audit, authorisation and the cache invalidation events other than their being written are not modelled. Activation ids may repeat in the in-memory store; AcceptedKeepsDisjoint asks that the candidate's id was not terminated before, as the primary key of the SQL schema ensures.
- RegistryWalk: an authoriser answers the same for the whole of one load; its failures, audit and deep-link resolution are not part of this model.
- Controllers, process bootstrap, health checks, user interface, cryptography and driver code.
