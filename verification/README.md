# Electronic invoicing: a verified model of the emission core

The repository issues electronic tax documents for Chile. An integrator posts a
request; it is answered with 202 and the totals; a worker reserves a folio, builds
and signs the document, sends it to the tax authority (SII), and pollers bring the
authority's answer back. This project models that core and proves what it keeps.

`dafny verify dfyconfig.toml` checks everything.

## How it is organised

| part | files |
|---|---|
| Folio allocator | `FolioLedger`, `LedgerTheorems`, `FolioStatus` |
| Tax arithmetic | `Rounding`, `DiscountEngine`, `DocumentTotals` |
| Durable state and its transactions | `RequestStates`, `Outbox`, `EmissionDb`, `Transactions`, `ClaimBatch` |
| One worker pass, statement by statement | `Processor` |
| The protocol: workers, pollers, crashes, leases | `Protocol`, `ProtocolInvariant`, `ProtocolSteps`, `ProtocolTheorems`, `OutboxTheorems` |
| Refinement of `Processor` by the protocol, and recovery | `Recovery` |
| Why the hypotheses are needed | `Witnesses` |
| Idempotent acceptance under races | `Enqueue` |
| Webhook deliveries | `Deliveries` |
| Daily receipts report: ranges and consolidation | `Rcof` |
| Daily receipts report: its request protocol | `RcofProtocol`, `RcofInvariant`, `RcofSteps`, `RcofTheorems`, `RcofProcessor`, `RcofTermination`, `RcofRecovery`, `RcofWitnesses` |
| Tax number | `Rut` |
| Sequences | `Sequences`, `Wrappers` |

Code that changes rows in place is a class whose methods are proved against a
function of the old state (`EmissionDb.Tables`, `FolioLedger.TenantConfigRecord`,
`Outbox.OutboxTables`, `Enqueue.RequestTable`, `Deliveries.DeliveryTable`,
`RcofProcessor.RcofTables`); the
protocols are step relations over the same functions, and the theorems quantify over
every run.

## Assumptions

- Each repository update is one atomic read, merge and write. A transaction takes
  effect when it commits, and row and advisory locks are respected; that preparing a
  document is then one atomic step is proved in `Transactions`, where the nested
  reservation joins the outer transaction, and shown to fail if it did not.
- Workers keep whole copies of their row, and both `persistState` and `scheduleRetry`
  write the whole copy back. The copies are explicit here.
- Lease discipline: a pass takes no step once another worker claimed its row.
  `Witnesses.StaleRetrySendsTwice` shows it is needed. For webhook deliveries the
  exact outcomes that do harm without it are proved.
- RCOF requests have rows, submissions and TrackIDs of their own, so they are followed
  in a protocol of their own. A failure reported after a commit counts as a crash
  there too.
- A read that fails just after the prepare commit counts as a crash;
  `Witnesses.LostReadOrphans` shows what happens otherwise.
- One post is one call of the emission use case's transmission; the HTTP client below
  it may repeat a request.
- The authority answers as it likes, but never moves away from accepted or rejected;
  an objection (REPARO) may still be settled. TrackIDs tell documents apart.

## Where the code and its promises differ

- The unique-violation rethrow in `enqueue` can happen: an empty external reference is
  stored, and covered by the unique index, but both lookups by reference skip it.
- Promised and signed totals differ when the retentions sum to a negative amount: one
  side subtracts them only when positive.
- A document with retentions whose sum is not zero fails the preflight equation.
- An objection that arrives after the final verdict makes the poller raise
  INVALID_STATE_TRANSITION, which it only logs.
- RCOF requests for the same date and sequence share one submission, and two of their
  workers can record it under two TrackIDs. Then a settled request can meet the other
  TrackID's verdict and raise, even with final verdicts.
- A webhook delivery whose attempt throws after the last one stays pending for ever.
- The claim changes queued to processing without a history entry.
- Without an active endpoint a notifiable state change records no event at all.
- Receipts default to tax-included prices in the documentation of the pricing mode; the
  engine treats an absent mode as tax-excluded.
- A tenant not authorized for type 46 gets the retry code FOLIO_EXHAUSTED, because the
  code is chosen by looking for "caf" or "folio" in the message.

## Model

| member | source | states |
|---|---|---|
| ProtocolTheorems.AtMostOneSend | src/application/integrations/integration-processor.service.ts:234-291 | over every disciplined run, with any number of workers, crashes and re-claims, no request and no document is transmitted twice, and what is sent is the document linked to a fenced request |
| ProtocolTheorems.LinksAreOneToOne | src/application/integrations/integration-processor.service.ts:96-132 | in every reachable state linked requests, documents and consumed folios correspond one to one; no document and no folio is left without a request |
| ProtocolTheorems.LinksArePermanent | src/application/integrations/integration-processor.service.ts:99-114 | no step ever gives a request a second document, nor changes a payload, a promised total, or a document's type, folio or amount |
| ProtocolTheorems.LinksStay | src/application/integrations/integration-processor.service.ts:191-306 | no step but a prepare links a request, and no step but an acceptance adds one |
| Transactions.PrepareIsAtomic | src/infrastructure/framework/postgres/tenant-transaction.ts:19-34 | all or nothing, write by write: whatever throws or is lost wherever, and whatever others commit meanwhile under the locks, the committed database is what others left or exactly the atomic prepare of it, and a thrown error is the one the atomic prepare gives |
| Transactions.AloneEnds | src/application/integrations/integration-processor.service.ts:96-132 | left alone the transaction commits the atomic prepare, or throws its error, within four steps |
| Transactions.ReservationAloneLeaks | src/infrastructure/framework/sii/tenant-config.service.ts:718-719 | if the reservation did not join the outer transaction, a connection lost right after it would leave an issued folio that no document carries |
| ProtocolTheorems.ReservedFolioIsSignable | src/application/dte/emit-dte.use-case.ts:80-168 | the CAF of a folio just reserved is always found and always allows it: the checks after the reservation cannot fail |
| ProtocolTheorems.ReportAgreesInEveryRun | src/infrastructure/framework/sii/tenant-config.service.ts:502-545 | in every reachable state the report obtained by scanning documents equals the allocator's own count, and remaining is 0 exactly when a reservation reports exhaustion |
| ProtocolTheorems.ClaimsAreBounded | src/application/integrations/integration-state.service.ts:232-261 | a request is claimed at most 5 times plus once per pass that was cut short; attempts never exceed the maximum |
| ProtocolTheorems.RetryWaits | src/application/integrations/integration-state.service.ts:236-256 | a retry adds one attempt, waits the backoff of that attempt, never less than before, and has consumed no folio; the last one fails the request |
| RequestStates.BackoffNeverShrinks | src/application/integrations/integration-state.service.ts:13-19 | the waits never shrink from one attempt to the next |
| ProtocolTheorems.StepKind | src/application/integrations/integration-state.service.ts:146-229 | every disciplined step other than an acceptance and a claim either leaves all states, histories and events alone, or moves one request along one allowed edge and records exactly that in its history and in the outbox |
| ProtocolTheorems.ChangesAreEdges | src/application/integrations/integration-state.service.ts:69-84 | every committed state change of a DTE or note request, the claim's raw queued-to-processing included, is an edge of the transition table |
| ProtocolTheorems.HistoriesArePaths | src/application/integrations/integration-state.service.ts:161-172 | every history of such a request is a path of the table that ends in the current state; only the claim leaves no entry |
| ProtocolTheorems.SettledForever | src/application/integrations/integration-state.service.ts:63-78 | accepted, rejected and cancelled are absorbing for such requests along every disciplined run |
| ProtocolTheorems.OnlyOutdatedObjectionsRaise | src/application/integrations/integration-state.service.ts:152-158 | for DTE and note requests INVALID_STATE_TRANSITION is raised only by a poller that brings an objection to a request already accepted or rejected |
| ProtocolTheorems.FinalVerdictsNeverRaise | src/application/integrations/integration-processor.service.ts:334-390 | when the authority never changes a verdict, no worker and no poller of DTE and note requests ever raises it |
| ProtocolSteps.PollOutcome | src/application/integrations/integration-processor.service.ts:362-376 | a poller's transition is rejected if and only if it brings an objection to a settled request |
| Outbox.ChangeTold | src/application/integrations/integration-webhook.service.ts:169-176 | a state change keeps history and outbox in agreement if and only if an active endpoint exists or the state is not notifiable; a missing event is never made up for |
| OutboxTheorems.AgreesExactlyWhenNothingMissed | src/application/integrations/integration-state.service.ts:222-228 | after any disciplined run outbox and histories agree if and only if an active endpoint existed at every change to be told |
| OutboxTheorems.OutboxAgreesInEveryRun | src/application/integrations/integration-state.service.ts:222-228 | for a tenant that always has an active endpoint, each request's events are the notifiable entries of its history in order, and each event has exactly one initial delivery per endpoint active and subscribed at that moment |
| ProtocolTheorems.ApplyTwiceIsOnce | src/application/integrations/integration-state.service.ts:110-135 | a second identical state change, even from another copy of the row, changes nothing and records no second event |
| ProtocolTheorems.DocumentsCarryThePromise | src/application/dte/emit-dte.use-case.ts:179-188 | in every reachable state the amount of a document equals the total promised with its 202 if and only if the retentions do not sum to a negative amount |
| ProtocolSteps.StepKeeps | src/application/integrations/integration-processor.service.ts:78-306 | every disciplined step of worker, poller, authority or environment keeps the invariant |
| ProtocolSteps.RunKeeps | src/application/integrations/integration-processor.service.ts:78-306 | so does every disciplined run from the empty system |
| ProtocolSteps.HolderProcessing | src/application/integrations/integration-queue.claimer.ts:37-49 | an unfinished pass that holds the lease finds its request in processing and its copy equal to the row |
| Processor.Process | src/application/integrations/integration-processor.service.ts:78-144 | one pass leaves exactly the database of `Processed`, and posts an envelope if and only if `PostsEnvelope` says so |
| Processor.TransmitOrFinalize | src/application/integrations/integration-processor.service.ts:191-232 | a pass over an existing document closes it from its status or TrackID, and transmits only a document without either |
| Processor.Transmit | src/application/integrations/integration-processor.service.ts:234-291 | posts only past an unset fence; every other end is a submission or a quarantine |
| Processor.EmitTransmit | src/application/dte/emit-dte.use-case.ts:227-390 | the envelope is posted at most once; the document ends sent with its TrackID, or back in draft on a failure that could be written |
| Processor.QuarantineTransmission | src/application/integrations/integration-processor.service.ts:293-306 | an ambiguous send fails the request with a non-retryable error |
| Recovery.UninterruptedPass | src/application/integrations/integration-processor.service.ts:78-306 | the protocol refines the processor: its small steps, from a claim on, end within nine steps in the database `Process` leaves, with one envelope more exactly when `PostsEnvelope` says so |
| Recovery.ScriptStep | src/application/integrations/integration-processor.service.ts:78-306 | every step of an uninterrupted pass is enabled, keeps the invariant and the outcome foretold, and brings it nearer its end |
| Recovery.Recovery | src/application/integrations/integration-processor.service.ts:191-306 | from every reachable state one uninterrupted pass after the lease expires ends submitted or failed, or in a scheduled retry that consumed nothing; with the fence set it posts nothing and ends submitted exactly when the document carries a TrackID |
| Witnesses.StaleRetrySendsTwice | src/application/integrations/integration-state.service.ts:252-256 | a run with one breach of lease discipline in which a stale whole-row retry erases the fence and the request is sent twice with two folios |
| Witnesses.LostReadOrphans | src/application/integrations/integration-processor.service.ts:133-143 | a run in which a failed read after the prepare commit is retried: the document and its folio are orphaned and a second one is prepared |
| Witnesses.OutdatedObjectionRaises | src/application/integrations/integration-processor.service.ts:350-376 | a disciplined run that does raise INVALID_STATE_TRANSITION |
| EmissionDb.Tables.Enqueue | src/application/integrations/integration-request.service.ts:88-106 | stores an accepted payload with its totals as a queued row; a refused one changes nothing |
| EmissionDb.Tables.ClaimDue | src/application/integrations/integration-queue.claimer.ts:32-66 | claims the rows of `Due` and touches no other |
| EmissionDb.Tables.PrepareInside | src/application/dte/emit-dte.use-case.ts:80-218 | write by write: success links a new document; a failure leaves everything as it was, but for the configuration with the reserved folio once the reservation was made |
| EmissionDb.Tables.PrepareAndLink | src/application/integrations/integration-processor.service.ts:96-132 | the same inside a transaction: success links a new document, and any error leaves the whole database as it was |
| EmissionDb.Tables.MarkAttempt | src/application/integrations/integration-processor.service.ts:239-268 | sets the fence unless it is set |
| EmissionDb.Tables.ApplyState | src/application/integrations/integration-state.service.ts:104-229 | writes the copy with state and history from the locked row and records the event; a rejected transition changes nothing |
| EmissionDb.Tables.ScheduleRetry | src/application/integrations/integration-state.service.ts:232-261 | replaces the row by the copy with one attempt more, or fails the request when attempts run out |
| ClaimBatch.DueAreEarliest | src/application/integrations/integration-queue.claimer.ts:37-43 | the batch is the earliest free rows, within the limit, and passes none over |
| ClaimBatch.ClaimAllIsPointwise | src/application/integrations/integration-queue.claimer.ts:44-49 | claiming a batch claims each of its rows once and touches no other |
| ClaimBatch.NoDoubleClaim | src/application/integrations/integration-queue.claimer.ts:37-49 | before the lease expires no second batch holds a row of the first, whether the first transaction is open or committed |
| ClaimBatch.BatchIsSingleClaims | src/application/integrations/integration-queue.claimer.ts:37-66 | the batch equals the protocol's single claims one after another |
| Outbox.OutboxTables.EmitEvent | src/application/integrations/integration-webhook.service.ts:169-209 | the loop records the event and one delivery per listening endpoint, nothing without an active endpoint |
| Outbox.EmittedKeepsMatch | src/application/integrations/integration-webhook.service.ts:180-209 | each event keeps exactly one initial delivery per endpoint of its audience, and no other |
| Deliveries.UnsettledExactlyWhen | src/application/integrations/integration-webhook.service.ts:389-418 | in every state, with or without lease discipline, a step takes a delivered, failed or dead delivery out of these states if and only if it records on it a throw, or a failure of an attempt other than the last |
| Deliveries.StaysSettledExactlyWhen | src/application/integrations/integration-webhook.service.ts:389-418 | along any run a settled delivery stays settled if and only if no such outcome is recorded on it later |
| Deliveries.StrandedExactlyWhen | src/application/integrations/integration-webhook.service.ts:274-279 | in every reachable state a step leaves a pending or delivering row without attempts if and only if it records a throw after the last attempt; no claim then takes the row at any time |
| Deliveries.AttemptsLeftExactlyWhen | src/application/integrations/integration-webhook.service.ts:246-247 | along any run an open delivery keeps attempts left if and only if no such throw is recorded on it |
| Deliveries.ReclaimedOnlyWhenDue | src/application/integrations/integration-webhook.service.ts:237-252 | in every run a delivery is claimed again only after its ten-minute lease, or after the wait left by the last outcome written since its claim |
| Deliveries.DisciplineSettles | src/application/integrations/integration-webhook.service.ts:389-418 | under lease discipline neither of the two outcomes occurs, and a settled row never changes |
| Deliveries.SettledForever | src/application/integrations/integration-webhook.service.ts:389-418 | so delivered, failed and dead rows never change again in disciplined runs |
| Deliveries.AttemptsLeft | src/application/integrations/integration-webhook.service.ts:389-418 | in disciplined runs the attempt counter is the number of recorded answers, open rows have attempts left, outcomes are written by the latest owner, and claims are at most the maximum plus the throws plus the lapsed leases |
| Deliveries.DeliveredReopens | src/application/integrations/integration-webhook.service.ts:405-418 | a reachable state in which a slow worker makes a delivered row pending again |
| Deliveries.DeadIsStranded | src/application/integrations/integration-webhook.service.ts:274-279 | a reachable state in which a throw makes a dead row pending for ever, with no attempt left |
| Deliveries.AnswerProgresses | src/application/integrations/integration-webhook.service.ts:389-418 | a recorded answer settles the delivery or uses one attempt and waits at least a minute; it is dead exactly at the last attempt |
| Deliveries.DeliveryTable.AttemptDelivery | src/application/integrations/integration-webhook.service.ts:320-419 | one attempt writes exactly its own row |
| Deliveries.DeliveryTable.DeliverClaimed | src/application/integrations/integration-webhook.service.ts:263-285 | the loop attempts each claimed delivery; delivered plus failed equals attempted |
| Deliveries.EachOwnRecord | src/application/integrations/integration-webhook.service.ts:263-285 | after the loop each delivery of the batch shows the record of its own attempt |
| FolioLedger.TenantConfigRecord.UploadCaf | src/infrastructure/framework/sii/tenant-config.service.ts:334-345 | in-place merge of an upload; an overlap with another range changes nothing |
| FolioLedger.TenantConfigRecord.ReserveFolio | src/infrastructure/framework/sii/tenant-config.service.ts:718-779 | in-place reservation of the next folio of the first CAF that has one left, or the reason there is none |
| FolioLedger.CafForFirst | src/infrastructure/framework/sii/tenant-config.service.ts:456-468 | the lookup returns the first CAF whose range covers the folio |
| LedgerTheorems.UploadKeepsIssued | src/infrastructure/framework/sii/tenant-config.service.ts:334-345 | an accepted upload keeps every issued folio issued and issues none, also when it moves the CAF to the end |
| LedgerTheorems.ReserveIssuesOne | src/infrastructure/framework/sii/tenant-config.service.ts:746-767 | a reservation issues exactly one pair, never issued before |
| LedgerTheorems.EveryRunKeepsLedger | src/infrastructure/framework/sii/tenant-config.service.ts:718-779 | over any interleaving of uploads and reservations no (type, folio) pair is issued twice, CAFs of a type stay disjoint, and the issued folios of each are exactly rangeFrom to lastUsedFolio |
| LedgerTheorems.EveryRunConserves | src/infrastructure/framework/sii/tenant-config.service.ts:741-760 | authorized folios equal issued plus remaining after any run |
| LedgerTheorems.ExhaustedIffAllIssued | src/infrastructure/framework/sii/tenant-config.service.ts:758-760 | exhaustion is reported if and only if every folio of every CAF of the type was issued |
| LedgerTheorems.ReserveFailsIffNoneRemain | src/infrastructure/framework/sii/tenant-config.service.ts:730-760 | a reservation fails if and only if no folio of the type remains |
| LedgerTheorems.RemainingReservationsSucceed | src/infrastructure/framework/sii/tenant-config.service.ts:746-767 | as many reservations in a row succeed as folios remain, and the next one fails |
| LedgerTheorems.LookupFindsIssuer | src/infrastructure/framework/sii/caf.service.ts:99-109 | the CAF found for a reserved folio is the one that issued it, and it allows it |
| FolioStatus.GetFolioStatus | src/infrastructure/framework/sii/tenant-config.service.ts:502-574 | the report of every type, as its loops compute it |
| FolioStatus.ReportAgreesWithLedger | src/infrastructure/framework/sii/tenant-config.service.ts:531-545 | the counts by scanning documents agree with the allocator's |
| DiscountEngine.CalculateTotals | src/infrastructure/framework/sii/discount.engine.ts:151-202 | the accumulating loop equals the totals of the line shares; the first failing line decides the error |
| DiscountEngine.LineBetweenZeroAndGross | src/infrastructure/framework/sii/discount.engine.ts:75-119 | a line's net lies between zero and its gross, with net plus discount equal to gross |
| DiscountEngine.TotalsNonNegative | src/infrastructure/framework/sii/discount.engine.ts:151-202 | no amount is negative, and without net there is no tax |
| DiscountEngine.TotalsPermuted | src/infrastructure/framework/sii/discount.engine.ts:163-190 | reordering the lines changes no total |
| DiscountEngine.DiscountNeverRaises | src/infrastructure/framework/sii/discount.engine.ts:125-139 | a higher global discount never raises net, tax or total |
| DiscountEngine.GrossTotalError | src/infrastructure/framework/sii/discount.engine.ts:168-190 | for n non-exempt GROSS lines the total misses the sum of line amounts by d with 100|d| <= 59n + 50; exempt lines add no error |
| DiscountEngine.GrossOffByOne | src/infrastructure/framework/sii/discount.engine.ts:168-190 | so at most one peso for one line, and one peso does occur |
| DocumentTotals.PromisedIsSigned | src/infrastructure/framework/sii/dte-xml.engine.ts:45-80 | every accepted payload builds; the signed totals equal the promised ones if and only if the retentions do not sum to a negative amount |
| DocumentTotals.WithheldAccepted | src/application/integrations/integration-request.service.ts:263-394 | every retention amount is accepted, negative ones included |
| DocumentTotals.NegativeRetentionBreaksPromise | src/infrastructure/framework/sii/dte-xml.engine.ts:70-80 | an accepted payload with a negative retention whose document is signed for more than the total promised |
| DocumentTotals.DeclaredNearSigned | src/application/integrations/integration-request.service.ts:361-394 | a declared amount that passed is within one peso of the signed one |
| DocumentTotals.PreflightEnvelope | src/infrastructure/framework/sii/sii-xsd.validator.ts:92-104 | the error list over the documents of an envelope is empty exactly when each one balances |
| DocumentTotals.PrintedBalances | src/infrastructure/framework/sii/dte-xml.engine.ts:195-200 | the printed totals of an accepted payload pass the preflight if and only if its retentions sum to zero, omitted zero amounts included |
| DocumentTotals.WithholdingFailsPreflight | src/infrastructure/framework/sii/sii-xsd.validator.ts:92-100 | an accepted purchase invoice with its tax withheld, whose document the preflight refuses |
| DocumentTotals.NetLinesAddUp | src/infrastructure/framework/sii/dte-xml.engine.ts:354-377 | in NET mode the printed line amounts sum to net plus exempt plus the global discount |
| Enqueue.RequestTable.Enqueue | src/application/integrations/integration-request.service.ts:51-136 | one call, statement by statement, with any rows committed by others before its insert, gives the table and outcome of `Enqueued` |
| Enqueue.RequestTable.Create | src/database/migrations/1805600000000-IntegrationRequestResourceKey.ts:8 | the insert is refused exactly when one of the two unique indexes holds the key or the reference |
| Enqueue.RunKeeps | src/application/integrations/integration-request.service.ts:51-136 | every interleaving of any number of calls keeps the indexes unique and every outcome truthful |
| Enqueue.RowsAreUnique | src/database/migrations/1805000000000-AddIntegrationsApi.ts:83 | at most one row per (tenant, kind, resource, key) and per (tenant, reference) |
| Enqueue.SuccessIsOwn | src/application/integrations/integration-request.service.ts:54-67 | every success returns a row with the caller's own key and hash |
| Enqueue.OneRowPerKey | src/application/integrations/integration-request.service.ts:112-126 | two successes under one key return one row and one hash, and at most one of them is not a replay |
| Enqueue.EveryRowHasOneCreator | src/application/integrations/integration-request.service.ts:84-106 | every row has exactly one call that was not a replay |
| Enqueue.ConflictsAreWitnessed | src/application/integrations/integration-request.service.ts:60-80 | every 409 is witnessed by a committed row with the same key and another hash, or the same reference and another key |
| Enqueue.RethrownOnlyIfEmpty | src/application/integrations/integration-request.service.ts:128-144 | the unique violation is rethrown only to calls whose external reference is the empty string |
| Enqueue.RethrownIfEmpty | src/application/integrations/integration-request.service.ts:94 | and to every such input it can happen: a run that ends so |
| Enqueue.RethrowsExactlyWhen | src/application/integrations/integration-request.service.ts:107-144 | for one call: it is rethrown if and only if the reference is the empty string, stored already, and its own key is not |
| Enqueue.AloneIsEnqueued | src/application/integrations/integration-request.service.ts:51-136 | the interleaved machine refines the method: steps without interruption give its result |
| Enqueue.RepeatReplays | src/application/integrations/integration-request.service.ts:54-67 | a repeated call replays the row its first one created, whatever happened in between |
| Enqueue.CallsFinish | src/application/integrations/integration-request.service.ts:51-136 | every running call can step and ends after at most five steps of its own |
| RcofSteps.StepKeeps | src/application/integrations/integration-processor.service.ts:147-188 | every disciplined step of RCOF workers and pollers keeps the invariant |
| RcofSteps.RunKeeps | src/application/integrations/generate-rcof.use-case.ts:53-150 | so does every run, also with verdicts final or TrackIDs never replaced |
| RcofTheorems.ChangesAreEdges | src/application/integrations/integration-processor.service.ts:147-188 | every committed state change of an RCOF request is an edge of the transition table |
| RcofTheorems.HistoriesArePaths | src/application/integrations/integration-state.service.ts:161-172 | its history is a path of the table that ends in its state |
| RcofTheorems.SettledForever | src/application/integrations/integration-state.service.ts:63-78 | accepted, rejected and cancelled are absorbing for RCOF requests |
| RcofTheorems.RejectedExactlyWhen | src/application/integrations/integration-processor.service.ts:392-442 | a step raises INVALID_STATE_TRANSITION if and only if it brings a verdict to a request that another verdict settled; then the two are for different TrackIDs, or the one brought is an objection since settled |
| RcofTheorems.OnlyConflictsRaise | src/application/integrations/integration-processor.service.ts:415-432 | every rejection of every disciplined run is such a conflict |
| RcofTheorems.OneTrackNeverRaises | src/application/integrations/generate-rcof.use-case.ts:102-118 | with final verdicts and no TrackID recorded over another, no RCOF worker and no poller ever raises |
| RcofTheorems.AloneNeverOverwrites | src/application/integrations/generate-rcof.use-case.ts:66-76 | while each date and sequence is requested once, no TrackID is recorded over another |
| RcofTheorems.OneRequestPerDayNeverRaises | src/application/integrations/integration-processor.service.ts:147-188 | so with final verdicts and one request per date and sequence nothing is ever rejected |
| RcofTheorems.AgreesExactlyWhenNothingMissed | src/application/integrations/integration-state.service.ts:222-228 | the outbox agrees with the histories of RCOF requests if and only if an active endpoint existed at every change to be told |
| RcofProcessor.RcofTables.ProcessRcof | src/application/integrations/integration-processor.service.ts:147-188 | one RCOF pass, statement by statement, leaves exactly the tables of `ProcessedTab`; an invalid transition inside it fails the request, as any 422 does |
| RcofProcessor.RcofTables.Execute | src/application/integrations/generate-rcof.use-case.ts:53-100 | finds the submission of the day, or stores and sends one, or resends it when it has neither a TrackID nor an answer |
| RcofProcessor.RcofTables.Transmit | src/application/integrations/generate-rcof.use-case.ts:103-130 | records the TrackID, or marks the submission failed if that can be written |
| RcofProcessor.RcofTables.PollStatus | src/application/integrations/generate-rcof.use-case.ts:133-158 | a verdict that changes the status read is written with its TrackID; otherwise the submission is taken as it was read |
| RcofRecovery.UninterruptedPass | src/application/integrations/integration-processor.service.ts:147-188 | the protocol refines the processor: its steps, from anywhere in a pass on, end in the tables `ProcessRcof` leaves, and post exactly when foretold |
| RcofRecovery.Recovery | src/application/integrations/integration-processor.service.ts:147-188 | from every reachable state one uninterrupted pass after the lease expires ends submitted or answered, failed, or in a scheduled retry below the maximum of attempts; it posts at most once, and not at all if the day's submission has a TrackID |
| RcofTermination.ClaimsAreBounded | src/application/integrations/integration-state.service.ts:232-261 | a report request is claimed at most 5 times plus once per pass that was cut short; attempts never exceed the maximum, and stay below it while the request is processed |
| RcofWitnesses.TwoTracksRaise | src/application/integrations/generate-rcof.use-case.ts:72-76 | for every date and sequence a run with final verdicts and respected leases in which two requests share the submission, it is recorded under two TrackIDs, and a transition is rejected |
| RcofWitnesses.OutdatedObjectionRaises | src/application/integrations/integration-processor.service.ts:415-432 | a run with one TrackID in which an objection settled meanwhile is rejected |
| Rcof.FolioRanges | src/application/integrations/generate-rcof.use-case.ts:282-299 | the loop equals `Ranges` |
| Rcof.ExpandRanges | src/application/integrations/generate-rcof.use-case.ts:282-299 | expanding the ranges gives back the folios, for every sequence |
| Rcof.RangesHaveGaps | src/application/integrations/generate-rcof.use-case.ts:285-298 | for increasing folios the ranges are separated by a gap |
| Rcof.RangesAreMinimal | src/application/integrations/generate-rcof.use-case.ts:282-299 | and no shorter list of ranges covers exactly the same folios |
| Rcof.FoliosBalance | src/application/integrations/generate-rcof.use-case.ts:177-199 | range sizes add up to the used folios, which are the issued ones minus the voided ones, and the ranges hold exactly the folios not voided |
| Rcof.ReportedRangesAreMinimal | src/application/integrations/generate-rcof.use-case.ts:184-199 | with distinct folios the reported ranges are gap-separated and as few as possible |
| Rcof.ReportIsComplete | src/application/integrations/generate-rcof.use-case.ts:162-201 | the report counts every receipt of the day once and is empty only when there is none |
| Rut.WeightedSum | src/infrastructure/decorators/is-chilean-rut.decorator.ts:17-23 | the backward loop with its cycling multiplier yields the weighted sum of the body, or none (the NaN of the code) once a character is not a digit |
| Rut.ValidateRut | src/infrastructure/decorators/is-chilean-rut.decorator.ts:7-32 | accepts exactly eight or nine characters whose body is digits and whose last character is the check character; a K in the body is refused |
| Rut.CheckCharacterDecides | src/infrastructure/decorators/is-chilean-rut.decorator.ts:11-31 | seven or eight digits and one more character are accepted if and only if that character, in upper case, is the check character; a character that cleaning drops changes nothing |
| Rut.OneCheckCharacter | src/infrastructure/decorators/is-chilean-rut.decorator.ts:26-31 | an accepted number stays accepted under any punctuation and case, and with no other check character |
| Rut.CheckTellsRemainders | src/infrastructure/decorators/is-chilean-rut.decorator.ts:24-29 | check characters are digits or K and tell all remainders apart |
| Rut.SingleChangeDetected | src/infrastructure/decorators/is-chilean-rut.decorator.ts:19-24 | changing any single digit changes the check character, for bodies of any length |
| Rut.ExchangeDetected | src/infrastructure/decorators/is-chilean-rut.decorator.ts:19-24 | exchanging two distinct digits changes it if and only if their distance is not a multiple of six; neighbours always |

## Left out

- At-most-once for RCOF requests: a report has no fence and is resent after an ambiguous failure by design. Its submission and finalization dates, error fields, building and signing are not modelled.
- `responseSnapshot`: a whole-row write may overwrite it, so the exact body of a replayed 202 is not claimed.
- Time-to-live caches of the tenant configuration and time zones: the durable row and one logical clock are used.
- Several tenants at once: the protocol follows one tenant; `Enqueue` does carry the tenant.
- Floating point: quantities, prices, rates and percentages are exact reals, rounding is floor of x plus one half, and NaN or infinite inputs are not representable.
- Negative fixed discounts: `DiscountEngine.LineBetweenZeroAndGross` and the lemmas that build on it exclude them by precondition.
- Retention amounts are whole pesos, as the printed document requires.
- XML, signatures, CAF parsing, PDF, SOAP, HTTP, DNS checks, credentials and encryption: a CAF arrives parsed, and each such call is an outcome chosen by the environment.
- Retries inside one post (`fetchWithRetry`), the envelope's own content, and the audit and submission records written beside the TrackID.
- History details, texts, metrics and logs.
- The document status ANULADO is part of the types; no modelled step writes it.
- The order in which due webhook deliveries are picked, and the in-memory fallbacks of the claimers.
- HTTP controllers, request guards, nonces and signed URLs: no deep property.
- Manual retry of a failed request (failed to processing): an edge of the table that no modelled code takes.
- Recovery.Recovery: speaks of one uninterrupted pass; that such a pass eventually happens is not modelled, since nothing in the code promises fair scheduling.
- Processor.Process: the outcomes of the outside world are parameters fixed for the pass, and its time is one value of the clock.
