# Verified model of the marketplace's recovery, inbox, document and aggregate logic

This project models, in Dafny 4.11, the parts of the repository whose correctness depends on many steps
interleaving or on several functions agreeing, and proves what those parts promise. `dafny verify dfyconfig.toml`
checks everything.

## What is modelled

**Refund recovery for uncertain paid Calls.** A stopped Call can be refunded by expired-unused recovery (the
payment authorization ran out unused) or by a paid-result remedy (the payment is proven, the result is lost or is an
HTTP error). `ExpiryMutations` and `RemedyMutations` say what `claim`, `finish` and `schedule` do to the Call,
attempt, obligation and reservation rows; `RefundTables` holds the same mutations as imperative code over tables, and
the two actions, each proved equal to those functions. `LeaseWriters` holds the other writers of the Call's lease and
money state. `RefundProtocol` is the state machine: any number of runs of both families, retry timers, crashes
between any two steps, ledger postings that land without being acknowledged, new attempts, resets to pending and
the other writers. `RefundSafety`, `RefundExactlyOnce` and `RefundRetries` prove properties of all its runs, and
`RefundWitnesses` shows that the reported state is reached. `RefundConditions`, `RefundAnswers` and `WriterConditions`
say on the rows' own columns exactly when each mutation, action and other writer succeeds and what it writes. Lease
owners are values; `LeaseOwners` proves that the stored text decides them.

**Stripe webhook inbox.** `StripeInbox` has the row state machine, the worker's decision and the same code over
tables; `StripeProtocol` runs it under redelivery, conflicting payloads, crashed and repeated worker runs, duplicate
timers and superseded work ids; `StripeOutcomes` says what a run's answers make of its row.

**Documents.** `Csv` has the printer and a reader for section 2 of RFC 4180. `DocumentRender` is the state machine of
concurrent renders, whose storage and attachment commit separately and whose answers can be lost; `DocumentTables`
is the render action itself; `DocumentOutcomes` has the states that attachments leave.

**Resumable and indexed data.** `DirectoryBackfill` (versioned cursor rebuild beside ingestion), `MarketPresence`
(active tools and providers), `MarketEvidence` (facts, ratings and their aggregates) with `EvidenceAnswers` (what they
keep of the requests), `CatalogPaging` (cursors over fixed upstream pages).

**Fixture market** (`FixtureMarket`, `FixtureAnswers`): the idempotent Quote and Call machine of the chat trial.

**Cost models** (`CostModel`, `MarketCosts`): the calculator's formulas over exact reals, and what its break-even
outputs mean. `PublishedCosts` and `MarketFigures` give the models' figures on the repository's published inputs and on
inputs that all differ.

Conventions. A mutation is one atomic step. Digests are injective, so a digest is modelled by its material. Clock values
stay below `Number.MAX_SAFE_INTEGER`. Each payment attempt is signed with its own EIP-3009 nonce. A reset to pending
happens only where its two callers send it, on a Call whose money was released or never reserved. The answers of
networks, chains, ledgers and clocks are parameters of steps. Events that are not enabled change nothing, so a run is
any sequence of events. Fields named `lineage`, `waited`,
`covered`, `foreign`, `leaked`, `claims`, `starts`, `armed` and `effects` record history that the program does not store.

## What the proofs found

- Expired-unused recovery cannot repair a Call whose attempt is observed as settled while its lease is held: such a run
  exists (`StuckIsReached`), no continuation refunds that Call, and the permanent lease keeps the paid-result remedy out
  (`SettledUnderLeaseNeverCloses`, `ExpiryLeaseClosesIff`).
- `moneyX402Expiry.finish`, handed the digest and release refs of a Call closed by remedy, would answer "completed" and
  overwrite its refusal code; no run gets there (`CrossReplayRewritesCode`, `NoCrossFinish`).
- Presence loses its agreement exactly when an inactive sync names another business than the stored row and removes that
  business's last Tool (`SyncAgreesIff`).
- The CSV guard is not injective: a cell and its guarded form print alike (`GuardCollides`).
- The cost model's support threshold inverts the model exactly when its raw value is between zero and one: below zero it
  is clamped and the promised margin is missed, above one the calculator rejects its own output
  (`ThresholdInvertsModelIff`, `ThresholdFailsBothWays`).

## Model

| member | source | states |
|---|---|---|
| RefundSafety.OneRefundFamily | convex/moneyManagedCallRemedy.ts:80-92 | over every run of the system, ledger postings come from one family; releases share one digest, remedies share one transaction and failure kind |
| RefundSafety.FirstPinEverywhere | convex/moneyX402Expiry.ts:52-65 | over every run every release posted, and the receipt that closes the Call, carries the digest pinned by the first successful claim |
| RefundSafety.TerminalStatesNeverMix | convex/moneyManagedCallRemedy.ts:141-170 | over every run a claimed Call that left reconciliation was released ordinarily first, or is closed by the family that won: not settled, reversed and no loss, or settled, settled and a loss, never a mixture |
| RefundSafety.LeaseIsNeverTaken | convex/moneyX402Expiry.ts:52-63 | over every run the Call stays stopped under the permanent lease of the first claimant until it is closed for it, unless its ordinary release came first |
| RefundSafety.ReleaseOpensNoRefund | convex/lib/capabilityExecution/callLifecycle/callRecoveryProjection.ts:87-143 | once a Call's money is released no refund is ever claimed again, whatever resets, stops, new attempts and other events follow |
| RefundSafety.ReferencesNameTheirParty | convex/moneyManagedCallRemedy.ts:125-170 | over every run a Call closed by remedy names the buyer's posting in its release and receipt, the Provider's in its settlement and obligation, and both and the grants in its accounting; after an expired-unused refund all of them are the buyer's |
| RefundConditions.EveryPostingHadItsGround | convex/lib/money/x402PaymentAttempt/responseRecovery.ts:21-23 | over every run each release goes back to a claim won on an attempt that had run out and may be unpaid, and each remedy to a claim on a submitted attempt whose result was lost or failed, for the proof and the transaction posted |
| RefundSafety.WriterKeepsFence | convex/lib/money/x402PaymentAttempt/responseRecovery.ts:44-86 | the watchdog, sweep, quarantine, release, settlement, reset, stop, attempt and observation writers all keep the winner's fence, or release the Call ordinarily first |
| WriterConditions.ReleaseIff | convex/lib/money/managedCall/transitions.ts:189-223 | exactly when the ordinary release is made, and every column it writes |
| WriterConditions.SettlementIff | convex/lib/money/managedCall/transitions.ts:282-323 | exactly when the ordinary settlement is made; the second ref settles the obligation |
| WriterConditions.WatchdogTakes | convex/lib/money/x402PaymentAttempt/responseRecovery.ts:44-78 | which lease a watchdog step takes: a retained refund's own for ever, or its own until a minute after it is due |
| WriterConditions.SweepDecides | convex/lib/capabilityExecution/callLifecycle/reconciliation.ts:146-174 | a sweep decides only under its own live lease: done, or one more try with the next backoff, and a person after the fifth |
| WriterConditions.QuarantineHolds | convex/lib/capabilityExecution/callLifecycle/restoredDispatches.ts:66-105 | the restore quarantine leaves exactly the pending or already held Calls under the manual hold, without a lease |
| RefundSafety.ExpiryClaimOnFence | convex/moneyX402Expiry.ts:52-57 | an expired-unused claim on a fenced Call writes nothing and can only answer with the winner's own digest |
| RefundSafety.RemedyClaimOnFence | convex/moneyManagedCallRemedy.ts:82-92 | a paid-result claim on a fenced Call wins only as the same transaction and failure kind |
| RefundExactlyOnce.EachFactAtMostOnce | convex/moneyX402Expiry.ts:92-117 | over any run, credit is restored, the obligation closed and the reservation closed at most once each |
| RefundExactlyOnce.ClaimThenFinish | convex/moneyX402Expiry.ts:29-128 | after a won claim, exactly when a finish closes the Call, what it commits once each, and that otherwise the claimed rows stand |
| RefundExactlyOnce.PaidClaimThenFinish | convex/moneyManagedCallRemedy.ts:55-184 | the same for a paid-result remedy, whose finish never touches the reservation; the first posted ref becomes the buyer's release, the second settles the obligation for the Provider |
| RefundExactlyOnce.ExpiryReplay | convex/moneyX402Expiry.ts:74-82 | after an expired-unused close only the same digest and refs replay, changing nothing; every other finish of either family is refused |
| RefundExactlyOnce.RemedyReplay | convex/moneyManagedCallRemedy.ts:106-115 | after a paid-result close only the same transaction, kind, digest and refs replay; others are refused without a change |
| RefundExactlyOnce.ClosedFinishMovesNoFact | convex/moneyX402Expiry.ts:74-82 | on a closed Call no finish of either family moves a financial fact, whatever digest it brings |
| RefundExactlyOnce.CrossReplayRewritesCode | convex/moneyX402Expiry.ts:74-82 | an expired-unused finish rewrites a remedy's refusal code exactly when handed its stored digest |
| RefundExactlyOnce.NoCrossFinish | convex/moneyX402ExpiryActions.ts:71-90 | over every run, once a remedy has won no expired-unused run reaches its finish |
| RefundRetries.AtMostFiveRuns | convex/moneyX402Expiry.ts:137-152 | a retry chain starts attempts 0, 1, 2, .. in order, each once, and at most five |
| RefundRetries.SuccessorArmedBeforeLedger | convex/moneyX402ExpiryActions.ts:23-32 | every run that posted to the ledger had armed its successor, so attempt 4 never posts |
| RefundRetries.LastAttemptRecordsManualReview | convex/moneyX402Expiry.ts:144-150 | the last run only records manual review and keeps any lease, leaving every other field alone |
| RefundRetries.SuccessorDelay | convex/moneyX402ExpiryActions.ts:25-26 | a successor is due one, two, four or eight minutes after it was asked for, or at once if that has passed |
| RefundRetries.HoldIsUntouched | convex/moneyX402Expiry.ts:31-35 | claim and schedule leave a Call held for unknown settlement unchanged |
| RefundWitnesses.SettledUnderLeaseNeverCloses | convex/moneyX402Expiry.ts:93-98 | from any start, once the attempt under an expired-unused lease is settled no refund closes the Call whatever follows: it stays in reconciliation under that lease, or was released ordinarily |
| RefundWitnesses.StuckIsReached | convex/moneyX402Expiry.ts:29-66 | that state is reached: a run of the retry chain claims the Call and its attempt is then observed as settled |
| RefundRetries.ExpiryLeaseClosesIff | convex/moneyX402Expiry.ts:83-98 | exactly when an expired-unused lease can still be closed, a missing obligation, a stop for another attempt and an attempt of another Call included |
| RefundTables.Backend.ClaimExpiry | convex/moneyX402Expiry.ts:29-66 | the step-by-step claim equals its row function, early returns included; `RefundConditions.ExpiryClaimIff` says when that wins |
| RefundTables.Backend.FinishExpiry | convex/moneyX402Expiry.ts:72-129 | the step-by-step finish equals its row function, with every table rolled back on a throw |
| RefundTables.Backend.ScheduleExpiry | convex/moneyX402Expiry.ts:136-153 | arms one timer, or records manual review past the last attempt, and nothing else |
| RefundTables.Backend.ResolveSpendUnused | convex/lib/money/x402PaymentAttempt/spendResolution.ts:90-123 | closes an open reservation once as unused, and reports a conflict of identity, digest or state without a write |
| RefundTables.Backend.ClaimRemedy | convex/moneyManagedCallRemedy.ts:55-94 | the step-by-step claim equals its row function |
| RefundTables.Backend.FinishRemedy | convex/moneyManagedCallRemedy.ts:100-184 | the step-by-step finish equals its row function; `RefundConditions.RemedyFinishWrites` says which ref is whose |
| RefundTables.Backend.Recover | convex/moneyX402ExpiryActions.ts:16-90 | an uninterrupted recover run is a run of the protocol, answers completed exactly when the refund is released to the buyer, and not eligible exactly as `RefundAnswers.RecoverNotEligibleIff` says |
| RefundTables.Backend.ResolvePaidResultFailure | convex/moneyManagedCallRemedyActions.ts:40-134 | an uninterrupted remedy, its checks of the attempt included, is a run of the protocol; it answers completed only when the refund is released, and each refusal with the source's code in the source's order |
| RefundConditions.ExpiryClaimIff | convex/moneyX402Expiry.ts:29-66 | exactly when an expired-unused claim wins, column by column: stop, identity, nonce, expiry, reservation, lease, and nothing answered or a plain 402 naming no transaction |
| RefundConditions.ExpiryClaimWrites | convex/moneyX402Expiry.ts:52-65 | a won claim writes the proof once and the permanent lease, and nothing else |
| RefundConditions.ExpiryFinishIff | convex/moneyX402Expiry.ts:72-107 | exactly when an expired-unused finish completes, as a close or as a replay |
| RefundConditions.ExpiryFinishWrites | convex/moneyX402Expiry.ts:99-128 | every column such a close writes, and that it writes no other |
| RefundConditions.SpendConflictIff | convex/lib/money/x402PaymentAttempt/spendResolution.ts:90-123 | exactly when the reservation stands in the way |
| RefundConditions.RemedyClaimIff | convex/moneyManagedCallRemedy.ts:55-94 | exactly when a paid-result claim wins: a lost result with no response, or an error of status 300 to 599 with its digests |
| RefundConditions.RemedyFinishIff | convex/moneyManagedCallRemedy.ts:100-139 | exactly when a paid-result finish closes the Call |
| RefundConditions.RemedyFinishWrites | convex/moneyManagedCallRemedy.ts:125-184 | every column such a close writes, with the positions of the posted refs |
| RefundConditions.ScheduleIff | convex/moneyX402Expiry.ts:136-153 | exactly when a successor is armed and when manual review is recorded |
| RefundConditions.ProveIff | convex/moneyX402ExpiryActions.ts:34-70 | a run has a proof of non-payment exactly from a complete unpaid attempt, agreeing blocks and a matching booking |
| RefundAnswers.RemedyAnswersIff | convex/moneyManagedCallRemedyActions.ts:40-134 | each answer of a remedy, with exactly the case it stands for |
| RefundAnswers.RecoverNotEligibleIff | convex/moneyX402ExpiryActions.ts:34-47 | a recover run answers not eligible exactly when it could go on but has nothing to prove |
| LeaseOwners.OwnerPrefixes | convex/lib/money/x402PaymentAttempt/responseRecovery.ts:54-62 | every prefix test on the stored owner text is a test on the kind of owner |
| LeaseOwners.OwnerTextInjective | convex/moneyX402Expiry.ts:13 | two owners with equal stored text are the same owner |
| LeaseOwners.RemedyOwnerIdentifies | convex/moneyManagedCallRemedy.ts:24-25 | a transaction and failure kind have one owner, whatever the case of the hash |
| StripeProtocol.NeverStranded | convex/moneyStripeWebhookInbox.ts:71-125 | a queued row has its current work in flight and still to decide, or a requeue timer pending |
| StripeProtocol.OutcomesAbsorb | convex/moneyStripeWebhookInbox.ts:206-246 | whatever follows, a stored event never changes, applied, ignored and reconciliation stay, and a conflict freezes the state |
| StripeOutcomes.AccountEventsAreNotApplied | convex/moneyStripeWebhookWorker.ts:57-74 | over any run an account event is never applied |
| StripeOutcomes.PaymentEventsAreNotIgnored | convex/moneyStripeWebhookInbox.ts:240-246 | over any run in which applying a payment event is never answered ignored, its row is never ignored |
| StripeOutcomes.AcceptedRunDecides | convex/moneyStripeWebhookInbox.ts:240-246 | when no call refuses and applying is accepted, the current run leaves the row ignored or applied as answered, with that reference |
| StripeOutcomes.RefusedRunDecides | convex/moneyStripeWebhookWorker.ts:28-46 | a refused run names its refusal, names it as exhausted at the thirteenth, or arms one timer due after the doubled backoff |
| StripeProtocol.ConflictIsReported | convex/moneyStripeWebhookInbox.ts:88-109 | every conflict is either in the state that the stuck scan reads or has its own operator alert, never both |
| StripeProtocol.SupersededCompletion | convex/moneyStripeWebhookInbox.ts:219 | a completion changes a row only as that queued row's current work, and each work id completes once |
| StripeProtocol.AttemptsIncrease | convex/moneyStripeWebhookWorker.ts:28-46 | attempts count up by one along every requeue chain, which has at most thirteen runs |
| StripeProtocol.ChainDelay | convex/moneyStripeWebhookWorker.ts:40-44 | a chain has asked for 60000 * (2^attempt - 1) ms of backoff, and for 60000 * 4095 ms exactly at full length |
| StripeProtocol.PersistentRefusal | convex/moneyStripeWebhookWorker.ts:28-46 | over every run in which the calls for a payment event always end in one refusal, its row is never applied or ignored, and its current run leaves it in reconciliation naming that refusal exactly when the refusal is final or the attempt was the last |
| StripeProtocol.RefusalCanBeReconciled | convex/moneyStripeWebhookWorker.ts:34-46 | from any run about to start, the chain of retryably refused runs can get to that reconciliation |
| StripeProtocol.StepMovesRow | convex/moneyStripeWebhookInbox.ts:71-110 | the state changes one step may make to a row, and the fields no step changes |
| StripeProtocol.DecisionIsFinal | convex/moneyStripeWebhookWorker.ts:34-45 | a run answers "retry scheduled" only after arming its timer: no decision is that answer |
| StripeInbox.InboxTables.IngestEvent | convex/moneyStripeWebhookInbox.ts:55-125 | the step-by-step ingest equals its inbox function, answers included |
| StripeOutcomes.IngestAdmits | convex/moneyStripeWebhookInbox.ts:55-88 | each answer of an ingest, with exactly the case it stands for |
| StripeOutcomes.IngestConflicts | convex/moneyStripeWebhookInbox.ts:88-110 | another payload under a known id keeps a decided row and alerts, and reconciles any other |
| StripeInbox.InboxTables.RequeueEvent | convex/moneyStripeWebhookInbox.ts:202-209 | the step-by-step requeue equals its inbox function |
| StripeInbox.InboxTables.CompleteWork | convex/moneyStripeWebhookInbox.ts:215-247 | the step-by-step completion equals its inbox function; `StripeOutcomes.AcceptedRunDecides` says what it makes of the row |
| StripeInbox.InboxTables.RetryOrReconcile | convex/moneyStripeWebhookWorker.ts:28-46 | a refusal ends at once with its reason, or arms exactly one timer for the next attempt |
| StripeInbox.InboxTables.Process | convex/moneyStripeWebhookWorker.ts:57-152 | one worker run decides as specified from the row it read and the first refusing call |
| StripeInbox.GateOrder | convex/moneyStripeWebhookWorker.ts:74-101 | the refusal acted on is that of the earliest refusing call, and disputes make only the first |
| Csv.CsvRoundTrip | convex/moneyDocumentRender.ts:138-145 | reading a printed document returns the header and exactly the guarded cells, for any cell text |
| Csv.NoFormulaIsRead | convex/moneyDocumentRender.ts:139 | no cell read back starts with a formula character |
| Csv.GuardCollides | convex/moneyDocumentRender.ts:138-141 | exactly which two cells print alike |
| Csv.PrintDetermines | convex/moneyDocumentRender.ts:143-145 | two documents print alike exactly when their guarded cells agree |
| Csv.RecoversOriginalIff | convex/moneyDocumentRender.ts:138-145 | the original cells are recovered exactly when none needed guarding |
| DocumentRender.ReferencedFilesExist | convex/moneyDocumentRender.ts:253-311 | over any concurrent renders, a referenced file is stored with exactly the bytes its row records |
| DocumentRender.AvailableStaysAvailable | convex/moneyDocumentRender.ts:307-310 | when a run reports a pair available, both files are stored and on the row, and stay so whatever follows |
| DocumentRender.PairIsForever | convex/lib/money/documents/attachment.ts:30-38 | once a row has its pair no event replaces the pair or its digests |
| DocumentRender.RowsShareNoFile | convex/lib/money/documents/attachment.ts:39-50 | two rows never share a file |
| DocumentRender.CommitHolds | convex/lib/money/documents/attachment.ts:23-51 | an attachment that commits late, even after its caller gave up, still attaches only stored files and replaces none |
| DocumentOutcomes.AttachIff | convex/lib/money/documents/attachment.ts:23-38 | exactly when a submission attaches, replays or is refused |
| DocumentOutcomes.AttachedIsSignedOrIssued | convex/lib/money/documents/attachment.ts:39-47 | over any run a row holding its pair awaits its signature if it is a daily close and is issued otherwise, unless another writer changed it since |
| DocumentOutcomes.RendersIssueNoDailyClose | convex/lib/money/documents/attachment.ts:44 | over any run a daily close is issued only if another writer issued it |
| DocumentRender.StorageIsExactlyReferenced | convex/moneyDocumentRender.ts:276-310 | without a crash, a lost answer or a failed deletion, ended renders leave exactly the referenced files |
| DocumentTables.RenderTables.AttachRenderedFile | convex/lib/money/documents/attachment.ts:23-51 | the step-by-step attachment equals its function, the first matching pair wins; a row it attaches awaits its signature exactly if it is a daily close |
| DocumentTables.RenderTables.DeleteUnattachedFiles | convex/moneyDocumentRender.ts:251-258 | exactly the given files whose deletion did not fail are gone, and every row keeps its files |
| DocumentTables.RenderTables.RenderAndAttach | convex/moneyDocumentRender.ts:264-311 | no earlier file is lost, an available pair is stored and on the row, an answered fresh render succeeds, nothing is left over when nothing failed, and a row newly attached awaits its signature if it is a daily close and is issued otherwise |
| DirectoryBackfill.ReadyMeansRebuilt | convex/x402DirectoryIndexBackfill.ts:26-71 | over duplicated, stale or version-changing deliveries mixed with ingestion, ready means every row was reprojected exactly once since that rebuild began and counted, and a row is fresh on all its projections exactly unless ingested under another version since |
| DirectoryBackfill.ReadyMeansFresh | convex/x402DirectoryIndexBackfill.ts:29-31 | with one version deployed throughout, ready means every row is fresh, whatever was ingested meanwhile |
| DirectoryBackfill.IngestHolds | convex/lib/market/directoryIndex/ingestion.ts:73-192 | an ingestion of a retained row, activity alone or identity too, keeps every row consistent and the rebuild's record sound |
| DirectoryBackfill.ReadyEqualsWholeRebuild | convex/x402DirectoryIndexBackfill.ts:36-62 | a ready rebuild agrees, on every projection and mirror entry of every row not ingested under another version, with one whole-table rebuild of the current rows from any consistent tables of its shape |
| DirectoryBackfill.ReadyEqualsRebuiltStart | convex/x402DirectoryIndexBackfill.ts:36-62 | without identity rewrites, in particular with one whole-table rebuild of the starting tables |
| DirectoryBackfill.DeliveriesReachReady | convex/x402DirectoryIndexBackfill.ts:63-71 | one delivery more than a fifth of the row count, under one version and with any ingestion between, always completes the rebuild |
| DirectoryBackfill.BatchHolds | convex/x402DirectoryIndexBackfill.ts:31-70 | a delivery under any version, from any reachable cursor, covers the next rows once or restarts soundly |
| DirectoryBackfill.ReadyReportsRowCount | convex/x402DirectoryIndexBackfill.ts:30-71 | an answer of ready always reports the row count |
| DirectoryBackfill.ReprojectRowIsFresh | convex/x402DirectoryIndexBackfill.ts:37-61 | every projection of a row gets the analytics of its own network and the eligibility of the version, and its eligible facet mirror and memberships follow |
| DirectoryBackfill.DeliveryRecords | convex/x402DirectoryIndexBackfill.ts:31-71 | what an active delivery records, schedules and answers, from the rows it reads |
| DirectoryBackfill.RewriteNetworks | convex/lib/market/directoryIndex/ingestion.ts:96-192 | a rewrite leaves exactly the wildcard and the given networks, in order |
| DirectoryBackfill.Backfill.RunBatch | convex/x402DirectoryIndexBackfill.ts:25-72 | the looping batch equals its specification on tables, cursor, counts and schedules |
| DirectoryBackfill.Backfill.RewriteRow | convex/lib/market/directoryIndex/ingestion.ts:52-192 | the looping identity rewrite equals its specification, and too many networks leave the tables alone |
| MarketPresence.SyncAgreesIff | convex/marketPresence.ts:24-68 | a sync keeps "a Provider is present exactly when one of its Tools is active" exactly when it orphans no other business |
| MarketPresence.OwnedSyncsAgree | convex/marketPresence.ts:24-68 | when each Tool has one business, any syncs keep that agreement and both counts |
| MarketPresence.SyncKeepsCounts | convex/marketPresence.ts:36-67 | every sync keeps both aggregate counts equal to their tables |
| MarketPresence.SyncWrites | convex/marketPresence.ts:24-68 | everything one sync writes: its own Tool and Provider, each stamped when it comes, and the two counts |
| MarketPresence.RefreshFollowsLast | convex/marketPresence.ts:94-110 | after a full refresh, whatever time each page was read at, a Tool is active exactly when its last publication was ready at its own time |
| MarketPresence.RefreshIsExact | convex/marketPresence.ts:78-118 | with one publication per Tool, a refresh leaves active exactly the Tools whose publication was ready when its page was read |
| MarketPresence.PagesFollowLast | convex/marketPresence.ts:82-118 | after the chain of pages a Tool is active exactly when its last publication, at position k, was ready when page k / 20 ran |
| MarketPresence.PagesShowWhatIsReady | convex/marketPresence.ts:94-110 | the same on the publication's own fields, a missing deadline included |
| MarketPresence.PresenceTables.SyncMarketToolPresence | convex/marketPresence.ts:24-51 | the step-by-step sync equals its function |
| MarketPresence.PresenceTables.CountMarketPresence | convex/marketPresence.ts:70-76 | the reported counts are the table sizes |
| MarketPresence.PresenceTables.RefreshAll | convex/marketPresence.ts:82-118 | the chain of twenty-row pages, each with its own clock, syncs every publication once, in order |
| MarketEvidence.OneRowPerSource | convex/marketEvidence.ts:35-38 | over any run each kind and source has at most one fact, and each Tool and reviewer at most one rating |
| EvidenceAnswers.FirstFactStays | convex/marketEvidence.ts:35-56 | over any run the facts are exactly those first brought for their kind and source |
| EvidenceAnswers.RatingsShowTheLast | convex/marketListingEvidence.ts:121-150 | over any run the rating rows are exactly those of the accepted requests: created with a reviewer's first, showing the score, trimmed review and time of the last |
| EvidenceAnswers.LastAssignmentWins | convex/marketListingEvidence.ts:156-175 | over any run a Tool has the category of its last valid assignment |
| EvidenceAnswers.RateAnswersIff | convex/marketListingEvidence.ts:104-119 | each refusal of a rating, with exactly the case it stands for |
| EvidenceAnswers.Utf16LengthIs | convex/marketListingEvidence.ts:117-119 | the measured length of a review is the number of its UTF-16 code units |
| EvidenceAnswers.TrimTakesSpace | convex/marketListingEvidence.ts:116 | trimming takes white space from the two ends and nothing else |
| MarketEvidence.GlobalCountIsFilter | convex/marketEvidence.ts:58-67 | the aggregate count since any time is the number of facts of that kind since then |
| MarketEvidence.ToolCountIsFilter | convex/marketListingEvidence.ts:194-201 | the per-Tool count since any time is the number of facts naming that public Tool since then |
| MarketEvidence.ReadIsFilter | convex/marketListingEvidence.ts:58-73 | a read that answers lists exactly the requested Tools, each once, with its category and the counts, sum and latencies that filtering the rows gives |
| MarketEvidence.SamplesAreLatest | convex/marketListingEvidence.ts:202-217 | latencies come from exactly the completed Calls the listing counts: all up to forty-eight, otherwise forty-eight than which none is later |
| MarketEvidence.ReadThrowsIff | convex/marketListingEvidence.ts:228-234 | a read throws exactly when a trimmed reference is not a public one or more than twenty are left |
| MarketEvidence.NamespaceInjective | convex/marketListingEvidence.ts:224-226 | namespaces of public Tools, or of none, are equal exactly for the same kind and Tool |
| MarketEvidence.OwnFaultsNameNoTool | convex/marketEvidence.ts:69-81 | a refusal that is not a Provider fault changes no Tool's count |
| MarketEvidence.RatingAggregatesAgree | convex/marketListingEvidence.ts:121-150 | rating count and sum are those of the one-per-reviewer rows, the sum between count and five times it |
| MarketEvidence.RatingAgainMovesTheSum | convex/marketListingEvidence.ts:138-150 | rating again moves the sum by the difference and the count not at all |
| MarketEvidence.EvidenceTables.RecordFact | convex/marketEvidence.ts:28-56 | a recorded fact reaches its table and both aggregates, a repeated one changes nothing |
| MarketEvidence.EvidenceTables.RecordInvocationRefused | convex/marketEvidence.ts:69-81 | the recorded refusal names the Tool only for a Provider fault |
| MarketEvidence.EvidenceTables.RateTool | convex/marketListingEvidence.ts:104-152 | the checks in order, then one row inserted or replaced with its aggregate entry |
| MarketEvidence.ReviewsAreTrimmed | convex/marketListingEvidence.ts:116-119 | over any run a stored review is trimmed, not empty and at most 2,000 UTF-16 code units long |
| MarketEvidence.CategoriesAreKnown | convex/marketListingEvidence.ts:156-175 | over any run a stored category is a known one of a public Tool |
| MarketEvidence.EvidenceTables.AssignCategory | convex/marketListingEvidence.ts:156-175 | a valid assignment replaces the Tool's category, any other changes nothing |
| CatalogPaging.Walk | convex/capabilityToolCatalog.ts:34-53 | following the cursor from any offset, with any limits and with or without a total, yields every remaining item once and in order, and stops |
| CatalogPaging.WalkFromStart | convex/capabilityToolCatalog.ts:34-72 | the walk that starts without a cursor is the whole list, for both sources |
| CatalogPaging.BrowsePage | convex/capabilityToolCatalog.ts:45-52 | a page is the next items of the list, and has no cursor only at its end |
| CatalogPaging.CursorAdvances | convex/capabilityToolCatalog.ts:49-71 | whatever upstream answers, a page respects its limit and its cursor moves on by exactly its items |
| CatalogPaging.BrowseShows | convex/capabilityToolCatalog.ts:43-72 | exactly which items a browse page shows of any answer and when it has a cursor |
| CatalogPaging.FetchErrorsIff | convex/capabilityToolCatalog.ts:34-68 | each refusal of a request, with exactly the case it stands for |
| CatalogPaging.CursorRoundTrip | convex/capabilityToolCatalog.ts:35-36 | exactly the decimal texts of safe integers are accepted as cursors, each as its own integer |
| FixtureMarket.OneDispatchPerKey | experiments/chat-trial/fixture-market.ts:123-128 | over any run a session dispatched once per key, per call and per completed result |
| FixtureMarket.UsedKey | experiments/chat-trial/fixture-market.ts:107-112 | a used key never dispatches again: equal material answers its call, other material is refused |
| FixtureMarket.DispatchesIff | experiments/chat-trial/fixture-market.ts:103-128 | exactly when a call dispatches, and that any other call changes nothing |
| FixtureAnswers.DispatchAnswers | experiments/chat-trial/fixture-market.ts:123-149 | what a dispatching call answers in each mode, and what a status query then shows |
| FixtureAnswers.CallRefusedIff | experiments/chat-trial/fixture-market.ts:103-122 | each refusal of a call, with exactly the case it stands for, in order |
| FixtureAnswers.QuoteAnswers | experiments/chat-trial/fixture-market.ts:82-102 | what a Quote answers and stores in each mode |
| FixtureAnswers.ContainsAuditIff | experiments/chat-trial/fixture-market.ts:63-66 | the audit Tool is found exactly when the query holds the word in any case |
| FixtureMarket.StoredResultsNeverChange | experiments/chat-trial/fixture-market.ts:123-141 | completed results, used keys and Quote inputs never change, whatever follows |
| FixtureMarket.OtherSessionsUntouched | experiments/chat-trial/fixture-market.ts:53-60 | steps on one session leave every other as it was |
| FixtureMarket.NoAuthorityNoDispatch | experiments/chat-trial/fixture-market.ts:23-36 | without the controller's resume, a session that lacks authority keeps its mode and never dispatches |
| FixtureMarket.CompletedCallsAreVisible | experiments/chat-trial/fixture-market.ts:38-41 | after the controller completes a session, every call's status is its completed result |
| FixtureMarket.Market.ExecuteAction | experiments/chat-trial/fixture-market.ts:59-152 | the step-by-step execute equals its session function, the event recorded first |
| FixtureMarket.Market.CreateSession | experiments/chat-trial/fixture-market.ts:27-32 | creates an empty session, or throws for a malformed or taken id |
| FixtureMarket.Market.ResumeSession | experiments/chat-trial/fixture-market.ts:34-36 | makes a known session active and changes nothing else |
| FixtureMarket.Market.Complete | experiments/chat-trial/fixture-market.ts:38-41 | the loop sets every completed result over its call |
| FixtureMarket.Market.Expire | experiments/chat-trial/fixture-market.ts:43-45 | the loop expires every Quote and nothing else |
| CostModel.MarginMeetsTargetIff | research/managed-task-agents-costs.py:137-176 | a support fraction meets the seventy percent margin exactly when it is at or below the threshold, with equality at it |
| CostModel.ThresholdInvertsModelIff | research/managed-task-agents-costs.py:174-176 | recomputing with the reported threshold gives exactly seventy percent exactly when the raw threshold is between zero and one; below it misses, above it is rejected |
| CostModel.ThresholdFailsBothWays | research/managed-task-agents-costs.py:73-176 | a month whose reported threshold is refused by the calculator, and one whose clamped threshold misses the margin |
| CostModel.FirstFittingIsCheapest | research/managed-task-agents-costs.py:26-37 | over tiers that grow in size and price the scan finds the cheapest that fits |
| CostModel.FindTier | research/managed-task-agents-costs.py:26-37 | the scanning loop returns the first tier that fits |
| CostModel.PriceMonth | research/managed-task-agents-costs.py:84-150 | the tier scans and metering loop produce exactly the specified cost lines and unpriced components |
| CostModel.RunCalculate | research/managed-task-agents-costs.py:66-183 | the calculator equals its specification, its error cases included |
| CostModel.UnpricedNames | research/managed-task-agents-costs.py:88-95 | the list names exactly the components beyond every public tier or rate, in order |
| PublishedCosts.HundredCustomers | research/managed-task-agents-costs.py:66-183 | a hundred customers on the published inputs: every figure of the report |
| PublishedCosts.HeavyThousand | research/managed-task-agents-costs.py:66-183 | a thousand with heavy jobs, the dearer model and five percent support, with its unpriced component |
| PublishedCosts.VariedMonth | research/managed-task-agents-costs.py:66-183 | every figure of a month whose inputs all differ and whose free allowances all run out |
| MarketCosts.MarketBreakEven | research/managed-task-agents-costs.py:256-268 | recomputing the whole cohort, the reported Provider count is the least that covers company cost |
| MarketCosts.ProviderBreakEven | research/managed-task-agents-costs.py:361-376 | the operating Provider count is the least whose cohort covers company and replacement cost |
| MarketCosts.CallBreakEven | research/managed-task-agents-costs.py:389-395 | the reported Call count is the least volume at which a Provider gains |
| MarketCosts.UnitsToCoverIsLeast | research/managed-task-agents-costs.py:268 | a reported count is least, and no count is reported exactly when only a free start covers anything |
| MarketCosts.RefundsReturnOnlySales | research/managed-task-agents-costs.py:186-226 | a refund costs Provider and platform together exactly the sales it returns, and recovers no spent cost |
| MarketCosts.RetentionLowersAcquisition | research/managed-task-agents-costs.py:316-359 | better retention never makes acquired demand dearer, and direct sales fund none |
| MarketCosts.CallMoneyAddsUp | research/managed-task-agents-costs.py:209-226 | the two parties' gains, the processor, labour, licence, disputes and the platform's spending add up to the sales a call keeps |
| MarketCosts.TransfersCancel | research/managed-task-agents-costs.py:326-362 | plan, meter and commission are transfers: Provider and platform together keep what the calls keep, less the costs paid outside the two |
| MarketCosts.ServicePricedIff | research/managed-task-agents-costs.py:194-208 | a call is priced exactly on fractions and budgets that are not negative |
| MarketCosts.OperatingAdmitsIff | research/managed-task-agents-costs.py:290-315 | the operating model answers exactly for a known mode with its channel, valid fractions, budgets and purchases |
| MarketFigures.HostedByCardRow0 | research/managed-task-agents-costs.py:466-508 | every figure of the first published cohort, the gain and hours that the repository checks included |
| MarketFigures.HostedByCardFigures | research/managed-task-agents-costs.py:471-473 | the published per-call figures and the six Calls that cover plan and administration |
| MarketFigures.VariedHostedFigures | research/managed-task-agents-costs.py:276-355 | the per-call figures of the operating model on inputs that all differ |
| MarketCosts.MarketplaceEconomics | research/managed-task-agents-costs.py:229-273 | the service rows of both channels, the blending and cohort loops equal their specification, and a result exists exactly for valid inputs |
| MarketCosts.OperatingEconomics | research/managed-task-agents-costs.py:276-397 | the same for the operating model |

## Left out

- RefundSafety.WriterKeepsFence: records and projections of other outcomes (completed, refused, cancelled), and what a reset Call's new dispatch does before it stops again, are not events of the runs.
- The historical release and reservation repair paths, which refuse a leased Call, and the report refund of a completed Call.
- Refunds scheduled before a dispatch is claimed, and reservations closed because signing was definitively rejected.
- The watchdog's own timers, purchase-resolution records, Activity projections, emails and environment assertions.
- Obligation evidence lists, which keep only their last 32 entries.
- Ledger internals and the promotional grants themselves: a posting is logged, a restore succeeds or fails.
- RefundTables.Backend.ResolveSpendUnused: the definitive signing rejection that shares the function is not modelled.
- RefundTables.Backend.ResolvePaidResultFailure: whether network, asset and exponent are those of an admitted token is one column, and the answers of the chain and of the booking are inputs.
- WriterConditions.SettlementIff: the column that repeats the first ref as the buyer's sale is not modelled.
- The ledger postings of the ordinary release and settlement: the log holds those of the two refund families.
- RefundSafety.OneRefundFamily: two HTTP-error remedies of one transaction may carry different evidence digests when the retained response digest is filled in between them, so only transaction and kind are shared.
- Which Stripe fields make two events match, and what applying a verified event does to the ledger.
- A storage write whose own answer is lost: its file is stored, unknown to any run, and outside `StorageIsExactlyReferenced`.
- The receipt email and usage alert that an attachment enqueues, and its failure code and render time.
- Document row builders, HTML, tax snapshots and the code that creates documents.
- DirectoryBackfill.ReadyMeansRebuilt: rows are rewritten but none is inserted or removed while a rebuild runs.
- MarketPresence.RefreshIsExact: publications are fixed while a refresh walks them; syncs from elsewhere between its pages are not modelled.
- StripeProtocol.ConflictIsReported: the stuck scan takes the first hundred rows of each state, which is not modelled.
- Catalog search results, decoration and reranking.
- The trial market's schema validation, which is one outcome here, and its search texts.
- Floating-point rounding, the lifecycle sensitivity table and the printing of the cost models.
