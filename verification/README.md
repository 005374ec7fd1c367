# Doc-auto: a verified model of the document pipeline

A tenant uploads a file; an OCR job reads it, an extraction job classifies it, stores an invoice and either
approves it or sends it to a reviewer; reviewers approve, reject, edit and reprocess; webhooks report the outcome.
All of these write the same document row, extraction row and audit log, and most worker writes are unconditional.
This project models that system as atomic steps that interleave freely, and proves what holds of every run.

| file | content |
|---|---|
| `Wrappers.dfy` | options, counting, sums |
| `DecisionEngine.dfy` | money rounding and the auto-approve decision |
| `Providers.dfy` | retry loops around the language model |
| `Schema.dfy`, `Transactions.dfy` | rows, job identifiers, the bodies of the transactions on one document |
| `Pipeline.dfy` | one document as a step system: program counters for uploads, OCR, extraction, webhook executions and reviewer follow-ups |
| `AnyFault.dfy`, `AnyFaultTheorems.dfy` | invariants and theorems of fault model ANY |
| `ProviderFault.dfy`, `ProviderFaultTheorems.dfy`, `Termination.dfy` | fault model F: single writer, finality, settlement |
| `Undisturbed.dfy` | the complete final rows and log of a document that is left alone |
| `WebhookBudget.dfy` | attempt numbers against the queue's three executions |
| `WebhookDeliveries.dfy` | numbering of the rows of serial executions, deliveries of one job |
| `WebhookTermination.dfy` | how long webhook executions take, that every job ends, when one uses up its executions |
| `Counterexamples.dfy` | runs from an upload on which approval is undone or a publication goes unreported |
| `Workers.dfy` | the upload request and the three workers as straight-line imperative code, proved to be exact runs of the step system |
| `Reviewers.dfy` | whose reviewer requests succeed, and what follows them |
| `Provenance.dfy` | where approval thresholds and payload contents come from, over whole runs |
| `RateLimiter.dfy` | the sliding-window limiter |
| `RefreshTokens.dfy` | refresh-token lineage |
| `Database.dfy`, `Tenancy.dfy` | the four tables under row-level security, and noninterference between tenants |

## How a step is modelled

Each `withTenantContext` call, each queue add and each provider call is one atomic step. Every step has an
environment: its fault (`NoFault`, `LostBefore`: it throws and had no effect, `LostAfter`: it took effect and
throws), the tenant row it reads, the texts and answers providers give. A step that throws inside a `try` goes to
the `catch` block; outside one it ends the execution and the queue sees a throw. A value that its column cannot hold
(text with a NUL, a tax id or number that is too long, a date that is none, an amount beyond numeric(12,2)) makes the
transaction throw without effect, whatever the fault: `IsPlain`, `Storable`, `Fits`. What the date columns read as a
date is `isDate`, part of the environment.

* **ANY** (`Reachable`): every sequence of actions. Any step may throw in either way, any execution may stop for
  ever, any known job may be started again at any time, reviewers of any tenant may act at any time.
* **F** (`PermittedlyReachable`): only storage, OCR and the language model fail, and the database refuses what its
  columns cannot hold; a job is started only while it waits, so at most three times and again only after a throw; a
  document in status `failed` is reprocessed only when the job that wrote that status has completed or used up its
  executions; run ids are new. Webhook executions and notifications may still fail anywhere. The code does not
  enforce F. It is the hypothesis `Permitted`.

Histories (`writes`, `origin`, `sent`) record what was written; no step reads them except to record an observation.
Log order is commit order. Amounts and scores are exact reals, and stored amounts are whole cents rounded to
nearest with ties away from zero; no IEEE arithmetic is modelled.

One documented promise is false of the code in general: an approved document can lose that status, because worker
writes are unconditional. `LeavesApproved` says exactly which steps do it, `ApprovalIsNeverFinal` shows a way out of
every reachable approved state, and `ApprovalStands` proves finality under F. An approval can rest on an extraction
that is not the stored one: `ApprovalNotBornOut` shows a run, `BornOutIff` says exactly when, `AutoApprovalIsBornOut`
proves that it does not happen under F. A webhook job can use up its executions: `ExhaustsIff` says exactly when,
`PublicationIsLost` shows a run in which nothing was sent, and `EveryJobEnds` proves that it never happens when
executions throw only for failed deliveries. Likewise `RacingRotationsLeaveTwo` shows two live refresh tokens for one
login and `ExecKeepsOneIff` says exactly when the second half of a rotation avoids that.

## Model

| member | source | states |
|---|---|---|
| DecisionEngine.EvaluateExtraction | src/lib/decision-engine.ts:19-38 | the loop form computes the decision, its reasons in order, the sum and the minimum of the specification |
| DecisionEngine.SumIsOfAmounts | src/lib/decision-engine.ts:22 | the sum is nothing for no items, and each further item adds its amount |
| DecisionEngine.MinimumIsWorstScore | src/lib/decision-engine.ts:25-33 | the minimum is one of the ten scores, and none of the ten is below it |
| DecisionEngine.ReasonsAreExact | src/lib/decision-engine.ts:24-33 | the reasons are exactly a sum off by more than a cent, with the sum and the subtotal, and every score below the threshold, under its own field |
| DecisionEngine.AutoApproveMeans | src/lib/decision-engine.ts:22-35 | approval iff there is no reason, iff the sum is within a cent and the minimum reaches the threshold, iff all ten scores do |
| DecisionEngine.ReasonCount | src/lib/decision-engine.ts:24-33 | one reason for the sum plus one for each score below the threshold, no others |
| DecisionEngine.DecisionIgnoresOrder | src/lib/decision-engine.ts:22-37 | permuting line items changes nothing in the result |
| DecisionEngine.DecisionMonotone | src/lib/decision-engine.ts:29-35 | approval survives higher scores and a lower threshold |
| DecisionEngine.ApprovedSumMatchesStoredSubtotal | src/workers/extraction.worker.ts:104-115 | an approved invoice's line items are within 0.015 of the subtotal as stored |
| DecisionEngine.CentsWithinHalfCent | src/workers/extraction.worker.ts:104-106 | rounding to cents moves an amount by at most half a cent |
| Providers.AskWithRetries | src/lib/anthropic.ts:73-93 | at most three calls, none after a success, and giving up only after all three failed; no call without a key |
| Providers.AskMeans | src/lib/anthropic.ts:73-93 | the first of at most three answers is the result and costs as many calls as it took; without a key the mock if it is allowed, else an error, and no call |
| Providers.AskBounded | src/lib/anthropic.ts:226-250 | three calls bound the extraction loop as well |
| Schema.JobIdsAreDistinct | src/queues/jobIds.ts:1-7 | an identifier determines queue, document and run |
| Schema.FileKeyIsNotPlaceholder | src/services/document.service.ts:38 | no uploaded file's key is the placeholder |
| Schema.KeysAreDistinct | src/services/document.service.ts:46-57 | tenant, document and file name are determined by the key |
| Schema.BlankMeans | src/workers/extraction.worker.ts:37 | no text, blanks and line ends are blank; one visible character is enough not to be |
| Transactions.TwoEditsAreOne | src/services/document.service.ts:240-258 | two successive edits equal one merged edit |
| Transactions.EditedColumns | src/services/document.service.ts:240-267 | a successful edit, column by column: undefined keeps, null clears, a text is stored as it is, an amount to the nearest cent; one row with the edit is appended |
| Transactions.EditMeans | src/validators/documents.ts:30-46 | an edit of a stored extraction succeeds iff the document is pending review and the edit is one the validator and the columns admit; otherwise nothing changes |
| Transactions.PersistedColumns | src/workers/extraction.worker.ts:95-113 | every column of an inserted row is the model's answer for it, amounts to the nearest cent, tax id and number cut to a hundred characters |
| Transactions.RefusedMeans | src/db/schema.ts:92-112 | exactly when the insert is refused |
| Transactions.ApproveMeans | src/services/document.service.ts:145-173 | approval succeeds iff pending review, and what it writes |
| Transactions.RejectMeans | src/services/document.service.ts:181-212 | rejection succeeds iff pending review with an admissible reason, and what it writes |
| Transactions.ReprocessMeans | src/services/document.service.ts:272-302 | reprocessing succeeds iff failed or rejected, and what it writes |
| Reviewers.OthersFindNothing | src/services/document.service.ts:150-153 | another tenant's reviewer finds nothing and changes nothing |
| Reviewers.OwnerApproves | src/services/document.service.ts:160-172 | the owner's approval of a pending document takes effect |
| Reviewers.OwnerRejects | src/services/document.service.ts:198-211 | so does the owner's rejection |
| Reviewers.OwnerReprocesses | src/services/document.service.ts:287-311 | the owner's reprocessing empties the document and adds the OCR job of its run |
| Reviewers.NotifiesIfConfigured | src/services/document.service.ts:15-23 | after a decision exactly one webhook job of the tenant is added, iff it has an address |
| Transactions.ReplayIsOneMergedEdit | src/services/document.service.ts:240-267 | so does any number of edits |
| AnyFaultTheorems.Always | src/workers/extraction.worker.ts:20-180 | every invariant of ANY holds after every sequence of actions |
| AnyFault.TaskStepOk | src/workers/ocr.worker.ts:20-78 | one step of any request or execution keeps them, whatever it is and however it fails |
| AnyFault.ReviewerOk | src/services/document.service.ts:145-312 | so does every reviewer transaction |
| AnyFaultTheorems.ExtractionIsReplayed | src/services/document.service.ts:254-267 | ANY: the stored extraction is the last effective insert with the logged edits since, one by one or merged |
| AnyFaultTheorems.DecisionsAreConserved | src/services/document.service.ts:160-172 | ANY: decision rows are in order exactly the reviewers' status writes, each from its required status, and name the status left and the status reached; rejected means the last decision row is a rejection; auto-approve writes equal auto_approved rows plus executions still owing one, and each of those stands between the two steps or was aborted |
| AnyFaultTheorems.StorageIsOrdered | src/services/document.service.ts:35-57 | ANY: past OCR the storage key is tenant/document/file, and extracted means there is text |
| AnyFaultTheorems.StoredValuesFit | src/db/schema.ts:74-112 | ANY: the stored text is plain and the stored extraction fits its columns, whatever models answer and reviewers enter |
| AnyFaultTheorems.FaultsAreReal | src/db/index.ts:44-54 | a step lost before it took effect leaves the rows alone, one lost after leaves them as if undisturbed |
| AnyFaultTheorems.JobsNeverStartOver | src/queues/jobIds.ts:1-7 | ANY: adding a job again does not start it over; executions and provider calls of a job only grow |
| AnyFaultTheorems.WebhooksAreAccountedFor | src/workers/webhook.worker.ts:45-93 | ANY: no more webhook jobs than approved or rejected writes; each payload names a status held; each rejection payload carries a nonempty reason no older than the rejection observed |
| Provenance.PayloadToldTruth | src/workers/webhook.worker.ts:57-93 | ANY: every payload says what was true of the document all at once after some prefix of the run: approved, its type, and vendor, number and total of the extraction stored then; or rejected, its type, and no extraction |
| Provenance.ThresholdWasRead | src/workers/extraction.worker.ts:53-56 | ANY: every auto_approved row names the threshold that the execution which wrote it had read from its tenant, or 0.85 if it found none |
| AnyFaultTheorems.RejectionsGiveReasons | src/validators/documents.ts:21-28 | ANY: a rejected document has a rejected row, and each gives a reason |
| AnyFaultTheorems.AttemptNumbers | src/workers/webhook.worker.ts:50-55 | ANY: an attempt number never exceeds the row's position; a dead letter needs three rows |
| AnyFaultTheorems.JobsNameTheOwner | src/workers/ocr.worker.ts:60-64 | ANY: every job and execution names the tenant that owns the document |
| ProviderFaultTheorems.RedeliveryIsNoOp | src/workers/extraction.worker.ts:32-35 | a duplicate extraction job of a document that F has brought, extracted, to pending_review or approved changes only the queue's bookkeeping, and no later step of that execution does anything in any state |
| AnyFaultTheorems.LeavesApproved | src/workers/ocr.worker.ts:33-37 | exactly which steps take a document out of approved |
| AnyFaultTheorems.RedeliveredOcrUndoesApproval | src/workers/ocr.worker.ts:20-37 | redelivering the OCR job of an approved document makes it ocr_processing and changes nothing else of its rows |
| AnyFaultTheorems.ApprovalIsNeverFinal | src/workers/ocr.worker.ts:20-37 | ANY: every reachable approved document has an OCR job, and three steps of its redelivery make it ocr_processing |
| Counterexamples.ApprovalIsUndone | src/workers/ocr.worker.ts:33-37 | every upload that deserves approval has a run that approves it and a continuation that takes it back to ocr_processing |
| ProviderFault.StepHeld | src/queues/index.ts:20-25 | F: every permitted step hands the document from one holder to the next |
| ProviderFault.TaskAdvances | src/workers/extraction.worker.ts:37-179 | F: the holder's own step keeps the phase the rows are in, or passes the document on |
| ProviderFault.QuietMove | src/workers/extraction.worker.ts:122-141 | F: an execution that has published only appends audit rows and enqueues |
| ProviderFault.ReviewersWait | src/services/document.service.ts:154-164 | F: a reviewer transaction succeeds only while nobody holds the document |
| ProviderFaultTheorems.OneWriter | src/workers/extraction.worker.ts:118-162 | F: at most one request, execution or waiting job can still write the status; everybody else leaves the rows alone |
| ProviderFaultTheorems.ApprovalStands | src/services/document.service.ts:160-163 | F: after approval no continuation changes the row or the extraction |
| ProviderFaultTheorems.RejectionIsLeftByReprocess | src/services/document.service.ts:288-300 | F: a rejected document leaves that status iff its owner reprocesses it, and becomes uploaded |
| ProviderFaultTheorems.AutoApprovalIsBornOut | src/workers/extraction.worker.ts:118-137 | F: every auto_approved row stays true of the stored scores, line items and rounded subtotal |
| ProviderFaultTheorems.DecidingInsertTakesEffect | src/workers/extraction.worker.ts:95-113 | F: the insert of the deciding execution never meets an existing row; it stores the decided invoice, or, if the columns refuse that, nothing, and the execution fails |
| Counterexamples.ApprovalNotBornOut | src/workers/extraction.worker.ts:95-137 | ANY: two answers that deserve approval and differ in their sum have a run that stores the first and approves on the second |
| Counterexamples.BornOutIff | src/workers/extraction.worker.ts:95-137 | an undisturbed approval leaves stored what it decided on, and is borne out, exactly if its insert met no extraction or one equal to its own; its row names the tenant's threshold |
| ProviderFaultTheorems.ShapeByStatus | src/services/document.service.ts:287-291 | F: uploaded means no extraction, text or type; a published document has a type, and an extraction unless the type is unknown |
| ProviderFaultTheorems.ProviderBudget | src/lib/anthropic.ts:80-92 | F: at most nine classification and nine extraction calls for one extraction job |
| ProviderFaultTheorems.CallsAreCounted | src/lib/anthropic.ts:80-92 | the counts that the budget bounds are exactly those of the calls made |
| Termination.StepMeasure | src/queues/index.ts:20-25 | F: every pipeline step no reviewer takes lowers the measure |
| Termination.PipelineTerminates | src/workers/ocr.worker.ts:39-77 | F: between reviewer steps only finitely many pipeline steps, bounded by the measure |
| Termination.UploadSettlesWithin68 | src/services/document.service.ts:25-91 | F: sixty-eight steps are enough from the upload on |
| Termination.RestOrProgress | src/queues/index.ts:20-25 | F: the pipeline is at rest or has a permitted step |
| Termination.RestIsReached | src/queues/index.ts:20-25 | F: from every state a fault-free schedule leads to rest, where nobody may write and no job waits |
| Termination.RestIsSettled | src/workers/extraction.worker.ts:62-179 | F: with no upload in flight, no execution that may still write and no job waiting, the status is pending_review, approved, rejected or failed |
| Undisturbed.UndisturbedOutcome | src/workers/extraction.worker.ts:20-180 | F: every schedule that leaves a new document alone ends with the same row, extraction and complete log, given by the text and the answers: a text the column refuses fails after three OCR executions, blank text at once, failing providers and invoices the columns refuse after three extraction executions, unknown types go to review, the rest is decided; one webhook job iff approved with an address |
| Undisturbed.UndisturbedApproval | src/workers/extraction.worker.ts:53-56 | F: such a document ends approved iff text, type, columns, sum and all scores permit it, measured by the threshold the tenant has set or 0.85; its auto_approved row names that threshold |
| Undisturbed.UndisturbedRunExists | src/services/document.service.ts:25-91 | F: such a schedule exists for every upload and all answers |
| Undisturbed.ApprovalIsReached | src/workers/extraction.worker.ts:95-137 | F: every invoice that the columns take, with matching sum and sufficient scores, is approved and stored by some permitted run, with its webhook job if the tenant has an address |
| WebhookBudget.RetryBudgetsAlign | src/workers/webhook.worker.ts:165-171 | if webhook jobs throw only for failed deliveries, none exhausts its three executions, and each one that is over was skipped, delivered or dead-lettered |
| WebhookBudget.SerialExecution | src/workers/webhook.worker.ts:57-171 | an undisturbed execution sends one payload (an approval with vendor, number and total stored and no reason, a rejection with the last reason and no extraction), appends one delivery row numbered one above the rows there were and one audit row, and ends accordingly |
| WebhookBudget.SkippedExecution | src/workers/webhook.worker.ts:38-48 | without tenant, address, secret or terminal status it ends at once and touches nothing |
| WebhookBudget.NewRowIsPending | src/workers/webhook.worker.ts:98-107 | before it is sent, a delivery has its pending row with its attempt |
| WebhookDeliveries.SerialNumbering | src/workers/webhook.worker.ts:137-146 | in every run whose webhook executions follow one another, with faults, crashes and everybody else in between, rows are numbered 1..n; recorded failures below three are plain, from three on dead letters |
| WebhookDeliveries.OneAtATimeIsSerial | src/workers/webhook.worker.ts:50-55 | a queue that starts a webhook execution only when none is under way gives such a run |
| WebhookDeliveries.DeliveriesPerJob | src/workers/webhook.worker.ts:54-55 | under every interleaving, a job that starts with c rows sends at most max(1, 3 - c) payloads, if it throws after a delivery only because that failed |
| WebhookTermination.WebhooksTerminate | src/queues/index.ts:20-30 | at most twenty-four steps of webhook delivery for each job enqueued, however steps fail |
| WebhookTermination.EveryJobEnds | src/workers/webhook.worker.ts:165-171 | if executions throw only for failed deliveries, webhook steps bring every job to its end: skipped, delivered or dead-lettered |
| WebhookTermination.ExhaustsIff | src/queues/index.ts:20-25 | a job uses up its executions exactly when its third one throws, for a fault outside the request or a failure below the third attempt |
| Counterexamples.PublicationIsLost | src/workers/webhook.worker.ts:25-55 | three throws before the delivery row use up an approved document's only webhook job, and nothing is sent |
| Workers.UploadNewDocument | src/services/document.service.ts:46-91 | the request as written is a run of the step system, for every fault at every await |
| Workers.ProcessOcr | src/workers/ocr.worker.ts:20-78 | so is the OCR job |
| Workers.ProcessExtraction | src/workers/extraction.worker.ts:20-180 | so is the extraction job |
| Workers.ProcessWebhookJob | src/workers/webhook.worker.ts:25-172 | so is the webhook job |
| Workers.DocumentState.Await | src/services/audit.service.ts:17-37 | one awaited operation updates the fields in place as its specification says, or not at all |
| RateLimiter.SlidingWindow.Eval | src/middleware/rateLimiter.ts:19-30 | the script on the sorted set, including key expiry |
| RateLimiter.SlidingWindow.Limit | src/middleware/rateLimiter.ts:65-155 | headers and admission; an unreachable store lets the request through |
| RateLimiter.SortedSetRefinesHistory | src/middleware/rateLimiter.ts:11-31 | replies over a whole run equal those of a limiter that forgets nothing |
| RateLimiter.NoWindowOverflows | src/middleware/rateLimiter.ts:21-30 | no window of that length anywhere holds more than limit requests that the script admitted |
| RateLimiter.CountsStayWithinLimit | src/middleware/rateLimiter.ts:23-30 | the count in a reply never exceeds the limit |
| RateLimiter.KeyStaysSmall | src/middleware/rateLimiter.ts:19-30 | after an evaluation the key holds admissions of the window only, at most limit after an admission, and it expires one window after that |
| RateLimiter.RemainingIsExact | src/middleware/rateLimiter.ts:96-109 | after every run, the remaining header is the number of further requests the script admits at that instant |
| RateLimiter.RetryAfterSuffices | src/middleware/rateLimiter.ts:116-124 | after every run, a caller denied earlier that waits out its Retry-After is admitted by the script if nothing was admitted since |
| RateLimiter.RetryAfterIsLeast | src/middleware/rateLimiter.ts:116-124 | no smaller whole number of seconds covers the window |
| RefreshTokens.RefreshTokenStore.RotateRefreshToken | src/lib/tokens.ts:30-43 | undisturbed rotation replaces the old token by the new one with the same identity |
| RefreshTokens.GoneForGood | src/lib/tokens.ts:26-43 | a token rotated, revoked or expired never comes back |
| RefreshTokens.RotationRetires | src/lib/tokens.ts:36-40 | the second step of a rotation removes the old token, stores the new one with its identity, and touches no other, whatever came between |
| RefreshTokens.RevocationHolds | src/lib/tokens.ts:26-28 | a revoked token is gone at once and in every continuation, and no other token is touched |
| RefreshTokens.RevokeThenGet | src/lib/tokens.ts:20-28 | a token just revoked is not found |
| RefreshTokens.LivesSevenDays | src/lib/tokens.ts:5-18 | a new token is live for exactly seven days if nothing else happens to it |
| RefreshTokens.TokensKeepTheirIdentity | src/lib/tokens.ts:14-43 | every live token carries the identity of the one login it descends from |
| RefreshTokens.AtomicRotationKeepsOne | src/lib/tokens.ts:33-40 | with rotation in one step a login has at most one live token |
| RefreshTokens.RacingRotationsLeaveTwo | src/lib/tokens.ts:33-40 | two rotations that both read first leave two |
| RefreshTokens.ExecKeepsOneIff | src/lib/tokens.ts:36-40 | exactly when the second step of a rotation keeps at most one |
| Database.Tenanted.WithTenantContext | src/db/index.ts:44-54 | every transaction on the four tables under their policies is the per-document operation of the tenant's context |
| Database.FindsOwn | src/db/migrations/0007_fix_rls_null_tenant_context.sql:32-62 | a tenant finds and reads exactly its own documents, as stored |
| Database.InsertThenFind | src/services/document.service.ts:35-44 | a new document is found as entered, by its own tenant only |
| Database.UpdateThenFind | src/workers/ocr.worker.ts:33-47 | an update sets the columns it names, keeps the others, and reaches visible documents only |
| Database.WriteThenRead | src/workers/extraction.worker.ts:95-113 | the first extraction stays; audit rows are appended in order |
| Database.DeliverThenCount | src/workers/webhook.worker.ts:98-146 | a new delivery row is counted, starts pending and takes the outcome recorded for it |
| Database.Tenanted.EditExtraction | src/services/document.service.ts:225-269 | the field-by-field update and its audit row |
| Database.Tenanted.ReprocessDocument | src/services/document.service.ts:277-302 | deletion, reset and audit row in one transaction |
| Tenancy.OthersUnaffected | src/db/migrations/0007_fix_rls_null_tenant_context.sql:32-62 | a transaction of one tenant leaves every other tenant's view unchanged |
| Tenancy.ViewVisible | src/db/migrations/0007_fix_rls_null_tenant_context.sql:32-62 | a tenant's view holds exactly its own documents, as stored |
| Tenancy.ViewDeliveries | src/db/migrations/0007_fix_rls_null_tenant_context.sql:32-62 | and its own deliveries |
| Tenancy.ExecFactorsThroughView | src/db/migrations/0007_fix_rls_null_tenant_context.sql:40-62 | its answer and its effect on its own view depend on that view only |
| Tenancy.Noninterference | src/db/index.ts:34-54 | over whole runs of arbitrary programs, dropping the other tenants' steps changes neither a tenant's view nor its answers |

## Left out

- DecisionEngine.ToCents: exact reals stand for IEEE doubles, so binary representation error in sums and in `toFixed` is not modelled.
- Transactions.Persist: keeps a date as it was spelled; the database prints it back in its own style. Lone surrogates in text are not modelled.
- Transactions.Edit: dates of an edit are taken as the valid calendar dates that the request validator admits.
- DecisionEngine.Evaluate: reasons are structured values, not formatted sentences.
- Tenancy.Noninterference: assumes globally unique generated ids, and that delivery rows are inserted only for documents the process has found, as lines 28-40 of the webhook worker ensure; the foreign-key check on other tenants' ids is not hidden by the policies.
- RefreshTokens.Next: generated ids are assumed new; an action that would reuse one does not happen.
- RateLimiter.SortedSetRefinesHistory: assumes a clock that never runs backwards, shared by application and store, and a distinct member per request.
- WebhookBudget.RetryBudgetsAlign: assumes that the steps around a delivery do not throw; `PublicationIsLost` shows what happens otherwise.
- WebhookDeliveries.DeliveriesPerJob: assumes that recording and logging a delivery do not throw; a job whose outcome is lost delivers again.
- Undisturbed.UndisturbedOutcome: assumes that the tenant's settings and the providers' answers stay the same over the three executions, and leaves out webhook executions and their log rows.
- Database.Tenanted.WithTenantContext: one transaction at a time; isolation anomalies inside a transaction are not modelled.
- Pipeline.Do: webhook delivery rows are identified by position; response status, response body, token counts, model name and time stamps are not kept.
- HTTP routing, request parsing, health, metrics and logging.
- Storage, OCR, language model, HTTP fetch, HMAC, bcrypt and JWT are answers of the environment.
- The queue's and Redis's own internals: backoff, stalled-job timers, concurrency limits, removal of old jobs.
- Registration, login lookup, tenant configuration, secret rotation, listing and pagination.
- The bid limiters: the same script with other constants.
