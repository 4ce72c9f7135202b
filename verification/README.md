# Verified model of the durable filing protocol

This project models, in Dafny, a service that files 1099-NEC records with a rate-limited remote
receiver, and proves that it does so without loss, duplication or disagreement although workers
crash, leases run out, answers get lost, requests arrive late and submissions are "recorded, then
errored".

The parts, from the bottom up:

- `Money`, `Identity`, `Intake`, `Stub`, `Client`, `Retry`: what the two sides print, hash, send,
  decode, record, answer and read, and the worker's backoff. The receiver is also an object,
  `Stub.StubStore`, whose methods are proved to do what the rules say.
- `Filing`, `Planning`, `Worker`: the batch and filing rows, every transition of the store, and the
  event a worker decides on, as functions on values. `FilingStore` holds the store and the worker as
  objects whose methods update the tables in place, with rollback, and are proved against these
  functions. `Effects` says what a claim and each answer make of the rows, with no reference to them.
- `System`: one transition system of the database, any number of workers, a network that delays,
  loses and repeats requests, and the receiver with both of its faults. `Invariant` states what holds
  of it; `DbSteps`, `InsertSteps`, `ArrivalSteps` and `Safety` prove it for every run.
- What follows for all runs: `ExactlyOnce` (with `Payloads`), `Fencing`, `Discipline`,
  `Immutability`, `Termination` (with `ClaimHolders`), `Convergence`, and `AllOrNothing` for
  acknowledgments. `SubmissionTimes` follows `submitted_at` from the commit that stamps it to the
  exception that reports it. `CalmClaims` and `WorstCase` build runs that attain the bounds of `Convergence`.
- `RateGate`: the per-firm rate gate, as objects and as a transition system of its own, and
  `CallResults`: what the worker reports to it before it reports any event.
- `Planner`, `PlanInsert`, `PlanStaged` and `PlanRuns`: the partition loop, the insertion of its
  batches, how the inserted rows are the staged ones, and planning in the middle of any run.
- `Determination` and `Status`: what is required to be filed, and what is reported.

## Assumptions

- A database transaction is one atomic step at one instant of the database clock; the code reads the
  clock anew in each statement. The clock never goes back, and a worker's timer elapses at its rate.
- Claim tokens and the receiver's identifiers are fresh when drawn. In the state machine SHA-256 of a
  stored document is its own preimage. Where identities are concerned the hash is a parameter that
  yields 32 bytes and, truncated to a UUID, has no collisions on the finitely many preimages at hand.
- The receiver keeps its memory. Its faults and the network's are nondeterministic choices, and a
  request may arrive at any time after it was sent, more than once or never.
- A string stands for a Go byte string, one character for a byte. Times are integers: microseconds
  in the database, nanoseconds in Go durations, which are `Int64` where Go computes with them.

## What the code does that its documents do not say

- `formatCents` prints the least int64 as `--92233720368547758.08`, which the receiver refuses;
  `Money.PrintThenParse` shows that this is its only failure. Planned filings have positive amounts.
- The totals of `PaymentExplanation` wrap when a vendor's sum leaves the int64 range
  (`Determination.WrappedExplanation` shows two wires with a total of two cents). No filing exists in
  that case, because the determination fails or does not require one (`Determination.ExplanationAgrees`).
- A poll falls back to the UTID when a batch has no receipt. No run takes that path, and the event it
  leads to would be an invalid transition (`Fencing.PollsSearchByReceipt`,
  `Fencing.PollFallbackWouldBeInvalid`).
- For a malformed TIN the preflight reason is `TIN_MALFORMED`, but the row carries no TIN, so the
  receiver would report `TIN_MISSING` for its record
  (`Determination.PreflightAgreesWithReceiver`). Such a filing is never sent.
- The length prefix of the hash input is 32 bits wide, so the encoding is injective only for strings
  shorter than 2^32 bytes (`Identity.LongStringsCollide`).
- The lease check compares nanoseconds while the lease is stored in whole microseconds, so other work
  of exactly 5 seconds can already be too much (`RateGate.MarginIsTight`). It never is if and only if
  the lease covers the margin in whole microseconds (`RateGate.LeaseSufficesExactly`).
- Four completed claims are enough once faults stop, unless a claim of the batch is in progress that
  has already seen a fault; then a fifth can be needed (`WorstCase.FourSufficeExactly`).

## Model

| member | source | states |
|---|---|---|
| Money.PrintThenParse | irs/internal/stub/server.go:465-475 | what `formatCents` prints, `parseCents` reads back as the same number, for every int64 but the least, which is refused for its form |
| Money.PrintingIsInjective | postgres/internal/store/identity.go:75-84 | different int64 amounts never print alike, the least included |
| Money.PrintsExactly | postgres/internal/store/identity.go:75-84 | above the least int64: the sign, the dollars without leading zeros, a point and two digits |
| Money.DigitsExactly | irs/internal/stub/server.go:465-475 | what a run of digits denotes, digit by digit |
| Money.ParsesExactly | irs/internal/stub/server.go:465-475 | digits, a point and two digits are read as their cents, if these fit an int64 |
| Money.ParsesNegative | irs/internal/stub/server.go:465-475 | the same behind a minus sign, down to the least int64 |
| Money.OnlyMoneyParses | irs/internal/stub/server.go:465-475 | whatever is not refused for its form has one of these two forms |
| Identity.HashInput | postgres/internal/store/identity.go:12-23 | the loop writes the length-prefixed encoding of its values |
| Identity.PreimageInjective | postgres/internal/store/identity.go:12-23 | lists of strings shorter than 2^32 bytes with the same encoding are equal |
| Identity.LongStringsCollide | postgres/internal/store/identity.go:16 | without that bound two different lists have the same encoding |
| Identity.SqlKeyAgrees | postgres/internal/store/determination.go:82-90 | the key expression of the determination query hashes the same bytes as `filingKey` |
| Identity.FilingPreimageInjective | postgres/internal/store/identity.go:25-27 | different filing tuples have different preimages |
| Identity.BatchPreimageInjective | postgres/internal/store/identity.go:29-34 | different ordered key lists, clients, firms or years have different preimages |
| Identity.PreimageKindsDisjoint | postgres/internal/store/identity.go:25-34 | a filing and a batch never have the same preimage |
| Identity.FilingPartsExactly | postgres/internal/store/identity.go:25-27 | the seven parts a filing key hashes, each behind its length |
| Identity.BatchPartsExactly | postgres/internal/store/identity.go:29-34 | the four parts a batch reference hashes, and then the hexadecimal keys in order |
| Identity.PatchUuid | postgres/internal/store/identity.go:35-37 | patching through the aliasing slice changes the digest itself, at bytes 6 and 8 only |
| Identity.PatchedExactly | postgres/internal/store/identity.go:35-37 | which bits of bytes 6 and 8 are set and kept, and that no other byte changes |
| Identity.MasksAsArithmetic | postgres/internal/store/identity.go:36-37 | the masks and bit-ors are the arithmetic the model uses |
| Identity.UtidIsWellFormed | irs/internal/stub/server.go:366-369 | every batch UTID matches the receiver's pattern, with version 4 and variant bits 10 as in sections 4.1.3 and 4.1.1 of RFC 4122 |
| Identity.UtidExactly | postgres/internal/store/identity.go:38-40 | without its hyphens a UTID spells the first sixteen bytes, then `:IRIS:`, the firm and `::A` |
| Identity.UtidPatternExactly | irs/internal/stub/server.go:366-369 | the receiver's pattern, position by position |
| Identity.SubmissionIdFollowsUtid | postgres/internal/store/identity.go:86-93 | the submission id repeats the UTID's digits, patched bits included |
| Identity.SubmissionIdExactly | postgres/internal/store/identity.go:86-93 | the submission id spells the first twelve bytes in capital hexadecimal digits |
| Identity.BatchUtidInjective | postgres/internal/store/identity.go:29-40 | two batches of a firm share a UTID only when they are the same batch |
| Intake.DecodeRecords | irs/internal/stub/server.go:382-407 | the record loop with its seen-set accepts exactly the lists the specification accepts, with the first refusal otherwise |
| Intake.DecodeTransmission | irs/internal/stub/server.go:351-408 | all checks in order, with the decoded transmission or the first refusal |
| Intake.EnvelopeExactly | irs/internal/stub/server.go:351-372 | what passes the checks before the records: one of each element, nothing blank, the one form and year, a well-formed UTID, 1 to 100 records and their count |
| Intake.EnvelopeRefusals | irs/internal/stub/server.go:351-372 | which of these checks refuses, in their order |
| Intake.MisshapenIsRefused | irs/internal/stub/server.go:351-359 | a missing or repeated manifest, submission or header is refused first |
| Intake.DecodesExactly | irs/internal/stub/server.go:382-407 | the records pass exactly when nothing is blank, every amount parses and no identity repeats |
| Intake.DecodedRecords | irs/internal/stub/server.go:382-407 | and are then those of the document, with their amounts read |
| Intake.FirstRefusal | irs/internal/stub/server.go:382-407 | otherwise the first record that does not pass decides the refusal |
| Intake.DecodedExactly | irs/internal/stub/server.go:351-408 | the envelope is checked before the records, and what is decoded is what the elements say |
| Intake.DecodedRecordsDistinct | irs/internal/stub/server.go:387-390 | decoded records keep their order and have distinct identities |
| Intake.CanonicalDocumentDecodes | postgres/internal/store/identity.go:86-99 | a document built from sendable records passes every check exactly when its arguments are acceptable, and decodes to the records it was built from |
| Stub.BuildStatus | irs/internal/stub/server.go:272-300 | the loop with its accepted counter builds the status answer |
| Stub.OverallStatusMeaning | irs/internal/stub/server.go:291-298 | accepted means all records were, rejected means all of at least one were |
| Stub.StatusExactly | irs/internal/stub/server.go:272-300 | `Processing` and no results before the acknowledgment is available, and from then on every result in order |
| Stub.VerdictExactly | irs/internal/stub/model.go:198-226 | accepted exactly with a valid TIN and a positive amount, otherwise the first of the four reasons that applies |
| Stub.StubStore.NewOpaqueId | irs/internal/stub/model.go:228-241 | identifiers are redrawn until new and then remembered |
| Stub.StubStore.FreezeResults | irs/internal/stub/model.go:152-155 | every record is decided once, in order, drawing identifiers for accepted ones only |
| Stub.StubStore.RecordTransmission | irs/internal/stub/model.go:125-196 | a known UTID and then a known record are refused; for a new one, below the first percentage nothing is recorded, below the sum of both it is recorded and then fails, and otherwise it succeeds; what is recorded is in both indexes and its keys are originals |
| System.IntakeAnswersExactly | irs/internal/stub/server.go:195-222 | 400 for what does not decode, 409 for a known UTID and then for a known record, 503 for either fault, and else the receipt |
| System.SearchAnswersExactly | irs/internal/stub/server.go:256-270 | 404 for what the receiver does not have from this firm, and else the status of that submission |
| System.RequestExactly | service/internal/filing/worker.go:105-116 | what is sent for a claim: the stored document, a search by UTID, or one by receipt when there is one |
| Client.ReadStatusAnswer | service/internal/irsclient/client.go:172-190 | the validation loop, with its outcomes or a protocol error |
| Client.ReadExactly | service/internal/irsclient/client.go:172-190 | what is read: a known status, nothing blank, results exactly when it is final, each accepted with an identifier or rejected for a known reason |
| Client.AnswersAreReadable | service/internal/irsclient/client.go:142-191 | the client reads every answer the receiver gives for a recorded submission, and loses nothing of it |
| Retry.Grow | service/internal/filing/worker.go:49-58 | the doubling loop yields min(maximum, first * 2^(tries-1)), and no product overflows an int64 |
| Retry.ComputeDelay | service/internal/filing/worker.go:34-66 | `Backoff.Delay`, with the wrapping sum of the jitter clamped |
| Retry.DelayBounded | service/internal/filing/worker.go:59-65 | with any jitter a granted delay lies between 0 and the maximum |
| Retry.DelayWithoutJitter | service/internal/filing/worker.go:41-58 | without jitter the delay is exactly min(maximum, initial * 2^(attempt-1)) |
| Retry.DelayExactly | service/internal/filing/worker.go:34-66 | the delay in full, with the defaults of one second and five minutes; exhausted exactly from attempt MaxAttempts on; a jittered sum outside of zero to the maximum becomes the maximum |
| Retry.DelayDoubles | service/internal/filing/worker.go:49-58 | without jitter and limit each delay is twice the one before, up to the maximum |
| Retry.DelayMonotone | service/internal/filing/worker.go:49-58 | without jitter delays never shrink |
| Retry.SoundSettingsExact | postgres/internal/store/filing.go:278 | every delay is one the store accepts if and only if the settings stay within 30 days |
| Retry.LongestDelay | postgres/internal/store/filing.go:278 | the store accepts delays from zero to thirty days |
| Filing.RecordOutcomesMeaning | postgres/internal/store/filing.go:422-454 | the outcome loop succeeds exactly on known, unrepeated, well-formed outcomes of pending filings, and then sets theirs, to accepted with the identifier or rejected for the reason, and nothing else |
| FilingStore.Store.ClaimNextBatch | postgres/internal/store/filing.go:200-276 | the first due, unlocked row is leased and its work handed out, or nothing is due |
| FilingStore.FirstDueExactly | postgres/internal/store/filing.go:217-226 | the row selected is the open, due, unheld, unlocked one with the least next action time and then the least id; none is selected exactly when there is none |
| FilingStore.CandidateExists | postgres/internal/store/filing.go:217-226 | there is always such a row, or none is claimable |
| Effects.ReceiptIsNotLost | postgres/db/migrations/000001_initial.sql:155 | the table refuses to take a batch with a receipt back to submit_unknown or planned |
| Effects.ClaimExactly | postgres/internal/store/filing.go:217-271 | a claim's row and its work, by the state it finds |
| Effects.DamagedClaim | postgres/internal/store/filing.go:241-253 | a payload that does not match its hash fails the batch instead |
| FilingStore.Store.WhyMissed | postgres/internal/store/filing.go:292-307 | the reason an update matched no row |
| Effects.InvalidEventExactly | postgres/internal/store/filing.go:309-345 | what is refused before any row is looked at: ids, receipts, delays and codes out of range |
| Effects.FailureCodesExactly | postgres/internal/store/filing.go:280-290 | a failure code has at most 64 capital letters, digits, underscores, points and hyphens |
| Effects.InvalidTransitionExactly | postgres/internal/store/filing.go:336-386 | under a live claim an event is an invalid transition exactly in the states it does not start from |
| FilingStore.Store.EventTransition | postgres/internal/store/filing.go:309-334 | the guarded row update, column by column, the submission time only where none is set, with the unique receipt and the receipt check of the table |
| FilingStore.Store.RecordSubmitAccepted | postgres/internal/store/filing.go:336-341 | submitting to submitted, with a receipt |
| FilingStore.Store.RecordSubmitUnknown | postgres/internal/store/filing.go:343-345 | submitting to submit_unknown |
| FilingStore.Store.RecordReferenceFound | postgres/internal/store/filing.go:347-352 | submit_unknown to submitted, with a receipt |
| FilingStore.Store.RecordReferenceNotFound | postgres/internal/store/filing.go:354-356 | submit_unknown to planned |
| FilingStore.Store.RecordAcknowledgmentPending | postgres/internal/store/filing.go:358-360 | submitted or awaiting_ack to awaiting_ack |
| FilingStore.Store.RecordStatusUnavailable | postgres/internal/store/filing.go:362-386 | postpones a batch and keeps its state |
| FilingStore.Store.TerminalTransition | postgres/internal/store/filing.go:473-504 | fails a batch that is not terminal, with its code, and marks it as exhausted or not |
| FilingStore.Store.ExpectedFilings | postgres/internal/store/filing.go:398-418 | the map from filing key to filing of one batch of the firm |
| FilingStore.Store.UpdateFilings | postgres/internal/store/filing.go:422-454 | the loop with its `seen` map: each named filing is accepted with its identifier or rejected for its reason, and the others stay as they are |
| FilingStore.Store.CompleteAcknowledgment | postgres/internal/store/filing.go:388-467 | all outcomes and the batch are recorded, or everything is rolled back |
| FilingStore.FilingWorker.RetrySubmitLater | service/internal/filing/worker.go:229-235 | with an attempt left the batch is submit_unknown and due after the backoff's delay, and otherwise it has failed as exhausted |
| FilingStore.FilingWorker.RetryStatusLater | service/internal/filing/worker.go:237-243 | with an attempt left the batch keeps its state and is due after the backoff's delay, and otherwise it has failed as exhausted |
| FilingStore.FilingWorker.WaitFor | service/internal/filing/worker.go:245-251 | the poll delay, the maximum once attempts are exhausted |
| FilingStore.FilingWorker.FinishSubmit | service/internal/filing/worker.go:121-169 | each reply to a submit leads to its one event |
| FilingStore.FilingWorker.FinishStatus | service/internal/filing/worker.go:171-227 | each reply to a status call leads to its one event |
| FilingStore.FilingWorker.ProcessReply | service/internal/filing/worker.go:95-119 | a claimed batch's reply, by action, or a failure when the payload does not match its hash; with attempts left and no jitter the row of a retried submit, status call or poll is due again after min(maximum, initial * 2^(attempts-1)) |
| Effects.SubmitRetries | service/internal/filing/worker.go:141-162 | after no answer, 429, 5xx or a duplicate UTID the batch is submit_unknown, without lease, and due after the backoff's delay |
| Effects.SubmitGivesUp | service/internal/filing/worker.go:229-233 | the same answers without attempts left fail the batch and mark it as exhausted |
| Effects.SubmitSucceeds | service/internal/filing/worker.go:148-152 | a receipt makes it submitted, with the receipt, the time and the first poll's delay |
| Effects.SubmitFails | service/internal/filing/worker.go:133-167 | every other answer fails it, not exhausted, with its code |
| Effects.StatusRetries | service/internal/filing/worker.go:191-200 | after no answer, 429 or 5xx the batch keeps its state and is due after the backoff's delay |
| Effects.StatusGivesUp | service/internal/filing/worker.go:237-241 | without attempts left it fails and is marked as exhausted |
| Effects.LookupFinds | service/internal/filing/worker.go:220-221 | a lookup that finds the batch makes it submitted, with the receipt and the time |
| Effects.LookupFindsNothing | service/internal/filing/worker.go:206-207 | one that does not makes it planned again |
| Effects.PollWaits | service/internal/filing/worker.go:223-224 | a poll that is still processing waits for the next one |
| Effects.PollCompletes | service/internal/filing/worker.go:226 | one with a final status records its outcomes, or is refused as a whole |
| Effects.StatusFails | service/internal/filing/worker.go:183-215 | every other answer fails the batch: unreadable, of another batch, or a plain error |
| Effects.LostClaimChangesNothing | postgres/internal/store/filing.go:292-334 | without a live claim no answer changes anything |
| CallResults.FinishCallAndReport | service/internal/filing/worker.go:121-254 | the permit is finished first, and an event follows exactly when the gate took the result; the firm's next call then waits 60 seconds after an ambiguous submit and 3.1 seconds otherwise |
| CallResults.ResultExactly | service/internal/filing/worker.go:132-254 | which answers make a call ambiguous, retryable or completed, and that the gate takes exactly the recordable ones |
| DbSteps.EventKeepsDbOk | postgres/internal/store/filing.go:309-504 | every committed event keeps the row invariants, touches only the claimed batch and its filings, and releases the claim |
| DbSteps.ClaimKeepsDbOk | postgres/internal/store/filing.go:217-237 | a claim keeps the row invariants |
| InsertSteps.InsertBatchKeepsDbOk | postgres/internal/store/filing.go:147-183 | a planned batch keeps the row invariants: its document decodes at the receiver to the records of its filings |
| Planning.BatchRefusedExactly | postgres/internal/store/filing.go:147-183 | a batch is refused for a taken id or UTID, and for filings that are not ready, unbatched ones of its client |
| Planning.BatchInsertedExactly | postgres/internal/store/filing.go:147-183 | an inserted batch is planned and due at once; its filings, and no others, are batched and linked to it |
| Planning.DocumentExactly | postgres/internal/store/filing.go:101-125 | its document lists the filings' columns slot by slot, with an empty text for a missing TIN |
| InsertSteps.InsertFilingKeepsDbOk | postgres/internal/store/determination.go:106-113 | a determined filing keeps the row invariants |
| Planning.FilingInsertedExactly | postgres/internal/store/determination.go:106-113 | a filing is inserted unless its key is taken, and nothing else changes |
| ArrivalSteps.NoDuplicateRecord | irs/internal/stub/model.go:133-143 | when a batch is not recorded none of its records is an original |
| ArrivalSteps.ArrivalKeepsReceiver | irs/internal/stub/model.go:125-186 | a request arriving at any time keeps the receiver's invariants and the agreement, and is answered truthfully |
| Safety.StepKeepsInv | postgres/internal/store/filing.go:200-504 | every step of the composed system keeps the global invariant |
| Safety.ReachableInv | service/internal/filing/worker.go:95-243 | the global invariant holds after every run of any number of workers |
| Safety.AcknowledgedResults | postgres/internal/store/filing.go:422-464 | an acknowledgment gives every filing the receiver's own result for it |
| ExactlyOnce.RecordedSubmissionIsOneBatch | irs/internal/stub/model.go:163-183 | every recorded submission is what the receiver makes of exactly one batch's document: its parties, tax year, submission id, UTID and record identities |
| Payloads.ReachableMade | irs/internal/stub/model.go:163-183 | every recorded submission was made from the document of the batch with its UTID, by some draw |
| ExactlyOnce.KeyRecordedAtMostOnce | irs/internal/stub/model.go:133-143 | every filing key is recorded at most once |
| ExactlyOnce.NeverRefused | irs/internal/stub/server.go:195-209 | no submission is ever answered DUPLICATE_RECORD or INVALID_REQUEST |
| ExactlyOnce.DuplicateRecordNotReached | irs/internal/stub/model.go:140-142 | the duplicate-record branch is never reached |
| ExactlyOnce.ReceiptExactlyFromSubmitted | postgres/db/migrations/000001_initial.sql:155 | a batch has a receipt exactly from submitted on, or possibly when failed, and it is the receiver's for its UTID |
| ExactlyOnce.ReceiptByState | postgres/db/migrations/000001_initial.sql:155 | so the check of the table on receipts never fires |
| ExactlyOnce.AcknowledgedEqualsFrozenResults | postgres/internal/store/filing.go:388-467 | in an acknowledged batch every filing equals the receiver's frozen result |
| ExactlyOnce.NoFilingRejected | postgres/internal/store/determination.go:91-104 | with the stub as receiver no filing in any run is rejected |
| ExactlyOnce.AcceptedFilingIsLive | irs/internal/stub/model.go:174-175 | an accepted filing is recorded at the receiver with that record id |
| Fencing.OneHolder | postgres/internal/store/filing.go:217-237 | at most one worker holds a live claim of a batch |
| Fencing.OnlyHolderChangesBatch | postgres/internal/store/filing.go:319-325 | while a lease is live only its holder's commit changes the batch |
| Fencing.CommitSucceedsExactlyWhenLive | service/internal/filing/worker.go:121-243 | with sound settings a worker's event succeeds exactly when its claim is live; no transition is ever invalid |
| Fencing.PollsSearchByReceipt | service/internal/filing/worker.go:110-115 | every poll carries a receipt |
| Fencing.PollFallbackWouldBeInvalid | service/internal/filing/worker.go:112-114 | the fallback to the UTID would end in an invalid transition |
| Fencing.EveryClaimYieldsWork | postgres/internal/store/filing.go:254-271 | no claim finds a damaged payload or a state without an action, and the action follows the state |
| Discipline.SubmitsAreSeparated | postgres/internal/store/filing.go:343-356 | between two submit claims of a batch lies a committed not-found lookup, and both carry the batch's UTID and document |
| Immutability.TriggersNeverFire | postgres/db/migrations/000001_initial.sql:212-241 | no step of any run changes an immutable column, a terminal batch or a decided filing |
| Immutability.ColumnsStay | postgres/db/migrations/000001_initial.sql:212-241 | which columns and rows an allowed change leaves alone |
| AllOrNothing.AcknowledgedExactlyWhenComplete | postgres/internal/store/filing.go:419-464 | success if and only if the claim is live, the batch awaits it, and the outcomes are well formed and in bijection with its filings |
| AllOrNothing.AcknowledgmentGivesEachItsOutcome | postgres/internal/store/filing.go:422-464 | each filing gets the outcome with its own key, accepted with the identifier or rejected for the reason, and no other column or row changes |
| AllOrNothing.RefusalExactly | postgres/internal/store/filing.go:391-467 | outcomes that are not those of the batch, or that a filing no longer waits for, are refused before the claim is looked at; then a claim that is lost or out of turn |
| AllOrNothing.WellFormedExactly | postgres/internal/store/filing.go:432-445 | an accepted outcome has an identifier and no reason, a rejected one has one of the four reasons only |
| SubmissionTimes.SubmittedAtIsItsCommit | postgres/internal/store/filing.go:323 | in every run a submitted, awaiting or acknowledged batch carries the database time of the commit that took it out of submission |
| SubmissionTimes.SubmittedAtStays | postgres/internal/store/filing.go:323 | no later step changes it |
| SubmissionTimes.UnacknowledgedIsReported | postgres/internal/store/status.go:178-199 | in every run such a batch, not acknowledged, is listed and its client needs attention from half an hour after that commit, and not before |
| AllOrNothing.BijectionByCounting | postgres/internal/store/filing.go:419-431 | as many distinct known keys as filings are all the keys |
| Termination.LeavesSubmission | service/internal/filing/worker.go:34-40 | with every claim completed in time a batch that is unsubmitted has had at most MaxAttempts + 1 claims, and at most MaxAttempts when unleased |
| Termination.SubmittedForGood | postgres/internal/store/filing.go:336-386 | a batch that has left submission never returns to it, in any run with any faults and crashes |
| Convergence.AtMostFourClaims | service/internal/filing/worker.go:121-243 | from any reachable state, leases of crashed workers and answers that cannot be recorded included, once faults stop, the acknowledgment is due and attempts remain: at most four completed claims, or five where a claim in progress has seen a fault, and then the batch is acknowledged |
| WorstCase.DistanceIsAttained | service/internal/filing/worker.go:121-243 | from every reachable state, with a claim in progress or without, some calm run completes exactly as many claims as the bound and, unless the batch has failed or is about to, ends acknowledged |
| WorstCase.FourClaimsNeeded | service/internal/filing/worker.go:121-243 | four claims can be needed, step by step: lookup 404, late arrival, submit 409, lookup found, poll |
| WorstCase.FourSufficeExactly | service/internal/filing/worker.go:121-243 | no calm run completes a fifth claim if and only if no claim in progress has already seen a fault |
| WorstCase.FaultCanBeHeld | service/internal/filing/worker.go:146-163 | such a claim in progress is reached by a submit or lookup that is answered 503 |
| RateGate.FirmGate.AcquireCallPermit | postgres/internal/store/rate.go:41-124 | a permit logs its start, at or after both the next call time and the fence, and leaves a fence of 60 seconds; a cancelled wait or unknown batch leaves no trace and no lock |
| RateGate.CallPermit.Finish | postgres/internal/store/rate.go:126-170 | completes the row once and gives the lock back; the next call is then allowed 60 seconds later after an ambiguous outcome and 3.1 seconds later after any other |
| RateGate.CallPermit.Close | postgres/internal/store/rate.go:172-185 | gives the lock back once and leaves the fence standing |
| RateGate.RateStepKeepsInv | postgres/internal/store/rate.go:41-185 | every step of any number of sessions, with crashes and lost commits, keeps the distance between calls |
| RateGate.StartFollowsCompletion | postgres/internal/store/rate.go:126-170 | in every run a start that follows an ambiguous completion comes at least 60 seconds after it, and after any other at least 3.1 seconds |
| RateGate.NextStartIsGranted | postgres/internal/store/rate.go:70-124 | after any run a session that finds the lock free starts exactly when that gap is over |
| RateGate.AtMostTwentyStarts | postgres/internal/store/rate.go:15-18 | any 60 seconds of the call log hold at most 20 starts |
| RateGate.AtMostTwentySends | postgres/internal/store/rate.go:15-18 | the same for the sends when each follows its permit by less than 56.9 seconds |
| RateGate.WaitAtMostFence | postgres/internal/store/rate.go:70-93 | an uncontended session waits at most 60 seconds |
| RateGate.LeaseSufficesExactly | service/internal/config/config.go:65-67 | a claim is live at its event for every wait, call and other work of up to 5 seconds, if and only if the lease exceeds 65 seconds plus the timeout in whole microseconds |
| RateGate.ConfiguredMargin | service/internal/config/config.go:65-67 | for settings in whole microseconds the configured inequality is that condition, and in general it falls short by one microsecond |
| RateGate.ClaimOutlivesCall | service/internal/config/config.go:65-67 | under the configured inequality a claim is live at its event, with other work below 5 seconds, or of 5 seconds when the margin is covered |
| RateGate.UncontendedClaimIsLive | postgres/internal/store/filing.go:319-325 | the same for the wait that the gate imposes in any run |
| RateGate.MarginIsTight | service/internal/config/config.go:65-67 | other work of exactly 5 seconds can be too much |
| Planner.PlanRows | postgres/internal/store/filing.go:93-125 | the loop with its start and end indexes stages the batches and links of the partition |
| Planner.StagedExactly | postgres/internal/store/filing.go:101-125 | the staged batches are numbered from one with their group's columns, and each links every filing of its group in order |
| Planner.StagedDocumentDecodes | postgres/internal/store/filing.go:101-125 | the receiver decodes a staged document to the group's records, under the batch's UTID and submission id |
| Planner.FindEnd | postgres/internal/store/filing.go:95-98 | the inner loop finds the end of the group |
| Planner.PartitionCovers | postgres/internal/store/filing.go:93-125 | the groups concatenate to the rows, with 1 to 100 filings of one client each |
| Planner.BatchesPerClient | postgres/internal/store/filing.go:93-125 | a client with n filings gets ceil(n/100) batches |
| Planner.BatchCount | postgres/internal/store/filing.go:93-125 | the number of batches is the sum of these over the clients |
| Planner.PartitionIsMinimal | postgres/internal/store/filing.go:93-125 | no valid grouping of the same filings has fewer batches |
| PlanInsert.UtidIsFresh | postgres/internal/store/filing.go:147-153 | the UTID of filings that no batch has is new |
| PlanInsert.PlanIsInserted | postgres/internal/store/filing.go:147-183 | no group is refused, and exactly the rows' filings become batched and linked |
| PlanStaged.PlanIsStaged | postgres/internal/store/filing.go:153-163 | batch firstId + g carries the columns staged for group g and links its filings, one for each slot in order |
| PlanStaged.PlanUtidsDiffer | postgres/internal/store/filing.go:101-125 | no two batches of a plan have the same UTID |
| PlanStaged.PlanLinksJoined | postgres/internal/store/filing.go:164-174 | joined on firm and UTID, every staged link finds its batch, and its filing is in its slot there |
| PlanInsert.QueryExactly | postgres/internal/store/filing.go:64-70 | the planning query returns the ready, unbatched filings of the determination, once, with these columns |
| PlanRuns.UtidsAreDerived | postgres/internal/store/identity.go:29-40 | in every run whose batches the planner inserts, every batch's UTID is derived from the keys of its filings |
| PlanRuns.PlanAlongRun | postgres/internal/store/filing.go:147-183 | after any such run a plan is one more run of the planner: no group is refused, and exactly its rows become batched and linked |
| PlanRuns.UtidIsFreshAlongRun | postgres/internal/store/filing.go:147-153 | after any such run the UTID of filings that no batch has is new |
| PlanInsert.ReplayCreatesNone | postgres/internal/store/filing.go:57-70 | planning a determination again finds nothing to plan |
| Determination.PaymentExplanation | postgres/internal/store/determination.go:149-171 | the loop's totals are the wrapped sums, and each payment is listed with its reason |
| Determination.ExplanationAgrees | postgres/internal/store/determination.go:130-172 | the totals shown are the group's exactly when they fit an int64, so they agree with every filing |
| Determination.WrappedExplanation | postgres/internal/store/determination.go:149-159 | an input on which the determination succeeds and the explained total has wrapped to two cents |
| Determination.OneFilingPerRequiredGroup | postgres/internal/store/determination.go:60-81 | exactly the groups with counted net of at least 60000 or positive withholding get a filing, with their totals and first name |
| Determination.TotalsGrow | postgres/internal/store/determination.go:60-69 | a payment adds its withholding to the totals of its client and vendor, and its amount unless it is excluded |
| Determination.OrderIndependent | postgres/internal/store/determination.go:60-81 | the determination does not depend on the order of the payments |
| Determination.DisplayNameIsFirst | postgres/internal/store/determination.go:70-74 | the display name is the most frequent, the least on ties |
| Determination.CountedOrExcluded | postgres/db/migrations/000001_initial.sql:65-73 | a payment counts exactly when it was made neither by card nor over a payment network, which are the two exclusion reasons |
| Determination.FoldedNameIsCanonical | postgres/internal/store/import.go:158 | a folded vendor name has no capital letter and no white space but single spaces |
| Determination.FoldingIsIdempotent | postgres/internal/store/import.go:158 | folding a folded vendor name again changes nothing |
| Determination.FoldWords | postgres/internal/store/import.go:158 | a folded name is its folded words, one space apart, however they were separated |
| Determination.FoldWord | postgres/internal/store/import.go:158 | a word keeps its characters, with capital letters made small |
| Determination.BtrimMeaning | postgres/internal/store/import.go:156-160 | trimming takes spaces off both ends and nothing else |
| Determination.SeparatorsIgnored | postgres/internal/store/import.go:159 | spaces and hyphens of a written TIN do not matter, wherever they stand |
| Determination.CompactKeepsDigits | postgres/internal/store/import.go:159 | a TIN written without them is kept as it is |
| Determination.VendorKinds | postgres/internal/store/import.go:157-161 | the vendor identity says which kind of TIN the row had, and carries a valid one |
| Determination.SameVendorExactly | postgres/internal/store/import.go:157-161 | which two rows of an import share a vendor: same valid TIN, same malformed TIN, or no TIN and the same folded name |
| Determination.DeterminedColumns | postgres/internal/store/determination.go:75-113 | every column of a determined filing, and the first reason that blocks it |
| Determination.PreflightAgreesWithReceiver | irs/internal/stub/model.go:198-226 | a determined filing is ready exactly when the receiver accepts its record, with the same reason but for a malformed TIN |
| Determination.DeterminedIsPrepared | postgres/internal/store/determination.go:75-113 | every determined filing satisfies what the protocol model takes for granted |
| Determination.DeterminedKeysDistinct | postgres/internal/store/determination.go:82-90 | two groups never get the same filing key |
| Status.FirmQueryAgrees | postgres/internal/store/status.go:92-126 | the grouped firm query and the client query read the same facts |
| Status.FoldFirm | postgres/internal/store/status.go:127-156 | the fold lists every client, adds the counts, and its headline is the worst of the clients' |
| Status.FirmHeadlineExactly | postgres/internal/store/status.go:147-153 | the firm needs attention when a client does, else waits when one does, and is fully filed when all are |
| Status.TotalsAddUp | postgres/internal/store/status.go:141-146 | every column of the firm's counts is the sum over its clients |
| Status.WorstUnique | postgres/internal/store/status.go:147-153 | that headline does not depend on the order of the clients |
| Status.ReadFirmStatus | postgres/internal/store/status.go:85-161 | each client's entry in the firm's status is the status its own query gives, and an unknown firm has none |
| Status.FirmTotalIsAll | postgres/internal/store/status.go:141-146 | the firm's required count is the number of its filings |
| Status.CountsAddUp | postgres/internal/store/status.go:42-49 | the five counts of a client add up to the required count |
| Status.CountsExactly | postgres/internal/store/status.go:42-49 | each count is the number of the client's filings in that state |
| Status.HeadlineExactly | postgres/internal/store/status.go:72-83 | attention for what is wrong, then waiting for what the receiver has not answered, then partly filed for what is left |
| Status.RejectionIsReported | postgres/internal/store/status.go:163-199 | an acknowledged rejection is listed under its reason, with its filing, batch and vendor |
| Status.BlockedIsListed | postgres/internal/store/status.go:163-199 | a blocked filing is listed under the kind of its reason |
| Status.FailedIsListed | postgres/internal/store/status.go:163-199 | a failed batch is listed as exhausted or as an invariant failure, with its last error |
| Status.NothingElseIsListed | postgres/internal/store/status.go:163-199 | nothing but these and overdue batches is listed, and only for the client asked for |
| Status.FirmExceptions | postgres/internal/store/status.go:163-199 | the list for the whole firm is made of the lists of its clients |
| Status.AttentionExactlyWithExceptions | postgres/internal/store/status.go:163-199 | a client needs attention exactly when its list of exceptions is not empty |
| Status.GroupExceptions | postgres/internal/store/status.go:203-219 | the loop makes one group for each type that occurs, with its items in order |
| Status.FullyFiledExactly | postgres/internal/store/status.go:72-83 | in every reachable state fully filed means exactly that accepted equals required |
| Status.PartiallyFiledMeansWaiting | postgres/internal/store/status.go:72-83 | a partially filed client has a filing that is yet to be planned or submitted |
| Status.FullyFiledIsLive | postgres/internal/store/status.go:72-83 | behind a fully filed client stands one live record for each required filing |

## Left out

- HTTP, multipart, bearer tokens and XML text: requests and documents are datatypes at the level of elements, and `validateXMLElements` and `decodeStatusRequest` are not part of this model. A 401, 415 or status-side 400 answer does not occur.
- The SQL engine, pooling, row-level security, COPY and temporary tables: a transaction is a function on maps of rows, and what a query selects is a parameter that satisfies the query's predicate.
- `acknowledged_at` of batches, `updated_at` and `created_at`: no decision reads them.
- SHA-256 and random generation: nothing is proved about them beyond the assumptions above.
- CSV, gzip, file discovery, environment parsing beyond the lease inequality, the command line, the web interface and logging: no property across functions.
- ImportDataset: the row checks, the duplicate check and the replay against the stored hash are not modelled; only the vendor identity expression is.
- The replay of a determination, which returns the stored counts, would only add an easy member.
- Fault percentages as probabilities, in floating point: `Stub.ClassifyFault` gives each fault its band over `real`, and the runs choose freely.
- `Worker.Run` and its goroutines: workers are independent processes that may stop at any step.
- The final bytewise sort of exception types and the parameter checks of the read-only queries.
- WorstCase.DistanceIsAttained: a claim in `System` may take any due batch, while the code takes the first due one, so the exhibited run need not be one of the code when another batch is due earlier. Where no submission is late, the claim's own request arrives twice.
- Discipline.SubmitsAreSeparated: a submit is counted when it is claimed; a claim that crashes before its request is sent counts as well.
- PlanInsert.PlanIsInserted: assumes that the UTIDs of batches already present were derived by the planner; `PlanRuns.PlanAlongRun` does without, for runs in which no one else inserts batches. There a plan is one step for each group, while the code inserts all groups in one transaction.
- Planner.PlanRows: requires amounts above the least int64, which ready filings always have; for that one amount the code would stage a document that the receiver refuses.
- The permits of `System` and the gate of `RateGate` are two machines: in `System` a permit may take any time, and `RateGate` says when it is granted.
- RateGate.AtMostTwentyStarts: models one firm; firms whose lock hashes collide only wait for each other more.
