/**
 Claim fencing: a live lease has one holder, only that holder changes the batch, and every event
 a worker decides on under a live claim is enabled.
 */
module Fencing {
  import opened Prelude
  import opened Retry
  import opened Stub
  import opened Client
  import opened Filing
  import opened Worker
  import opened System
  import opened Invariant
  import ArrivalSteps
  import DbSteps
  import Safety

  predicate Live(row: Batch, now: int) {
    row.lease.Some? && row.lease.value.expiresAt > now
  }

  /** The worker has work whose claim is live. */
  predicate HoldsLive(s: State, worker: string) {
    && !PhaseOf(s, worker).Idle?
    && PhaseOf(s, worker).work.batchId in s.db.batches
    && Holds(s.db.batches[PhaseOf(s, worker).work.batchId], PhaseOf(s, worker).work.firm,
             PhaseOf(s, worker).work.token, s.now)
  }

  /** At most one worker holds a live claim of a batch. */
  lemma OneHolder(s: State, backoff: Backoff, w: string, w': string)
    requires Reachable(s, backoff) && HoldsLive(s, w) && HoldsLive(s, w')
    requires PhaseOf(s, w).work.batchId == PhaseOf(s, w').work.batchId
    ensures w == w'
  {
    Safety.ReachableInv(s, backoff);
    Safety.CurrentPhase(s, w);
    Safety.CurrentPhase(s, w');
  }

  /** The step is the commit of the worker whose work carries the token of the batch's lease. */
  predicate HolderCommits(s: State, step: Step, id: int)
    requires id in s.db.batches && s.db.batches[id].lease.Some?
  {
    && step.Commit? && HoldsLive(s, step.worker)
    && PhaseOf(s, step.worker).work.batchId == id
    && PhaseOf(s, step.worker).work.token == s.db.batches[id].lease.value.token
  }

  lemma CommitChangesOwnBatch(s: State, step: Step, backoff: Backoff, id: int)
    requires DbOk(s.db) && step.Commit? && Enabled(s, step) && id in s.db.batches
    ensures id in Next(s, step, backoff).db.batches
    ensures Next(s, step, backoff).db.batches[id] != s.db.batches[id] ==>
              HoldsLive(s, step.worker) && PhaseOf(s, step.worker).work.batchId == id
  {
    hide DbOk, Decide, DbGrows;
    var work, reply := PhaseOf(s, step.worker).work, PhaseOf(s, step.worker).reply;
    var event := Decide(work, reply, backoff, step.jitter);
    if Apply(s.db, ClaimOf(work), s.now, event).Ok? {
      DbSteps.EventKeepsDbOk(s.db, ClaimOf(work), s.now, event);
    }
  }

  lemma OtherClaimLeavesRow(s: State, worker: string, claimed: int, leaseMicros: int, token: string, id: int)
    requires claimed in s.db.batches && id in s.db.batches && claimed != id
    ensures var after := AfterClaim(s, worker, claimed, leaseMicros, token).db.batches;
            id in after && after[id] == s.db.batches[id]
  {
  }

  /** No step but a commit touches a row whose lease is live: it cannot be claimed. */
  lemma OtherStepsLeaveRow(s: State, step: Step, backoff: Backoff, id: int)
    requires !step.Commit? && Enabled(s, step) && id in s.db.batches && Live(s.db.batches[id], s.now)
    ensures id in Next(s, step, backoff).db.batches && Next(s, step, backoff).db.batches[id] == s.db.batches[id]
  {
    match step
    case ClaimBatch(worker, claimed, leaseMicros, token) =>
      assert claimed != id;
      OtherClaimLeavesRow(s, worker, claimed, leaseMicros, token, id);
    case Determine(_, _) => InsertionsLeaveRows(s, step, backoff, id);
    case PlanOne(_, _) => InsertionsLeaveRows(s, step, backoff, id);
    case _ => LocalsLeaveDb(s, step, backoff);
  }

  lemma InsertionsLeaveRows(s: State, step: Step, backoff: Backoff, id: int)
    requires (step.PlanOne? || step.Determine?) && Enabled(s, step) && id in s.db.batches
    ensures id in Next(s, step, backoff).db.batches && Next(s, step, backoff).db.batches[id] == s.db.batches[id]
  {
  }

  lemma LocalsLeaveDb(s: State, step: Step, backoff: Backoff)
    requires Enabled(s, step)
    requires !step.PlanOne? && !step.Determine? && !step.ClaimBatch? && !step.Commit?
    ensures Next(s, step, backoff).db == s.db
  {
  }

  /** While a lease is live no step but its holder's commit changes the batch in any way. */
  lemma OnlyHolderChangesBatch(s: State, backoff: Backoff, step: Step, id: int)
    requires Reachable(s, backoff) && Enabled(s, step)
    requires id in s.db.batches && Live(s.db.batches[id], s.now)
    ensures id in Next(s, step, backoff).db.batches
    ensures Next(s, step, backoff).db.batches[id] != s.db.batches[id] ==> HolderCommits(s, step, id)
  {
    if step.Commit? {
      Safety.ReachableInv(s, backoff);
      CommitChangesOwnBatch(s, step, backoff, id);
    } else {
      OtherStepsLeaveRow(s, step, backoff, id);
    }
  }

  // Every event decided under a live claim is enabled

  /** The event's own data pass the store's checks. */
  predicate ValidArguments(event: Event) {
    match event
    case SubmitAccepted(receiptId, delay) => receiptId != "" && |receiptId| <= 256 && ValidDelay(delay)
    case SubmitOutcomeUnknown(delay, code) => ValidDelay(delay) && ValidFailureCode(code)
    case ReferenceFound(receiptId, delay) => receiptId != "" && |receiptId| <= 256 && ValidDelay(delay)
    case ReferenceNotFound(delay, code) => ValidDelay(delay) && ValidFailureCode(code)
    case AcknowledgmentPending(delay, code) => ValidDelay(delay) && ValidFailureCode(code)
    case StatusUnavailable(delay, code) => ValidDelay(delay) && ValidFailureCode(code)
    case CompleteAcknowledgment(_) => true
    case RetryExhausted(code) => code != "" && ValidFailureCode(code)
    case FailInvariant(code) => code != "" && ValidFailureCode(code)
  }

  /** The event belongs to the action. */
  predicate EventFits(action: Action, event: Event) {
    match event
    case SubmitAccepted(_, _) => action.Submit?
    case SubmitOutcomeUnknown(_, _) => action.Submit?
    case ReferenceFound(_, _) => action.LookupByUtid?
    case ReferenceNotFound(_, _) => action.LookupByUtid?
    case AcknowledgmentPending(_, _) => action.PollStatus?
    case StatusUnavailable(_, _) => action.LookupByUtid? || action.PollStatus?
    case CompleteAcknowledgment(_) => action.PollStatus?
    case RetryExhausted(_) => true
    case FailInvariant(_) => true
  }

  lemma SubmitCodesAreValid()
    ensures ValidFailureCode("SUBMIT_TERMINAL") && ValidFailureCode("SUBMIT_RETRY_EXHAUSTED")
    ensures ValidFailureCode("SUBMIT_UNKNOWN")
  {
  }

  lemma StatusCodesAreValid()
    ensures ValidFailureCode("STATUS_TERMINAL") && ValidFailureCode("STATUS_RETRY_EXHAUSTED")
    ensures ValidFailureCode("STATUS_UNAVAILABLE")
  {
  }

  lemma SharedCodesAreValid()
    ensures ValidFailureCode("") && ValidFailureCode("MALFORMED_RESPONSE") && ValidFailureCode("TRANSPORT_ERROR")
    ensures ValidFailureCode("REMOTE_IDENTITY_MISMATCH")
  {
  }

  lemma DelaysAreValid(backoff: Backoff, attempts: nat, jitter: Int64)
    requires SoundSettings(backoff)
    ensures ValidDelay(PollDelay(backoff, attempts, jitter))
    ensures Delay(backoff, attempts, jitter).Some? ==> ValidDelay(Delay(backoff, attempts, jitter).value)
  {
    if Delay(backoff, attempts, jitter).Some? {
      DelayBounded(backoff, attempts, jitter);
    }
  }

  predicate ReceiptsShort(reply: Reply) {
    (reply.ReceiptReply? || reply.StatusReply?) ==> reply.receiptId != "" && |reply.receiptId| <= 256
  }

  /** Whatever the reply, the worker's choice has valid data and, for its action, a kind the store allows. */
  lemma DecisionIsValid(work: Work, reply: Reply, backoff: Backoff, jitter: Int64)
    requires SoundSettings(backoff) && Recordable(reply) && ReceiptsShort(reply)
    requires work.action.PollStatus? <==> work.receiptId != ""
    ensures ValidArguments(Decide(work, reply, backoff, jitter))
    ensures EventFits(work.action, Decide(work, reply, backoff, jitter))
  {
    SubmitCodesAreValid();
    StatusCodesAreValid();
    SharedCodesAreValid();
    DelaysAreValid(backoff, work.attempts, jitter);
  }

  /** A new receipt conflicts with no other batch's: the receiver gave it to this batch. */
  lemma NoReceiptConflict(s: State, id: int, receiptId: string)
    requires Inv(s) && id in s.db.batches && IsRecorded(s.stub, s.db.batches[id])
    requires SubmissionOf(s.stub, s.db.batches[id]).receiptId == receiptId
    ensures receiptId in s.db.batchByReceipt ==> s.db.batchByReceipt[receiptId] == id
  {
    if receiptId in s.db.batchByReceipt {
      var other := s.db.batchByReceipt[receiptId];
      var row, row' := s.db.batches[id], s.db.batches[other];
      assert BatchOk(s.db, id, row) && BatchOk(s.db, other, row');
      assert ReceiptAgrees(s.stub, row');
      assert SubmissionOk(s.db, s.stub, FirmUtid(row.firm, row.utid), SubmissionOf(s.stub, row));
      assert SubmissionOk(s.db, s.stub, FirmUtid(row'.firm, row'.utid), SubmissionOf(s.stub, row'));
    }
  }

  /** The receiver's own results are a complete acknowledgment: they name each pending filing once. */
  lemma FrozenResultsComplete(s: State, id: int)
    requires Inv(s) && id in s.db.batches && IsRecorded(s.stub, s.db.batches[id])
    requires !s.db.batches[id].state.BatchAcknowledged?
    ensures Completes(s.db, id, OutcomesOf(WiresOf(SubmissionOf(s.stub, s.db.batches[id]).results)))
  {
    var row := s.db.batches[id];
    assert BatchOk(s.db, id, row);
    ArrivalSteps.RecordedIsReadable(s.db, s.stub, id);
    DbSteps.LinkedKeysDistinct(s.db, id);
    ExpectedMeaning(s.db.filings, row.links);
    ExpectedSize(s.db.filings, row.links);
    CompleteOutcomes(s.db, row, SubmissionOf(s.stub, row));
  }

  lemma CompleteOutcomes(db: Db, row: Batch, recorded: Submission)
    requires LinksExist(db, row) && KeysDistinct(db.filings, row.links)
    requires ResultsFit(db, row, recorded) && PendingOk(db, row) && !row.state.BatchAcknowledged?
    ensures var expected, outcomes := Expected(db.filings, row.links), OutcomesOf(WiresOf(recorded.results));
            Complete(expected, outcomes) && AllBatched(db.filings, expected, outcomes)
  {
    var expected, outcomes := Expected(db.filings, row.links), OutcomesOf(WiresOf(recorded.results));
    forall i | 0 <= i < |outcomes|
      ensures outcomes[i].key in expected && expected[outcomes[i].key] == row.links[i]
      ensures outcomes[i].key == db.filings[row.links[i]].key && WellFormed(outcomes[i])
    {
      var link := row.links[i];
      assert link in db.filings && recorded.results[i].recordId == db.filings[link].key;
      assert outcomes[i] == OutcomeOf(WireOf(recorded.results[i]));
      ExpectedAt(db.filings, row.links, i);
    }
  }

  /** A receipt the event brings is not another batch's. */
  predicate NoConflict(db: Db, id: int, event: Event) {
    (event.SubmitAccepted? || event.ReferenceFound?) && event.receiptId in db.batchByReceipt ==>
      db.batchByReceipt[event.receiptId] == id
  }

  lemma FittingSimpleApplies(db: Db, work: Work, now: int, event: Event)
    requires work.batchId > 0 && work.batchId in db.batches && DbSteps.Simple(event)
    requires Holds(db.batches[work.batchId], work.firm, work.token, now)
    requires TokenCurrent(db.batches[work.batchId], work) && ReceiptOk(db, work.batchId, db.batches[work.batchId])
    requires ValidArguments(event) && EventFits(work.action, event) && NoConflict(db, work.batchId, event)
    ensures Apply(db, ClaimOf(work), now, event).Ok?
  {
  }

  /** The outcomes are a complete acknowledgment of the batch's pending filings. */
  ghost predicate Completes(db: Db, id: int, outcomes: seq<Outcome>) {
    && id in db.batches && LinksExist(db, db.batches[id])
    && var expected := Expected(db.filings, db.batches[id].links);
    && |expected| == |outcomes| > 0 && OneToOne(expected)
    && Complete(expected, outcomes) && AllBatched(db.filings, expected, outcomes)
  }

  lemma CompleteAcknowledgmentApplies(db: Db, claim: Claim, now: int, outcomes: seq<Outcome>)
    requires claim.batchId > 0 && Completes(db, claim.batchId, outcomes)
    requires Holds(db.batches[claim.batchId], claim.firm, claim.token, now)
    requires db.batches[claim.batchId].state in {Submitted, AwaitingAck}
    ensures Acknowledge(db, claim, now, outcomes).Ok?
  {
    RecordOutcomesMeaning(db.filings, Expected(db.filings, db.batches[claim.batchId].links), outcomes, now);
  }

  lemma EventReceiptHasNoConflict(s: State, id: int, event: Event)
    requires Inv(s) && id in s.db.batches && Safety.EventTrue(s.stub, s.db.batches[id], event)
    ensures NoConflict(s.db, id, event)
  {
    if event.SubmitAccepted? || event.ReferenceFound? {
      NoReceiptConflict(s, id, event.receiptId);
    }
  }

  lemma TrueAcknowledgmentApplies(s: State, work: Work, outcomes: seq<Outcome>)
    requires Inv(s) && work.batchId in s.db.batches && work.batchId > 0 && work.action.PollStatus?
    requires Holds(s.db.batches[work.batchId], work.firm, work.token, s.now)
    requires TokenCurrent(s.db.batches[work.batchId], work)
    requires Safety.EventTrue(s.stub, s.db.batches[work.batchId], CompleteAcknowledgment(outcomes))
    ensures Acknowledge(s.db, ClaimOf(work), s.now, outcomes).Ok?
  {
    PolledAwaits(s.db.batches[work.batchId], work, s.now);
    FrozenResultsComplete(s, work.batchId);
    CompleteAcknowledgmentApplies(s.db, ClaimOf(work), s.now, outcomes);
  }

  lemma PolledAwaits(row: Batch, work: Work, now: int)
    requires Holds(row, work.firm, work.token, now) && TokenCurrent(row, work) && work.action.PollStatus?
    ensures row.state.AwaitingAck?
  {
  }

  /** Valid data, the right action and true contents are all an event needs to succeed under a live claim. */
  lemma FittingEventApplies(s: State, work: Work, event: Event)
    requires Inv(s) && work.batchId in s.db.batches
    requires Holds(s.db.batches[work.batchId], work.firm, work.token, s.now)
    requires TokenCurrent(s.db.batches[work.batchId], work)
    requires Safety.EventTrue(s.stub, s.db.batches[work.batchId], event)
    requires ValidArguments(event) && EventFits(work.action, event)
    ensures Apply(s.db, ClaimOf(work), s.now, event).Ok?
  {
    assert BatchOk(s.db, work.batchId, s.db.batches[work.batchId]);
    if event.CompleteAcknowledgment? {
      TrueAcknowledgmentApplies(s, work, event.outcomes);
    } else {
      EventReceiptHasNoConflict(s, work.batchId, event);
      FittingSimpleApplies(s.db, work, s.now, event);
    }
  }

  lemma ReceiptsAreShort(s: State, id: int, request: Request, reply: Reply)
    requires Inv(s) && id in s.db.batches && ReplyTrue(s.stub, s.db.batches[id], request, reply)
    ensures ReceiptsShort(reply)
  {
    if reply.ReceiptReply? || reply.StatusReply? {
      var row := s.db.batches[id];
      assert SubmissionOk(s.db, s.stub, FirmUtid(row.firm, row.utid), SubmissionOf(s.stub, row));
    }
  }

  /**
   With sound settings a worker's commit succeeds exactly when its claim is live. On a lost claim
   it is refused as stale; only the outcomes of a batch that another worker has acknowledged
   meanwhile are refused for their contents. In particular no transition is ever invalid.
   */
  lemma CommitSucceedsExactlyWhenLive(s: State, backoff: Backoff, step: Step)
    requires Reachable(s, backoff) && SoundSettings(backoff) && step.Commit? && Enabled(s, step)
    ensures var work := PhaseOf(s, step.worker).work;
            var result := Apply(s.db, ClaimOf(work), s.now,
                                Decide(work, PhaseOf(s, step.worker).reply, backoff, step.jitter));
            && work.batchId in s.db.batches
            && (result.Ok? <==> Holds(s.db.batches[work.batchId], work.firm, work.token, s.now))
            && (result.Err? ==> result.error == StaleClaim
                                || (result.error == Invariant && s.db.batches[work.batchId].state.BatchAcknowledged?))
  {
    hide Reachable, StubOk, Agree, CallsOk, Decide, FilingsOk, IndexesOk, ValidArguments;
    Safety.ReachableInv(s, backoff);
    Safety.CurrentPhase(s, step.worker);
    var work, reply := PhaseOf(s, step.worker).work, PhaseOf(s, step.worker).reply;
    var event := Decide(work, reply, backoff, step.jitter);
    if HoldsLive(s, step.worker) {
      LiveCommitApplies(s, backoff, step);
    } else {
      Safety.DecisionIsTrue(s.stub, s.db.batches[work.batchId], work, reply, backoff, step.jitter);
      ReceiptsAreShort(s, work.batchId, RequestFor(work), reply);
      DecisionIsValid(work, reply, backoff, step.jitter);
      LostClaimRefused(s, work, event);
    }
  }

  /** A commit under a live claim succeeds. */
  lemma LiveCommitApplies(s: State, backoff: Backoff, step: Step)
    requires Inv(s) && SoundSettings(backoff) && step.Commit? && Enabled(s, step) && HoldsLive(s, step.worker)
    ensures var work := PhaseOf(s, step.worker).work;
            && TokenCurrent(s.db.batches[work.batchId], work)
            && Apply(s.db, ClaimOf(work), s.now, Decide(work, PhaseOf(s, step.worker).reply, backoff, step.jitter)).Ok?
  {
    Safety.CurrentPhase(s, step.worker);
    var work, reply := PhaseOf(s, step.worker).work, PhaseOf(s, step.worker).reply;
    Safety.DecisionIsTrue(s.stub, s.db.batches[work.batchId], work, reply, backoff, step.jitter);
    ReceiptsAreShort(s, work.batchId, RequestFor(work), reply);
    DecisionIsValid(work, reply, backoff, step.jitter);
    FittingEventApplies(s, work, Decide(work, reply, backoff, step.jitter));
  }

  lemma LostClaimRefused(s: State, work: Work, event: Event)
    requires Inv(s) && work.batchId in s.db.batches && work.firm == s.db.batches[work.batchId].firm
    requires !Holds(s.db.batches[work.batchId], work.firm, work.token, s.now)
    requires Safety.EventTrue(s.stub, s.db.batches[work.batchId], event) && ValidArguments(event)
    ensures Apply(s.db, ClaimOf(work), s.now, event).Err?
    ensures Apply(s.db, ClaimOf(work), s.now, event).error == StaleClaim
            || (Apply(s.db, ClaimOf(work), s.now, event).error == Invariant
                && s.db.batches[work.batchId].state.BatchAcknowledged?)
  {
    assert BatchOk(s.db, work.batchId, s.db.batches[work.batchId]);
    if event.CompleteAcknowledgment? {
      DbSteps.LinkedKeysDistinct(s.db, work.batchId);
      if !s.db.batches[work.batchId].state.BatchAcknowledged? {
        FrozenResultsComplete(s, work.batchId);
      }
      LostAcknowledgmentRefused(s.db, ClaimOf(work), s.now, event.outcomes);
    } else {
      LostSimpleRefused(s.db, ClaimOf(work), s.now, event);
    }
  }

  lemma LostSimpleRefused(db: Db, claim: Claim, now: int, event: Event)
    requires claim.batchId > 0 && claim.batchId in db.batches && claim.firm == db.batches[claim.batchId].firm
    requires !Holds(db.batches[claim.batchId], claim.firm, claim.token, now) && DbSteps.Simple(event)
    requires ValidArguments(event)
    ensures Apply(db, claim, now, event) == Err(StaleClaim)
  {
  }

  lemma LostAcknowledgmentRefused(db: Db, claim: Claim, now: int, outcomes: seq<Outcome>)
    requires claim.batchId > 0 && claim.batchId in db.batches && claim.firm == db.batches[claim.batchId].firm
    requires !Holds(db.batches[claim.batchId], claim.firm, claim.token, now)
    requires LinksExist(db, db.batches[claim.batchId])
    requires !db.batches[claim.batchId].state.BatchAcknowledged? ==> Completes(db, claim.batchId, outcomes)
    ensures Acknowledge(db, claim, now, outcomes).Err?
    ensures Acknowledge(db, claim, now, outcomes).error == StaleClaim
            || (Acknowledge(db, claim, now, outcomes).error == Invariant
                && db.batches[claim.batchId].state.BatchAcknowledged?)
  {
    ExpectedMeaning(db.filings, db.batches[claim.batchId].links);
    RecordOutcomesMeaning(db.filings, Expected(db.filings, db.batches[claim.batchId].links), outcomes, now);
  }

  // Paths that no run takes

  /** Every poll in every run carries a receipt, so the fallback to the UTID is never taken. */
  lemma PollsSearchByReceipt(s: State, backoff: Backoff, worker: string)
    requires Reachable(s, backoff) && !PhaseOf(s, worker).Idle?
    ensures PhaseOf(s, worker).work.action.PollStatus? ==> SearchesByReceipt(PhaseOf(s, worker).work)
  {
    Safety.ReachableInv(s, backoff);
    Safety.CurrentPhase(s, worker);
  }

  /** Were it taken, the event it leads to would be an invalid transition. */
  lemma PollFallbackWouldBeInvalid(db: Db, work: Work, reply: Reply, now: int, backoff: Backoff, jitter: Int64)
    requires SoundSettings(backoff) && Recordable(reply) && ReceiptsShort(reply)
    requires work.action.PollStatus? && work.receiptId == "" && work.batchId > 0 && work.batchId in db.batches
    requires db.batches[work.batchId].state.AwaitingAck? && Holds(db.batches[work.batchId], work.firm, work.token, now)
    requires reply.StatusReply? && reply.utid == work.utid
    ensures Apply(db, ClaimOf(work), now, Decide(work, reply, backoff, jitter)) == Err(InvalidTransition)
  {
    SharedCodesAreValid();
    DelaysAreValid(backoff, work.attempts, jitter);
  }

  /** No claim ever finds a damaged payload or a state without an action. */
  lemma EveryClaimYieldsWork(s: State, backoff: Backoff, id: int, owner: string, leaseMicros: int, token: string)
    requires Reachable(s, backoff) && id in s.db.batches && Due(s.db.batches[id], s.now)
    ensures ClaimRow(id, s.db.batches[id], owner, leaseMicros, token, s.now).1.Ok?
    ensures var work := ClaimRow(id, s.db.batches[id], owner, leaseMicros, token, s.now).1.value;
            && (work.action.Submit? <==> s.db.batches[id].state.Planned?)
            && (work.action.LookupByUtid? <==> s.db.batches[id].state in {Submitting, SubmitUnknown})
            && (work.action.PollStatus? <==> s.db.batches[id].receipt.Some?)
            && work.document == s.db.batches[id].document
  {
    hide Reachable, StubOk, Agree, CallsOk, WorkersOk, FilingsOk, IndexesOk, LinksOk, DocumentOk, PendingOk;
    Safety.ReachableInv(s, backoff);
    assert BatchOk(s.db, id, s.db.batches[id]);
  }
}
