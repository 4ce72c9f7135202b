/**
 What a claim, and what each answer to a claim's call, makes of the batch's columns and of the
 index of receipts: the rows themselves, with the worker's decision and the store's transaction
 taken together.
 */
module Effects {
  import opened Prelude
  import opened Retry
  import opened Client
  import opened Filing
  import opened Worker

  /** The work's claim is live, and the batch is as the claim left it. */
  ghost predicate Working(db: Db, work: Work, now: int) {
    && work.batchId > 0 && work.batchId in db.batches
    && var row := db.batches[work.batchId];
    && row.firm == work.firm
    && row.lease.Some? && row.lease.value.token == work.token && now < row.lease.value.expiresAt
    && (work.action.Submit? ==> row.state.Submitting? && row.receipt.None?)
    && (work.action.LookupByUtid? ==> row.state.SubmitUnknown? && row.receipt.None?)
    && (work.action.PollStatus? ==>
          row.state.AwaitingAck? && row.receipt == Some(work.receiptId) && work.receiptId != "")
  }

  /** The claim was not the last one that the limit on attempts allows. */
  predicate AttemptsLeft(backoff: Backoff, attempts: nat) {
    backoff.maxAttempts <= 0 || (if attempts == 0 then 1 else attempts) < backoff.maxAttempts
  }

  /** The worker's decision on the answer, committed. */
  function Committed(db: Db, work: Work, reply: Reply, now: int, backoff: Backoff, jitter: Int64)
    : Result<Db, StoreError> { Apply(db, ClaimOf(work), now, Decide(work, reply, backoff, jitter)) }

  // Delays

  lemma GrantedExactly(backoff: Backoff, attempts: nat, jitter: Int64)
    ensures Delay(backoff, attempts, jitter).Some? <==> AttemptsLeft(backoff, attempts)
    ensures AttemptsLeft(backoff, attempts) ==> 0 <= Delay(backoff, attempts, jitter).value
  {
    DelayExactly(backoff, attempts, jitter);
  }

  /** The wait before a poll: the backoff's delay, and the maximum once attempts are exhausted. */
  lemma PollExactly(backoff: Backoff, attempts: nat, jitter: Int64)
    ensures PollDelay(backoff, attempts, jitter)
         == if AttemptsLeft(backoff, attempts) then Delay(backoff, attempts, jitter).value else backoff.maximum as int
  {
    GrantedExactly(backoff, attempts, jitter);
  }

  // Submits

  /** The answers after which the outcome of a submit is unknown. */
  predicate LeavesUnknown(reply: Reply) {
    || reply.TransportFailure?
    || (reply.ErrorReply? && (reply.httpStatus == 429 || reply.httpStatus >= 500
                              || (reply.httpStatus == 409 && reply.code == "DUPLICATE_UTID")))
  }

  /** No answer, 429, 5xx or a duplicate: the batch is `submit_unknown`, and due again after the backoff's delay. */
  lemma SubmitRetries(db: Db, work: Work, reply: Reply, now: int, backoff: Backoff, jitter: Int64)
    requires Working(db, work, now) && work.action.Submit? && LeavesUnknown(reply)
    requires AttemptsLeft(backoff, work.attempts) && (reply.ErrorReply? ==> ValidFailureCode(reply.code))
    requires Delay(backoff, work.attempts, jitter).Some? ==>
               Delay(backoff, work.attempts, jitter).value <= 2_592_000 * 1_000_000_000
    ensures Delay(backoff, work.attempts, jitter).Some?
    ensures Committed(db, work, reply, now, backoff, jitter) == Ok(db.(batches := db.batches[work.batchId :=
              db.batches[work.batchId].(
                state := SubmitUnknown, lease := None,
                nextActionAt := now + Delay(backoff, work.attempts, jitter).value / 1000,
                lastError := if reply.TransportFailure? then "TRANSPORT_ERROR"
                             else if reply.code == "" then "SUBMIT_UNKNOWN" else reply.code)]))
  {
    GrantedExactly(backoff, work.attempts, jitter);
    KnownCodes();
  }

  lemma KnownCodes()
    ensures ValidFailureCode("") && ValidFailureCode("TRANSPORT_ERROR") && ValidFailureCode("MALFORMED_RESPONSE")
    ensures ValidFailureCode("SUBMIT_UNKNOWN") && ValidFailureCode("SUBMIT_TERMINAL")
    ensures ValidFailureCode("STATUS_UNAVAILABLE") && ValidFailureCode("STATUS_TERMINAL")
    ensures ValidFailureCode("REMOTE_IDENTITY_MISMATCH")
  {
    CapitalCode("TRANSPORT_ERROR");
    CapitalCode("MALFORMED_RESPONSE");
    CapitalCode("SUBMIT_UNKNOWN");
    CapitalCode("SUBMIT_TERMINAL");
    CapitalCode("STATUS_UNAVAILABLE");
    CapitalCode("STATUS_TERMINAL");
    CapitalCode("REMOTE_IDENTITY_MISMATCH");
  }

  lemma CapitalCode(code: string)
    requires |code| <= 64 && forall i :: 0 <= i < |code| ==> 'A' <= code[i] <= 'Z' || code[i] == '_'
    ensures ValidFailureCode(code)
  {
  }

  /** The same answers with no attempt left: the batch fails, and is marked as exhausted. */
  lemma SubmitGivesUp(db: Db, work: Work, reply: Reply, now: int, backoff: Backoff, jitter: Int64)
    requires Working(db, work, now) && work.action.Submit? && LeavesUnknown(reply)
    requires !AttemptsLeft(backoff, work.attempts) && (reply.ErrorReply? ==> ValidFailureCode(reply.code))
    ensures Committed(db, work, reply, now, backoff, jitter) == Ok(db.(batches := db.batches[work.batchId :=
              db.batches[work.batchId].(
                state := InvariantFailed, lease := None, exhaustedAt := Some(now),
                lastError := if reply.TransportFailure? then "TRANSPORT_ERROR"
                             else if reply.code == "" then "SUBMIT_RETRY_EXHAUSTED" else reply.code)]))
  {
    GrantedExactly(backoff, work.attempts, jitter);
    KnownCodes();
    assert ValidFailureCode("SUBMIT_RETRY_EXHAUSTED");
  }

  /** A receipt: the batch is `submitted`, with the receipt and its time, and is polled after the delay. */
  lemma SubmitSucceeds(db: Db, work: Work, receiptId: string, now: int, backoff: Backoff, jitter: Int64)
    requires Working(db, work, now) && work.action.Submit? && 0 < |receiptId| <= 256
    requires 0 <= PollDelay(backoff, work.attempts, jitter) <= 2_592_000 * 1_000_000_000
    ensures Committed(db, work, ReceiptReply(receiptId), now, backoff, jitter)
         == if receiptId in db.batchByReceipt && db.batchByReceipt[receiptId] != work.batchId then Err(Conflict)
            else Ok(db.(batches := db.batches[work.batchId :=
                   db.batches[work.batchId].(
                     state := Submitted, lease := None, receipt := Some(receiptId), lastError := "",
                     nextActionAt := now + PollDelay(backoff, work.attempts, jitter) / 1000,
                     submittedAt := if db.batches[work.batchId].submittedAt.Some?
                                    then db.batches[work.batchId].submittedAt else Some(now))],
                        batchByReceipt := db.batchByReceipt[receiptId := work.batchId]))
  {
    KnownCodes();
  }

  /** Every other answer to a submit fails the batch, which is not marked as exhausted. */
  lemma SubmitFails(db: Db, work: Work, reply: Reply, now: int, backoff: Backoff, jitter: Int64)
    requires Working(db, work, now) && work.action.Submit? && !LeavesUnknown(reply)
    requires reply.ReceiptReply? ==> reply.receiptId == ""
    requires reply.ErrorReply? ==> ValidFailureCode(reply.code)
    ensures Committed(db, work, reply, now, backoff, jitter) == Ok(db.(batches := db.batches[work.batchId :=
              db.batches[work.batchId].(
                state := InvariantFailed, lease := None, exhaustedAt := None,
                lastError := if reply.ProtocolFailure? then "MALFORMED_RESPONSE"
                             else if reply.ErrorReply? && reply.code != "" then reply.code
                             else "SUBMIT_TERMINAL")]))
  {
    KnownCodes();
  }

  // Lookups and polls

  /** The answers after which a status call is repeated. */
  predicate Unavailable(reply: Reply) {
    reply.TransportFailure? || (reply.ErrorReply? && (reply.httpStatus == 429 || reply.httpStatus >= 500))
  }

  /** No answer, 429 or 5xx: the batch keeps its state, and is due again after the backoff's delay. */
  lemma StatusRetries(db: Db, work: Work, reply: Reply, now: int, backoff: Backoff, jitter: Int64)
    requires Working(db, work, now) && !work.action.Submit? && Unavailable(reply)
    requires AttemptsLeft(backoff, work.attempts) && (reply.ErrorReply? ==> ValidFailureCode(reply.code))
    requires Delay(backoff, work.attempts, jitter).Some? ==>
               Delay(backoff, work.attempts, jitter).value <= 2_592_000 * 1_000_000_000
    ensures Delay(backoff, work.attempts, jitter).Some?
    ensures Committed(db, work, reply, now, backoff, jitter) == Ok(db.(batches := db.batches[work.batchId :=
              db.batches[work.batchId].(
                lease := None, nextActionAt := now + Delay(backoff, work.attempts, jitter).value / 1000,
                lastError := if reply.TransportFailure? then "TRANSPORT_ERROR"
                             else if reply.code == "" then "STATUS_UNAVAILABLE" else reply.code)]))
  {
    GrantedExactly(backoff, work.attempts, jitter);
    KnownCodes();
  }

  lemma StatusGivesUp(db: Db, work: Work, reply: Reply, now: int, backoff: Backoff, jitter: Int64)
    requires Working(db, work, now) && !work.action.Submit? && Unavailable(reply)
    requires !AttemptsLeft(backoff, work.attempts) && (reply.ErrorReply? ==> ValidFailureCode(reply.code))
    ensures Committed(db, work, reply, now, backoff, jitter) == Ok(db.(batches := db.batches[work.batchId :=
              db.batches[work.batchId].(
                state := InvariantFailed, lease := None, exhaustedAt := Some(now),
                lastError := if reply.TransportFailure? then "TRANSPORT_ERROR"
                             else if reply.code == "" then "STATUS_UNAVAILABLE" else reply.code)]))
  {
    GrantedExactly(backoff, work.attempts, jitter);
    KnownCodes();
  }

  /** A lookup that finds nothing plans the batch again. */
  lemma LookupFindsNothing(db: Db, work: Work, now: int, backoff: Backoff, jitter: Int64)
    requires Working(db, work, now) && work.action.LookupByUtid?
    requires 0 <= PollDelay(backoff, work.attempts, jitter) <= 2_592_000 * 1_000_000_000
    ensures Committed(db, work, ErrorReply(404, "NOT_FOUND"), now, backoff, jitter)
         == Ok(db.(batches := db.batches[work.batchId := db.batches[work.batchId].(
                state := Planned, lease := None, lastError := "NOT_FOUND",
                nextActionAt := now + PollDelay(backoff, work.attempts, jitter) / 1000)]))
  {
    KnownCodes();
    assert ValidFailureCode("NOT_FOUND");
  }

  /** A lookup that finds the batch submits it, with the receipt found and the time. */
  lemma LookupFinds(db: Db, work: Work, reply: Reply, now: int, backoff: Backoff, jitter: Int64)
    requires Working(db, work, now) && work.action.LookupByUtid? && work.receiptId == ""
    requires reply.StatusReply? && reply.utid == work.utid && 0 < |reply.receiptId| <= 256
    requires 0 <= PollDelay(backoff, work.attempts, jitter) <= 2_592_000 * 1_000_000_000
    ensures Committed(db, work, reply, now, backoff, jitter)
         == if reply.receiptId in db.batchByReceipt && db.batchByReceipt[reply.receiptId] != work.batchId
            then Err(Conflict)
            else Ok(db.(batches := db.batches[work.batchId :=
                   db.batches[work.batchId].(
                     state := Submitted, lease := None, receipt := Some(reply.receiptId), lastError := "",
                     nextActionAt := now + PollDelay(backoff, work.attempts, jitter) / 1000,
                     submittedAt := if db.batches[work.batchId].submittedAt.Some?
                                    then db.batches[work.batchId].submittedAt else Some(now))],
                        batchByReceipt := db.batchByReceipt[reply.receiptId := work.batchId]))
  {
    KnownCodes();
  }

  /** A poll that is still processing waits for the next one. */
  lemma PollWaits(db: Db, work: Work, reply: Reply, now: int, backoff: Backoff, jitter: Int64)
    requires Working(db, work, now) && work.action.PollStatus?
    requires reply.StatusReply? && reply.utid == work.utid && reply.receiptId == work.receiptId
    requires reply.status == "Processing"
    requires 0 <= PollDelay(backoff, work.attempts, jitter) <= 2_592_000 * 1_000_000_000
    ensures Committed(db, work, reply, now, backoff, jitter)
         == Ok(db.(batches := db.batches[work.batchId := db.batches[work.batchId].(
                lease := None, lastError := "",
                nextActionAt := now + PollDelay(backoff, work.attempts, jitter) / 1000)]))
  {
    KnownCodes();
  }

  /** A poll with a final status records the outcomes, or is refused as a whole. */
  lemma PollCompletes(db: Db, work: Work, reply: Reply, now: int, backoff: Backoff, jitter: Int64)
    requires Working(db, work, now) && work.action.PollStatus?
    requires reply.StatusReply? && reply.utid == work.utid && reply.receiptId == work.receiptId
    requires reply.status != "Processing"
    ensures Committed(db, work, reply, now, backoff, jitter)
         == Acknowledge(db, Claim(work.batchId, work.firm, work.token), now, reply.outcomes)
  {
  }

  /** Every other answer to a status call fails the batch: unreadable, another batch's, or a plain error. */
  lemma StatusFails(db: Db, work: Work, reply: Reply, now: int, backoff: Backoff, jitter: Int64)
    requires Working(db, work, now) && !work.action.Submit? && !Unavailable(reply)
    requires work.action.LookupByUtid? ==> work.receiptId == "" && reply != ErrorReply(404, "NOT_FOUND")
    requires reply.StatusReply? ==>
               reply.utid != work.utid || (work.action.PollStatus? && reply.receiptId != work.receiptId)
    requires reply.ErrorReply? ==> ValidFailureCode(reply.code)
    ensures Committed(db, work, reply, now, backoff, jitter) == Ok(db.(batches := db.batches[work.batchId :=
              db.batches[work.batchId].(
                state := InvariantFailed, lease := None, exhaustedAt := None,
                lastError := match reply
                             case ProtocolFailure => "MALFORMED_RESPONSE"
                             case StatusReply(_, _, _, _) => "REMOTE_IDENTITY_MISMATCH"
                             case ErrorReply(_, code) => if code == "" then "STATUS_TERMINAL" else code
                             case _ => "STATUS_TERMINAL")]))
  {
    KnownCodes();
  }

  // The deployed backoff, which has no jitter

  /** Positive settings without jitter, no longer than the store allows. */
  predicate Plain(backoff: Backoff) {
    && !backoff.jittered && backoff.initial > 0
    && 0 < backoff.maximum as int <= 2_592_000 * 1_000_000_000
  }

  lemma PlainDelay(backoff: Backoff, attempts: nat, jitter: Int64)
    requires Plain(backoff) && attempts > 0 && AttemptsLeft(backoff, attempts)
    ensures Delay(backoff, attempts, jitter)
         == Some(Min(backoff.maximum as int, backoff.initial as int * Pow2(attempts - 1)))
    ensures 0 <= Delay(backoff, attempts, jitter).value <= 2_592_000 * 1_000_000_000
  {
    GrantedExactly(backoff, attempts, jitter);
    DelayWithoutJitter(backoff, attempts, jitter);
  }

  // Lost claims

  /** Without its claim a worker changes nothing, whatever it has heard. */
  lemma LostClaimChangesNothing(db: Db, work: Work, reply: Reply, now: int, backoff: Backoff, jitter: Int64)
    requires work.batchId in db.batches ==>
               var row := db.batches[work.batchId];
               || row.firm != work.firm || row.lease.None? || row.lease.value.token != work.token
               || row.lease.value.expiresAt <= now
    ensures Committed(db, work, reply, now, backoff, jitter).Err?
  {
  }

  // Refusals

  predicate StorableDelay(delay: int) {
    0 <= delay <= 2_592_000 * 1_000_000_000
  }

  /** What the store refuses before it looks at any row. */
  lemma InvalidEventExactly(db: Db, claim: Claim, now: int, event: Event)
    ensures Apply(db, claim, now, event) == Err(InvalidEvent) <==>
              match event
              case SubmitAccepted(receiptId, delay) =>
                claim.batchId <= 0 || receiptId == "" || |receiptId| > 256 || !StorableDelay(delay)
              case ReferenceFound(receiptId, delay) =>
                claim.batchId <= 0 || receiptId == "" || |receiptId| > 256 || !StorableDelay(delay)
              case SubmitOutcomeUnknown(delay, code) =>
                claim.batchId <= 0 || !StorableDelay(delay) || !ValidFailureCode(code)
              case ReferenceNotFound(delay, code) =>
                claim.batchId <= 0 || !StorableDelay(delay) || !ValidFailureCode(code)
              case AcknowledgmentPending(delay, code) =>
                claim.batchId <= 0 || !StorableDelay(delay) || !ValidFailureCode(code)
              case StatusUnavailable(delay, code) =>
                claim.batchId <= 0 || !StorableDelay(delay) || !ValidFailureCode(code)
              case RetryExhausted(code) => claim.batchId <= 0 || code == "" || !ValidFailureCode(code)
              case FailInvariant(code) => claim.batchId <= 0 || code == "" || !ValidFailureCode(code)
              case CompleteAcknowledgment(_) => false
  {
    KnownCodes();
    if event.CompleteAcknowledgment? {
      AcknowledgeErrors(db, claim, now, event.outcomes);
    }
  }

  lemma AcknowledgeErrors(db: Db, claim: Claim, now: int, outcomes: seq<Outcome>)
    ensures Acknowledge(db, claim, now, outcomes) != Err(InvalidEvent)
  {
    OutcomeErrors(db.filings, ExpectedFor(db, claim), outcomes, now);
  }

  lemma {:induction false} OutcomeErrors(filings: map<int, FilingRow>, expected: map<string, int>,
                                         outcomes: seq<Outcome>, now: int)
    ensures RecordOutcomes(filings, expected, outcomes, now) != Err(InvalidEvent)
  {
    if outcomes != [] {
      OutcomeErrors(filings, expected, outcomes[..|outcomes| - 1], now);
    }
  }

  /** Under a live claim a storable event is an invalid transition exactly in the states it does not start from. */
  lemma InvalidTransitionExactly(db: Db, claim: Claim, now: int, event: Event)
    requires claim.batchId in db.batches && !event.CompleteAcknowledgment?
    requires var row := db.batches[claim.batchId];
             && row.firm == claim.firm && row.lease.Some? && row.lease.value.token == claim.token
             && now < row.lease.value.expiresAt
    requires Apply(db, claim, now, event) != Err(InvalidEvent)
    ensures var state := db.batches[claim.batchId].state;
            Apply(db, claim, now, event) == Err(InvalidTransition) <==>
              match event
              case SubmitAccepted(_, _) => !state.Submitting?
              case SubmitOutcomeUnknown(_, _) => !state.Submitting?
              case ReferenceFound(_, _) => !state.SubmitUnknown?
              case ReferenceNotFound(_, _) => !state.SubmitUnknown?
              case AcknowledgmentPending(_, _) => !state.Submitted? && !state.AwaitingAck?
              case StatusUnavailable(_, _) => !state.SubmitUnknown? && !state.AwaitingAck?
              case _ => state.BatchAcknowledged? || state.InvariantFailed?
  {
  }

  /** A batch that has a receipt cannot go back to `submit_unknown` or `planned`: the table refuses the row. */
  lemma ReceiptIsNotLost(db: Db, claim: Claim, now: int, event: Event)
    requires claim.batchId in db.batches && Apply(db, claim, now, event) != Err(InvalidEvent)
    requires var row := db.batches[claim.batchId];
             && row.firm == claim.firm && row.lease.Some? && row.lease.value.token == claim.token
             && now < row.lease.value.expiresAt
             && ((event.SubmitOutcomeUnknown? && row.state.Submitting?)
                 || (event.ReferenceNotFound? && row.state.SubmitUnknown?))
    ensures Apply(db, claim, now, event) == Err(Invariant) <==> db.batches[claim.batchId].receipt.Some?
  {
  }

  // Claims

  /** A claim of a due batch leaves the row leased until then, in the state that its action works on, one attempt on. */
  lemma ClaimExactly(id: int, row: Batch, owner: string, leaseMicros: int, token: string, now: int)
    requires row.digest == Sha256(row.document) && !row.state.BatchAcknowledged? && !row.state.InvariantFailed?
    ensures var (after, result) := ClaimRow(id, row, owner, leaseMicros, token, now);
            && after == row.(lease := Some(Lease(owner, now + leaseMicros, token)), attempts := row.attempts + 1,
                             state := if row.state.Planned? then Submitting
                                      else if row.state.Submitting? || row.state.SubmitUnknown? then SubmitUnknown
                                      else AwaitingAck)
            && result == Ok(Work(id, row.firm, row.client, row.taxYear, row.attempts + 1,
                                 if row.state.Planned? then Submit
                                 else if row.state.Submitting? || row.state.SubmitUnknown? then LookupByUtid
                                 else PollStatus,
                                 row.utid, row.document, row.digest,
                                 if row.receipt.None? then "" else row.receipt.value, token))
  {
  }

  /** A damaged payload fails the batch instead, and hands out no work. */
  lemma DamagedClaim(id: int, row: Batch, owner: string, leaseMicros: int, token: string, now: int)
    requires row.digest != Sha256(row.document) && !row.state.BatchAcknowledged? && !row.state.InvariantFailed?
    ensures var (after, result) := ClaimRow(id, row, owner, leaseMicros, token, now);
            && after == row.(state := InvariantFailed, lease := None, attempts := row.attempts + 1,
                             lastError := "PAYLOAD_HASH_MISMATCH")
            && result == Err(Invariant)
  {
  }

  /** A batch may be claimed when it is open, its next action is due, and no one holds it. */
  lemma DueExactly(row: Batch, now: int)
    ensures Due(row, now) <==>
              && row.state in {Planned, Submitting, SubmitUnknown, Submitted, AwaitingAck}
              && row.nextActionAt <= now
              && (row.lease.Some? ==> row.lease.value.expiresAt <= now)
  {
  }

  /** A failure code has at most 64 characters, each a capital letter, a digit, or one of `_`, `.`, `-`. */
  lemma FailureCodesExactly(code: string)
    ensures ValidFailureCode(code) <==>
              |code| <= 64 && forall c :: c in code ==> 'A' <= c <= 'Z' || '0' <= c <= '9' || c in "_.-"
  {
    if ValidFailureCode(code) {
      forall c | c in code
        ensures FailureCodeChar(c)
      {
        var i :| 0 <= i < |code| && code[i] == c;
      }
    } else if |code| <= 64 {
      var i :| 0 <= i < |code| && !FailureCodeChar(code[i]);
      assert code[i] in code;
      assert '_' in "_.-" && '.' in "_.-" && '-' in "_.-";
    }
  }
}
