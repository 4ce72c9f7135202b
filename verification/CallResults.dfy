/**
 What the worker tells the rate gate about the call it made, and how long the firm's next call has
 to wait after it.
 */
module CallResults {
  import opened Prelude
  import opened Client
  import opened Filing
  import opened Worker
  import opened RateGate
  import opened FilingStore
  import Effects

  function HttpResult(outcome: CallOutcome, reply: Reply): CallResult {
    match reply
    case ErrorReply(httpStatus, code) => CallResult(outcome, httpStatus, code)
    case _ => CallResult(outcome, 200, "")
  }

  function SubmitResult(reply: Reply): CallResult {
    match reply
    case ProtocolFailure => CallResult(CallTerminalError, 0, "MALFORMED_RESPONSE")
    case TransportFailure => CallResult(CallAmbiguous, 0, "TRANSPORT_ERROR")
    case ReceiptReply(receiptId) =>
      HttpResult(if receiptId != "" then CallCompleted else CallTerminalError, reply)
    case ErrorReply(httpStatus, code) =>
      if httpStatus == 409 && code == "DUPLICATE_UTID" then HttpResult(CallCompleted, reply)
      else if Retryable(httpStatus) then HttpResult(CallAmbiguous, reply)
      else HttpResult(CallTerminalError, reply)
    case StatusReply(_, _, _, _) => HttpResult(CallTerminalError, reply)
  }

  function StatusResult(work: Work, reply: Reply): CallResult {
    match reply
    case ProtocolFailure => CallResult(CallTerminalError, 0, "MALFORMED_RESPONSE")
    case TransportFailure => CallResult(CallRetryableError, 0, "TRANSPORT_ERROR")
    case ErrorReply(httpStatus, _) =>
      HttpResult(if Retryable(httpStatus) then CallRetryableError else CallCompleted, reply)
    case StatusReply(receiptId, utid, _, _) =>
      if utid != work.utid || (work.receiptId != "" && receiptId != work.receiptId) then
        HttpResult(CallTerminalError, reply)
      else HttpResult(CallCompleted, reply)
    case ReceiptReply(_) => HttpResult(CallTerminalError, reply)
  }

  /** What the worker hands to `Finish` before it reports any event. */
  function ResultOf(work: Work, reply: Reply): CallResult {
    if work.action.Submit? then SubmitResult(reply) else StatusResult(work, reply)
  }

  /** A submit that was not refused outright and has no receipt: the receiver may have recorded it. */
  predicate Ambiguous(work: Work, reply: Reply) {
    && work.action.Submit?
    && (reply.TransportFailure? || (reply.ErrorReply? && (reply.httpStatus == 429 || reply.httpStatus >= 500)))
  }

  /** A receipt, a duplicate, a status of this batch, or a refusal to give one: calls that are logged as completed. */
  predicate Answers(work: Work, reply: Reply) {
    if work.action.Submit? then
      (reply.ReceiptReply? && reply.receiptId != "") || reply == ErrorReply(409, "DUPLICATE_UTID")
    else
      || (reply.ErrorReply? && reply.httpStatus != 429 && reply.httpStatus < 500)
      || (reply.StatusReply? && reply.utid == work.utid
          && (work.receiptId == "" || reply.receiptId == work.receiptId))
  }

  /**
   The result carries the status and code of the answer, or a code of its own when there was none to
   read; the gate takes it exactly when the reply is recordable.
   */
  lemma ResultExactly(work: Work, reply: Reply)
    ensures var result := ResultOf(work, reply);
            && ((result.httpStatus == 0 || 100 <= result.httpStatus <= 599) && ValidFailureCode(result.errorCode)
                <==> Recordable(reply))
            && (result.outcome.CallAmbiguous? <==> Ambiguous(work, reply))
            && (result.outcome.CallRetryableError? <==> !work.action.Submit? && Effects.Unavailable(reply))
            && (result.outcome.CallCompleted? <==> Answers(work, reply))
            && (reply.ErrorReply? ==> result.httpStatus == reply.httpStatus && result.errorCode == reply.code)
            && (reply.ReceiptReply? || reply.StatusReply? ==> result.httpStatus == 200 && result.errorCode == "")
            && (reply.TransportFailure? ==> result.httpStatus == 0 && result.errorCode == "TRANSPORT_ERROR")
            && (reply.ProtocolFailure? ==> result.httpStatus == 0 && result.errorCode == "MALFORMED_RESPONSE")
  {
    Effects.KnownCodes();
  }

  /**
   `submit` and `status` from the call's answer on: first the permit is finished, at `finishedAt`,
   and only then is the event reported. The firm's next call waits for 60 seconds after an
   ambiguous submit, and for 3.1 seconds otherwise.
   */
  method FinishCallAndReport(worker: FilingWorker, store: Store, permit: CallPermit, work: Work, reply: Reply,
                             jitter: Int64, finishedAt: int, now: int)
    returns (finished: bool, error: Option<StoreError>)
    requires work.attempts <= INT64_MAX
    modifies store, permit, permit.gate
    ensures finished <==>
              && !old(permit.finished || permit.released) && permit.row < |old(permit.gate.log)|
              && old(permit.gate.log)[permit.row].completed.None? && Recordable(reply)
    ensures finished ==>
              && AllowedAt(permit.gate.State())
                  == Max(0, finishedAt + if Ambiguous(work, reply) then 60_000_000 else 3_100_000)
              && Follows(Apply(old(store.Tables()), ClaimOf(work), now, Decide(work, reply, worker.backoff, jitter)),
                         old(store.Tables()), store.Tables(), error)
    ensures !finished ==>
              error.Some? && store.Tables() == old(store.Tables())
              && permit.gate.State() == old(permit.gate.State())
  {
    hide Apply, DecideSubmit, DecideStatus, FinishCall;
    ResultExactly(work, reply);
    error := permit.Finish(ResultOf(work, reply), finishedAt);
    if error.Some? {
      return false, error;
    }
    finished := true;
    match work.action {
      case Submit => error := worker.FinishSubmit(store, work, reply, jitter, now);
      case LookupByUtid => error := worker.FinishStatus(store, work, true, reply, jitter, now);
      case PollStatus => error := worker.FinishStatus(store, work, work.receiptId == "", reply, jitter, now);
    }
  }
}
