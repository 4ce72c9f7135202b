/** How the worker turns an action and the outcome of its one IRS call into one store event. */
module Worker {
  import opened Prelude
  import opened Client
  import opened Filing
  import opened Retry

  /** `failureOr` */
  function FailureOr(code: string, fallback: string): string {
    if code == "" then fallback else code
  }

  /** `retrySubmit` */
  function RetrySubmit(work: Work, code: string, backoff: Backoff, jitter: Int64): Event {
    match Delay(backoff, work.attempts, jitter)
    case None => RetryExhausted(FailureOr(code, "SUBMIT_RETRY_EXHAUSTED"))
    case Some(delay) => SubmitOutcomeUnknown(delay, FailureOr(code, "SUBMIT_UNKNOWN"))
  }

  /** `retryStatus` */
  function RetryStatus(work: Work, code: string, backoff: Backoff, jitter: Int64): Event {
    match Delay(backoff, work.attempts, jitter)
    case None => RetryExhausted(FailureOr(code, "STATUS_RETRY_EXHAUSTED"))
    case Some(delay) => StatusUnavailable(delay, FailureOr(code, "STATUS_UNAVAILABLE"))
  }

  predicate Retryable(httpStatus: int) {
    httpStatus == 429 || httpStatus >= 500
  }

  function DecideSubmit(work: Work, reply: Reply, backoff: Backoff, jitter: Int64): Event {
    match reply
    case ProtocolFailure => FailInvariant("MALFORMED_RESPONSE")
    case TransportFailure => RetrySubmit(work, "TRANSPORT_ERROR", backoff, jitter)
    case ReceiptReply(receiptId) =>
      if receiptId != "" then SubmitAccepted(receiptId, PollDelay(backoff, work.attempts, jitter))
      else FailInvariant("SUBMIT_TERMINAL")
    case ErrorReply(httpStatus, code) =>
      if httpStatus == 409 && code == "DUPLICATE_UTID" then RetrySubmit(work, code, backoff, jitter)
      else if Retryable(httpStatus) then RetrySubmit(work, code, backoff, jitter)
      else FailInvariant(FailureOr(code, "SUBMIT_TERMINAL"))
    case StatusReply(_, _, _, _) => FailInvariant("SUBMIT_TERMINAL")
  }

  /** A poll searches by receipt when there is one, and otherwise falls back to the UTID. */
  predicate SearchesByReceipt(work: Work) {
    work.action.PollStatus? && work.receiptId != ""
  }

  function DecideStatus(work: Work, reply: Reply, backoff: Backoff, jitter: Int64): Event {
    match reply
    case ProtocolFailure => FailInvariant("MALFORMED_RESPONSE")
    case TransportFailure => RetryStatus(work, "TRANSPORT_ERROR", backoff, jitter)
    case ErrorReply(httpStatus, code) =>
      if Retryable(httpStatus) then RetryStatus(work, FailureOr(code, "STATUS_UNAVAILABLE"), backoff, jitter)
      else if !SearchesByReceipt(work) && httpStatus == 404 && code == "NOT_FOUND" then
        ReferenceNotFound(PollDelay(backoff, work.attempts, jitter), code)
      else FailInvariant(FailureOr(code, "STATUS_TERMINAL"))
    case StatusReply(receiptId, utid, status, outcomes) =>
      if utid != work.utid || (work.receiptId != "" && receiptId != work.receiptId) then
        FailInvariant("REMOTE_IDENTITY_MISMATCH")
      else if !SearchesByReceipt(work) then ReferenceFound(receiptId, PollDelay(backoff, work.attempts, jitter))
      else if status == "Processing" then AcknowledgmentPending(PollDelay(backoff, work.attempts, jitter), "")
      else CompleteAcknowledgment(outcomes)
    case ReceiptReply(_) => FailInvariant("STATUS_TERMINAL")
  }

  function Decide(work: Work, reply: Reply, backoff: Backoff, jitter: Int64): Event {
    if work.action.Submit? then DecideSubmit(work, reply, backoff, jitter)
    else DecideStatus(work, reply, backoff, jitter)
  }

  /** `permit.Finish` refuses a result that is out of range, and the worker then reports no event at all. */
  predicate Recordable(reply: Reply) {
    reply.ErrorReply? ==>
      (reply.httpStatus == 0 || 100 <= reply.httpStatus <= 599) && ValidFailureCode(reply.code)
  }

  function ClaimOf(work: Work): Claim {
    Claim(work.batchId, work.firm, work.token)
  }
}
