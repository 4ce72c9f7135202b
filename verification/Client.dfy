/** The HTTP client's reading of the receiver's answers. */
module Client {
  import opened Stub

  datatype Outcome = Outcome(key: string, irsRecordId: string, reason: string)

  /** What one call gives the worker. A failed call is a transport failure or an unreadable answer. */
  datatype Reply =
    | ReceiptReply(receiptId: string)
    | StatusReply(receiptId: string, utid: string, status: string, outcomes: seq<Outcome>)
    | ErrorReply(httpStatus: int, code: string)
    | TransportFailure
    | ProtocolFailure

  predicate ValidStatus(status: string) {
    status in {"Processing", "Accepted", "PartiallyAccepted", "Rejected"}
  }

  predicate ValidReason(reason: string) {
    reason in {"TIN_MISSING", "TIN_MALFORMED", "TIN_INVALID", "AMOUNT_INVALID"}
  }

  predicate ValidResult(result: WireResult) {
    && result.recordId != ""
    && (|| (result.status == "Accepted" && result.irsRecordId != "" && result.reason == "")
        || (result.status == "Rejected" && result.irsRecordId == "" && ValidReason(result.reason)))
  }

  predicate AllValid(results: seq<WireResult>) {
    forall i :: 0 <= i < |results| ==> ValidResult(results[i])
  }

  function OutcomeOf(result: WireResult): Outcome {
    Outcome(result.recordId, result.irsRecordId, result.reason)
  }

  function OutcomesOf(results: seq<WireResult>): (o: seq<Outcome>)
    ensures |o| == |results|
  {
    seq(|results|, i requires 0 <= i < |results| => OutcomeOf(results[i]))
  }

  function ReadStatus(wire: WireStatus): Reply {
    if wire.receiptId == "" || wire.utid == "" || !ValidStatus(wire.status) then ProtocolFailure
    else if wire.status == "Processing" && wire.results != [] then ProtocolFailure
    else if !AllValid(wire.results) then ProtocolFailure
    else if wire.status != "Processing" && wire.results == [] then ProtocolFailure
    else StatusReply(wire.receiptId, wire.utid, wire.status, OutcomesOf(wire.results))
  }

  /** `Client.Status` on a decoded 200 answer, with its loop over the per-filing results. */
  method ReadStatusAnswer(wire: WireStatus) returns (reply: Reply)
    ensures reply == ReadStatus(wire)
  {
    if wire.receiptId == "" || wire.utid == "" || !ValidStatus(wire.status) {
      return ProtocolFailure;
    }
    if wire.status == "Processing" && |wire.results| != 0 {
      return ProtocolFailure;
    }
    var outcomes: seq<Outcome> := [];
    for i := 0 to |wire.results|
      invariant AllValid(wire.results[..i])
      invariant outcomes == OutcomesOf(wire.results[..i])
    {
      var result := wire.results[i];
      var accepted := result.status == "Accepted" && result.irsRecordId != "" && result.reason == "";
      var rejected := result.status == "Rejected" && result.irsRecordId == "" && ValidReason(result.reason);
      if result.recordId == "" || (!accepted && !rejected) {
        return ProtocolFailure;
      }
      outcomes := outcomes + [Outcome(result.recordId, result.irsRecordId, result.reason)];
    }
    assert wire.results[..|wire.results|] == wire.results;
    if wire.status != "Processing" && |outcomes| == 0 {
      return ProtocolFailure;
    }
    return StatusReply(wire.receiptId, wire.utid, wire.status, outcomes);
  }

  /** What the client reads: a known status, nothing blank, and results exactly when it is final, each well formed. */
  lemma ReadExactly(wire: WireStatus)
    ensures ReadStatus(wire) == ProtocolFailure || ReadStatus(wire).StatusReply?
    ensures ReadStatus(wire).StatusReply? <==>
              && wire.receiptId != "" && wire.utid != ""
              && (|| (wire.status == "Processing" && wire.results == [])
                  || ((wire.status == "Accepted" || wire.status == "PartiallyAccepted" || wire.status == "Rejected")
                      && wire.results != []))
              && forall i :: 0 <= i < |wire.results| ==>
                   var result := wire.results[i];
                   && result.recordId != ""
                   && (|| (result.status == "Accepted" && result.irsRecordId != "" && result.reason == "")
                       || (result.status == "Rejected" && result.irsRecordId == ""
                           && (result.reason == "TIN_MISSING" || result.reason == "TIN_MALFORMED"
                               || result.reason == "TIN_INVALID" || result.reason == "AMOUNT_INVALID")))
    ensures ReadStatus(wire).StatusReply? ==>
              var reply := ReadStatus(wire);
              && reply.receiptId == wire.receiptId && reply.utid == wire.utid && reply.status == wire.status
              && |reply.outcomes| == |wire.results|
              && forall i :: 0 <= i < |wire.results| ==>
                   reply.outcomes[i]
                       == Outcome(wire.results[i].recordId, wire.results[i].irsRecordId, wire.results[i].reason)
  {
    if AllValid(wire.results) {
      assert forall i :: 0 <= i < |wire.results| ==> ValidResult(wire.results[i]);
    } else {
      var i :| 0 <= i < |wire.results| && !ValidResult(wire.results[i]);
      assert wire.results[i] == wire.results[i];
    }
  }

  /** A submission whose answers the client can read: nothing in it is blank, and it has results. */
  predicate Readable(recorded: Submission) {
    && recorded.receiptId != "" && recorded.utid != "" && recorded.results != []
    && forall i :: 0 <= i < |recorded.results| ==>
         && recorded.results[i].recordId != ""
         && (recorded.results[i].AcceptedRecord? ==> recorded.results[i].irsRecordId != "")
  }

  /** The client reads every answer the receiver gives for a recorded submission, and loses nothing of it. */
  lemma AnswersAreReadable(recorded: Submission, now: int)
    requires Readable(recorded)
    ensures ReadStatus(StatusOf(recorded, now)) ==
              if Acknowledged(recorded, now) then
                StatusReply(recorded.receiptId, recorded.utid, OverallStatus(recorded.results),
                            OutcomesOf(WiresOf(recorded.results)))
              else
                StatusReply(recorded.receiptId, recorded.utid, "Processing", [])
  {
    var wires := WiresOf(recorded.results);
    forall i | 0 <= i < |wires|
      ensures ValidResult(wires[i])
    {
      ResultReadable(recorded.results[i]);
    }
    assert OutcomesOf([]) == [];
    assert OverallStatus(recorded.results) != "Processing" && ValidStatus(OverallStatus(recorded.results));
  }

  lemma ResultReadable(result: RecordResult)
    requires result.recordId != "" && (result.AcceptedRecord? ==> result.irsRecordId != "")
    ensures ValidResult(WireOf(result))
  {
  }
}
