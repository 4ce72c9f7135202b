/** What local and remote records say of each other in every reachable state: no loss, no duplicate, no disagreement. */
module ExactlyOnce {
  import opened Prelude
  import opened Retry
  import opened Intake
  import opened Stub
  import opened Client
  import opened Filing
  import opened System
  import opened Invariant
  import opened Payloads
  import ArrivalSteps
  import Safety

  /**
   A recorded submission is what the receiver makes of the batch's document: the same parties, year
   and identities, and a result for each of its records, in slot order.
   */
  ghost predicate PayloadOf(row: Batch, recorded: Submission) {
    && MadeFrom(row.document, recorded)
    && var tx := Decode(row.document).value;
    && tx.firm == row.firm == recorded.firm
    && tx.client == row.client == recorded.client
    && tx.utid == row.utid == recorded.utid
    && tx.taxYear == recorded.taxYear && tx.submissionId == recorded.submissionId
    && |recorded.results| == |tx.records| == |row.links|
    && forall i :: 0 <= i < |tx.records| ==> recorded.results[i].recordId == tx.records[i].recordId
  }

  lemma MadeIsPayload(db: Db, row: Batch, recorded: Submission)
    requires MadeFrom(row.document, recorded)
    requires (forall i :: 0 <= i < |row.links| ==> row.links[i] in db.filings) && DocumentOk(db, row)
    ensures PayloadOf(row, recorded)
  {
  }

  lemma RecordedFits(s: State, k: FirmUtid)
    requires Inv(s) && k in s.stub.byUtid
    ensures k in s.db.batchByUtid && s.db.batchByUtid[k] in s.db.batches
    ensures var row := s.db.batches[s.db.batchByUtid[k]];
            && row.firm == k.firm && row.utid == k.utid
            && SubmissionOf(s.stub, row) == s.stub.byUtid[k]
            && ResultsFit(s.db, row, s.stub.byUtid[k])
  {
    assert SubmissionOk(s.db, s.stub, k, s.stub.byUtid[k]);
  }

  lemma RecordedIsPayload(s: State, backoff: Backoff, k: FirmUtid)
    requires Reachable(s, backoff) && k in s.stub.byUtid
    ensures k in s.db.batchByUtid && s.db.batchByUtid[k] in s.db.batches
    ensures var row := s.db.batches[s.db.batchByUtid[k]];
            row.firm == k.firm && row.utid == k.utid && PayloadOf(row, s.stub.byUtid[k])
  {
    Safety.ReachableInv(s, backoff);
    ReachableMade(s, backoff);
    RecordedFits(s, k);
    var id := s.db.batchByUtid[k];
    var row := s.db.batches[id];
    assert BatchOk(s.db, id, row);
    MadeIsPayload(s.db, row, s.stub.byUtid[k]);
  }

  /**
   Every submission the receiver has recorded is the immutable payload of exactly one local batch,
   under that batch's own UTID, and every record in it was accepted.
   */
  lemma RecordedSubmissionIsOneBatch(s: State, backoff: Backoff, k: FirmUtid)
    requires Reachable(s, backoff) && k in s.stub.byUtid
    ensures exists id ::
              && id in s.db.batches && s.db.batches[id].firm == k.firm && s.db.batches[id].utid == k.utid
              && PayloadOf(s.db.batches[id], s.stub.byUtid[k])
              && forall other ::
                   (other in s.db.batches && s.db.batches[other].firm == k.firm && s.db.batches[other].utid == k.utid)
                     ==> other == id
    ensures forall i :: 0 <= i < |s.stub.byUtid[k].results| ==> s.stub.byUtid[k].results[i].AcceptedRecord?
  {
    Safety.ReachableInv(s, backoff);
    RecordedIsPayload(s, backoff, k);
    RecordedFits(s, k);
    var id := s.db.batchByUtid[k];
    forall other | other in s.db.batches && s.db.batches[other].firm == k.firm && s.db.batches[other].utid == k.utid
      ensures other == id
    {
      assert BatchOk(s.db, other, s.db.batches[other]);
    }
  }

  /** The batch and slot of a recorded filing key are those of the one filing with that key. */
  lemma RecordedKeyLocates(s: State, k: FirmUtid, i: nat)
    requires Inv(s) && k in s.stub.byUtid && i < |s.stub.byUtid[k].results|
    ensures var key := s.stub.byUtid[k].results[i].recordId;
            && key in s.db.filingByKey
            && var f := s.db.filingByKey[key];
            && f in s.db.filings && f in s.db.batchOfFiling
            && k in s.db.batchByUtid && s.db.batchByUtid[k] == s.db.batchOfFiling[f]
            && s.db.batchByUtid[k] in s.db.batches
            && var row := s.db.batches[s.db.batchByUtid[k]];
            && row.firm == k.firm && row.utid == k.utid
            && i < |row.links| && row.links[i] == f && Distinct(row.links)
  {
    RecordedFits(s, k);
    var id := s.db.batchByUtid[k];
    var row := s.db.batches[id];
    assert BatchOk(s.db, id, row);
    var link := row.links[i];
    assert link in s.db.filings && link in s.db.batchOfFiling;
    assert FilingOk(s.db, link, s.db.filings[link]);
  }

  /** Every filing key is recorded at most once, in whatever submissions and slots one looks. */
  lemma KeyRecordedAtMostOnce(s: State, backoff: Backoff, k: FirmUtid, i: nat, k': FirmUtid, i': nat)
    requires Reachable(s, backoff)
    requires k in s.stub.byUtid && i < |s.stub.byUtid[k].results|
    requires k' in s.stub.byUtid && i' < |s.stub.byUtid[k'].results|
    requires s.stub.byUtid[k].results[i].recordId == s.stub.byUtid[k'].results[i'].recordId
    ensures k == k' && i == i'
  {
    Safety.ReachableInv(s, backoff);
    RecordedKeyLocates(s, k, i);
    RecordedKeyLocates(s, k', i');
  }

  lemma TrueReplyIsNoRefusal(stub: StubState, row: Batch, request: Request, reply: Reply)
    requires ReplyTrue(stub, row, request, reply)
    ensures reply != ErrorReply(409, "DUPLICATE_RECORD") && reply != ErrorReply(400, "INVALID_REQUEST")
  {
    assert "DUPLICATE_RECORD"[10] != "DUPLICATE_UTID"[10];
  }

  /** No submission is ever refused as malformed or as holding a record seen before. */
  lemma NeverRefused(s: State, backoff: Backoff, call: int)
    requires Reachable(s, backoff) && call in s.replies
    ensures s.replies[call] != ErrorReply(409, "DUPLICATE_RECORD")
    ensures s.replies[call] != ErrorReply(400, "INVALID_REQUEST")
  {
    Safety.ReachableInv(s, backoff);
    var row := s.db.batches[s.calls[call].batchId];
    TrueReplyIsNoRefusal(s.stub, row, s.calls[call].request, s.replies[call]);
  }

  /** `DUPLICATE_RECORD` is never reached, even as an answer that would be lost on the way. */
  lemma DuplicateRecordNotReached(s: State, backoff: Backoff, call: int, draw: Draw)
    requires Reachable(s, backoff) && call in s.calls && s.calls[call].request.SubmitRequest?
    requires FreshDraw(s.stub, s.calls[call].request, draw)
    ensures Decode(s.calls[call].request.document).Ok?
    ensures Record(s.stub, Decode(s.calls[call].request.document).value, draw).1 != Err(DuplicateRecord)
  {
    Safety.ReachableInv(s, backoff);
    assert CallOk(s.db, s.stub, s.calls[call]);
    var id := s.calls[call].batchId;
    assert BatchOk(s.db, id, s.db.batches[id]);
    if !IsRecorded(s.stub, s.db.batches[id]) {
      ArrivalSteps.NoDuplicateRecord(s.db, s.stub, id);
    }
  }

  /**
   A batch has a receipt exactly from submitted on, or possibly when failed, and it is the
   receiver's for its UTID.
   */
  lemma ReceiptExactlyFromSubmitted(s: State, backoff: Backoff, id: int)
    requires Reachable(s, backoff) && id in s.db.batches
    ensures var row := s.db.batches[id];
            && (row.state in {Planned, Submitting, SubmitUnknown} ==> row.receipt.None?)
            && (row.state in {Submitted, AwaitingAck, BatchAcknowledged} ==> row.receipt.Some?)
            && (row.receipt.Some? ==>
                  && FindByUtid(s.stub, row.firm, row.utid).Some?
                  && FindByUtid(s.stub, row.firm, row.utid).value.receiptId == row.receipt.value
                  && FindByReceipt(s.stub, row.firm, row.receipt.value) == FindByUtid(s.stub, row.firm, row.utid))
  {
    hide DbOk, LinksOk, DocumentOk, PendingOk, SubmissionOk;
    Safety.ReachableInv(s, backoff);
    ReceiptByState(s, backoff, id);
    var row := s.db.batches[id];
    assert ReceiptAgrees(s.stub, row);
    if row.receipt.Some? {
      FoundByReceipt(s, backoff, id);
    }
  }

  lemma FoundByReceipt(s: State, backoff: Backoff, id: int)
    requires Reachable(s, backoff) && id in s.db.batches && s.db.batches[id].receipt.Some?
    ensures var row := s.db.batches[id];
            FindByReceipt(s.stub, row.firm, row.receipt.value) == FindByUtid(s.stub, row.firm, row.utid)
  {
    Safety.ReachableInv(s, backoff);
    var row := s.db.batches[id];
    assert ReceiptAgrees(s.stub, row);
    assert SubmissionOk(s.db, s.stub, FirmUtid(row.firm, row.utid), SubmissionOf(s.stub, row));
  }

  /** The check of the table on receipts never fires. */
  lemma ReceiptByState(s: State, backoff: Backoff, id: int)
    requires Reachable(s, backoff) && id in s.db.batches
    ensures var row := s.db.batches[id];
            && ReceiptAllowed(row)
            && (row.state in {Planned, Submitting, SubmitUnknown} ==> row.receipt.None?)
            && (row.state in {Submitted, AwaitingAck, BatchAcknowledged} ==> row.receipt.Some?)
  {
    hide Reachable, Run, DbOk, ReceiptAllowed;
    Safety.ReachableInv(s, backoff);
    ReceiptRows(s.db, id);
  }

  lemma ReceiptRows(db: Db, id: int)
    requires DbOk(db) && id in db.batches
    ensures var row := db.batches[id];
            && ReceiptAllowed(row)
            && (row.state in {Planned, Submitting, SubmitUnknown} ==> row.receipt.None?)
            && (row.state in {Submitted, AwaitingAck, BatchAcknowledged} ==> row.receipt.Some?)
  {
    hide DocumentOk;
    assert BatchOk(db, id, db.batches[id]);
    var state := db.batches[id].state;
    assert state.Planned? || state.Submitting? || state.SubmitUnknown? || state.Submitted? || state.AwaitingAck?
        || state.BatchAcknowledged? || state.InvariantFailed?;
  }

  /** Once a batch is acknowledged every one of its filings carries the receiver's frozen result for it. */
  lemma AcknowledgedEqualsFrozenResults(s: State, backoff: Backoff, id: int, i: nat)
    requires Reachable(s, backoff) && id in s.db.batches && s.db.batches[id].state.BatchAcknowledged?
    requires i < |s.db.batches[id].links|
    ensures var row := s.db.batches[id];
            && IsRecorded(s.stub, row)
            && i < |SubmissionOf(s.stub, row).results| && row.links[i] in s.db.filings
            && var filing, result := s.db.filings[row.links[i]], SubmissionOf(s.stub, row).results[i];
            && filing.state.FilingAccepted?
            && result == AcceptedRecord(filing.key, filing.state.irsRecordId)
  {
    Safety.ReachableInv(s, backoff);
    var row := s.db.batches[id];
    assert BatchOk(s.db, id, row);
    assert ResultsAgree(s.db, s.stub, row);
    RecordedFits(s, FirmUtid(row.firm, row.utid));
    var link := row.links[i];
    assert link in s.db.filings;
  }

  /** A filing has a result only when its batch is acknowledged. */
  lemma DecidedFilingIsAcknowledged(s: State, f: int)
    requires Inv(s) && f in s.db.filings
    requires s.db.filings[f].state.FilingAccepted? || s.db.filings[f].state.FilingRejected?
    ensures f in s.db.batchOfFiling && s.db.batchOfFiling[f] in s.db.batches
    ensures s.db.batches[s.db.batchOfFiling[f]].state.BatchAcknowledged?
    ensures f in s.db.batches[s.db.batchOfFiling[f]].links
  {
    assert FilingOk(s.db, f, s.db.filings[f]);
    var id := s.db.batchOfFiling[f];
    var row := s.db.batches[id];
    assert BatchOk(s.db, id, row);
    var i :| 0 <= i < |row.links| && row.links[i] == f;
  }

  /** The result of a decided filing is the acceptance the receiver froze for it. */
  lemma DecidedFilingIsAccepted(s: State, f: int)
    requires Inv(s) && f in s.db.filings
    requires s.db.filings[f].state.FilingAccepted? || s.db.filings[f].state.FilingRejected?
    ensures s.db.filings[f].state.FilingAccepted?
  {
    DecidedFilingIsAcknowledged(s, f);
    var id := s.db.batchOfFiling[f];
    var row := s.db.batches[id];
    assert Agree(s.db, s.stub) && id in s.db.batches;
    assert ResultsAgree(s.db, s.stub, row);
    var i :| 0 <= i < |row.links| && row.links[i] == f;
  }

  /**
   With the stub as receiver no filing in any run is ever rejected: preflight has already excluded
   what it refuses.
   */
  lemma NoFilingRejected(s: State, backoff: Backoff, f: int)
    requires Reachable(s, backoff) && f in s.db.filings
    ensures !s.db.filings[f].state.FilingRejected?
  {
    Safety.ReachableInv(s, backoff);
    if !s.db.filings[f].state.Blocked? && !s.db.filings[f].state.Ready? && !s.db.filings[f].state.Batched? {
      DecidedFilingIsAccepted(s, f);
    }
  }

  /** A filing accepted locally is live at the receiver, under its batch's UTID, with that very record identifier. */
  lemma AcceptedFilingIsLive(s: State, backoff: Backoff, f: int)
    requires Reachable(s, backoff) && f in s.db.filings && s.db.filings[f].state.FilingAccepted?
    ensures exists k, i :: k in s.stub.byUtid && k.firm == s.db.filings[f].firm && 0 <= i < |s.stub.byUtid[k].results|
              && s.stub.byUtid[k].results[i] == AcceptedRecord(s.db.filings[f].key, s.db.filings[f].state.irsRecordId)
  {
    Safety.ReachableInv(s, backoff);
    DecidedFilingIsAcknowledged(s, f);
    var id := s.db.batchOfFiling[f];
    var row := s.db.batches[id];
    var i :| 0 <= i < |row.links| && row.links[i] == f;
    AcknowledgedEqualsFrozenResults(s, backoff, id, i);
    assert BatchOk(s.db, id, row);
    var k := FirmUtid(row.firm, row.utid);
    assert k in s.stub.byUtid;
    assert s.stub.byUtid[k].results[i]
        == AcceptedRecord(s.db.filings[f].key, s.db.filings[f].state.irsRecordId);
  }
}
