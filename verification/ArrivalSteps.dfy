/** A request that reaches the receiver, at whatever time, keeps the invariant and is answered truthfully. */
module ArrivalSteps {
  import opened Prelude
  import opened Intake
  import opened Stub
  import opened Client
  import opened Filing
  import opened Planning
  import opened System
  import opened Invariant

  /** A recorded submission of a batch can be read by the client. */
  lemma RecordedIsReadable(db: Db, stub: StubState, id: int)
    requires DbOk(db) && StubOk(db, stub) && id in db.batches && IsRecorded(stub, db.batches[id])
    ensures var row := db.batches[id];
            var recorded := SubmissionOf(stub, row);
            && SubmissionOk(db, stub, FirmUtid(row.firm, row.utid), recorded)
            && db.batchByUtid[FirmUtid(row.firm, row.utid)] == id
            && ResultsFit(db, row, recorded)
            && Readable(recorded)
  {
    var row := db.batches[id];
    assert BatchOk(db, id, row);
    var recorded := SubmissionOf(stub, row);
    assert SubmissionOk(db, stub, FirmUtid(row.firm, row.utid), recorded);
    forall i | 0 <= i < |recorded.results|
      ensures recorded.results[i].recordId != ""
    {
      var link := row.links[i];
      assert link in db.filings && recorded.results[i].recordId == db.filings[link].key;
      assert FilingOk(db, link, db.filings[link]);
    }
  }

  lemma StatusAnswerTrue(db: Db, stub: StubState, id: int, request: Request, stubNow: int)
    requires DbOk(db) && StubOk(db, stub) && id in db.batches
    requires RequestOk(stub, db.batches[id], request) && !request.SubmitRequest?
    ensures ReplyTrue(stub, db.batches[id], request,
                      Serve(stub, request, Draw(IntakeSucceeded, "", [], None), stubNow).1)
  {
    var row := db.batches[id];
    if IsRecorded(stub, row) {
      RecordedIsReadable(db, stub, id);
      AnswersAreReadable(SubmissionOf(stub, row), stubNow);
    }
  }

  /** Why `DUPLICATE_RECORD` cannot occur: an original record's batch is recorded, and a filing has only one batch. */
  lemma NoDuplicateRecord(db: Db, stub: StubState, id: int)
    requires DbOk(db) && StubOk(db, stub) && id in db.batches && !IsRecorded(stub, db.batches[id])
    ensures Decode(db.batches[id].document).Ok?
    ensures !RecordedBefore(stub, Decode(db.batches[id].document).value)
  {
    var row := db.batches[id];
    assert BatchOk(db, id, row);
    var tx := Decode(row.document).value;
    forall i | 0 <= i < |tx.records|
      ensures KeyOf(tx, tx.records[i]) !in stub.originals
    {
      var link := row.links[i];
      assert tx.records[i] == RecordOf(db.filings[link]);
      assert FilingOk(db, link, db.filings[link]);
      assert db.batchOfFiling[link] == id;
      var key := KeyOf(tx, tx.records[i]);
      assert key in stub.originals ==> OriginalOk(db, stub, key);
    }
  }

  // Recording

  lemma RecordedResults(db: Db, id: int, draw: Draw)
    requires DbOk(db) && id in db.batches
    requires Decode(db.batches[id].document).Ok?
    requires |draw.recordIds| == |Decode(db.batches[id].document).value.records|
    requires forall i :: 0 <= i < |draw.recordIds| ==> draw.recordIds[i] != ""
    ensures ResultsFit(db, db.batches[id], SubmissionFor(Decode(db.batches[id].document).value, draw))
  {
    var row := db.batches[id];
    assert BatchOk(db, id, row);
    var tx := Decode(row.document).value;
    var results := Results(tx.records, draw.recordIds);
    forall i | 0 <= i < |row.links|
      ensures row.links[i] in db.filings
      ensures results[i] == AcceptedRecord(db.filings[row.links[i]].key, draw.recordIds[i])
    {
      var link := row.links[i];
      assert link in db.batchOfFiling;
      assert FilingOk(db, link, db.filings[link]);
      assert tx.records[i] == RecordOf(db.filings[link]);
    }
  }

  /** The receiver's state after it records the batch's document. */
  function AfterRecord(stub: StubState, tx: Transmission, draw: Draw): StubState
    requires |draw.recordIds| == |tx.records|
  {
    StubState(stub.byUtid[FirmUtid(tx.firm, tx.utid) := SubmissionFor(tx, draw)],
              stub.byReceipt[draw.receiptId := SubmissionFor(tx, draw)],
              stub.originals + KeysOf(tx),
              stub.generated + {draw.receiptId} + UsedIds(tx.records, draw.recordIds))
  }

  ghost predicate NewSubmission(db: Db, stub: StubState, id: int, tx: Transmission, draw: Draw) {
    && DbOk(db) && StubOk(db, stub) && id in db.batches && !IsRecorded(stub, db.batches[id])
    && Decode(db.batches[id].document) == Ok(tx)
    && NewIds(stub, tx, draw)
  }

  lemma DecodedNames(db: Db, stub: StubState, id: int, tx: Transmission, draw: Draw)
    requires NewSubmission(db, stub, id, tx, draw)
    ensures tx.firm == db.batches[id].firm && tx.utid == db.batches[id].utid
    ensures FirmUtid(tx.firm, tx.utid) !in stub.byUtid
    ensures forall r :: r in stub.byReceipt ==> ReceiptIndexOk(stub, r)
  {
    assert BatchOk(db, id, db.batches[id]);
  }

  lemma AfterRecordGrows(db: Db, stub: StubState, id: int, tx: Transmission, draw: Draw)
    requires NewSubmission(db, stub, id, tx, draw)
    ensures tx.firm == db.batches[id].firm && tx.utid == db.batches[id].utid
    ensures StubGrows(stub, AfterRecord(stub, tx, draw))
  {
    hide DbOk, StubOk;
    DecodedNames(db, stub, id, tx, draw);
    assert draw.receiptId in stub.byReceipt ==> ReceiptIndexOk(stub, draw.receiptId);
  }

  lemma AfterRecordSubmissions(db: Db, stub: StubState, id: int, tx: Transmission, draw: Draw)
    requires NewSubmission(db, stub, id, tx, draw)
    ensures var after := AfterRecord(stub, tx, draw);
            forall k :: k in after.byUtid ==> SubmissionOk(db, after, k, after.byUtid[k])
  {
    AfterRecordGrows(db, stub, id, tx, draw);
    RecordedResults(db, id, draw);
    var after := AfterRecord(stub, tx, draw);
    assert BatchOk(db, id, db.batches[id]);
    forall k | k in after.byUtid
      ensures SubmissionOk(db, after, k, after.byUtid[k])
    {
      if k != FirmUtid(tx.firm, tx.utid) {
        assert SubmissionOk(db, stub, k, stub.byUtid[k]);
      }
    }
  }

  lemma AfterRecordReceipts(db: Db, stub: StubState, id: int, tx: Transmission, draw: Draw)
    requires NewSubmission(db, stub, id, tx, draw)
    ensures var after := AfterRecord(stub, tx, draw);
            forall r :: r in after.byReceipt ==> ReceiptIndexOk(after, r)
  {
    AfterRecordGrows(db, stub, id, tx, draw);
    var after := AfterRecord(stub, tx, draw);
    forall r | r in after.byReceipt
      ensures ReceiptIndexOk(after, r)
    {
      if r != draw.receiptId {
        assert ReceiptIndexOk(stub, r);
      }
    }
  }

  lemma AfterRecordOriginals(db: Db, stub: StubState, id: int, tx: Transmission, draw: Draw)
    requires NewSubmission(db, stub, id, tx, draw)
    ensures var after := AfterRecord(stub, tx, draw);
            forall key :: key in after.originals ==> OriginalOk(db, after, key)
  {
    AfterRecordGrows(db, stub, id, tx, draw);
    var after := AfterRecord(stub, tx, draw);
    var row := db.batches[id];
    assert BatchOk(db, id, row);
    forall key | key in after.originals
      ensures OriginalOk(db, after, key)
    {
      if key in stub.originals {
        assert OriginalOk(db, stub, key);
      } else {
        var i :| 0 <= i < |tx.records| && key == KeyOf(tx, tx.records[i]);
        var link := row.links[i];
        assert tx.records[i] == RecordOf(db.filings[link]);
        assert FilingOk(db, link, db.filings[link]);
        assert db.batchOfFiling[link] == id;
      }
    }
  }

  lemma AgreeStable(db: Db, stub: StubState, after: StubState)
    requires Agree(db, stub) && StubGrows(stub, after)
    ensures Agree(db, after)
  {
    forall id | id in db.batches
      ensures ReceiptAgrees(after, db.batches[id]) && ResultsAgree(db, after, db.batches[id])
    {
      assert ReceiptAgrees(stub, db.batches[id]) && ResultsAgree(db, stub, db.batches[id]);
    }
  }

  lemma NewArrival(db: Db, stub: StubState, id: int, tx: Transmission, draw: Draw)
    requires NewSubmission(db, stub, id, tx, draw)
    ensures StubOk(db, AfterRecord(stub, tx, draw)) && StubGrows(stub, AfterRecord(stub, tx, draw))
    ensures IsRecorded(AfterRecord(stub, tx, draw), db.batches[id])
    ensures SubmissionOf(AfterRecord(stub, tx, draw), db.batches[id]) == SubmissionFor(tx, draw)
  {
    hide DbOk, SubmissionOk, ReceiptIndexOk, OriginalOk, NewIds;
    AfterRecordGrows(db, stub, id, tx, draw);
    AfterRecordSubmissions(db, stub, id, tx, draw);
    AfterRecordReceipts(db, stub, id, tx, draw);
    AfterRecordOriginals(db, stub, id, tx, draw);
  }

  /** A submit request of a batch that is not recorded. */
  lemma ServedFirst(db: Db, stub: StubState, id: int, tx: Transmission, draw: Draw)
    requires NewSubmission(db, stub, id, tx, draw)
    ensures ServeIntake(stub, db.batches[id].document, draw)
         == if draw.fault.FailBeforeRecord? then (stub, ErrorReply(503, "SERVICE_UNAVAILABLE"))
            else (AfterRecord(stub, tx, draw),
                  if draw.fault.IntakeSucceeded? then ReceiptReply(draw.receiptId)
                  else ErrorReply(503, "SERVICE_UNAVAILABLE"))
  {
    hide DbOk, StubOk, NewIds;
    NoDuplicateRecord(db, stub, id);
    DecodedNames(db, stub, id, tx, draw);
  }

  /** A submit request of a batch that is recorded. */
  lemma ServedAgain(db: Db, stub: StubState, id: int, draw: Draw)
    requires DbOk(db) && id in db.batches && IsRecorded(stub, db.batches[id])
    requires FreshDraw(stub, SubmitRequest(db.batches[id].document), draw)
    ensures ServeIntake(stub, db.batches[id].document, draw) == (stub, ErrorReply(409, "DUPLICATE_UTID"))
  {
    assert BatchOk(db, id, db.batches[id]);
  }

  lemma IsNewSubmission(db: Db, stub: StubState, id: int, draw: Draw)
    requires DbOk(db) && StubOk(db, stub) && id in db.batches && !IsRecorded(stub, db.batches[id])
    requires FreshDraw(stub, SubmitRequest(db.batches[id].document), draw)
    ensures Decode(db.batches[id].document).Ok?
    ensures NewSubmission(db, stub, id, Decode(db.batches[id].document).value, draw)
  {
    assert BatchOk(db, id, db.batches[id]);
  }

  /** A submit request of a batch, arriving now. */
  lemma SubmitArrival(db: Db, stub: StubState, id: int, draw: Draw)
    requires DbOk(db) && StubOk(db, stub) && id in db.batches
    requires FreshDraw(stub, SubmitRequest(db.batches[id].document), draw)
    ensures var (after, reply) := ServeIntake(stub, db.batches[id].document, draw);
            && StubOk(db, after) && StubGrows(stub, after)
            && ReplyTrue(after, db.batches[id], SubmitRequest(db.batches[id].document), reply)
  {
    hide DbOk, StubOk, NewSubmission, ServeIntake, AfterRecord, FreshDraw;
    if IsRecorded(stub, db.batches[id]) {
      ServedAgain(db, stub, id, draw);
    } else {
      IsNewSubmission(db, stub, id, draw);
      var tx := Decode(db.batches[id].document).value;
      ServedFirst(db, stub, id, tx, draw);
      NewArrival(db, stub, id, tx, draw);
    }
  }

  /** Any request in flight, arriving now. */
  lemma ArrivalKeepsReceiver(db: Db, stub: StubState, call: Call, draw: Draw, stubNow: int)
    requires DbOk(db) && StubOk(db, stub) && Agree(db, stub)
    requires CallOk(db, stub, call) && FreshDraw(stub, call.request, draw)
    ensures var (after, reply) := Serve(stub, call.request, draw, stubNow);
            && StubOk(db, after) && StubGrows(stub, after) && Agree(db, after)
            && ReplyTrue(after, db.batches[call.batchId], call.request, reply)
  {
    if call.request.SubmitRequest? {
      SubmitArrival(db, stub, call.batchId, draw);
      AgreeStable(db, stub, ServeIntake(stub, call.request.document, draw).0);
    } else {
      StatusAnswerTrue(db, stub, call.batchId, call.request, stubNow);
    }
  }
}
