/** What holds of the database, the receiver, the network and the workers in every reachable state. */
module Invariant {
  import opened Prelude
  import opened Intake
  import opened Stub
  import opened Client
  import opened Filing
  import opened Planning
  import opened System

  // The database

  ghost predicate FilingOk(db: Db, id: int, row: FilingRow) {
    && row.key in db.filingByKey && db.filingByKey[row.key] == id
    && row.key != ""
    && (!row.state.Blocked? ==> Accepts(RecordOf(row)))
    && (row.state.Blocked? || row.state.Ready? <==> id !in db.batchOfFiling)
    && (row.state.Ready? ==> Prepared(row))
  }

  ghost predicate FilingsOk(db: Db) {
    && (forall id :: id in db.filings ==> FilingOk(db, id, db.filings[id]))
    && (forall k :: k in db.filingByKey ==> db.filingByKey[k] in db.filings)
    && (forall id :: id in db.batchOfFiling ==>
          id in db.filings && db.batchOfFiling[id] in db.batches && id in db.batches[db.batchOfFiling[id]].links)
  }

  /** The batch's links are filings of its firm and client, each linked to it alone. */
  ghost predicate LinksOk(db: Db, id: int, row: Batch) {
    && row.links != []
    && Distinct(row.links)
    && forall i :: 0 <= i < |row.links| ==>
         && row.links[i] in db.filings
         && row.links[i] in db.batchOfFiling && db.batchOfFiling[row.links[i]] == id
         && db.filings[row.links[i]].firm == row.firm && db.filings[row.links[i]].client == row.client
  }

  /** The stored document decodes, at the receiver, to the records of the linked filings. */
  ghost predicate DocumentOk(db: Db, row: Batch)
    requires forall i :: 0 <= i < |row.links| ==> row.links[i] in db.filings
  {
    && Decode(row.document).Ok?
    && var tx := Decode(row.document).value;
    && tx.firm == row.firm && tx.client == row.client && tx.utid == row.utid
    && |tx.records| == |row.links|
    && forall i :: 0 <= i < |row.links| ==> tx.records[i] == RecordOf(db.filings[row.links[i]])
  }

  predicate Unsubmitted(state: BatchState) {
    state in {Planned, Submitting, SubmitUnknown}
  }

  ghost predicate ReceiptOk(db: Db, id: int, row: Batch) {
    && (Unsubmitted(row.state) ==> row.receipt.None?)
    && (row.state in {Submitted, AwaitingAck, BatchAcknowledged} ==> row.receipt.Some?)
    && (row.receipt.Some? ==> row.receipt.value != "" && row.receipt.value in db.batchByReceipt
                              && db.batchByReceipt[row.receipt.value] == id)
  }

  ghost predicate PendingOk(db: Db, row: Batch)
    requires forall i :: 0 <= i < |row.links| ==> row.links[i] in db.filings
  {
    !row.state.BatchAcknowledged? ==> forall i :: 0 <= i < |row.links| ==> db.filings[row.links[i]].state.Batched?
  }

  ghost predicate BatchOk(db: Db, id: int, row: Batch) {
    && id > 0 && row.utid != ""
    && row.digest == Sha256(row.document)
    && FirmUtid(row.firm, row.utid) in db.batchByUtid && db.batchByUtid[FirmUtid(row.firm, row.utid)] == id
    && LinksOk(db, id, row)
    && DocumentOk(db, row)
    && ReceiptOk(db, id, row)
    && PendingOk(db, row)
  }

  ghost predicate IndexesOk(db: Db) {
    && (forall k :: k in db.batchByUtid ==>
          && db.batchByUtid[k] in db.batches
          && db.batches[db.batchByUtid[k]].firm == k.firm && db.batches[db.batchByUtid[k]].utid == k.utid)
    && (forall r :: r in db.batchByReceipt ==>
          && db.batchByReceipt[r] in db.batches
          && db.batches[db.batchByReceipt[r]].receipt == Some(r))
  }

  ghost predicate DbOk(db: Db) {
    && FilingsOk(db)
    && IndexesOk(db)
    && forall id :: id in db.batches ==> BatchOk(db, id, db.batches[id])
  }

  // The receiver

  /** The frozen results are one acceptance for each linked filing, in slot order. */
  ghost predicate ResultsFit(db: Db, row: Batch, recorded: Submission) {
    && |recorded.results| == |row.links|
    && forall i :: 0 <= i < |row.links| ==>
         && row.links[i] in db.filings
         && recorded.results[i].AcceptedRecord?
         && recorded.results[i].recordId == db.filings[row.links[i]].key
         && recorded.results[i].irsRecordId != ""
  }

  ghost predicate SubmissionOk(db: Db, stub: StubState, k: FirmUtid, recorded: Submission) {
    && k in db.batchByUtid && db.batchByUtid[k] in db.batches
    && recorded.firm == k.firm && recorded.utid == k.utid
    && recorded.client == db.batches[db.batchByUtid[k]].client
    && ResultsFit(db, db.batches[db.batchByUtid[k]], recorded)
    && recorded.receiptId != "" && |recorded.receiptId| <= 256
    && recorded.receiptId in stub.generated
    && recorded.receiptId in stub.byReceipt && stub.byReceipt[recorded.receiptId] == recorded
  }

  ghost predicate ReceiptIndexOk(stub: StubState, receiptId: string) {
    receiptId in stub.byReceipt ==>
      var recorded := stub.byReceipt[receiptId];
      && recorded.receiptId == receiptId && receiptId in stub.generated
      && FirmUtid(recorded.firm, recorded.utid) in stub.byUtid
      && stub.byUtid[FirmUtid(recorded.firm, recorded.utid)] == recorded
  }

  /** An original record belongs to the batch its filing is linked to, and that batch is recorded. */
  ghost predicate OriginalOk(db: Db, stub: StubState, key: RecordKey) {
    && key.recordId in db.filingByKey
    && db.filingByKey[key.recordId] in db.batchOfFiling
    && var id := db.batchOfFiling[db.filingByKey[key.recordId]];
    && id in db.batches
    && FirmUtid(db.batches[id].firm, db.batches[id].utid) in stub.byUtid
  }

  ghost predicate StubOk(db: Db, stub: StubState) {
    && (forall k :: k in stub.byUtid ==> SubmissionOk(db, stub, k, stub.byUtid[k]))
    && (forall r :: r in stub.byReceipt ==> ReceiptIndexOk(stub, r))
    && (forall key :: key in stub.originals ==> OriginalOk(db, stub, key))
  }

  predicate IsRecorded(stub: StubState, row: Batch) {
    FirmUtid(row.firm, row.utid) in stub.byUtid
  }

  function SubmissionOf(stub: StubState, row: Batch): Submission
    requires IsRecorded(stub, row)
  {
    stub.byUtid[FirmUtid(row.firm, row.utid)]
  }

  // Local and remote agree

  ghost predicate ReceiptAgrees(stub: StubState, row: Batch) {
    row.receipt.Some? ==> IsRecorded(stub, row) && SubmissionOf(stub, row).receiptId == row.receipt.value
  }

  ghost predicate ResultsAgree(db: Db, stub: StubState, row: Batch) {
    row.state.BatchAcknowledged? ==>
      && IsRecorded(stub, row)
      && |SubmissionOf(stub, row).results| == |row.links|
      && forall i :: 0 <= i < |row.links| ==>
           && row.links[i] in db.filings
           && SubmissionOf(stub, row).results[i].AcceptedRecord?
           && db.filings[row.links[i]].state.FilingAccepted?
           && db.filings[row.links[i]].state.irsRecordId == SubmissionOf(stub, row).results[i].irsRecordId
  }

  ghost predicate Agree(db: Db, stub: StubState) {
    forall id :: id in db.batches ==> ReceiptAgrees(stub, db.batches[id]) && ResultsAgree(db, stub, db.batches[id])
  }

  // The network

  /** A request names the batch's own document, UTID or receipt. */
  ghost predicate RequestOk(stub: StubState, row: Batch, request: Request) {
    match request
    case SubmitRequest(document) => document == row.document
    case SearchReceipt(firm, receiptId) =>
      firm == row.firm && IsRecorded(stub, row) && SubmissionOf(stub, row).receiptId == receiptId
    case SearchUtid(firm, utid) => firm == row.firm && utid == row.utid
  }

  ghost predicate CallOk(db: Db, stub: StubState, call: Call) {
    call.batchId in db.batches && RequestOk(stub, db.batches[call.batchId], call.request)
  }

  ghost predicate StatusTrue(stub: StubState, row: Batch, receiptId: string, utid: string, status: string,
                             outcomes: seq<Outcome>)
  {
    && IsRecorded(stub, row)
    && utid == row.utid && receiptId == SubmissionOf(stub, row).receiptId
    && (status != "Processing" ==> outcomes == OutcomesOf(WiresOf(SubmissionOf(stub, row).results)))
  }

  /** An answer the receiver gave stays true of it. It never refuses a document and never sees a duplicate record. */
  ghost predicate ReplyTrue(stub: StubState, row: Batch, request: Request, reply: Reply) {
    match reply
    case ReceiptReply(receiptId) =>
      request.SubmitRequest? && IsRecorded(stub, row) && SubmissionOf(stub, row).receiptId == receiptId
    case StatusReply(receiptId, utid, status, outcomes) =>
      !request.SubmitRequest? && StatusTrue(stub, row, receiptId, utid, status, outcomes)
    case ErrorReply(httpStatus, code) =>
      || NetworkFault(reply)
      || (request.SubmitRequest? && httpStatus == 409 && code == "DUPLICATE_UTID" && IsRecorded(stub, row))
      || (request.SearchUtid? && httpStatus == 404 && code == "NOT_FOUND")
    case TransportFailure => true
    case ProtocolFailure => true
  }

  ghost predicate CallsOk(s: State) {
    && (forall c :: c in s.calls ==> CallOk(s.db, s.stub, s.calls[c]))
    && (forall c :: c in s.replies ==>
          c in s.calls && s.calls[c].batchId in s.db.batches
          && ReplyTrue(s.stub, s.db.batches[s.calls[c].batchId], s.calls[c].request, s.replies[c]))
  }

  // The workers

  /** The work repeats the batch's immutable columns, and a receipt it carries is the receiver's. */
  ghost predicate WorkMatches(stub: StubState, row: Batch, work: Work) {
    && work.firm == row.firm && work.client == row.client && work.utid == row.utid
    && work.document == row.document && work.digest == row.digest
    && (work.action.PollStatus? <==> work.receiptId != "")
    && (work.receiptId != "" ==> IsRecorded(stub, row) && SubmissionOf(stub, row).receiptId == work.receiptId)
  }

  /** While the row still carries the work's token, the row is as the claim left it. */
  ghost predicate TokenCurrent(row: Batch, work: Work) {
    row.lease.Some? && row.lease.value.token == work.token ==>
      && ActionFor(row.state) == Some(work.action) && !row.state.Submitted?
      && row.attempts == work.attempts
      && ReceiptText(row.receipt) == work.receiptId
  }

  ghost predicate WorkOk(s: State, worker: string, work: Work) {
    && work.batchId in s.db.batches
    && WorkMatches(s.stub, s.db.batches[work.batchId], work)
    && TokenCurrent(s.db.batches[work.batchId], work)
    && work.token in s.tokens && s.tokens[work.token] == worker
  }

  ghost predicate PhaseOk(s: State, worker: string, phase: Phase) {
    match phase
    case Idle => true
    case Claimed(work) => WorkOk(s, worker, work)
    case Permitted(work) => WorkOk(s, worker, work)
    case Calling(work, call) =>
      WorkOk(s, worker, work) && call in s.calls && s.calls[call] == Call(work.batchId, RequestFor(work))
    case Answered(work, reply) =>
      WorkOk(s, worker, work) && ReplyTrue(s.stub, s.db.batches[work.batchId], RequestFor(work), reply)
  }

  ghost predicate WorkersOk(s: State) {
    && (forall w :: w in s.workers ==> PhaseOk(s, w, s.workers[w]))
    && (forall id :: id in s.db.batches && s.db.batches[id].lease.Some? ==>
          s.db.batches[id].lease.value.token in s.tokens)
  }

  ghost predicate Inv(s: State) {
    && DbOk(s.db)
    && StubOk(s.db, s.stub)
    && Agree(s.db, s.stub)
    && CallsOk(s)
    && WorkersOk(s)
  }

  // Monotonicity

  predicate SameBatch(a: Batch, b: Batch) {
    && a.firm == b.firm && a.client == b.client && a.taxYear == b.taxYear && a.utid == b.utid
    && a.document == b.document && a.digest == b.digest && a.links == b.links
  }

  predicate SameFiling(a: FilingRow, b: FilingRow) {
    a == b.(state := a.state)
  }

  /** Rows are never removed, and their immutable columns and index entries never change. */
  ghost predicate DbGrows(a: Db, b: Db) {
    && (forall id :: id in a.batches ==> id in b.batches && SameBatch(a.batches[id], b.batches[id]))
    && (forall id :: id in a.filings ==> id in b.filings && SameFiling(a.filings[id], b.filings[id]))
    && (forall k :: k in a.batchByUtid ==> k in b.batchByUtid && b.batchByUtid[k] == a.batchByUtid[k])
    && (forall k :: k in a.filingByKey ==> k in b.filingByKey && b.filingByKey[k] == a.filingByKey[k])
    && (forall id :: id in a.batchOfFiling ==> id in b.batchOfFiling && b.batchOfFiling[id] == a.batchOfFiling[id])
  }

  /** What is recorded stays recorded, unchanged. */
  ghost predicate StubGrows(a: StubState, b: StubState) {
    && (forall k :: k in a.byUtid ==> k in b.byUtid && b.byUtid[k] == a.byUtid[k])
    && (forall r :: r in a.byReceipt ==> r in b.byReceipt && b.byReceipt[r] == a.byReceipt[r])
    && a.generated <= b.generated
  }

  lemma ResultsFitStable(a: Db, b: Db, row: Batch, row': Batch, recorded: Submission)
    requires ResultsFit(a, row, recorded) && SameBatch(row, row') && DbGrows(a, b)
    ensures ResultsFit(b, row', recorded)
  {
    forall i | 0 <= i < |row.links|
      ensures row.links[i] in b.filings && b.filings[row.links[i]].key == recorded.results[i].recordId
    {
      var link := row.links[i];
      assert link in a.filings && recorded.results[i].recordId == a.filings[link].key;
      assert SameFiling(a.filings[link], b.filings[link]);
    }
  }

  lemma StubOkStable(a: Db, b: Db, stub: StubState)
    requires StubOk(a, stub) && DbGrows(a, b)
    ensures StubOk(b, stub)
  {
    forall k | k in stub.byUtid
      ensures SubmissionOk(b, stub, k, stub.byUtid[k])
    {
      assert SubmissionOk(a, stub, k, stub.byUtid[k]);
      var id := a.batchByUtid[k];
      ResultsFitStable(a, b, a.batches[id], b.batches[id], stub.byUtid[k]);
    }
    forall key | key in stub.originals
      ensures OriginalOk(b, stub, key)
    {
      assert OriginalOk(a, stub, key);
      var id := a.batchOfFiling[a.filingByKey[key.recordId]];
      assert SameBatch(a.batches[id], b.batches[id]);
    }
  }

  lemma RequestOkStable(stub: StubState, stub': StubState, row: Batch, row': Batch, request: Request)
    requires RequestOk(stub, row, request) && SameBatch(row, row') && StubGrows(stub, stub')
    ensures RequestOk(stub', row', request)
  {
  }

  lemma ReplyTrueStable(stub: StubState, stub': StubState, row: Batch, row': Batch, request: Request, reply: Reply)
    requires ReplyTrue(stub, row, request, reply) && SameBatch(row, row') && StubGrows(stub, stub')
    ensures ReplyTrue(stub', row', request, reply)
  {
  }

  lemma WorkMatchesStable(stub: StubState, stub': StubState, row: Batch, row': Batch, work: Work)
    requires WorkMatches(stub, row, work) && SameBatch(row, row') && StubGrows(stub, stub')
    ensures WorkMatches(stub', row', work)
  {
  }

  /** Calls and answers outlive any growth of the database and of the receiver. */
  lemma CallsOkStable(s: State, t: State)
    requires CallsOk(s) && t.calls == s.calls && t.replies == s.replies
    requires DbGrows(s.db, t.db) && StubGrows(s.stub, t.stub)
    ensures CallsOk(t)
  {
    forall c | c in t.calls
      ensures CallOk(t.db, t.stub, t.calls[c])
    {
      var id := s.calls[c].batchId;
      assert CallOk(s.db, s.stub, s.calls[c]);
      RequestOkStable(s.stub, t.stub, s.db.batches[id], t.db.batches[id], s.calls[c].request);
    }
    forall c | c in t.replies
      ensures ReplyTrue(t.stub, t.db.batches[t.calls[c].batchId], t.calls[c].request, t.replies[c])
    {
      var id := s.calls[c].batchId;
      ReplyTrueStable(s.stub, t.stub, s.db.batches[id], t.db.batches[id], s.calls[c].request, s.replies[c]);
    }
  }

  /** A worker's phase outlives any growth that leaves its batch's row, or at least that row's token, alone. */
  lemma PhaseOkStable(s: State, t: State, worker: string, phase: Phase)
    requires PhaseOk(s, worker, phase)
    requires DbGrows(s.db, t.db) && StubGrows(s.stub, t.stub)
    requires forall c :: c in s.calls ==> c in t.calls && t.calls[c] == s.calls[c]
    requires forall k :: k in s.tokens ==> k in t.tokens && t.tokens[k] == s.tokens[k]
    requires !phase.Idle? ==> TokenCurrent(t.db.batches[phase.work.batchId], phase.work)
    ensures PhaseOk(t, worker, phase)
  {
    if !phase.Idle? {
      var work := phase.work;
      var row, row' := s.db.batches[work.batchId], t.db.batches[work.batchId];
      assert SameBatch(row, row');
      WorkMatchesStable(s.stub, t.stub, row, row', work);
      if phase.Answered? {
        ReplyTrueStable(s.stub, t.stub, row, row', RequestFor(work), phase.reply);
      }
    }
  }
}
