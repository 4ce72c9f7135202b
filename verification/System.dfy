/**
 The composed transition system: the database, any number of workers, a network that may delay,
 lose or repeat requests, and the receiver. A step is one atomic transaction, one arrival, or one
 local move of a worker; a worker may stop at any point. Assumptions: the database clock never
 goes back, claim tokens and the receiver's identifiers are fresh, and the receiver is not restarted.
 */
module System {
  import opened Prelude
  import opened Retry
  import opened Intake
  import opened Stub
  import opened Client
  import opened Filing
  import opened Planning
  import opened Worker

  datatype Request =
    | SubmitRequest(document: Document)
    | SearchReceipt(firm: string, receiptId: string)
    | SearchUtid(firm: string, utid: string)

  /** One HTTP call, on behalf of the batch its log row names. */
  datatype Call = Call(batchId: int, request: Request)

  datatype Phase =
    | Idle
    | Claimed(work: Work)
    | Permitted(work: Work)
    | Calling(work: Work, call: int)
    | Answered(work: Work, reply: Reply)

  datatype Entry = SubmitClaimed(batchId: int, utid: string, document: Document) | NotFoundCommitted(batchId: int)

  /**
   `calls` holds every request ever sent: it may reach the receiver at any later time, or never.
   `tokens` remembers which worker drew a token. `history` is the record of submit claims and of
   committed not-found lookups.
   */
  datatype State = State(db: Db, stub: StubState, now: int, workers: map<string, Phase>, calls: map<int, Call>,
                         replies: map<int, Reply>, tokens: map<string, string>, history: seq<Entry>)

  datatype Step =
    | Determine(filingId: int, row: FilingRow)
    | PlanOne(newBatch: int, group: PlannedGroup)
    | ClaimBatch(worker: string, batchId: int, leaseMicros: int, token: string)
    | AcquirePermit(worker: string)
    | Send(worker: string, call: int)
    | Arrive(call: int, draw: Draw, stubNow: int)
    | Receive(worker: string)
    | CallFails(worker: string, reply: Reply)
    | Commit(worker: string, jitter: Int64)
    | GiveUp(worker: string)
    | Tick(elapsed: nat)

  function PhaseOf(s: State, worker: string): Phase {
    if worker in s.workers then s.workers[worker] else Idle
  }

  function RequestFor(work: Work): Request {
    if work.action.Submit? then SubmitRequest(work.document)
    else if SearchesByReceipt(work) then SearchReceipt(work.firm, work.receiptId)
    else SearchUtid(work.firm, work.utid)
  }

  /**
   The identifiers an arrival draws are one for every record of the document, and fresh when they
   are drawn at all.
   */
  predicate FreshDraw(stub: StubState, request: Request, draw: Draw) {
    request.SubmitRequest? && Decode(request.document).Ok? ==>
      var tx := Decode(request.document).value;
      && |draw.recordIds| == |tx.records|
      && (FirmUtid(tx.firm, tx.utid) !in stub.byUtid ==> NewIds(stub, tx, draw))
  }

  /** `handleIntake`: decode, record, and answer; either fault answers 503. */
  function ServeIntake(stub: StubState, document: Document, draw: Draw): (StubState, Reply)
    requires FreshDraw(stub, SubmitRequest(document), draw)
  {
    match Decode(document)
    case Err(_) => (stub, ErrorReply(400, "INVALID_REQUEST"))
    case Ok(tx) =>
      var (after, result) := Record(stub, tx, draw);
      match result
      case Err(DuplicateUtid) => (after, ErrorReply(409, "DUPLICATE_UTID"))
      case Err(DuplicateRecord) => (after, ErrorReply(409, "DUPLICATE_RECORD"))
      case Ok(receiptId) =>
        (after, if draw.fault.IntakeSucceeded? then ReceiptReply(receiptId) else ErrorReply(503, "SERVICE_UNAVAILABLE"))
  }

  /** `handleStatus`, as the client reads its answer. */
  function StatusAnswer(found: Option<Submission>, stubNow: int): Reply {
    match found
    case None => ErrorReply(404, "NOT_FOUND")
    case Some(recorded) => ReadStatus(StatusOf(recorded, stubNow))
  }

  function Serve(stub: StubState, request: Request, draw: Draw, stubNow: int): (StubState, Reply)
    requires FreshDraw(stub, request, draw)
  {
    match request
    case SubmitRequest(document) => ServeIntake(stub, document, draw)
    case SearchReceipt(firm, receiptId) => (stub, StatusAnswer(FindByReceipt(stub, firm, receiptId), stubNow))
    case SearchUtid(firm, utid) => (stub, StatusAnswer(FindByUtid(stub, firm, utid), stubNow))
  }

  /** One of the document's records is recorded already, in this or another submission. */
  predicate RepeatsRecord(stub: StubState, tx: Transmission) {
    exists i :: 0 <= i < |tx.records| &&
      RecordKey(tx.firm, tx.client, tx.taxYear, tx.records[i].recordId) in stub.originals
  }

  /**
   The answers to a submission: 400 for what does not decode, 409 for a known UTID and then for a
   known record, 503 for a fault, and else the receipt. Only the last two may have recorded it.
   */
  lemma IntakeAnswersExactly(stub: StubState, document: Document, draw: Draw)
    requires FreshDraw(stub, SubmitRequest(document), draw)
    ensures var (after, reply) := ServeIntake(stub, document, draw);
            match Decode(document)
            case Err(_) => after == stub && reply == ErrorReply(400, "INVALID_REQUEST")
            case Ok(tx) =>
              var name := FirmUtid(tx.firm, tx.utid);
              if name in stub.byUtid then after == stub && reply == ErrorReply(409, "DUPLICATE_UTID")
              else if RepeatsRecord(stub, tx) then after == stub && reply == ErrorReply(409, "DUPLICATE_RECORD")
              else if draw.fault.FailBeforeRecord? then after == stub && reply == ErrorReply(503, "SERVICE_UNAVAILABLE")
              else
                && name in after.byUtid && draw.receiptId in after.byReceipt
                && after.byUtid[name] == after.byReceipt[draw.receiptId]
                && after.byUtid[name].receiptId == draw.receiptId
                && reply == if draw.fault.FailAfterRecord? then ErrorReply(503, "SERVICE_UNAVAILABLE")
                            else ReceiptReply(draw.receiptId)
  {
    if Decode(document).Ok? {
      var tx := Decode(document).value;
      forall i | 0 <= i < |tx.records|
        ensures KeyOf(tx, tx.records[i]) == RecordKey(tx.firm, tx.client, tx.taxYear, tx.records[i].recordId)
      {
      }
      assert RecordedBefore(stub, tx) <==> RepeatsRecord(stub, tx);
    }
  }

  /** A search changes nothing, and answers 404 for what the receiver does not have from this firm. */
  lemma SearchAnswersExactly(stub: StubState, firm: string, text: string, draw: Draw, stubNow: int)
    ensures var (after, reply) := Serve(stub, SearchReceipt(firm, text), draw, stubNow);
            && after == stub
            && (text !in stub.byReceipt || stub.byReceipt[text].firm != firm ==> reply == ErrorReply(404, "NOT_FOUND"))
            && (text in stub.byReceipt && stub.byReceipt[text].firm == firm ==>
                  reply == ReadStatus(StatusOf(stub.byReceipt[text], stubNow)))
    ensures var (after, reply) := Serve(stub, SearchUtid(firm, text), draw, stubNow);
            && after == stub
            && (FirmUtid(firm, text) !in stub.byUtid ==> reply == ErrorReply(404, "NOT_FOUND"))
            && (FirmUtid(firm, text) in stub.byUtid ==>
                  reply == ReadStatus(StatusOf(stub.byUtid[FirmUtid(firm, text)], stubNow)))
  {
    FindsOwnOnly(stub, firm, text, text);
  }

  /** What is sent for a claim: the stored document, a search by UTID, or one by receipt when there is one. */
  lemma RequestExactly(work: Work)
    ensures work.action.Submit? ==> RequestFor(work) == SubmitRequest(work.document)
    ensures work.action.LookupByUtid? ==> RequestFor(work) == SearchUtid(work.firm, work.utid)
    ensures work.action.PollStatus? ==>
              RequestFor(work) == if work.receiptId == "" then SearchUtid(work.firm, work.utid)
                                  else SearchReceipt(work.firm, work.receiptId)
  {
  }

  /** Failures of a call that the receiver had no part in: no answer, an unreadable one, or a gateway error. */
  predicate NetworkFault(reply: Reply) {
    || reply.TransportFailure?
    || reply.ProtocolFailure?
    || (reply.ErrorReply? && Retryable(reply.httpStatus))
  }

  predicate Enabled(s: State, step: Step) {
    match step
    case Determine(id, row) => Prepared(row)
    case PlanOne(id, group) => id > 0 && Identity.UtidPattern(group.utid, group.firm) && group.submissionId != ""
    case ClaimBatch(worker, id, leaseMicros, token) =>
      PhaseOf(s, worker).Idle? && id in s.db.batches && Due(s.db.batches[id], s.now) && token !in s.tokens
    case AcquirePermit(worker) => PhaseOf(s, worker).Claimed?
    case Send(worker, call) => PhaseOf(s, worker).Permitted? && call !in s.calls
    case Arrive(call, draw, _) => call in s.calls && FreshDraw(s.stub, s.calls[call].request, draw)
    case Receive(worker) => PhaseOf(s, worker).Calling? && PhaseOf(s, worker).call in s.replies
    case CallFails(worker, reply) => PhaseOf(s, worker).Calling? && NetworkFault(reply)
    case Commit(worker, _) => PhaseOf(s, worker).Answered? && Recordable(PhaseOf(s, worker).reply)
    case GiveUp(worker) => true
    case Tick(_) => true
  }

  function Move(s: State, worker: string, phase: Phase): State {
    s.(workers := s.workers[worker := phase])
  }

  function AfterClaim(s: State, worker: string, id: int, leaseMicros: int, token: string): State
    requires id in s.db.batches
  {
    var (row, result) := ClaimRow(id, s.db.batches[id], worker, leaseMicros, token, s.now);
    var db := s.db.(batches := s.db.batches[id := row]);
    match result
    case Err(_) => s.(db := db, tokens := s.tokens[token := worker])
    case Ok(work) =>
      s.(db := db, tokens := s.tokens[token := worker], workers := s.workers[worker := Claimed(work)],
         history := if work.action.Submit? then s.history + [SubmitClaimed(id, work.utid, work.document)]
                    else s.history)
  }

  function AfterCommit(s: State, worker: string, backoff: Backoff, jitter: Int64): State
    requires PhaseOf(s, worker).Answered?
  {
    var work, reply := PhaseOf(s, worker).work, PhaseOf(s, worker).reply;
    var event := Decide(work, reply, backoff, jitter);
    match Apply(s.db, ClaimOf(work), s.now, event)
    case Err(_) => Move(s, worker, Idle)
    case Ok(db) =>
      Move(s, worker, Idle).(db := db,
        history := if event.ReferenceNotFound? then s.history + [NotFoundCommitted(work.batchId)] else s.history)
  }

  /** The state after an enabled step; a refused insertion leaves the database as it was. */
  function Next(s: State, step: Step, backoff: Backoff): State
    requires Enabled(s, step)
  {
    match step
    case Determine(id, row) =>
      var inserted := InsertFiling(s.db, id, row);
      if inserted.Ok? then s.(db := inserted.value) else s
    case PlanOne(id, group) =>
      var inserted := InsertBatch(s.db, id, group, s.now);
      if inserted.Ok? then s.(db := inserted.value) else s
    case ClaimBatch(worker, id, leaseMicros, token) => AfterClaim(s, worker, id, leaseMicros, token)
    case AcquirePermit(worker) => Move(s, worker, Permitted(PhaseOf(s, worker).work))
    case Send(worker, call) =>
      var work := PhaseOf(s, worker).work;
      Move(s, worker, Calling(work, call)).(calls := s.calls[call := Call(work.batchId, RequestFor(work))])
    case Arrive(call, draw, stubNow) =>
      var (stub, reply) := Serve(s.stub, s.calls[call].request, draw, stubNow);
      s.(stub := stub, replies := s.replies[call := reply])
    case Receive(worker) =>
      Move(s, worker, Answered(PhaseOf(s, worker).work, s.replies[PhaseOf(s, worker).call]))
    case CallFails(worker, reply) => Move(s, worker, Answered(PhaseOf(s, worker).work, reply))
    case Commit(worker, jitter) => AfterCommit(s, worker, backoff, jitter)
    case GiveUp(worker) => Move(s, worker, Idle)
    case Tick(elapsed) => s.(now := s.now + elapsed)
  }

  function Initial(now: int): State {
    State(Db(map[], map[], map[], map[], map[], map[]), StubState(map[], map[], {}, {}), now, map[], map[], map[],
          map[], [])
  }

  /** A run applies its steps in order; a step that is not enabled does not happen. */
  function Run(s: State, steps: seq<Step>, backoff: Backoff): State {
    if steps == [] then s
    else
      var before := Run(s, steps[..|steps| - 1], backoff);
      var step := steps[|steps| - 1];
      if Enabled(before, step) then Next(before, step, backoff) else before
  }

  ghost predicate Reachable(s: State, backoff: Backoff) {
    exists start: int, steps: seq<Step> :: s == Run(Initial(start), steps, backoff)
  }
}
