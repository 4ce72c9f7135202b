/**
 Convergence: from any reachable state, once faults stop, the acknowledgment is due and attempts
 remain, at most four completed claims take a batch that has not failed to acknowledged, or five
 where a claim in progress has already seen a fault.
 */
module Convergence {
  import opened Prelude
  import opened Retry
  import opened Stub
  import opened Client
  import opened Filing
  import opened Planning
  import opened Worker
  import opened System
  import opened Invariant
  import opened Fencing
  import opened ClaimHolders
  import ArrivalSteps
  import DbSteps
  import Safety

  // A calm run

  /** The receiver serves the batch's requests without a fault, and its acknowledgment is due. */
  predicate CalmArrival(s: State, call: int, draw: Draw, stubNow: int, id: int)
    requires call in s.calls
  {
    s.calls[call].batchId == id ==>
      && draw.fault.IntakeSucceeded?
      && (id in s.db.batches && IsRecorded(s.stub, s.db.batches[id]) ==>
            Acknowledged(SubmissionOf(s.stub, s.db.batches[id]), stubNow))
  }

  /** The holder has an answer that `Finish` refuses to record, so that its claim can only lapse. */
  predicate Stuck(s: State, worker: string, id: int) {
    HolderOf(s, worker, id) && PhaseOf(s, worker).Answered? && !Recordable(PhaseOf(s, worker).reply)
  }

  /** A stuck holder returns, or its lease runs out. */
  ghost predicate Lapses(s: State, step: Step, id: int) {
    match step
    case GiveUp(worker) => Stuck(s, worker, id)
    case Tick(_) => exists w :: Stuck(s, w, id)
    case _ => false
  }

  /** No claim of the batch lapses but a stuck one, none of its calls fails on the way, and its retries are granted. */
  ghost predicate Calm(s: State, step: Step, backoff: Backoff, id: int)
    requires Enabled(s, step)
  {
    && (Prompt(s, step, id) || Lapses(s, step, id))
    && match step
       case Arrive(call, draw, stubNow) => CalmArrival(s, call, draw, stubNow, id)
       case CallFails(worker, _) => !HolderOf(s, worker, id)
       case Commit(worker, _) => HolderOf(s, worker, id) ==> !Exhausted(backoff, PhaseOf(s, worker).work.attempts)
       case _ => true
  }

  // How many more claims a batch completes, at most

  /** In a calm run from here on, by the row's state and by whether the receiver has recorded the batch. */
  function RowLevel(row: Batch, recorded: bool): nat {
    match row.state
    case BatchAcknowledged => 0
    case InvariantFailed => 0
    case Submitted => 1
    case AwaitingAck => 1
    case Planned => 3
    case Submitting => if recorded then 2 else 4
    case SubmitUnknown => if recorded then 2 else 4
  }

  /** The answer to the worker's call, once there is one. */
  function Seen(s: State, phase: Phase): Option<Reply> {
    match phase
    case Calling(_, call) => if call in s.replies then Some(s.replies[call]) else None
    case Answered(_, reply) => Some(reply)
    case _ => None
  }

  /** What a receiver without faults, whose acknowledgment is due, answers. */
  predicate GoodReply(action: Action, reply: Reply) {
    match action
    case Submit => reply.ReceiptReply? || reply == ErrorReply(409, "DUPLICATE_UTID")
    case LookupByUtid => reply.StatusReply? || reply == ErrorReply(404, "NOT_FOUND")
    case PollStatus => reply.StatusReply? && reply.status != "Processing"
  }

  /** A reply from before the calm, on which the claim completes without getting anywhere. */
  predicate Delays(action: Action, reply: Reply) {
    || reply.TransportFailure?
    || (reply.ErrorReply? && Retryable(reply.httpStatus) && Recordable(reply))
    || (action.PollStatus? && reply.StatusReply? && reply.status == "Processing")
  }

  /** Counting a claim in progress whose answer is still to come. */
  function FreshLevel(action: Action, recorded: bool): nat {
    match action
    case Submit => 3
    case LookupByUtid => if recorded then 2 else 4
    case PollStatus => 1
  }

  /** Counting a claim in progress with this answer: itself, unless it lapses, and those that follow. */
  function ReplyLevel(action: Action, reply: Reply, recorded: bool): nat {
    if reply.ProtocolFailure? then 1
    else if !Recordable(reply) then (if action.PollStatus? then 1 else if recorded then 2 else 4)
    else if Delays(action, reply) then 1 + (if action.PollStatus? then 1 else if recorded then 2 else 4)
    else
      match action
      case Submit => if reply.ReceiptReply? then 2 else 3
      case LookupByUtid => if reply.StatusReply? then 2 else 4
      case PollStatus => 1
  }

  /** An answer that has arrived may be taken, or replaced by that of a repeated request; once taken it stays. */
  function WorkLevel(action: Action, seen: Option<Reply>, answered: bool, recorded: bool): nat {
    if seen.None? then FreshLevel(action, recorded)
    else
      var level := ReplyLevel(action, seen.value, recorded);
      if answered || level > FreshLevel(action, recorded) then level else FreshLevel(action, recorded)
  }

  function HolderLevel(s: State, worker: string, id: int): nat
    requires HolderOf(s, worker, id)
  {
    var phase := PhaseOf(s, worker);
    WorkLevel(phase.work.action, Seen(s, phase), phase.Answered?, IsRecorded(s.stub, s.db.batches[id]))
  }

  /** The worker has seen an answer that it cannot read, on which it gives the batch up. */
  predicate SeesFailure(s: State, worker: string) {
    Seen(s, PhaseOf(s, worker)).Some? && Seen(s, PhaseOf(s, worker)).value.ProtocolFailure?
  }

  /** A claim in progress counts for at most `n`; a clean one is not about to fail. */
  predicate HolderWithin(s: State, worker: string, id: int, n: nat, clean: bool)
    requires HolderOf(s, worker, id)
  {
    HolderLevel(s, worker, id) <= n && (clean ==> !SeesFailure(s, worker))
  }

  ghost predicate Unheld(s: State, id: int) {
    forall w :: !HolderOf(s, w, id)
  }

  /** At most `n` claims are completed from here on; if clean, the batch neither has failed nor is about to. */
  ghost predicate Within(s: State, id: int, n: nat, clean: bool) {
    && id in s.db.batches
    && (forall w :: HolderOf(s, w, id) ==> HolderWithin(s, w, id, n, clean))
    && (Unheld(s, id) ==> RowLevel(s.db.batches[id], IsRecorded(s.stub, s.db.batches[id])) <= n)
    && (clean ==> !s.db.batches[id].state.InvariantFailed?)
  }

  // Answers

  lemma CalmStatusAnswer(db: Db, stub: StubState, id: int, request: Request, draw: Draw, stubNow: int)
    requires DbOk(db) && StubOk(db, stub) && id in db.batches && !request.SubmitRequest?
    requires RequestOk(stub, db.batches[id], request) && FreshDraw(stub, request, draw)
    requires IsRecorded(stub, db.batches[id]) ==> Acknowledged(SubmissionOf(stub, db.batches[id]), stubNow)
    ensures var (after, reply) := Serve(stub, request, draw, stubNow);
            && after == stub
            && (if IsRecorded(stub, db.batches[id]) then reply.StatusReply? && reply.status != "Processing"
                else request.SearchUtid? && reply == ErrorReply(404, "NOT_FOUND"))
  {
    if IsRecorded(stub, db.batches[id]) {
      ArrivalSteps.RecordedIsReadable(db, stub, id);
      AnswersAreReadable(SubmissionOf(stub, db.batches[id]), stubNow);
    }
  }

  lemma CalmSubmitAnswer(db: Db, stub: StubState, id: int, draw: Draw)
    requires DbOk(db) && StubOk(db, stub) && id in db.batches && draw.fault.IntakeSucceeded?
    requires FreshDraw(stub, SubmitRequest(db.batches[id].document), draw)
    ensures GoodReply(Submit, ServeIntake(stub, db.batches[id].document, draw).1)
  {
    assert BatchOk(db, id, db.batches[id]);
    if !IsRecorded(stub, db.batches[id]) {
      ArrivalSteps.NoDuplicateRecord(db, stub, id);
    }
  }

  /** The answer to a holder's call, as it arrives in a calm run. */
  lemma CalmAnswer(db: Db, stub: StubState, work: Work, draw: Draw, stubNow: int)
    requires DbOk(db) && StubOk(db, stub) && work.batchId in db.batches
    requires WorkMatches(stub, db.batches[work.batchId], work)
    requires FreshDraw(stub, RequestFor(work), draw) && draw.fault.IntakeSucceeded?
    requires IsRecorded(stub, db.batches[work.batchId]) ==>
               Acknowledged(SubmissionOf(stub, db.batches[work.batchId]), stubNow)
    ensures var (after, reply) := Serve(stub, RequestFor(work), draw, stubNow);
            && GoodReply(work.action, reply)
            && (work.action.LookupByUtid? ==>
                  after == stub && (reply.ErrorReply? <==> !IsRecorded(stub, db.batches[work.batchId])))
  {
    if work.action.Submit? {
      CalmSubmitAnswer(db, stub, work.batchId, draw);
    } else {
      CalmStatusAnswer(db, stub, work.batchId, RequestFor(work), draw, stubNow);
    }
  }

  // Completed claims

  /** The event a reply leads to, when a retry is granted. */
  predicate Forward(action: Action, reply: Reply, event: Event) {
    if reply.ProtocolFailure? then event.FailInvariant?
    else
      match action
      case Submit => if reply.ReceiptReply? then event.SubmitAccepted? else event.SubmitOutcomeUnknown?
      case LookupByUtid =>
        if reply.StatusReply? then event.ReferenceFound?
        else if Delays(action, reply) then event.StatusUnavailable?
        else event.ReferenceNotFound?
      case PollStatus =>
        if !reply.StatusReply? then event.StatusUnavailable?
        else if reply.status == "Processing" then event.AcknowledgmentPending?
        else event.CompleteAcknowledgment?
  }

  lemma ReplyIsForward(stub: StubState, row: Batch, work: Work, reply: Reply, backoff: Backoff, jitter: Int64)
    requires WorkMatches(stub, row, work) && ReplyTrue(stub, row, RequestFor(work), reply)
    requires Recordable(reply) && ReceiptsShort(reply) && !Exhausted(backoff, work.attempts)
    ensures Forward(work.action, reply, Decide(work, reply, backoff, jitter))
    ensures work.action.Submit? && reply.ErrorReply? && !Delays(work.action, reply) ==> IsRecorded(stub, row)
    ensures work.action.LookupByUtid? && reply.StatusReply? ==> IsRecorded(stub, row)
  {
  }

  /** Where each forward event leads. */
  lemma ForwardState(db: Db, claim: Claim, now: int, event: Event)
    requires Apply(db, claim, now, event).Ok? && claim.batchId in db.batches
    ensures claim.batchId in Apply(db, claim, now, event).value.batches
    ensures var state := Apply(db, claim, now, event).value.batches[claim.batchId].state;
            && (event.SubmitAccepted? || event.ReferenceFound? ==> state.Submitted?)
            && (event.SubmitOutcomeUnknown? ==> state.SubmitUnknown?)
            && (event.ReferenceNotFound? ==> state.Planned?)
            && (event.AcknowledgmentPending? ==> state.AwaitingAck?)
            && (event.StatusUnavailable? ==> state == db.batches[claim.batchId].state)
            && (event.CompleteAcknowledgment? ==> state.BatchAcknowledged?)
            && (event.FailInvariant? ==> state.InvariantFailed?)
  {
  }

  /** What a holder's commit makes of its row, with attempts left. */
  lemma CommitLevel(stub: StubState, db: Db, work: Work, reply: Reply, now: int, backoff: Backoff, jitter: Int64)
    requires work.batchId in db.batches && WorkMatches(stub, db.batches[work.batchId], work)
    requires ActionFor(db.batches[work.batchId].state) == Some(work.action)
    requires !db.batches[work.batchId].state.Submitted?
    requires ReplyTrue(stub, db.batches[work.batchId], RequestFor(work), reply)
    requires Recordable(reply) && ReceiptsShort(reply) && !Exhausted(backoff, work.attempts)
    requires Apply(db, ClaimOf(work), now, Decide(work, reply, backoff, jitter)).Ok?
    ensures var after := Apply(db, ClaimOf(work), now, Decide(work, reply, backoff, jitter)).value;
            && work.batchId in after.batches
            && RowLevel(after.batches[work.batchId], IsRecorded(stub, db.batches[work.batchId]))
               < ReplyLevel(work.action, reply, IsRecorded(stub, db.batches[work.batchId]))
            && (after.batches[work.batchId].state.InvariantFailed? ==> reply.ProtocolFailure?)
  {
    ReplyIsForward(stub, db.batches[work.batchId], work, reply, backoff, jitter);
    ForwardState(db, ClaimOf(work), now, Decide(work, reply, backoff, jitter));
  }

  lemma UniqueHolder(s: State, w: string, w': string, id: int)
    requires Inv(s) && HolderOf(s, w, id) && HolderOf(s, w', id)
    ensures w == w'
  {
    Safety.CurrentPhase(s, w);
    Safety.CurrentPhase(s, w');
  }

  lemma UnleasedIsUnheld(s: State, id: int)
    requires id in s.db.batches && Unleased(s.db.batches[id], s.now)
    ensures Unheld(s, id)
  {
  }

  lemma CommitNext(s: State, step: Step, backoff: Backoff)
    requires step.Commit? && Enabled(s, step)
    requires var work, reply := PhaseOf(s, step.worker).work, PhaseOf(s, step.worker).reply;
             Apply(s.db, ClaimOf(work), s.now, Decide(work, reply, backoff, step.jitter)).Ok?
    ensures var work, reply := PhaseOf(s, step.worker).work, PhaseOf(s, step.worker).reply;
            && Next(s, step, backoff).db
                == Apply(s.db, ClaimOf(work), s.now, Decide(work, reply, backoff, step.jitter)).value
            && Next(s, step, backoff).stub == s.stub
  {
  }

  lemma ReleasedWithin(s: State, t: State, id: int, n: nat, clean: bool)
    requires id in s.db.batches && id in t.db.batches && SameBatch(s.db.batches[id], t.db.batches[id])
    requires t.stub == s.stub && t.db.batches[id].lease.None?
    requires RowLevel(t.db.batches[id], IsRecorded(s.stub, s.db.batches[id])) < n
    requires clean ==> !t.db.batches[id].state.InvariantFailed?
    ensures Within(t, id, n - 1, clean)
  {
    UnleasedIsUnheld(t, id);
  }

  /** A completed claim is one fewer to come. */
  lemma CompletedClaim(s: State, step: Step, backoff: Backoff, id: int, n: nat, clean: bool)
    requires Inv(s) && SoundSettings(backoff) && Enabled(s, step) && Calm(s, step, backoff, id)
    requires HolderCommit(s, step, id) && Within(s, id, n, clean)
    ensures n > 0 && Within(Next(s, step, backoff), id, n - 1, clean)
  {
    hide DbOk, StubOk, Agree, CallsOk, Apply, Decide, Next;
    Safety.CurrentPhase(s, step.worker);
    var work, reply := PhaseOf(s, step.worker).work, PhaseOf(s, step.worker).reply;
    LiveCommitApplies(s, backoff, step);
    ReceiptsAreShort(s, id, RequestFor(work), reply);
    CommitLevel(s.stub, s.db, work, reply, s.now, backoff, step.jitter);
    CommitNext(s, step, backoff);
    DbSteps.EventKeepsDbOk(s.db, ClaimOf(work), s.now, Decide(work, reply, backoff, step.jitter));
    assert HolderWithin(s, step.worker, id, n, clean);
    ReleasedWithin(s, Next(s, step, backoff), id, n, clean);
  }

  // Claims

  lemma ClaimerWithin(s: State, t: State, worker: string, id: int, leaseMicros: int, token: string, n: nat, clean: bool)
    requires Safety.ClaimChange(s, t, worker, id, leaseMicros, token) && leaseMicros > 0
    requires RowLevel(s.db.batches[id], IsRecorded(s.stub, s.db.batches[id])) <= n
    ensures HolderOf(t, worker, id) && HolderWithin(t, worker, id, n, clean)
    ensures !t.db.batches[id].state.InvariantFailed?
  {
  }

  lemma ClaimWithin(s: State, t: State, worker: string, id: int, leaseMicros: int, token: string, n: nat, clean: bool)
    requires Safety.ClaimChange(s, t, worker, id, leaseMicros, token) && Inv(t)
    requires Unleased(s.db.batches[id], s.now) && leaseMicros > 0
    requires Within(s, id, n, clean)
    ensures Within(t, id, n, clean)
  {
    UnleasedIsUnheld(s, id);
    ClaimerWithin(s, t, worker, id, leaseMicros, token, n, clean);
    forall w | HolderOf(t, w, id)
      ensures HolderWithin(t, w, id, n, clean)
    {
      UniqueHolder(t, w, worker, id);
    }
  }

  // Other steps

  /** Holders come only from claims. */
  lemma HolderWasHolder(s: State, step: Step, backoff: Backoff, worker: string, id: int)
    requires Enabled(s, step) && HolderOf(Next(s, step, backoff), worker, id) && !ClaimsBatch(step, id)
    requires id in s.db.batches && Next(s, step, backoff).db.batches[id] == s.db.batches[id]
    ensures HolderOf(s, worker, id)
    ensures PhaseOf(Next(s, step, backoff), worker).work == PhaseOf(s, worker).work
  {
    NowAfter(s, step, backoff);
    NonIdleWork(s, step, backoff, worker);
  }

  lemma NonIdleWork(s: State, step: Step, backoff: Backoff, worker: string)
    requires Enabled(s, step) && !PhaseOf(Next(s, step, backoff), worker).Idle?
    ensures (!PhaseOf(s, worker).Idle? && PhaseOf(Next(s, step, backoff), worker).work == PhaseOf(s, worker).work)
         || (step.ClaimBatch? && step.worker == worker
             && PhaseOf(Next(s, step, backoff), worker).work.batchId == step.batchId)
  {
    hide Apply, Decide, InsertFiling, InsertBatch, Serve;
  }

  /** Only an arrival changes what a worker has seen of its call, unless the call fails. */
  lemma SeenStays(s: State, step: Step, backoff: Backoff, worker: string)
    requires CallsOk(s) && Enabled(s, step) && !PhaseOf(s, worker).Idle?
    requires !PhaseOf(Next(s, step, backoff), worker).Idle?
    requires !step.Arrive? && !(step.CallFails? && step.worker == worker)
    ensures Seen(Next(s, step, backoff), PhaseOf(Next(s, step, backoff), worker)) == Seen(s, PhaseOf(s, worker))
    ensures PhaseOf(s, worker).Answered? ==> PhaseOf(Next(s, step, backoff), worker).Answered?
  {
    hide Apply, Decide, InsertFiling, InsertBatch, ClaimRow, Serve;
  }

  lemma StubStays(s: State, step: Step, backoff: Backoff)
    requires Enabled(s, step) && !step.Arrive?
    ensures Next(s, step, backoff).stub == s.stub
  {
  }

  /** The batch's row and its holders are as before. */
  ghost predicate SameHolders(s: State, t: State, id: int) {
    && id in s.db.batches && id in t.db.batches && t.db.batches[id] == s.db.batches[id]
    && (forall w :: HolderOf(t, w, id) <==> HolderOf(s, w, id))
    && (forall w :: HolderOf(s, w, id) ==> PhaseOf(t, w).work == PhaseOf(s, w).work)
  }

  lemma HoldersStay(s: State, step: Step, backoff: Backoff, id: int)
    requires DbOk(s.db) && Enabled(s, step) && Prompt(s, step, id) && id in s.db.batches
    requires !ClaimsBatch(step, id) && !HolderCommit(s, step, id)
    ensures SameHolders(s, Next(s, step, backoff), id)
  {
    hide DbOk, Next;
    var t := Next(s, step, backoff);
    UnheldRowStays(s, step, backoff, id);
    forall w | HolderOf(t, w, id)
      ensures HolderOf(s, w, id)
    {
      HolderWasHolder(s, step, backoff, w, id);
    }
    forall w | HolderOf(s, w, id)
      ensures HolderOf(t, w, id) && PhaseOf(t, w).work == PhaseOf(s, w).work
    {
      HolderStays(s, step, backoff, w, id);
    }
  }

  /** With the same holders, the distance does not grow when what they have seen does not worsen. */
  lemma SameHoldersWithin(s: State, t: State, id: int, n: nat, clean: bool)
    requires Within(s, id, n, clean) && SameHolders(s, t, id)
    requires IsRecorded(s.stub, s.db.batches[id]) ==> IsRecorded(t.stub, s.db.batches[id])
    requires forall w :: HolderOf(t, w, id) ==> HolderWithin(t, w, id, n, clean)
    ensures Within(t, id, n, clean)
  {
    if Unheld(t, id) {
      assert Unheld(s, id);
    }
  }

  lemma QuietWithin(s: State, step: Step, backoff: Backoff, id: int, n: nat, clean: bool)
    requires DbOk(s.db) && CallsOk(s) && Enabled(s, step) && Calm(s, step, backoff, id) && Within(s, id, n, clean)
    requires Prompt(s, step, id)
    requires !ClaimsBatch(step, id) && !HolderCommit(s, step, id) && !step.Arrive?
    ensures Within(Next(s, step, backoff), id, n, clean)
  {
    hide DbOk, CallsOk, Next;
    var t := Next(s, step, backoff);
    HoldersStay(s, step, backoff, id);
    StubStays(s, step, backoff);
    forall w | HolderOf(t, w, id)
      ensures HolderWithin(t, w, id, n, clean)
    {
      assert HolderOf(s, w, id);
      SeenStays(s, step, backoff, w);
    }
    SameHoldersWithin(s, t, id, n, clean);
  }

  // Arrivals, early or late

  lemma ArrivalElsewhere(s: State, t: State, worker: string, id: int, n: nat, clean: bool)
    requires HolderOf(s, worker, id) && HolderWithin(s, worker, id, n, clean) && HolderOf(t, worker, id)
    requires PhaseOf(t, worker) == PhaseOf(s, worker) && t.db == s.db
    requires Seen(t, PhaseOf(t, worker)) == Seen(s, PhaseOf(s, worker))
    requires StubGrows(s.stub, t.stub)
    ensures HolderWithin(t, worker, id, n, clean)
  {
  }

  /** A good reply never worsens a claim in progress, whatever its worker had seen before. */
  lemma GoodReplyLevel(action: Action, seen: Option<Reply>, recorded: bool, reply: Reply, recordedNow: bool)
    requires GoodReply(action, reply) && (recorded ==> recordedNow)
    requires action.LookupByUtid? ==> recordedNow == recorded && (reply.ErrorReply? <==> !recorded)
    ensures WorkLevel(action, Some(reply), false, recordedNow) <= WorkLevel(action, seen, false, recorded)
    ensures !reply.ProtocolFailure?
  {
  }

  lemma HeardWithin(s: State, t: State, worker: string, call: int, id: int, n: nat, clean: bool)
    requires HolderOf(s, worker, id) && HolderWithin(s, worker, id, n, clean) && HolderOf(t, worker, id)
    requires PhaseOf(s, worker).Calling? && PhaseOf(s, worker).call == call && PhaseOf(t, worker) == PhaseOf(s, worker)
    requires t.db == s.db && StubGrows(s.stub, t.stub) && call in t.replies
    requires var action, row := PhaseOf(s, worker).work.action, s.db.batches[id];
             && GoodReply(action, t.replies[call])
             && (action.LookupByUtid? ==>
                   t.stub == s.stub && (t.replies[call].ErrorReply? <==> !IsRecorded(s.stub, row)))
    ensures HolderWithin(t, worker, id, n, clean)
  {
    GoodReplyLevel(PhaseOf(s, worker).work.action, Seen(s, PhaseOf(s, worker)), IsRecorded(s.stub, s.db.batches[id]),
                   t.replies[call], IsRecorded(t.stub, s.db.batches[id]));
  }

  lemma ArrivalAtHolder(s: State, worker: string, call: int, draw: Draw, stubNow: int, id: int, n: nat, clean: bool)
    requires DbOk(s.db) && StubOk(s.db, s.stub) && call in s.calls && FreshDraw(s.stub, s.calls[call].request, draw)
    requires PhaseOk(s, worker, PhaseOf(s, worker)) && HolderOf(s, worker, id) && HolderWithin(s, worker, id, n, clean)
    requires PhaseOf(s, worker).Calling? && PhaseOf(s, worker).call == call
    requires CalmArrival(s, call, draw, stubNow, id)
    ensures var (stub, reply) := Serve(s.stub, s.calls[call].request, draw, stubNow);
            var t := s.(stub := stub, replies := s.replies[call := reply]);
            StubGrows(s.stub, stub) ==> HolderOf(t, worker, id) && HolderWithin(t, worker, id, n, clean)
  {
    hide DbOk, StubOk, StubGrows, Serve, HolderWithin, RequestOk;
    var (stub, reply) := Serve(s.stub, s.calls[call].request, draw, stubNow);
    CalmAnswer(s.db, s.stub, PhaseOf(s, worker).work, draw, stubNow);
    if StubGrows(s.stub, stub) {
      HeardWithin(s, s.(stub := stub, replies := s.replies[call := reply]), worker, call, id, n, clean);
    }
  }

  lemma ArrivalWithin(s: State, step: Step, backoff: Backoff, id: int, n: nat, clean: bool)
    requires Inv(s) && Enabled(s, step) && Calm(s, step, backoff, id) && Within(s, id, n, clean) && step.Arrive?
    ensures Within(Next(s, step, backoff), id, n, clean)
  {
    hide DbOk, StubOk, Agree, WorkMatches, ReplyTrue, RequestOk, HolderWithin, StubGrows;
    var t := Next(s, step, backoff);
    var call := s.calls[step.call];
    assert CallOk(s.db, s.stub, call);
    ArrivalSteps.ArrivalKeepsReceiver(s.db, s.stub, call, step.draw, step.stubNow);
    HoldersStay(s, step, backoff, id);
    forall w | HolderOf(t, w, id)
      ensures HolderWithin(t, w, id, n, clean)
    {
      Safety.CurrentPhase(s, w);
      if PhaseOf(s, w).Calling? && PhaseOf(s, w).call == step.call {
        ArrivalAtHolder(s, w, step.call, step.draw, step.stubNow, id, n, clean);
      } else {
        ArrivalElsewhere(s, t, w, id, n, clean);
      }
    }
    SameHoldersWithin(s, t, id, n, clean);
  }

  // Lapses

  /** A stuck holder counts for as much as its row does once the claim has lapsed. */
  lemma StuckLevel(s: State, worker: string, id: int)
    requires Inv(s) && Stuck(s, worker, id)
    ensures RowLevel(s.db.batches[id], IsRecorded(s.stub, s.db.batches[id])) == HolderLevel(s, worker, id)
    ensures !s.db.batches[id].state.InvariantFailed?
  {
    hide DbOk, StubOk, Agree, CallsOk;
    Safety.CurrentPhase(s, worker);
  }

  lemma LapseLeaves(s: State, step: Step, backoff: Backoff, id: int)
    requires Lapses(s, step, id) && Enabled(s, step)
    ensures Next(s, step, backoff).db == s.db && Next(s, step, backoff).stub == s.stub
    ensures Next(s, step, backoff).replies == s.replies
    ensures forall w :: HolderOf(Next(s, step, backoff), w, id) ==>
              HolderOf(s, w, id) && PhaseOf(Next(s, step, backoff), w) == PhaseOf(s, w)
  {
  }

  lemma LapseWithin(s: State, step: Step, backoff: Backoff, id: int, n: nat, clean: bool)
    requires Inv(s) && Enabled(s, step) && Lapses(s, step, id) && Within(s, id, n, clean)
    ensures Within(Next(s, step, backoff), id, n, clean)
  {
    hide Inv, Next, Enabled, HolderOf, RowLevel, WorkLevel;
    LapseLeaves(s, step, backoff, id);
    var w := if step.GiveUp? then step.worker else var w :| Stuck(s, w, id); w;
    StuckLevel(s, w, id);
    assert HolderWithin(s, w, id, n, clean);
  }

  // Runs

  lemma ClaimStepWithin(s: State, step: Step, backoff: Backoff, id: int, n: nat, clean: bool)
    requires Inv(s) && Enabled(s, step) && Calm(s, step, backoff, id) && Within(s, id, n, clean)
    requires ClaimsBatch(step, id)
    ensures Within(Next(s, step, backoff), id, n, clean)
  {
    BatchIsIntact(s, id);
    Safety.ClaimStep(s, step.worker, id, step.leaseMicros, step.token);
    Safety.StepKeepsInv(s, step, backoff);
    ClaimWithin(s, Next(s, step, backoff), step.worker, id, step.leaseMicros, step.token, n, clean);
  }

  lemma StepWithin(s: State, step: Step, backoff: Backoff, id: int, n: nat, clean: bool)
    requires Inv(s) && SoundSettings(backoff) && Enabled(s, step) && Calm(s, step, backoff, id)
    requires Within(s, id, n, clean)
    ensures HolderCommit(s, step, id) ==> n > 0 && Within(Next(s, step, backoff), id, n - 1, clean)
    ensures !HolderCommit(s, step, id) ==> Within(Next(s, step, backoff), id, n, clean)
  {
    if HolderCommit(s, step, id) {
      CompletedClaim(s, step, backoff, id, n, clean);
    } else if ClaimsBatch(step, id) {
      ClaimStepWithin(s, step, backoff, id, n, clean);
    } else if step.Arrive? {
      ArrivalWithin(s, step, backoff, id, n, clean);
    } else if Prompt(s, step, id) {
      QuietWithin(s, step, backoff, id, n, clean);
    } else {
      LapseWithin(s, step, backoff, id, n, clean);
    }
  }

  ghost predicate CalmRun(s: State, steps: seq<Step>, backoff: Backoff, id: int) {
    steps == [] ||
    var n := |steps| - 1;
    var before := Run(s, steps[..n], backoff);
    CalmRun(s, steps[..n], backoff, id) && (Enabled(before, steps[n]) ==> Calm(before, steps[n], backoff, id))
  }

  /** How many claims of the batch the run completes. */
  function CompletedClaims(s: State, steps: seq<Step>, backoff: Backoff, id: int): nat {
    if steps == [] then 0
    else
      var n := |steps| - 1;
      var before := Run(s, steps[..n], backoff);
      CompletedClaims(s, steps[..n], backoff, id)
      + if Enabled(before, steps[n]) && HolderCommit(before, steps[n], id) then 1 else 0
  }

  lemma {:induction false} RunWithin(s: State, steps: seq<Step>, backoff: Backoff, id: int, n: nat, clean: bool)
    requires Inv(s) && SoundSettings(backoff) && CalmRun(s, steps, backoff, id)
    requires Within(s, id, n, clean)
    ensures Inv(Run(s, steps, backoff))
    ensures CompletedClaims(s, steps, backoff, id) <= n
    ensures Within(Run(s, steps, backoff), id, n - CompletedClaims(s, steps, backoff, id), clean)
  {
    hide Inv, Within, Next, Enabled, HolderCommit;
    if steps != [] {
      var k := |steps| - 1;
      RunWithin(s, steps[..k], backoff, id, n, clean);
      var before := Run(s, steps[..k], backoff);
      if Enabled(before, steps[k]) {
        Safety.StepKeepsInv(before, steps[k], backoff);
        StepWithin(before, steps[k], backoff, id, n - CompletedClaims(s, steps[..k], backoff, id), clean);
      }
    }
  }

  /** When no more claims can be completed, none is in progress, and a clean batch is acknowledged. */
  lemma NothingLeft(s: State, id: int)
    requires Within(s, id, 0, true)
    ensures s.db.batches[id].state.BatchAcknowledged?
  {
    forall w
      ensures !HolderOf(s, w, id)
    {
      if HolderOf(s, w, id) {
        HeldIsPositive(s, w, id);
      }
    }
  }

  lemma HeldIsPositive(s: State, worker: string, id: int)
    requires HolderOf(s, worker, id)
    ensures HolderLevel(s, worker, id) > 0
  {
  }

  /** The level of a batch that no worker holds. */
  function Level(s: State, id: int): nat
    requires id in s.db.batches
  {
    RowLevel(s.db.batches[id], IsRecorded(s.stub, s.db.batches[id]))
  }

  /** How many claims a calm run completes from here on, at most. */
  ghost function Distance(s: State, id: int): nat
    requires id in s.db.batches
  {
    if exists w :: HolderOf(s, w, id) then
      var w :| HolderOf(s, w, id);
      HolderLevel(s, w, id)
    else Level(s, id)
  }

  /** The batch has not failed, and no worker that holds it has seen an unreadable answer. */
  ghost predicate Clean(s: State, id: int) {
    && id in s.db.batches && !s.db.batches[id].state.InvariantFailed?
    && forall w :: HolderOf(s, w, id) ==> !SeesFailure(s, w)
  }

  /**
   A claim in progress has already seen a fault of a submit or lookup, while the receiver has no
   record of the batch.
   */
  predicate SeesFault(s: State, worker: string, id: int) {
    && HolderOf(s, worker, id) && !IsRecorded(s.stub, s.db.batches[id])
    && var phase := PhaseOf(s, worker);
    !phase.work.action.PollStatus? && Seen(s, phase).Some? && Delays(phase.work.action, Seen(s, phase).value)
  }

  ghost predicate FaultHeld(s: State, id: int) {
    exists w :: SeesFault(s, w, id)
  }

  lemma HolderIsUnique(s: State, w: string, id: int)
    requires Inv(s) && HolderOf(s, w, id)
    ensures forall w' :: HolderOf(s, w', id) ==> w' == w
  {
    forall w' | HolderOf(s, w', id)
      ensures w' == w
    {
      UniqueHolder(s, w, w', id);
    }
  }

  lemma HeldDistance(s: State, w: string, id: int)
    requires HolderOf(s, w, id) && forall w' :: HolderOf(s, w', id) ==> w' == w
    ensures Within(s, id, HolderLevel(s, w, id), Clean(s, id)) && Distance(s, id) == HolderLevel(s, w, id)
    ensures HolderLevel(s, w, id) <= 5 && (HolderLevel(s, w, id) == 5 ==> SeesFault(s, w, id))
  {
  }

  lemma UnheldDistance(s: State, id: int)
    requires id in s.db.batches && Unheld(s, id)
    ensures Within(s, id, Level(s, id), Clean(s, id)) && Distance(s, id) == Level(s, id) <= 4
  {
  }

  lemma DistanceWithin(s: State, id: int)
    requires Inv(s) && id in s.db.batches
    ensures Within(s, id, Distance(s, id), Clean(s, id))
    ensures Distance(s, id) <= 5
    ensures Distance(s, id) == 5 ==> FaultHeld(s, id)
  {
    if w :| HolderOf(s, w, id) {
      HolderIsUnique(s, w, id);
      HeldDistance(s, w, id);
    } else {
      UnheldDistance(s, id);
    }
  }

  lemma CalmRunConverges(s: State, steps: seq<Step>, backoff: Backoff, id: int)
    requires Inv(s) && SoundSettings(backoff) && CalmRun(s, steps, backoff, id) && id in s.db.batches
    ensures CompletedClaims(s, steps, backoff, id) <= Distance(s, id) <= 5
    ensures !FaultHeld(s, id) ==> Distance(s, id) <= 4
    ensures id in Run(s, steps, backoff).db.batches
    ensures Clean(s, id) ==>
              var state := Run(s, steps, backoff).db.batches[id].state;
              && !state.InvariantFailed?
              && (CompletedClaims(s, steps, backoff, id) == Distance(s, id) ==> state.BatchAcknowledged?)
  {
    hide Inv, CompletedClaims, Distance, Run, CalmRun, HolderWithin, FaultHeld, Clean;
    DistanceWithin(s, id);
    RunWithin(s, steps, backoff, id, Distance(s, id), Clean(s, id));
    if Clean(s, id) && CompletedClaims(s, steps, backoff, id) == Distance(s, id) {
      NothingLeft(Run(s, steps, backoff), id);
    }
  }

  /**
   From any reachable state a calm run completes at most four claims of a batch, unless a worker in
   the middle of a submit or lookup has already seen a fault, and then at most five; a claim that
   lapses on an answer which cannot be recorded is not completed. Unless the
   batch has failed, or its holder has seen an unreadable answer and is about to give it up, it does
   not fail at any time, and it is acknowledged once the run has completed as many claims as that.
   */
  lemma AtMostFourClaims(s: State, steps: seq<Step>, backoff: Backoff, id: int)
    requires Reachable(s, backoff) && SoundSettings(backoff) && CalmRun(s, steps, backoff, id) && id in s.db.batches
    ensures CompletedClaims(s, steps, backoff, id) <= Distance(s, id) <= 5
    ensures !FaultHeld(s, id) ==> Distance(s, id) <= 4
    ensures id in Run(s, steps, backoff).db.batches
    ensures Clean(s, id) ==>
              var state := Run(s, steps, backoff).db.batches[id].state;
              && !state.InvariantFailed?
              && (CompletedClaims(s, steps, backoff, id) == Distance(s, id) ==> state.BatchAcknowledged?)
  {
    Safety.ReachableInv(s, backoff);
    CalmRunConverges(s, steps, backoff, id);
  }
}
