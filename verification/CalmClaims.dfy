/** One whole claim of a batch in a calm run: the lease, the call, the arrivals at the receiver, and the commit. */
module CalmClaims {
  import opened Prelude
  import opened Retry
  import opened Intake
  import opened Stub
  import opened Client
  import opened Filing
  import opened Worker
  import opened System
  import opened Invariant
  import opened Fencing
  import opened ClaimHolders
  import opened Convergence
  import ArrivalSteps
  import DbSteps
  import Safety

  // Runs, one after the other

  /** The steps are a calm run from `s` to `t` that completes `n` claims of the batch. */
  ghost predicate Leads(s: State, steps: seq<Step>, t: State, backoff: Backoff, id: int, n: nat) {
    && CalmRun(s, steps, backoff, id) && Run(s, steps, backoff) == t
    && CompletedClaims(s, steps, backoff, id) == n
  }

  lemma LeadsOne(s: State, step: Step, backoff: Backoff, id: int)
    requires Enabled(s, step) && Calm(s, step, backoff, id)
    ensures Leads(s, [step], Next(s, step, backoff), backoff, id, if HolderCommit(s, step, id) then 1 else 0)
  {
    hide Next, Enabled, Calm, HolderCommit;
    assert [step][..0] == [];
    assert Run(s, [], backoff) == s && CalmRun(s, [], backoff, id) && CompletedClaims(s, [], backoff, id) == 0;
  }

  lemma {:induction false} LeadsThrough(s: State, a: seq<Step>, t: State, b: seq<Step>, u: State, backoff: Backoff,
                                        id: int, m: nat, n: nat)
    requires Leads(s, a, t, backoff, id, m) && Leads(t, b, u, backoff, id, n)
    ensures Leads(s, a + b, u, backoff, id, m + n)
    decreases |b|
  {
    hide Next, Enabled, Calm, HolderCommit;
    if b == [] {
      assert a + b == a;
    } else {
      var k := |b| - 1;
      LeadsThrough(s, a, t, b[..k], Run(t, b[..k], backoff), backoff, id, m, CompletedClaims(t, b[..k], backoff, id));
      assert (a + b)[..|a + b| - 1] == a + b[..k];
    }
  }

  // The call

  const LEASE: int := 90_000_000

  function AskSteps(worker: string, id: int, wait: nat, token: string, call: int): seq<Step> {
    [Tick(wait), ClaimBatch(worker, id, LEASE, token), AcquirePermit(worker), Send(worker, call)]
  }

  /** No worker holds the batch, it is due after the wait, and worker, token and call are new. */
  ghost predicate Startable(s: State, worker: string, id: int, wait: nat, token: string, call: int) {
    && Inv(s) && id in s.db.batches && Unheld(s, id) && Due(s.db.batches[id], s.now + wait)
    && PhaseOf(s, worker).Idle? && token !in s.tokens && call !in s.calls
  }

  /** The worker has claimed the batch and sent its call; the receiver has not been touched. */
  ghost predicate Asking(s: State, t: State, worker: string, id: int, token: string, call: int) {
    && id in s.db.batches && id in t.db.batches && HolderOf(t, worker, id)
    && PhaseOf(t, worker).Calling? && PhaseOf(t, worker).call == call
    && var row, row', work := s.db.batches[id], t.db.batches[id], PhaseOf(t, worker).work;
    && SameBatch(row, row') && row'.receipt == row.receipt
    && row'.state == StateAfterClaim(row.state) && row'.attempts == row.attempts + 1 == work.attempts
    && ActionFor(row'.state) == Some(work.action) && !row'.state.Submitted?
    && work.document == row.document
    && t.calls == s.calls[call := Call(id, RequestFor(work))] && t.tokens == s.tokens[token := worker]
    && t.stub == s.stub && t.replies == s.replies
  }

  lemma TickQuietly(s: State, worker: string, id: int, wait: nat, token: string, call: int, backoff: Backoff)
    requires Startable(s, worker, id, wait, token, call)
    ensures Leads(s, [Tick(wait)], s.(now := s.now + wait), backoff, id, 0)
    ensures Inv(s.(now := s.now + wait))
  {
    hide Inv, Leads;
    LeadsOne(s, Tick(wait), backoff, id);
    Safety.StepKeepsInv(s, Tick(wait), backoff);
  }

  lemma TakeClaim(s: State, worker: string, id: int, token: string, backoff: Backoff)
    requires Inv(s) && id in s.db.batches && Due(s.db.batches[id], s.now)
    requires PhaseOf(s, worker).Idle? && token !in s.tokens
    ensures Safety.ClaimChange(s, AfterClaim(s, worker, id, LEASE, token), worker, id, LEASE, token)
    ensures Leads(s, [ClaimBatch(worker, id, LEASE, token)], AfterClaim(s, worker, id, LEASE, token), backoff, id, 0)
  {
    hide Inv, Leads, AfterClaim;
    BatchIsIntact(s, id);
    Safety.ClaimStep(s, worker, id, LEASE, token);
    LeadsOne(s, ClaimBatch(worker, id, LEASE, token), backoff, id);
  }

  /** Two local moves: the permit, and the call. */
  lemma SendCall(s: State, worker: string, id: int, work: Work, call: int, backoff: Backoff)
    requires PhaseOf(s, worker) == Claimed(work) && call !in s.calls
    ensures var t := s.(workers := s.workers[worker := Calling(work, call)],
                        calls := s.calls[call := Call(work.batchId, RequestFor(work))]);
            Leads(s, [AcquirePermit(worker), Send(worker, call)], t, backoff, id, 0)
  {
    hide Leads;
    var a, b := AcquirePermit(worker), Send(worker, call);
    var between := Next(s, a, backoff);
    LeadsOne(s, a, backoff, id);
    LeadsOne(between, b, backoff, id);
    LeadsThrough(s, [a], between, [b], Next(between, b, backoff), backoff, id, 0, 0);
    assert s.workers[worker := Permitted(work)][worker := Calling(work, call)]
        == s.workers[worker := Calling(work, call)];
    assert [a] + [b] == [a, b];
  }

  lemma Ask(s: State, worker: string, id: int, wait: nat, token: string, call: int, backoff: Backoff) returns (t: State)
    requires Startable(s, worker, id, wait, token, call)
    ensures Inv(t) && Leads(s, AskSteps(worker, id, wait, token, call), t, backoff, id, 0)
    ensures Asking(s, t, worker, id, token, call)
  {
    hide Inv, Leads, AfterClaim;
    TickQuietly(s, worker, id, wait, token, call, backoff);
    var due := s.(now := s.now + wait);
    TakeClaim(due, worker, id, token, backoff);
    var leased := AfterClaim(due, worker, id, LEASE, token);
    var work := PhaseOf(leased, worker).work;
    SendCall(leased, worker, id, work, call, backoff);
    t := leased.(workers := leased.workers[worker := Calling(work, call)],
                 calls := leased.calls[call := Call(work.batchId, RequestFor(work))]);
    AskIsWhole(s, due, leased, t, worker, id, wait, token, call, backoff);
    AskKeepsInv(s, worker, id, wait, token, call, backoff, t);
  }

  lemma AskIsWhole(s: State, due: State, leased: State, t: State, worker: string, id: int, wait: nat, token: string,
                   call: int, backoff: Backoff)
    requires Leads(s, [Tick(wait)], due, backoff, id, 0)
    requires Leads(due, [ClaimBatch(worker, id, LEASE, token)], leased, backoff, id, 0)
    requires Leads(leased, [AcquirePermit(worker), Send(worker, call)], t, backoff, id, 0)
    ensures Leads(s, AskSteps(worker, id, wait, token, call), t, backoff, id, 0)
  {
    hide Leads;
    var a, b, c := [Tick(wait)], [ClaimBatch(worker, id, LEASE, token)], [AcquirePermit(worker), Send(worker, call)];
    LeadsThrough(s, a, due, b, leased, backoff, id, 0, 0);
    LeadsThrough(s, a + b, leased, c, t, backoff, id, 0, 0);
    assert a + b + c == AskSteps(worker, id, wait, token, call);
  }

  lemma AskKeepsInv(s: State, worker: string, id: int, wait: nat, token: string, call: int, backoff: Backoff, t: State)
    requires Inv(s) && Leads(s, AskSteps(worker, id, wait, token, call), t, backoff, id, 0)
    ensures Inv(t)
  {
    hide Inv, Next, Enabled;
    Safety.RunKeepsInv(s, AskSteps(worker, id, wait, token, call), backoff);
  }

  // The commit

  /** The state a reply leads to, once it is committed. */
  function StateAfterReply(action: Action, reply: Reply, state: BatchState): BatchState {
    match action
    case Submit => if reply.ReceiptReply? then Submitted else SubmitUnknown
    case LookupByUtid => if reply.StatusReply? then Submitted else if Delays(action, reply) then state else Planned
    case PollStatus =>
      if !reply.StatusReply? then state else if reply.status == "Processing" then AwaitingAck else BatchAcknowledged
  }

  /** The claim is over: the batch is unleased in its new state, the worker is idle. */
  ghost predicate Settled(u: State, v: State, worker: string, id: int, state: BatchState) {
    && id in u.db.batches && id in v.db.batches && SameBatch(u.db.batches[id], v.db.batches[id])
    && v.db.batches[id].state == state && v.db.batches[id].attempts == u.db.batches[id].attempts
    && v.db.batches[id].lease.None?
    && v.stub == u.stub && v.calls == u.calls && v.tokens == u.tokens && PhaseOf(v, worker).Idle?
  }

  lemma EventKeepsAttempts(db: Db, claim: Claim, now: int, event: Event)
    requires Apply(db, claim, now, event).Ok? && claim.batchId in db.batches
    ensures claim.batchId in Apply(db, claim, now, event).value.batches
    ensures Apply(db, claim, now, event).value.batches[claim.batchId].attempts == db.batches[claim.batchId].attempts
  {
  }

  lemma OutcomeOfCommit(db: Db, stub: StubState, work: Work, reply: Reply, now: int, backoff: Backoff)
    requires DbOk(db) && work.batchId in db.batches && WorkMatches(stub, db.batches[work.batchId], work)
    requires ReplyTrue(stub, db.batches[work.batchId], RequestFor(work), reply) && !reply.ProtocolFailure?
    requires Recordable(reply) && ReceiptsShort(reply) && !Exhausted(backoff, work.attempts)
    requires Apply(db, ClaimOf(work), now, Decide(work, reply, backoff, 0)).Ok?
    ensures var after := Apply(db, ClaimOf(work), now, Decide(work, reply, backoff, 0)).value;
            && work.batchId in after.batches && SameBatch(db.batches[work.batchId], after.batches[work.batchId])
            && after.batches[work.batchId].lease.None?
            && after.batches[work.batchId].attempts == db.batches[work.batchId].attempts
            && after.batches[work.batchId].state == StateAfterReply(work.action, reply, db.batches[work.batchId].state)
  {
    hide DbOk, Apply, Decide;
    ReplyIsForward(stub, db.batches[work.batchId], work, reply, backoff, 0);
    ForwardState(db, ClaimOf(work), now, Decide(work, reply, backoff, 0));
    EventKeepsAttempts(db, ClaimOf(work), now, Decide(work, reply, backoff, 0));
    DbSteps.EventKeepsDbOk(db, ClaimOf(work), now, Decide(work, reply, backoff, 0));
  }

  predicate Committable(u: State, worker: string, id: int, backoff: Backoff) {
    && HolderOf(u, worker, id) && PhaseOf(u, worker).Answered?
    && Recordable(PhaseOf(u, worker).reply) && !PhaseOf(u, worker).reply.ProtocolFailure?
    && !Exhausted(backoff, PhaseOf(u, worker).work.attempts)
  }

  lemma CommitReply(u: State, worker: string, id: int, backoff: Backoff) returns (v: State)
    requires Inv(u) && SoundSettings(backoff) && Committable(u, worker, id, backoff)
    ensures Inv(v) && Leads(u, [Commit(worker, 0)], v, backoff, id, 1)
    ensures var phase := PhaseOf(u, worker);
            Settled(u, v, worker, id, StateAfterReply(phase.work.action, phase.reply, u.db.batches[id].state))
  {
    hide StubOk, Agree, CallsOk, DbOk, Leads, Apply, Decide;
    var step := Commit(worker, 0);
    var work, reply := PhaseOf(u, worker).work, PhaseOf(u, worker).reply;
    Safety.CurrentPhase(u, worker);
    LiveCommitApplies(u, backoff, step);
    ReceiptsAreShort(u, id, RequestFor(work), reply);
    OutcomeOfCommit(u.db, u.stub, work, reply, u.now, backoff);
    CommitNext(u, step, backoff);
    LeadsOne(u, step, backoff, id);
    Safety.StepKeepsInv(u, step, backoff);
    v := Next(u, step, backoff);
  }

  /** The worker takes the answer to its call and commits. */
  lemma Settle(u: State, worker: string, id: int, backoff: Backoff) returns (v: State)
    requires Inv(u) && SoundSettings(backoff) && HolderOf(u, worker, id) && PhaseOf(u, worker).Calling?
    requires PhaseOf(u, worker).call in u.replies
    requires var reply := u.replies[PhaseOf(u, worker).call]; Recordable(reply) && !reply.ProtocolFailure?
    requires !Exhausted(backoff, PhaseOf(u, worker).work.attempts)
    ensures Inv(v) && Leads(u, [Receive(worker), Commit(worker, 0)], v, backoff, id, 1)
    ensures var phase := PhaseOf(u, worker);
            Settled(u, v, worker, id, StateAfterReply(phase.work.action, u.replies[phase.call], u.db.batches[id].state))
  {
    hide Inv, Leads, AfterCommit;
    var step := Receive(worker);
    var heard := Next(u, step, backoff);
    LeadsOne(u, step, backoff, id);
    Safety.StepKeepsInv(u, step, backoff);
    v := CommitReply(heard, worker, id, backoff);
    LeadsThrough(u, [step], heard, [Commit(worker, 0)], v, backoff, id, 0, 1);
    assert [step] + [Commit(worker, 0)] == [step, Commit(worker, 0)];
  }

  // The arrivals in between

  /** Only the receiver and the answers differ. */
  predicate OnlyHeard(t: State, u: State) {
    u == t.(stub := u.stub, replies := u.replies)
  }

  /** At this time the receiver's acknowledgment is due, of the recorded submission or of one with this draw. */
  predicate Answers(s: State, id: int, draw: Draw, stubNow: int)
    requires id in s.db.batches
  {
    && draw.fault.IntakeSucceeded? && FreshDraw(s.stub, SubmitRequest(s.db.batches[id].document), draw)
    && (if IsRecorded(s.stub, s.db.batches[id]) then Acknowledged(SubmissionOf(s.stub, s.db.batches[id]), stubNow)
        else draw.availableAt.Some? && draw.availableAt.value <= stubNow)
  }

  /** The answer to a lookup or a poll. */
  lemma HearStatus(t: State, id: int, call: int, draw: Draw, stubNow: int, backoff: Backoff)
    requires Inv(t) && id in t.db.batches && call in t.calls && t.calls[call].batchId == id
    requires !t.calls[call].request.SubmitRequest? && Answers(t, id, draw, stubNow)
    ensures Enabled(t, Arrive(call, draw, stubNow))
    ensures var u := Next(t, Arrive(call, draw, stubNow), backoff);
            && Leads(t, [Arrive(call, draw, stubNow)], u, backoff, id, 0)
            && OnlyHeard(t, u) && u.stub == t.stub && call in u.replies
            && (if IsRecorded(t.stub, t.db.batches[id]) then
                  u.replies[call].StatusReply? && u.replies[call].status != "Processing"
                else u.replies[call] == ErrorReply(404, "NOT_FOUND"))
  {
    hide DbOk, StubOk, Agree, WorkersOk, Leads, Serve;
    assert CallOk(t.db, t.stub, t.calls[call]);
    CalmStatusAnswer(t.db, t.stub, id, t.calls[call].request, draw, stubNow);
    LeadsOne(t, Arrive(call, draw, stubNow), backoff, id);
  }

  /** After a submission arrives, the batch is recorded. */
  lemma RecordedAfter(db: Db, stub: StubState, id: int, draw: Draw, stubNow: int)
    requires DbOk(db) && StubOk(db, stub) && id in db.batches && draw.fault.IntakeSucceeded?
    requires FreshDraw(stub, SubmitRequest(db.batches[id].document), draw)
    requires if IsRecorded(stub, db.batches[id]) then Acknowledged(SubmissionOf(stub, db.batches[id]), stubNow)
             else draw.availableAt.Some? && draw.availableAt.value <= stubNow
    ensures var (after, _) := ServeIntake(stub, db.batches[id].document, draw);
            && IsRecorded(after, db.batches[id]) && Acknowledged(SubmissionOf(after, db.batches[id]), stubNow)
            && FreshDraw(after, SubmitRequest(db.batches[id].document), draw)
  {
    hide DbOk, StubOk, ServeIntake, ArrivalSteps.NewSubmission, ArrivalSteps.AfterRecord, Decode;
    if IsRecorded(stub, db.batches[id]) {
      ArrivalSteps.ServedAgain(db, stub, id, draw);
    } else {
      ArrivalSteps.IsNewSubmission(db, stub, id, draw);
      var tx := Decode(db.batches[id].document).value;
      ArrivalSteps.DecodedNames(db, stub, id, tx, draw);
      ArrivalSteps.ServedFirst(db, stub, id, tx, draw);
      ArrivalSteps.NewArrival(db, stub, id, tx, draw);
    }
  }

  /** A submission of the batch arrives, for the first time or not. */
  lemma HearSubmit(t: State, id: int, call: int, draw: Draw, stubNow: int, backoff: Backoff)
    requires Inv(t) && id in t.db.batches && call in t.calls
    requires t.calls[call] == Call(id, SubmitRequest(t.db.batches[id].document)) && Answers(t, id, draw, stubNow)
    ensures Enabled(t, Arrive(call, draw, stubNow))
    ensures var u := Next(t, Arrive(call, draw, stubNow), backoff);
            && Inv(u) && Leads(t, [Arrive(call, draw, stubNow)], u, backoff, id, 0)
            && OnlyHeard(t, u) && IsRecorded(u.stub, u.db.batches[id]) && Answers(u, id, draw, stubNow)
            && call in u.replies
            && (IsRecorded(t.stub, t.db.batches[id]) ==> u.replies[call] == ErrorReply(409, "DUPLICATE_UTID"))
  {
    hide DbOk, StubOk, Agree, CallsOk, WorkersOk, Leads, ServeIntake, FreshDraw;
    var step := Arrive(call, draw, stubNow);
    RecordedAfter(t.db, t.stub, id, draw, stubNow);
    if IsRecorded(t.stub, t.db.batches[id]) {
      ArrivalSteps.ServedAgain(t.db, t.stub, id, draw);
    }
    LeadsOne(t, step, backoff, id);
    Safety.StepKeepsInv(t, step, backoff);
  }

  /** An earlier submission arrives before the worker's own: the worker hears of a duplicate. */
  lemma HearDuplicate(t: State, id: int, early: int, call: int, draw: Draw, stubNow: int, backoff: Backoff)
    returns (u: State)
    requires Inv(t) && id in t.db.batches && call in t.calls && early in t.calls && Answers(t, id, draw, stubNow)
    requires t.calls[call] == t.calls[early] == Call(id, SubmitRequest(t.db.batches[id].document))
    ensures Inv(u) && OnlyHeard(t, u)
    ensures Leads(t, [Arrive(early, draw, stubNow), Arrive(call, draw, stubNow)], u, backoff, id, 0)
    ensures call in u.replies && u.replies[call] == ErrorReply(409, "DUPLICATE_UTID")
    ensures IsRecorded(u.stub, u.db.batches[id]) && Answers(u, id, draw, stubNow)
  {
    hide Inv, Leads, Next, Enabled, Answers, IsRecorded;
    var first, second := Arrive(early, draw, stubNow), Arrive(call, draw, stubNow);
    HearSubmit(t, id, early, draw, stubNow, backoff);
    var between := Next(t, first, backoff);
    HearSubmit(between, id, call, draw, stubNow, backoff);
    u := Next(between, second, backoff);
    LeadsThrough(t, [first], between, [second], u, backoff, id, 0, 0);
    assert [first] + [second] == [first, second];
  }
}
