/** Every step of the composed system keeps the invariant, so every reachable state satisfies it. */
module Safety {
  import opened Prelude
  import opened Retry
  import opened Stub
  import opened Client
  import opened Filing
  import opened Planning
  import opened Worker
  import opened System
  import opened Invariant
  import DbSteps
  import InsertSteps
  import ArrivalSteps
  import Identity

  // Steps that touch only the database

  lemma AgreeOnGrownDb(a: Db, b: Db, stub: StubState, id: int)
    requires id in a.batches && ReceiptAgrees(stub, a.batches[id]) && ResultsAgree(a, stub, a.batches[id])
    requires DbGrows(a, b) && b.batches[id] == a.batches[id]
    requires forall f :: f in a.filings && f in a.batchOfFiling ==> b.filings[f] == a.filings[f]
    requires BatchOk(a, id, a.batches[id])
    ensures ReceiptAgrees(stub, b.batches[id]) && ResultsAgree(b, stub, b.batches[id])
  {
    var row := a.batches[id];
    forall i | 0 <= i < |row.links|
      ensures row.links[i] in b.filings && b.filings[row.links[i]] == a.filings[row.links[i]]
    {
      var link := row.links[i];
      assert link in a.filings && link in a.batchOfFiling;
    }
  }

  lemma PhasesStable(s: State, t: State)
    requires WorkersOk(s) && t.workers == s.workers && t.tokens == s.tokens
    requires t.calls == s.calls && DbGrows(s.db, t.db) && StubGrows(s.stub, t.stub)
    requires forall id :: id in s.db.batches ==> t.db.batches[id] == s.db.batches[id]
    requires forall id :: id in t.db.batches && id !in s.db.batches ==> t.db.batches[id].lease.None?
    ensures WorkersOk(t)
  {
    forall w | w in t.workers
      ensures PhaseOk(t, w, t.workers[w])
    {
      assert PhaseOk(s, w, s.workers[w]);
      PhaseOkStable(s, t, w, s.workers[w]);
    }
  }

  /** Inserting filings or batches. */
  lemma InsertionKeepsInv(s: State, db: Db)
    requires Inv(s) && DbOk(db) && DbGrows(s.db, db) && OnlyAdds(s.db, db)
    ensures Inv(s.(db := db))
  {
    var t := s.(db := db);
    StubOkStable(s.db, db, s.stub);
    forall id | id in db.batches
      ensures ReceiptAgrees(s.stub, db.batches[id]) && ResultsAgree(db, s.stub, db.batches[id])
    {
      if id in s.db.batches {
        assert BatchOk(s.db, id, s.db.batches[id]);
        AgreeOnGrownDb(s.db, db, s.stub, id);
      }
    }
    CallsOkStable(s, t);
    PhasesStable(s, t);
  }

  lemma DetermineKeepsInv(s: State, step: Step, backoff: Backoff)
    requires Inv(s) && step.Determine? && Enabled(s, step)
    ensures Inv(Next(s, step, backoff))
  {
    var inserted := InsertFiling(s.db, step.filingId, step.row);
    if inserted.Ok? {
      FilingInserted(s, step.filingId, step.row, inserted.value);
    }
  }

  lemma FilingInsertionOnlyAdds(db: Db, id: int, row: FilingRow)
    requires InsertFiling(db, id, row).Ok?
    ensures OnlyAdds(db, InsertFiling(db, id, row).value)
  {
  }

  lemma FilingInserted(s: State, id: int, row: FilingRow, db: Db)
    requires Inv(s) && Prepared(row) && InsertFiling(s.db, id, row) == Ok(db)
    ensures Inv(s.(db := db))
  {
    InsertSteps.InsertFilingKeepsDbOk(s.db, id, row);
    FilingInsertionOnlyAdds(s.db, id, row);
    InsertionKeepsInv(s, db);
  }

  lemma PlanKeepsInv(s: State, step: Step, backoff: Backoff)
    requires Inv(s) && step.PlanOne? && Enabled(s, step)
    ensures Inv(Next(s, step, backoff))
  {
    var inserted := InsertBatch(s.db, step.newBatch, step.group, s.now);
    if inserted.Ok? {
      BatchInserted(s, step.newBatch, step.group, inserted.value);
    }
  }

  /** What an insertion leaves: old rows as they are, and only unclaimed planned batches added. */
  ghost predicate OnlyAdds(a: Db, b: Db) {
    && (forall id :: id in a.batches ==> id in b.batches && b.batches[id] == a.batches[id])
    && (forall f :: f in a.filings && f in a.batchOfFiling ==> f in b.filings && b.filings[f] == a.filings[f])
    && (forall id :: id in b.batches && id !in a.batches ==>
          b.batches[id].lease.None? && b.batches[id].receipt.None? && b.batches[id].state.Planned?)
  }

  lemma BatchInsertionOnlyAdds(db: Db, id: int, group: PlannedGroup, now: int)
    requires DbOk(db) && InsertBatch(db, id, group, now).Ok?
    ensures OnlyAdds(db, InsertBatch(db, id, group, now).value)
  {
    InsertSteps.InsertBatchGrows(db, id, group, now);
  }

  lemma BatchInserted(s: State, id: int, group: PlannedGroup, db: Db)
    requires Inv(s) && InsertBatch(s.db, id, group, s.now) == Ok(db)
    requires id > 0 && Identity.UtidPattern(group.utid, group.firm) && group.submissionId != ""
    ensures Inv(s.(db := db))
  {
    InsertSteps.InsertBatchKeepsDbOk(s.db, id, group, s.now);
    BatchInsertionOnlyAdds(s.db, id, group, s.now);
    InsertionKeepsInv(s, db);
  }

  // Claims

  lemma ClaimedWorkOk(s: State, t: State, worker: string, id: int, work: Work)
    requires id in s.db.batches && id in t.db.batches && t.stub == s.stub
    requires SameBatch(s.db.batches[id], t.db.batches[id])
    requires t.db.batches[id].receipt == s.db.batches[id].receipt
    requires ReceiptOk(s.db, id, s.db.batches[id]) && ReceiptAgrees(s.stub, s.db.batches[id])
    requires ActionFor(t.db.batches[id].state) == Some(work.action) && !t.db.batches[id].state.Submitted?
    requires t.db.batches[id].state == StateAfterClaim(s.db.batches[id].state)
    requires work == WorkOf(id, t.db.batches[id], work.action, work.token)
    requires work.token in t.tokens && t.tokens[work.token] == worker
    ensures WorkOk(t, worker, work)
  {
  }

  /** What a claim does to the state. */
  ghost predicate ClaimChange(s: State, t: State, worker: string, id: int, leaseMicros: int, token: string) {
    && id in s.db.batches && token !in s.tokens
    && var row := Leased(s.db.batches[id], worker, leaseMicros, token, s.now);
    && ActionFor(row.state).Some? && !row.state.Submitted?
    && t == s.(db := s.db.(batches := s.db.batches[id := row]), tokens := s.tokens[token := worker],
               workers := s.workers[worker := Claimed(WorkOf(id, row, ActionFor(row.state).value, token))],
               history := if row.state.Submitting? then s.history + [SubmitClaimed(id, row.utid, row.document)]
                          else s.history)
  }

  lemma ClaimStep(s: State, worker: string, id: int, leaseMicros: int, token: string)
    requires id in s.db.batches && token !in s.tokens
    requires s.db.batches[id].digest == Sha256(s.db.batches[id].document) && !Terminal(s.db.batches[id].state)
    ensures ClaimChange(s, AfterClaim(s, worker, id, leaseMicros, token), worker, id, leaseMicros, token)
  {
    DbSteps.ClaimYieldsWork(id, s.db.batches[id], worker, leaseMicros, token, s.now);
  }

  /** Another worker's work stays sound: its token is not the new one. */
  lemma OtherPhaseAfterClaim(s: State, t: State, worker: string, id: int, leaseMicros: int, token: string,
                             other: string)
    requires ClaimChange(s, t, worker, id, leaseMicros, token) && DbGrows(s.db, t.db)
    requires other in s.workers && PhaseOk(s, other, s.workers[other])
    ensures PhaseOk(t, other, s.workers[other])
  {
    PhaseOkStable(s, t, other, s.workers[other]);
  }

  lemma ClaimKeepsWorkers(s: State, t: State, worker: string, id: int, leaseMicros: int, token: string)
    requires WorkersOk(s) && ClaimChange(s, t, worker, id, leaseMicros, token) && DbGrows(s.db, t.db)
    requires PhaseOk(t, worker, t.workers[worker])
    ensures WorkersOk(t)
  {
    forall w | w in t.workers
      ensures PhaseOk(t, w, t.workers[w])
    {
      if w != worker {
        OtherPhaseAfterClaim(s, t, worker, id, leaseMicros, token, w);
      }
    }
  }

  lemma AgreeAfterClaim(db: Db, stub: StubState, id: int, row: Batch)
    requires Agree(db, stub) && id in db.batches && SameBatch(db.batches[id], row)
    requires row.receipt == db.batches[id].receipt && !row.state.BatchAcknowledged?
    ensures Agree(db.(batches := db.batches[id := row]), stub)
  {
  }

  lemma ClaimKeepsRemote(s: State, t: State, worker: string, id: int, leaseMicros: int, token: string)
    requires StubOk(s.db, s.stub) && Agree(s.db, s.stub) && CallsOk(s)
    requires ClaimChange(s, t, worker, id, leaseMicros, token) && DbGrows(s.db, t.db)
    ensures StubOk(t.db, t.stub) && Agree(t.db, t.stub) && CallsOk(t)
  {
    StubOkStable(s.db, t.db, s.stub);
    AgreeAfterClaim(s.db, s.stub, id, t.db.batches[id]);
    CallsOkStable(s, t);
  }

  lemma ClaimerOk(s: State, t: State, worker: string, id: int, leaseMicros: int, token: string)
    requires ClaimChange(s, t, worker, id, leaseMicros, token)
    requires ReceiptOk(s.db, id, s.db.batches[id]) && ReceiptAgrees(s.stub, s.db.batches[id])
    ensures PhaseOk(t, worker, t.workers[worker])
  {
    ClaimedWorkOk(s, t, worker, id, t.workers[worker].work);
  }

  lemma ClaimChangeKeepsInv(s: State, t: State, worker: string, id: int, leaseMicros: int, token: string)
    requires Inv(s) && ClaimChange(s, t, worker, id, leaseMicros, token)
    requires DbOk(t.db) && DbGrows(s.db, t.db) && ReceiptOk(s.db, id, s.db.batches[id])
    ensures Inv(t)
  {
    ClaimKeepsRemote(s, t, worker, id, leaseMicros, token);
    ClaimerOk(s, t, worker, id, leaseMicros, token);
    ClaimKeepsWorkers(s, t, worker, id, leaseMicros, token);
  }

  lemma ClaimKeepsInv(s: State, step: Step, backoff: Backoff)
    requires Inv(s) && step.ClaimBatch? && Enabled(s, step)
    ensures Inv(Next(s, step, backoff))
  {
    var id := step.batchId;
    var t := AfterClaim(s, step.worker, id, step.leaseMicros, step.token);
    assert BatchOk(s.db, id, s.db.batches[id]);
    ClaimStep(s, step.worker, id, step.leaseMicros, step.token);
    DbSteps.ClaimKeepsDbOk(s.db, id, step.worker, step.leaseMicros, step.token, s.now);
    ClaimChangeKeepsInv(s, t, step.worker, id, step.leaseMicros, step.token);
  }

  // Local moves of one worker, and the network

  lemma MoveKeepsInv(s: State, t: State, worker: string)
    requires Inv(s) && LocalChange(s, t, worker)
    ensures Inv(t)
  {
    DbSteps.DbGrowsReflexive(s.db);
    forall w | w in t.workers
      ensures PhaseOk(t, w, t.workers[w])
    {
      if w != worker {
        assert PhaseOk(s, w, s.workers[w]);
        PhaseOkStable(s, t, w, s.workers[w]);
      }
    }
  }

  lemma CurrentPhase(s: State, worker: string)
    requires Inv(s)
    ensures PhaseOk(s, worker, PhaseOf(s, worker))
  {
  }

  /** A request repeats the work, and the work repeats the batch. */
  lemma RequestForIsOk(s: State, worker: string, work: Work)
    requires WorkOk(s, worker, work)
    ensures RequestOk(s.stub, s.db.batches[work.batchId], RequestFor(work))
  {
  }

  /** What a local move does, and that the new phase is as sound as the old one. */
  lemma LocalMove(s: State, step: Step, backoff: Backoff)
    requires CallsOk(s) && Enabled(s, step)
    requires step.AcquirePermit? || step.Send? || step.Receive? || step.CallFails? || step.GiveUp?
    requires PhaseOk(s, step.worker, PhaseOf(s, step.worker))
    ensures LocalChange(s, Next(s, step, backoff), step.worker)
  {
    hide DbOk, StubOk, Agree, CallsOk;
    var worker := step.worker;
    match step
    case AcquirePermit(_) => PermitMove(s, worker, PhaseOf(s, worker).work);
    case Send(_, call) =>
      var work := PhaseOf(s, worker).work;
      RequestForIsOk(s, worker, work);
      SendMove(s, Next(s, step, backoff), worker, work, call);
    case Receive(_) => ReceiveMove(s, worker, PhaseOf(s, worker).work, PhaseOf(s, worker).call);
    case CallFails(_, reply) => FailureMove(s, worker, PhaseOf(s, worker).work, reply);
    case GiveUp(_) => IdleMove(s, worker);
  }

  /** One worker changes phase and may add calls; nothing else changes. */
  ghost predicate LocalChange(s: State, t: State, worker: string) {
    && t.db == s.db && t.stub == s.stub && t.tokens == s.tokens && t.replies == s.replies
    && (forall c :: c in s.calls ==> c in t.calls && t.calls[c] == s.calls[c])
    && (forall c :: c in t.calls && c !in s.calls ==> CallOk(t.db, t.stub, t.calls[c]))
    && t.workers.Keys == s.workers.Keys + {worker}
    && (forall w :: w in s.workers && w != worker ==> t.workers[w] == s.workers[w])
    && PhaseOk(t, worker, t.workers[worker])
  }

  lemma PermitMove(s: State, worker: string, work: Work)
    requires WorkOk(s, worker, work)
    ensures LocalChange(s, Move(s, worker, Permitted(work)), worker)
  {
  }

  lemma FailureMove(s: State, worker: string, work: Work, reply: Reply)
    requires WorkOk(s, worker, work) && NetworkFault(reply)
    ensures LocalChange(s, Move(s, worker, Answered(work, reply)), worker)
  {
  }

  lemma SendMove(s: State, t: State, worker: string, work: Work, call: int)
    requires WorkOk(s, worker, work) && call !in s.calls
    requires RequestOk(s.stub, s.db.batches[work.batchId], RequestFor(work))
    requires t == Move(s, worker, Calling(work, call)).(calls := s.calls[call := Call(work.batchId, RequestFor(work))])
    ensures LocalChange(s, t, worker)
  {
  }

  lemma ReceiveMove(s: State, worker: string, work: Work, call: int)
    requires CallsOk(s) && PhaseOk(s, worker, Calling(work, call)) && call in s.replies
    ensures LocalChange(s, Move(s, worker, Answered(work, s.replies[call])), worker)
  {
    assert ReplyTrue(s.stub, s.db.batches[s.calls[call].batchId], s.calls[call].request, s.replies[call]);
  }

  lemma LocalKeepsInv(s: State, step: Step, backoff: Backoff)
    requires Inv(s) && Enabled(s, step)
    requires step.AcquirePermit? || step.Send? || step.Receive? || step.CallFails? || step.GiveUp?
    ensures Inv(Next(s, step, backoff))
  {
    CurrentPhase(s, step.worker);
    LocalMove(s, step, backoff);
    MoveKeepsInv(s, Next(s, step, backoff), step.worker);
  }

  lemma ArriveKeepsInv(s: State, step: Step, backoff: Backoff)
    requires Inv(s) && step.Arrive? && Enabled(s, step)
    ensures Inv(Next(s, step, backoff))
  {
    hide DbOk, StubOk, Agree, Serve, DbGrows, StubGrows, PhaseOk, RequestOk, ReplyTrue;
    var t := Next(s, step, backoff);
    var call := s.calls[step.call];
    assert CallOk(s.db, s.stub, call);
    ArrivalSteps.ArrivalKeepsReceiver(s.db, s.stub, call, step.draw, step.stubNow);
    DbSteps.DbGrowsReflexive(s.db);
    CallsOkStable(s, s.(stub := t.stub));
    PhasesStable(s, t);
  }

  // Commits

  /** An event a worker decides on repeats what the receiver said. */
  ghost predicate EventTrue(stub: StubState, row: Batch, event: Event) {
    match event
    case SubmitAccepted(receiptId, _) => IsRecorded(stub, row) && SubmissionOf(stub, row).receiptId == receiptId
    case ReferenceFound(receiptId, _) => IsRecorded(stub, row) && SubmissionOf(stub, row).receiptId == receiptId
    case CompleteAcknowledgment(outcomes) =>
      IsRecorded(stub, row) && outcomes == OutcomesOf(WiresOf(SubmissionOf(stub, row).results))
    case _ => true
  }

  lemma DecisionIsTrue(stub: StubState, row: Batch, work: Work, reply: Reply, backoff: Backoff, jitter: Int64)
    requires ReplyTrue(stub, row, RequestFor(work), reply)
    ensures EventTrue(stub, row, Decide(work, reply, backoff, jitter))
  {
  }

  lemma ReceiptAgreesAfter(db: Db, stub: StubState, claim: Claim, now: int, event: Event)
    requires Apply(db, claim, now, event).Ok? && claim.batchId in db.batches
    requires EventTrue(stub, db.batches[claim.batchId], event)
    requires ReceiptAgrees(stub, db.batches[claim.batchId])
    requires claim.batchId in Apply(db, claim, now, event).value.batches
    requires SameBatch(db.batches[claim.batchId], Apply(db, claim, now, event).value.batches[claim.batchId])
    ensures ReceiptAgrees(stub, Apply(db, claim, now, event).value.batches[claim.batchId])
  {
  }

  /** An acknowledgment gives every filing of the batch the receiver's own result. */
  lemma AcknowledgedResults(db: Db, stub: StubState, claim: Claim, now: int, outcomes: seq<Outcome>)
    requires DbOk(db) && StubOk(db, stub) && Acknowledge(db, claim, now, outcomes).Ok?
    requires claim.batchId in db.batches && EventTrue(stub, db.batches[claim.batchId], CompleteAcknowledgment(outcomes))
    ensures var after := Acknowledge(db, claim, now, outcomes).value;
            claim.batchId in after.batches && ResultsAgree(after, stub, after.batches[claim.batchId])
  {
    hide DbOk, StubOk, Acknowledge;
    DbSteps.AcknowledgeRecords(db, claim, now, outcomes);
    DbSteps.LinkedKeysDistinct(db, claim.batchId);
    ArrivalSteps.RecordedIsReadable(db, stub, claim.batchId);
    var row := db.batches[claim.batchId];
    var after := Acknowledge(db, claim, now, outcomes).value;
    forall i | 0 <= i < |row.links|
      ensures row.links[i] in after.filings
      ensures after.filings[row.links[i]].state == FilingAccepted(SubmissionOf(stub, row).results[i].irsRecordId, now)
    {
      AcknowledgedResult(db, stub, claim.batchId, after, now, outcomes, i);
    }
  }

  lemma AcknowledgedResult(db: Db, stub: StubState, id: int, after: Db, now: int, outcomes: seq<Outcome>, i: nat)
    requires id in db.batches && IsRecorded(stub, db.batches[id]) && i < |db.batches[id].links|
    requires LinksExist(db, db.batches[id]) && KeysDistinct(db.filings, db.batches[id].links)
    requires ResultsFit(db, db.batches[id], SubmissionOf(stub, db.batches[id]))
    requires outcomes == OutcomesOf(WiresOf(SubmissionOf(stub, db.batches[id]).results))
    requires Recorded(db.filings, after.filings, Expected(db.filings, db.batches[id].links), outcomes, now)
    ensures db.batches[id].links[i] in after.filings
    ensures after.filings[db.batches[id].links[i]].state
         == FilingAccepted(SubmissionOf(stub, db.batches[id]).results[i].irsRecordId, now)
  {
    var row := db.batches[id];
    var result := SubmissionOf(stub, row).results[i];
    var link := row.links[i];
    assert link in db.filings && result.recordId == db.filings[link].key && result.irsRecordId != "";
    assert outcomes[i] == OutcomeOf(WireOf(result));
    ExpectedAt(db.filings, row.links, i);
    assert after.filings[link] == db.filings[link].(state := ResultState(outcomes[i], now));
  }

  lemma ResultsAgreeAfter(db: Db, stub: StubState, claim: Claim, now: int, event: Event)
    requires DbOk(db) && StubOk(db, stub) && Apply(db, claim, now, event).Ok?
    requires claim.batchId in db.batches && EventTrue(stub, db.batches[claim.batchId], event)
    ensures claim.batchId in Apply(db, claim, now, event).value.batches
    ensures ResultsAgree(Apply(db, claim, now, event).value, stub,
                         Apply(db, claim, now, event).value.batches[claim.batchId])
  {
    if event.CompleteAcknowledgment? {
      AcknowledgedResults(db, stub, claim, now, event.outcomes);
    } else {
      DbSteps.ClaimedReceipt(db, claim);
      DbSteps.SimpleEventIsRowStep(db, claim, now, event);
    }
  }

  lemma OtherBatchAgrees(a: Db, b: Db, stub: StubState, changed: int, id: int)
    requires DbOk(a) && DbSteps.OnlyBatch(a, b, changed) && DbGrows(a, b)
    requires id in a.batches && id != changed
    requires ReceiptAgrees(stub, a.batches[id]) && ResultsAgree(a, stub, a.batches[id])
    ensures ReceiptAgrees(stub, b.batches[id]) && ResultsAgree(b, stub, b.batches[id])
  {
    var row := a.batches[id];
    assert BatchOk(a, id, row);
    forall i | 0 <= i < |row.links|
      ensures row.links[i] in b.filings && b.filings[row.links[i]] == a.filings[row.links[i]]
    {
      var link := row.links[i];
      assert link in a.filings && a.batchOfFiling[link] == id;
    }
  }

  lemma EventKeepsAgree(db: Db, stub: StubState, claim: Claim, now: int, event: Event)
    requires DbOk(db) && StubOk(db, stub) && Agree(db, stub) && Apply(db, claim, now, event).Ok?
    requires claim.batchId in db.batches && EventTrue(stub, db.batches[claim.batchId], event)
    ensures Agree(Apply(db, claim, now, event).value, stub)
  {
    var after := Apply(db, claim, now, event).value;
    DbSteps.EventKeepsDbOk(db, claim, now, event);
    ReceiptAgreesAfter(db, stub, claim, now, event);
    ResultsAgreeAfter(db, stub, claim, now, event);
    forall id | id in after.batches
      ensures ReceiptAgrees(stub, after.batches[id]) && ResultsAgree(after, stub, after.batches[id])
    {
      if id != claim.batchId {
        assert ReceiptAgrees(stub, db.batches[id]) && ResultsAgree(db, stub, db.batches[id]);
        OtherBatchAgrees(db, after, stub, claim.batchId, id);
      }
    }
  }

  lemma CommitKeepsWorkers(s: State, t: State, worker: string, id: int)
    requires WorkersOk(s) && DbGrows(s.db, t.db) && DbSteps.OnlyBatch(s.db, t.db, id)
    requires t.stub == s.stub && t.calls == s.calls && t.tokens == s.tokens
    requires t.db.batches[id].lease.None?
    requires t.workers == s.workers[worker := Idle]
    ensures WorkersOk(t)
  {
    forall w | w in t.workers
      ensures PhaseOk(t, w, t.workers[w])
    {
      if w != worker {
        assert PhaseOk(s, w, s.workers[w]);
        PhaseOkStable(s, t, w, s.workers[w]);
      }
    }
  }

  /** A committed event, decided on a true reply. */
  lemma CommittedKeepsInv(s: State, t: State, worker: string, work: Work, event: Event)
    requires Inv(s) && WorkOk(s, worker, work) && EventTrue(s.stub, s.db.batches[work.batchId], event)
    requires Apply(s.db, ClaimOf(work), s.now, event).Ok?
    requires t == s.(db := Apply(s.db, ClaimOf(work), s.now, event).value, workers := s.workers[worker := Idle],
                     history := t.history)
    ensures Inv(t)
  {
    DbSteps.EventKeepsDbOk(s.db, ClaimOf(work), s.now, event);
    EventKeepsAgree(s.db, s.stub, ClaimOf(work), s.now, event);
    CommitKeepsRest(s, t, worker, work.batchId);
  }

  lemma CommitKeepsRest(s: State, t: State, worker: string, id: int)
    requires StubOk(s.db, s.stub) && CallsOk(s) && WorkersOk(s)
    requires DbGrows(s.db, t.db) && DbSteps.OnlyBatch(s.db, t.db, id) && t.db.batches[id].lease.None?
    requires t == s.(db := t.db, workers := s.workers[worker := Idle], history := t.history)
    ensures StubOk(t.db, t.stub) && CallsOk(t) && WorkersOk(t)
  {
    StubOkStable(s.db, t.db, s.stub);
    CallsOkStable(s, t);
    CommitKeepsWorkers(s, t, worker, id);
  }

  lemma AfterCommitKeepsInv(s: State, worker: string, backoff: Backoff, jitter: Int64)
    requires Inv(s) && PhaseOf(s, worker).Answered? && PhaseOk(s, worker, PhaseOf(s, worker))
    ensures Inv(AfterCommit(s, worker, backoff, jitter))
  {
    var t := AfterCommit(s, worker, backoff, jitter);
    var work, reply := PhaseOf(s, worker).work, PhaseOf(s, worker).reply;
    var event := Decide(work, reply, backoff, jitter);
    if Apply(s.db, ClaimOf(work), s.now, event).Err? {
      IdleMove(s, worker);
      MoveKeepsInv(s, t, worker);
    } else {
      DecisionIsTrue(s.stub, s.db.batches[work.batchId], work, reply, backoff, jitter);
      CommittedKeepsInv(s, t, worker, work, event);
    }
  }

  lemma IdleMove(s: State, worker: string)
    ensures LocalChange(s, Move(s, worker, Idle), worker)
  {
  }

  lemma CommitKeepsInv(s: State, step: Step, backoff: Backoff)
    requires Inv(s) && step.Commit? && Enabled(s, step)
    ensures Inv(Next(s, step, backoff))
  {
    CurrentPhase(s, step.worker);
    AfterCommitKeepsInv(s, step.worker, backoff, step.jitter);
  }

  // Runs

  lemma StepKeepsInv(s: State, step: Step, backoff: Backoff)
    requires Inv(s) && Enabled(s, step)
    ensures Inv(Next(s, step, backoff))
  {
    hide Inv, Next;
    match step
    case Determine(_, _) => DetermineKeepsInv(s, step, backoff);
    case PlanOne(_, _) => PlanKeepsInv(s, step, backoff);
    case ClaimBatch(_, _, _, _) => ClaimKeepsInv(s, step, backoff);
    case Arrive(_, _, _) => ArriveKeepsInv(s, step, backoff);
    case Commit(_, _) => CommitKeepsInv(s, step, backoff);
    case Tick(_) => TickKeepsInv(s, step, backoff);
    case _ => LocalKeepsInv(s, step, backoff);
  }

  /** Insertions remove no row and change no immutable column. */
  lemma InsertionGrowsDb(s: State, step: Step, backoff: Backoff)
    requires Inv(s) && Enabled(s, step) && (step.Determine? || step.PlanOne?)
    ensures DbGrows(s.db, Next(s, step, backoff).db)
  {
    if step.Determine? && InsertFiling(s.db, step.filingId, step.row).Ok? {
      InsertSteps.InsertFilingGrows(s.db, step.filingId, step.row);
    } else if step.PlanOne? && InsertBatch(s.db, step.newBatch, step.group, s.now).Ok? {
      InsertSteps.InsertBatchGrows(s.db, step.newBatch, step.group, s.now);
    } else {
      DbSteps.DbGrowsReflexive(s.db);
    }
  }

  lemma TickKeepsInv(s: State, step: Step, backoff: Backoff)
    requires Inv(s) && step.Tick?
    ensures Inv(Next(s, step, backoff))
  {
    var t := Next(s, step, backoff);
    DbSteps.DbGrowsReflexive(s.db);
    CallsOkStable(s, t);
    PhasesStable(s, t);
  }

  /** The invariant holds after every run: any number of workers and steps, any faults, delays and crashes. */
  lemma {:induction false} RunKeepsInv(s: State, steps: seq<Step>, backoff: Backoff)
    requires Inv(s)
    ensures Inv(Run(s, steps, backoff))
  {
    if steps != [] {
      var n := |steps| - 1;
      RunKeepsInv(s, steps[..n], backoff);
      var before := Run(s, steps[..n], backoff);
      if Enabled(before, steps[n]) {
        StepKeepsInv(before, steps[n], backoff);
      }
    }
  }

  lemma ReachableInv(s: State, backoff: Backoff)
    requires Reachable(s, backoff)
    ensures Inv(s)
  {
    var start: int, steps: seq<Step> :| s == Run(Initial(start), steps, backoff);
    RunKeepsInv(Initial(start), steps, backoff);
  }
}
