/** The immutability triggers never fire: no step of any run asks for a change they reject. */
module Immutability {
  import opened Prelude
  import opened Retry
  import opened Filing
  import opened Planning
  import opened Worker
  import opened System
  import opened Invariant
  import opened Fencing
  import opened ClaimHolders
  import DbSteps
  import InsertSteps
  import Safety

  /** `protect_batch_immutability`: identity and payload stay, and a terminal row does not change at all. */
  predicate BatchUpdateAllowed(before: Batch, after: Batch) {
    SameBatch(before, after) && (Terminal(before.state) ==> after == before)
  }

  predicate Decided(state: FilingState) {
    state.FilingAccepted? || state.FilingRejected?
  }

  /** `protect_filing_immutability`: identity and amounts stay, and a result does not change at all. */
  predicate FilingUpdateAllowed(before: FilingRow, after: FilingRow) {
    SameFiling(before, after) && (Decided(before.state) ==> after == before)
  }

  /** No row disappears, and every change is one the triggers allow. */
  ghost predicate ChangesAllowed(a: Db, b: Db) {
    && (forall id :: id in a.batches ==> id in b.batches && BatchUpdateAllowed(a.batches[id], b.batches[id]))
    && (forall f :: f in a.filings ==> f in b.filings && FilingUpdateAllowed(a.filings[f], b.filings[f]))
  }

  /** The columns that an allowed change leaves alone, and the rows it leaves alone altogether. */
  lemma ColumnsStay(a: Db, b: Db, id: int, f: int)
    requires ChangesAllowed(a, b) && id in a.batches && f in a.filings
    ensures id in b.batches && f in b.filings
    ensures var before, after := a.batches[id], b.batches[id];
            && (after.firm, after.client, after.taxYear, after.utid)
               == (before.firm, before.client, before.taxYear, before.utid)
            && after.document == before.document && after.digest == before.digest && after.links == before.links
            && (before.state.BatchAcknowledged? || before.state.InvariantFailed? ==> after == before)
    ensures var before, after := a.filings[f], b.filings[f];
            && after == before.(state := after.state)
            && (before.state.FilingAccepted? || before.state.FilingRejected? ==> after == before)
  {
  }

  lemma EventFromOpenState(db: Db, claim: Claim, now: int, event: Event)
    requires Apply(db, claim, now, event).Ok?
    ensures claim.batchId in db.batches && !Terminal(db.batches[claim.batchId].state)
  {
  }

  lemma EventLeavesFiling(db: Db, claim: Claim, now: int, event: Event, f: int)
    requires DbOk(db) && Apply(db, claim, now, event).Ok? && f in db.filings
    ensures var after := Apply(db, claim, now, event).value;
            f in after.filings && FilingUpdateAllowed(db.filings[f], after.filings[f])
  {
    if event.CompleteAcknowledgment? {
      DbSteps.AcknowledgeTouches(db, claim, now, event.outcomes, f);
    } else {
      SimpleLeavesFilings(db, claim, now, event);
    }
  }

  lemma EventAllowed(db: Db, claim: Claim, now: int, event: Event)
    requires DbOk(db) && Apply(db, claim, now, event).Ok?
    ensures ChangesAllowed(db, Apply(db, claim, now, event).value)
  {
    EventFromOpenState(db, claim, now, event);
    DbSteps.EventKeepsDbOk(db, claim, now, event);
    forall f | f in db.filings
      ensures f in Apply(db, claim, now, event).value.filings
           && FilingUpdateAllowed(db.filings[f], Apply(db, claim, now, event).value.filings[f])
    {
      EventLeavesFiling(db, claim, now, event, f);
    }
  }

  lemma SimpleLeavesFilings(db: Db, claim: Claim, now: int, event: Event)
    requires DbSteps.Simple(event) && Apply(db, claim, now, event).Ok?
    ensures Apply(db, claim, now, event).value.filings == db.filings
  {
  }

  lemma DecidedIsLinked(db: Db, f: int)
    requires FilingsOk(db) && f in db.filings && Decided(db.filings[f].state)
    ensures f in db.batchOfFiling
  {
    assert FilingOk(db, f, db.filings[f]);
  }

  lemma AdditionsAllowed(a: Db, b: Db)
    requires FilingsOk(a) && Safety.OnlyAdds(a, b) && DbGrows(a, b)
    ensures ChangesAllowed(a, b)
  {
    forall f | f in a.filings
      ensures FilingUpdateAllowed(a.filings[f], b.filings[f])
    {
      if Decided(a.filings[f].state) {
        DecidedIsLinked(a, f);
      }
    }
  }

  lemma BatchInsertionAllowed(db: Db, id: int, group: PlannedGroup, now: int)
    requires DbOk(db) && InsertBatch(db, id, group, now).Ok?
    ensures ChangesAllowed(db, InsertBatch(db, id, group, now).value)
  {
    InsertSteps.InsertBatchGrows(db, id, group, now);
    Safety.BatchInsertionOnlyAdds(db, id, group, now);
    AdditionsAllowed(db, InsertBatch(db, id, group, now).value);
  }

  lemma ClaimAllowed(s: State, worker: string, id: int, leaseMicros: int, token: string)
    requires Inv(s) && id in s.db.batches && token !in s.tokens && !Terminal(s.db.batches[id].state)
    ensures ChangesAllowed(s.db, AfterClaim(s, worker, id, leaseMicros, token).db)
  {
    hide StubOk, Agree, CallsOk, WorkersOk, DbOk;
    BatchIsIntact(s, id);
    Safety.ClaimStep(s, worker, id, leaseMicros, token);
  }

  lemma PlanningAllowed(db: Db, id: int, group: PlannedGroup, now: int, after: Db)
    requires DbOk(db)
    requires after == if InsertBatch(db, id, group, now).Ok? then InsertBatch(db, id, group, now).value else db
    ensures ChangesAllowed(db, after)
  {
    if InsertBatch(db, id, group, now).Ok? {
      BatchInsertionAllowed(db, id, group, now);
    }
  }

  lemma DeterminingAllowed(db: Db, id: int, row: FilingRow, after: Db)
    requires after == if InsertFiling(db, id, row).Ok? then InsertFiling(db, id, row).value else db
    ensures ChangesAllowed(db, after)
  {
  }

  lemma UnchangedAllowed(db: Db)
    ensures ChangesAllowed(db, db)
  {
  }

  lemma StepAllowed(s: State, step: Step, backoff: Backoff)
    requires Inv(s) && Enabled(s, step)
    ensures ChangesAllowed(s.db, Next(s, step, backoff).db)
  {
    hide DbOk, StubOk, Agree, CallsOk, WorkersOk, ChangesAllowed, AfterClaim, AfterCommit;
    match step
    case Commit(worker, jitter) => CommitAllowed(s, worker, backoff, jitter);
    case ClaimBatch(worker, id, leaseMicros, token) => ClaimAllowed(s, worker, id, leaseMicros, token);
    case PlanOne(id, group) => PlanningAllowed(s.db, id, group, s.now, Next(s, step, backoff).db);
    case Determine(id, row) => DeterminingAllowed(s.db, id, row, Next(s, step, backoff).db);
    case _ =>
      LocalsLeaveDb(s, step, backoff);
      UnchangedAllowed(s.db);
  }

  /** Every step of every run changes rows only as the triggers allow. */
  lemma TriggersNeverFire(s: State, backoff: Backoff, step: Step)
    requires Reachable(s, backoff) && Enabled(s, step)
    ensures ChangesAllowed(s.db, Next(s, step, backoff).db)
  {
    Safety.ReachableInv(s, backoff);
    StepAllowed(s, step, backoff);
  }

  lemma CommitAllowed(s: State, worker: string, backoff: Backoff, jitter: Int64)
    requires DbOk(s.db) && PhaseOf(s, worker).Answered?
    ensures ChangesAllowed(s.db, AfterCommit(s, worker, backoff, jitter).db)
  {
    var work := PhaseOf(s, worker).work;
    var event := Decide(work, PhaseOf(s, worker).reply, backoff, jitter);
    if Apply(s.db, ClaimOf(work), s.now, event).Ok? {
      EventAllowed(s.db, ClaimOf(work), s.now, event);
    }
  }
}
