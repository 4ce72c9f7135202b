/** Who holds a claim of one batch, and what a run does to it that lets no claim lapse. */
module ClaimHolders {
  import opened Retry
  import opened Filing
  import opened Planning
  import opened Worker
  import opened System
  import opened Invariant
  import opened Fencing

  /** The worker holds a live claim of the batch. */
  predicate HolderOf(s: State, worker: string, id: int) {
    HoldsLive(s, worker) && PhaseOf(s, worker).work.batchId == id
  }

  /** The step lets no claim of the batch lapse: its holder does not give up, and a held lease does not run out. */
  ghost predicate Prompt(s: State, step: Step, id: int) {
    match step
    case ClaimBatch(_, claimed, leaseMicros, _) => claimed == id ==> leaseMicros > 0
    case GiveUp(worker) => !HolderOf(s, worker, id)
    case Tick(elapsed) =>
      (exists w :: HolderOf(s, w, id)) ==> id in s.db.batches && Live(s.db.batches[id], s.now + elapsed)
    case _ => true
  }

  /** The step is a commit by the batch's holder. */
  predicate HolderCommit(s: State, step: Step, id: int) {
    step.Commit? && HolderOf(s, step.worker, id)
  }

  predicate ClaimsBatch(step: Step, id: int) {
    step.ClaimBatch? && step.batchId == id
  }

  /** What a worker's own steps and everyone else's leave of its phase, short of committing or giving up. */
  lemma WorkStays(s: State, step: Step, backoff: Backoff, worker: string)
    requires Enabled(s, step) && !PhaseOf(s, worker).Idle?
    requires !(step.Commit? && step.worker == worker) && !(step.GiveUp? && step.worker == worker)
    ensures !PhaseOf(Next(s, step, backoff), worker).Idle?
    ensures PhaseOf(Next(s, step, backoff), worker).work == PhaseOf(s, worker).work
    ensures step.Commit? || step.ClaimBatch? || step.GiveUp? || step.Determine? || step.PlanOne? || step.Arrive?
            || step.Tick?
            || step.worker != worker ==>
              PhaseOf(Next(s, step, backoff), worker) == PhaseOf(s, worker)
  {
    hide Apply, Decide, InsertFiling, InsertBatch, ClaimRow, Serve;
  }

  lemma NowAfter(s: State, step: Step, backoff: Backoff)
    requires Enabled(s, step)
    ensures Next(s, step, backoff).now == s.now + if step.Tick? then step.elapsed else 0
  {
  }

  /** The batch's row is untouched until its holder commits. */
  lemma HeldRowStays(s: State, step: Step, backoff: Backoff, worker: string, id: int)
    requires DbOk(s.db) && Enabled(s, step) && HolderOf(s, worker, id)
    requires step.Commit? ==> !HolderOf(s, step.worker, id)
    ensures id in Next(s, step, backoff).db.batches && Next(s, step, backoff).db.batches[id] == s.db.batches[id]
  {
    if step.Commit? {
      CommitChangesOwnBatch(s, step, backoff, id);
    } else {
      OtherStepsLeaveRow(s, step, backoff, id);
    }
  }

  lemma HolderKept(s: State, t: State, worker: string, id: int)
    requires HolderOf(s, worker, id) && id in t.db.batches && t.db.batches[id] == s.db.batches[id]
    requires !PhaseOf(t, worker).Idle? && PhaseOf(t, worker).work == PhaseOf(s, worker).work
    requires Live(s.db.batches[id], t.now)
    ensures HolderOf(t, worker, id)
  {
  }

  /** A holder remains the holder until it commits. */
  lemma HolderStays(s: State, step: Step, backoff: Backoff, worker: string, id: int)
    requires DbOk(s.db) && Enabled(s, step) && Prompt(s, step, id) && HolderOf(s, worker, id)
    requires step.Commit? ==> !HolderOf(s, step.worker, id)
    ensures HolderOf(Next(s, step, backoff), worker, id)
    ensures Next(s, step, backoff).db.batches[id] == s.db.batches[id]
    ensures PhaseOf(Next(s, step, backoff), worker).work == PhaseOf(s, worker).work
  {
    hide DbOk, Next;
    WorkStays(s, step, backoff, worker);
    NowAfter(s, step, backoff);
    HeldRowStays(s, step, backoff, worker, id);
    HolderKept(s, Next(s, step, backoff), worker, id);
  }

  lemma OtherCommitStep(s: State, step: Step, backoff: Backoff, id: int)
    requires DbOk(s.db) && step.Commit? && Enabled(s, step) && id in s.db.batches && !HolderCommit(s, step, id)
    ensures id in Next(s, step, backoff).db.batches && Next(s, step, backoff).db.batches[id] == s.db.batches[id]
  {
    CommitChangesOwnBatch(s, step, backoff, id);
  }

  lemma OtherClaimStep(s: State, step: Step, backoff: Backoff, id: int)
    requires step.ClaimBatch? && Enabled(s, step) && id in s.db.batches && step.batchId != id
    ensures id in Next(s, step, backoff).db.batches && Next(s, step, backoff).db.batches[id] == s.db.batches[id]
  {
    OtherClaimLeavesRow(s, step.worker, step.batchId, step.leaseMicros, step.token, id);
  }

  lemma OtherStepsKeepRow(s: State, step: Step, backoff: Backoff, id: int)
    requires !step.Commit? && Enabled(s, step) && id in s.db.batches && !ClaimsBatch(step, id)
    ensures id in Next(s, step, backoff).db.batches && Next(s, step, backoff).db.batches[id] == s.db.batches[id]
  {
    match step
    case ClaimBatch(_, _, _, _) => OtherClaimStep(s, step, backoff, id);
    case Determine(_, _) => InsertionsLeaveRows(s, step, backoff, id);
    case PlanOne(_, _) => InsertionsLeaveRows(s, step, backoff, id);
    case _ => LocalsLeaveDb(s, step, backoff);
  }

  /** A batch that is neither claimed nor completed by the step keeps its row. */
  lemma UnheldRowStays(s: State, step: Step, backoff: Backoff, id: int)
    requires DbOk(s.db) && Enabled(s, step) && id in s.db.batches
    requires !ClaimsBatch(step, id) && !HolderCommit(s, step, id)
    ensures id in Next(s, step, backoff).db.batches && Next(s, step, backoff).db.batches[id] == s.db.batches[id]
  {
    if step.Commit? {
      OtherCommitStep(s, step, backoff, id);
    } else {
      OtherStepsKeepRow(s, step, backoff, id);
    }
  }

  lemma BatchIsIntact(s: State, id: int)
    requires Inv(s)
    ensures id in s.db.batches ==> s.db.batches[id].digest == Sha256(s.db.batches[id].document)
  {
    if id in s.db.batches {
      assert BatchOk(s.db, id, s.db.batches[id]);
    }
  }
}
