/**
 With a positive maximum of attempts, a batch whose claims all complete before their leases end
 leaves planned, submitting and submit_unknown for good after at most that maximum plus one claims.
 */
module Termination {
  import opened Prelude
  import opened Retry
  import opened Client
  import opened Filing
  import opened Worker
  import opened System
  import opened Invariant
  import opened Fencing
  import opened ClaimHolders
  import DbSteps
  import Safety

  /** How many attempts a batch that has not been submitted can have used, unclaimed and claimed. */
  predicate AttemptsWithin(row: Batch, max: int) {
    if row.lease.None? then
      && !row.state.Submitting?
      && (row.state.Planned? ==> row.attempts <= max)
      && (row.state.SubmitUnknown? ==> row.attempts < max)
    else
      && !row.state.Planned?
      && (row.state.Submitting? ==> row.attempts <= max + 1)
      && (row.state.SubmitUnknown? ==> row.attempts <= max)
  }

  /** The batch has been claimed `n` times, and any lease it has is live and held. */
  predicate Counted(s: State, id: int, max: int, n: nat) {
    if id in s.db.batches then
      && s.db.batches[id].attempts == n
      && AttemptsWithin(s.db.batches[id], max)
      && (s.db.batches[id].lease.Some? ==>
            && s.db.batches[id].lease.value.token in s.tokens
            && HolderOf(s, s.tokens[s.db.batches[id].lease.value.token], id))
    else n == 0
  }

  /** Retries are granted only while attempts remain; only a not-found lookup plans a batch again. */
  lemma DecidedRetries(work: Work, reply: Reply, backoff: Backoff, jitter: Int64)
    requires backoff.maxAttempts > 0
    ensures var event := Decide(work, reply, backoff, jitter);
            && (event.SubmitOutcomeUnknown? || event.StatusUnavailable? ==> work.attempts < backoff.maxAttempts)
            && (event.ReferenceNotFound? ==> !work.action.Submit?)
  {
  }

  lemma EventResult(db: Db, claim: Claim, now: int, event: Event)
    requires Apply(db, claim, now, event).Ok? && claim.batchId in db.batches
    ensures claim.batchId in Apply(db, claim, now, event).value.batches
    ensures var row := Apply(db, claim, now, event).value.batches[claim.batchId];
            && row.lease.None? && row.attempts == db.batches[claim.batchId].attempts
            && !row.state.Submitting?
            && (row.state.Planned? ==> event.ReferenceNotFound? && db.batches[claim.batchId].state.SubmitUnknown?)
            && (row.state.SubmitUnknown? ==> event.SubmitOutcomeUnknown? || event.StatusUnavailable?)
  {
  }

  /** The holder's commit keeps the count and the bounds. */
  lemma CommitCounted(s: State, step: Step, backoff: Backoff, id: int, n: nat)
    requires Inv(s) && SoundSettings(backoff) && backoff.maxAttempts > 0
    requires Enabled(s, step) && HolderCommit(s, step, id) && Counted(s, id, backoff.maxAttempts, n)
    ensures Counted(Next(s, step, backoff), id, backoff.maxAttempts, n)
  {
    Safety.CurrentPhase(s, step.worker);
    LiveCommitApplies(s, backoff, step);
    var work, reply := PhaseOf(s, step.worker).work, PhaseOf(s, step.worker).reply;
    DecidedRetries(work, reply, backoff, step.jitter);
    EventResult(s.db, ClaimOf(work), s.now, Decide(work, reply, backoff, step.jitter));
  }

  lemma ClaimCounted(s: State, t: State, worker: string, id: int, leaseMicros: int, token: string, max: int, n: nat)
    requires Safety.ClaimChange(s, t, worker, id, leaseMicros, token) && Counted(s, id, max, n)
    requires leaseMicros > 0 && Unleased(s.db.batches[id], s.now)
    ensures Counted(t, id, max, n + 1)
  {
  }

  /** Any other step: the row is untouched and its holder, if any, remains. */
  lemma OtherCounted(s: State, step: Step, backoff: Backoff, id: int, max: int, n: nat)
    requires Inv(s) && Enabled(s, step) && Prompt(s, step, id) && Counted(s, id, max, n)
    requires !ClaimsBatch(step, id) && !HolderCommit(s, step, id) && id in s.db.batches
    ensures Counted(Next(s, step, backoff), id, max, n)
  {
    if s.db.batches[id].lease.Some? {
      var holder := s.tokens[s.db.batches[id].lease.value.token];
      HolderStays(s, step, backoff, holder, id);
      TokensGrow(s, step, backoff);
    } else {
      UnheldRowStays(s, step, backoff, id);
    }
  }

  lemma TokensGrow(s: State, step: Step, backoff: Backoff)
    requires Enabled(s, step)
    ensures forall k :: k in s.tokens ==>
              k in Next(s, step, backoff).tokens && Next(s, step, backoff).tokens[k] == s.tokens[k]
  {
  }

  /** Rows appear only by planning, which inserts them unclaimed. */
  lemma PlannedRow(s: State, step: Step, backoff: Backoff, id: int)
    requires step.PlanOne? && id !in s.db.batches && Enabled(s, step)
    ensures id in Next(s, step, backoff).db.batches ==>
              var row := Next(s, step, backoff).db.batches[id];
              row.state.Planned? && row.attempts == 0 && row.lease.None?
  {
  }

  lemma NoRowElse(s: State, step: Step, backoff: Backoff, id: int)
    requires DbOk(s.db) && !step.PlanOne? && id !in s.db.batches && Enabled(s, step)
    ensures id !in Next(s, step, backoff).db.batches
  {
    hide DbOk, Decide, Apply, DbGrows;
    match step
    case Commit(worker, jitter) =>
      var work := PhaseOf(s, worker).work;
      var event := Decide(work, PhaseOf(s, worker).reply, backoff, jitter);
      if Apply(s.db, ClaimOf(work), s.now, event).Ok? {
        DbSteps.EventKeepsDbOk(s.db, ClaimOf(work), s.now, event);
      }
    case ClaimBatch(worker, claimed, leaseMicros, token) => ClaimAddsNoRow(s, worker, claimed, leaseMicros, token);
    case Determine(_, _) =>
    case _ => LocalsLeaveDb(s, step, backoff);
  }

  lemma ClaimAddsNoRow(s: State, worker: string, id: int, leaseMicros: int, token: string)
    requires id in s.db.batches
    ensures AfterClaim(s, worker, id, leaseMicros, token).db.batches.Keys == s.db.batches.Keys
  {
  }

  lemma NewRowCounted(s: State, step: Step, backoff: Backoff, id: int, max: int)
    requires DbOk(s.db) && max > 0 && id !in s.db.batches && Enabled(s, step)
    ensures Counted(Next(s, step, backoff), id, max, 0)
  {
    if step.PlanOne? {
      PlannedRow(s, step, backoff, id);
    } else {
      NoRowElse(s, step, backoff, id);
    }
  }

  /** How many times a run claims the batch. */
  function ClaimCount(start: int, steps: seq<Step>, backoff: Backoff, id: int): nat {
    if steps == [] then 0
    else
      var n := |steps| - 1;
      ClaimCount(start, steps[..n], backoff, id)
      + if Enabled(Run(Initial(start), steps[..n], backoff), steps[n]) && ClaimsBatch(steps[n], id) then 1 else 0
  }

  /** A run in which every claim of the batch completes before its lease ends. */
  ghost predicate PromptRun(start: int, steps: seq<Step>, backoff: Backoff, id: int) {
    steps == [] ||
    var n := |steps| - 1;
    PromptRun(start, steps[..n], backoff, id) && Prompt(Run(Initial(start), steps[..n], backoff), steps[n], id)
  }

  lemma ClaimStepCounted(s: State, step: Step, backoff: Backoff, id: int, n: nat)
    requires Inv(s) && Enabled(s, step) && Prompt(s, step, id) && ClaimsBatch(step, id)
    requires Counted(s, id, backoff.maxAttempts, n)
    ensures Counted(Next(s, step, backoff), id, backoff.maxAttempts, n + 1)
  {
    BatchIsIntact(s, id);
    Safety.ClaimStep(s, step.worker, id, step.leaseMicros, step.token);
    ClaimCounted(s, Next(s, step, backoff), step.worker, id, step.leaseMicros, step.token, backoff.maxAttempts, n);
  }

  lemma StepCounted(s: State, step: Step, backoff: Backoff, id: int, n: nat)
    requires Inv(s) && SoundSettings(backoff) && backoff.maxAttempts > 0
    requires Enabled(s, step) && Prompt(s, step, id) && Counted(s, id, backoff.maxAttempts, n)
    ensures Counted(Next(s, step, backoff), id, backoff.maxAttempts, n + if ClaimsBatch(step, id) then 1 else 0)
  {
    if HolderCommit(s, step, id) {
      CommitCounted(s, step, backoff, id, n);
    } else if ClaimsBatch(step, id) {
      ClaimStepCounted(s, step, backoff, id, n);
    } else if id in s.db.batches {
      OtherCounted(s, step, backoff, id, backoff.maxAttempts, n);
    } else {
      NewRowCounted(s, step, backoff, id, backoff.maxAttempts);
    }
  }

  lemma InitialCounted(start: int, backoff: Backoff, id: int)
    ensures Inv(Initial(start)) && Counted(Initial(start), id, backoff.maxAttempts, 0)
  {
  }

  lemma {:induction false} RunCounted(start: int, steps: seq<Step>, backoff: Backoff, id: int)
    requires SoundSettings(backoff) && backoff.maxAttempts > 0 && PromptRun(start, steps, backoff, id)
    ensures Inv(Run(Initial(start), steps, backoff))
    ensures Counted(Run(Initial(start), steps, backoff), id, backoff.maxAttempts, ClaimCount(start, steps, backoff, id))
  {
    hide Inv, Counted, Next, Enabled, Prompt, Initial, ClaimsBatch, SoundSettings;
    if steps == [] {
      InitialCounted(start, backoff, id);
    } else {
      var n := |steps| - 1;
      RunCounted(start, steps[..n], backoff, id);
      var before := Run(Initial(start), steps[..n], backoff);
      if Enabled(before, steps[n]) {
        Safety.StepKeepsInv(before, steps[n], backoff);
        StepCounted(before, steps[n], backoff, id, ClaimCount(start, steps[..n], backoff, id));
      }
    }
  }

  /**
   Whatever the replies were, a batch that has completed the maximum plus one of claims is past
   submission: it can be unsubmitted only during that last claim, and between claims only up to the
   maximum.
   */
  lemma LeavesSubmission(start: int, steps: seq<Step>, backoff: Backoff, id: int)
    requires SoundSettings(backoff) && backoff.maxAttempts > 0 && PromptRun(start, steps, backoff, id)
    requires id in Run(Initial(start), steps, backoff).db.batches
    ensures var row := Run(Initial(start), steps, backoff).db.batches[id];
            var claims := ClaimCount(start, steps, backoff, id);
            && (Unsubmitted(row.state) ==> claims <= backoff.maxAttempts + 1)
            && (Unsubmitted(row.state) && row.lease.None? ==> claims <= backoff.maxAttempts)
  {
    hide Inv;
    RunCounted(start, steps, backoff, id);
  }

  lemma EventKeepsSubmitted(db: Db, claim: Claim, now: int, event: Event)
    requires Apply(db, claim, now, event).Ok? && claim.batchId in db.batches
    requires !Unsubmitted(db.batches[claim.batchId].state)
    ensures claim.batchId in Apply(db, claim, now, event).value.batches
    ensures !Unsubmitted(Apply(db, claim, now, event).value.batches[claim.batchId].state)
  {
  }

  lemma SubmittedStays(s: State, backoff: Backoff, step: Step, id: int)
    requires Inv(s) && Enabled(s, step)
    requires id in s.db.batches && !Unsubmitted(s.db.batches[id].state)
    ensures id in Next(s, step, backoff).db.batches && !Unsubmitted(Next(s, step, backoff).db.batches[id].state)
  {
    hide DbOk, StubOk, Agree, CallsOk, WorkersOk;
    if HolderCommit(s, step, id) {
      SubmittedAfterCommit(s, step, backoff, id);
    } else if ClaimsBatch(step, id) {
      BatchIsIntact(s, id);
      Safety.ClaimStep(s, step.worker, id, step.leaseMicros, step.token);
    } else {
      UnheldRowStays(s, step, backoff, id);
    }
  }

  lemma SubmittedAfterCommit(s: State, step: Step, backoff: Backoff, id: int)
    requires Enabled(s, step) && HolderCommit(s, step, id) && !Unsubmitted(s.db.batches[id].state)
    ensures id in Next(s, step, backoff).db.batches && !Unsubmitted(Next(s, step, backoff).db.batches[id].state)
  {
    var work := PhaseOf(s, step.worker).work;
    var event := Decide(work, PhaseOf(s, step.worker).reply, backoff, step.jitter);
    if Apply(s.db, ClaimOf(work), s.now, event).Ok? {
      EventKeepsSubmitted(s.db, ClaimOf(work), s.now, event);
    }
  }

  lemma {:induction false} RunStaysSubmitted(s: State, steps: seq<Step>, backoff: Backoff, id: int)
    requires Inv(s) && id in s.db.batches && !Unsubmitted(s.db.batches[id].state)
    ensures Inv(Run(s, steps, backoff)) && id in Run(s, steps, backoff).db.batches
    ensures !Unsubmitted(Run(s, steps, backoff).db.batches[id].state)
  {
    if steps != [] {
      var n := |steps| - 1;
      RunStaysSubmitted(s, steps[..n], backoff, id);
      var before := Run(s, steps[..n], backoff);
      if Enabled(before, steps[n]) {
        Safety.StepKeepsInv(before, steps[n], backoff);
        SubmittedStays(before, backoff, steps[n], id);
      }
    }
  }

  /** A batch that has left submission never returns to it in any run, whatever faults and crashes follow. */
  lemma SubmittedForGood(s: State, backoff: Backoff, steps: seq<Step>, id: int)
    requires Reachable(s, backoff) && id in s.db.batches && !Unsubmitted(s.db.batches[id].state)
    ensures id in Run(s, steps, backoff).db.batches
    ensures !Unsubmitted(Run(s, steps, backoff).db.batches[id].state)
  {
    Safety.ReachableInv(s, backoff);
    RunStaysSubmitted(s, steps, backoff, id);
  }
}
