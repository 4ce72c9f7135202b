/**
 When a batch was submitted: `submitted_at` is the database time of the commit that took the batch
 out of submission, in every run, and half an hour later the batch is reported.
 */
module SubmissionTimes {
  import opened Prelude
  import opened Retry
  import opened Filing
  import opened Planning
  import opened Worker
  import opened System
  import opened Invariant
  import opened Status
  import ClaimHolders
  import DbSteps
  import Safety
  import Termination

  /** Unsubmitted batches have no time, submitted ones have one. */
  predicate StampOk(row: Batch) {
    && (Unsubmitted(row.state) ==> row.submittedAt.None?)
    && (row.state in {Submitted, AwaitingAck, BatchAcknowledged} ==> row.submittedAt.Some?)
  }

  /** A time once set stays; it is set by leaving submission, to the time of that step. */
  predicate StampStep(row: Batch, after: Batch, now: int) {
    && (row.submittedAt.Some? ==> after.submittedAt == row.submittedAt)
    && (row.submittedAt.None? && after.submittedAt.Some? ==>
          row.state in {Submitting, SubmitUnknown} && after.state.Submitted? && after.submittedAt == Some(now))
  }

  lemma EventStamps(db: Db, claim: Claim, now: int, event: Event)
    requires Apply(db, claim, now, event).Ok? && claim.batchId in db.batches
    ensures claim.batchId in Apply(db, claim, now, event).value.batches
    ensures var row, after := db.batches[claim.batchId], Apply(db, claim, now, event).value.batches[claim.batchId];
            StampStep(row, after, now) && (StampOk(row) ==> StampOk(after))
  {
  }

  lemma ClaimStamps(row: Batch, id: int, worker: string, leaseMicros: int, token: string, now: int)
    ensures var after := ClaimRow(id, row, worker, leaseMicros, token, now).0;
            StampStep(row, after, now) && (StampOk(row) ==> StampOk(after))
  {
  }

  lemma CommitStamps(s: State, step: Step, backoff: Backoff, id: int)
    requires DbOk(s.db) && step.Commit? && Enabled(s, step) && id in s.db.batches && StampOk(s.db.batches[id])
    ensures id in Next(s, step, backoff).db.batches
    ensures StampStep(s.db.batches[id], Next(s, step, backoff).db.batches[id], s.now)
    ensures StampOk(Next(s, step, backoff).db.batches[id])
  {
    hide DbOk, Decide, DbGrows, StampStep, StampOk, Apply;
    var work, reply := PhaseOf(s, step.worker).work, PhaseOf(s, step.worker).reply;
    var event := Decide(work, reply, backoff, step.jitter);
    SameStamp(s.db.batches[id], s.now);
    if Apply(s.db, ClaimOf(work), s.now, event).Ok? {
      DbSteps.EventKeepsDbOk(s.db, ClaimOf(work), s.now, event);
      if work.batchId == id {
        EventStamps(s.db, ClaimOf(work), s.now, event);
      }
    }
  }

  lemma SameStamp(row: Batch, now: int)
    ensures StampStep(row, row, now)
  {
  }

  lemma ClaimStepStamps(s: State, step: Step, backoff: Backoff, id: int)
    requires Enabled(s, step) && step.ClaimBatch? && step.batchId == id && id in s.db.batches
    requires StampOk(s.db.batches[id])
    ensures id in Next(s, step, backoff).db.batches
    ensures Next(s, step, backoff).db.batches[id].submittedAt == s.db.batches[id].submittedAt
    ensures StampStep(s.db.batches[id], Next(s, step, backoff).db.batches[id], s.now)
    ensures StampOk(Next(s, step, backoff).db.batches[id])
  {
    hide Apply, Decide, InsertBatch, InsertFiling, Serve;
    ClaimStamps(s.db.batches[id], id, step.worker, step.leaseMicros, step.token, s.now);
  }

  lemma StepStamps(s: State, step: Step, backoff: Backoff, id: int)
    requires DbOk(s.db) && Enabled(s, step) && id in s.db.batches && StampOk(s.db.batches[id])
    ensures id in Next(s, step, backoff).db.batches
    ensures StampStep(s.db.batches[id], Next(s, step, backoff).db.batches[id], s.now)
    ensures StampOk(Next(s, step, backoff).db.batches[id])
    ensures s.db.batches[id].submittedAt.None? && Next(s, step, backoff).db.batches[id].submittedAt.Some?
            ==> step.Commit?
  {
    hide DbOk, StampOk, StampStep, Next;
    SameStamp(s.db.batches[id], s.now);
    if step.Commit? {
      CommitStamps(s, step, backoff, id);
    } else if ClaimHolders.ClaimsBatch(step, id) {
      ClaimStepStamps(s, step, backoff, id);
    } else {
      ClaimHolders.OtherStepsKeepRow(s, step, backoff, id);
    }
  }

  lemma NewRowStamp(s: State, step: Step, backoff: Backoff, id: int)
    requires DbOk(s.db) && Enabled(s, step) && id !in s.db.batches && id in Next(s, step, backoff).db.batches
    ensures Next(s, step, backoff).db.batches[id].submittedAt.None? && StampOk(Next(s, step, backoff).db.batches[id])
  {
    if !step.PlanOne? {
      Termination.NoRowElse(s, step, backoff, id);
    }
  }

  // Runs

  /** Step `k` is the commit that took the batch out of submission, and `at` is the database time of that commit. */
  ghost predicate SubmittedBy(start: int, steps: seq<Step>, backoff: Backoff, id: int, k: nat, at: int) {
    && k < |steps|
    && var before := Run(Initial(start), steps[..k], backoff);
    && var after := Run(Initial(start), steps[..k + 1], backoff);
    && Enabled(before, steps[k]) && steps[k].Commit?
    && id in before.db.batches && before.db.batches[id].state in {Submitting, SubmitUnknown}
    && id in after.db.batches && after.db.batches[id].state.Submitted?
    && before.now == at
  }

  lemma {:induction false} RunStamps(start: int, steps: seq<Step>, backoff: Backoff, id: int)
    requires id in Run(Initial(start), steps, backoff).db.batches
    ensures var row := Run(Initial(start), steps, backoff).db.batches[id];
            && StampOk(row)
            && (row.submittedAt.Some? ==> exists k :: SubmittedBy(start, steps, backoff, id, k, row.submittedAt.value))
  {
    hide DbOk, StampOk, Next, Enabled, Initial;
    if steps == [] {
      NoInitialBatch(start, id);
    } else {
      var n := |steps| - 1;
      var before := Run(Initial(start), steps[..n], backoff);
      var after := Run(Initial(start), steps, backoff);
      RunIsDbOk(start, steps[..n], backoff);
      if id in before.db.batches {
        RunStamps(start, steps[..n], backoff, id);
      }
      if Enabled(before, steps[n]) {
        if id in before.db.batches {
          StepStamps(before, steps[n], backoff, id);
        } else {
          NewRowStamp(before, steps[n], backoff, id);
        }
      }
      var row := after.db.batches[id];
      if row.submittedAt.Some? {
        if before.db.batches[id].submittedAt.Some? {
          var k :| SubmittedBy(start, steps[..n], backoff, id, k, row.submittedAt.value);
          SubmittedStays(start, steps, backoff, id, k, row.submittedAt.value);
        } else {
          assert steps[..n + 1] == steps;
          assert SubmittedBy(start, steps, backoff, id, n, row.submittedAt.value);
        }
      }
    }
  }

  lemma NoInitialBatch(start: int, id: int)
    ensures id !in Initial(start).db.batches
  {
  }

  lemma RunIsDbOk(start: int, steps: seq<Step>, backoff: Backoff)
    ensures DbOk(Run(Initial(start), steps, backoff).db)
  {
    hide DbOk, StubOk, Agree, CallsOk, WorkersOk, Run;
    Safety.ReachableInv(Run(Initial(start), steps, backoff), backoff);
  }

  lemma SubmittedStays(start: int, steps: seq<Step>, backoff: Backoff, id: int, k: nat, at: int)
    requires steps != [] && SubmittedBy(start, steps[..|steps| - 1], backoff, id, k, at)
    ensures SubmittedBy(start, steps, backoff, id, k, at)
  {
    hide Next, Enabled, Initial, Run;
    var n := |steps| - 1;
    assert steps[..n][..k] == steps[..k] && steps[..n][..k + 1] == steps[..k + 1];
  }

  /**
   In every run, a batch that is submitted, awaiting its acknowledgment or acknowledged carries the
   database time of the commit that took it out of submission.
   */
  lemma SubmittedAtIsItsCommit(start: int, steps: seq<Step>, backoff: Backoff, id: int)
    requires id in Run(Initial(start), steps, backoff).db.batches
    requires Run(Initial(start), steps, backoff).db.batches[id].state in {Submitted, AwaitingAck, BatchAcknowledged}
    ensures var row := Run(Initial(start), steps, backoff).db.batches[id];
            && row.submittedAt.Some?
            && exists k :: SubmittedBy(start, steps, backoff, id, k, row.submittedAt.value)
  {
    hide SubmittedBy;
    RunStamps(start, steps, backoff, id);
  }

  /** No later step changes it. */
  lemma {:induction false} SubmittedAtStays(start: int, steps: seq<Step>, more: seq<Step>, backoff: Backoff, id: int)
    requires id in Run(Initial(start), steps, backoff).db.batches
    requires Run(Initial(start), steps, backoff).db.batches[id].submittedAt.Some?
    ensures id in Run(Initial(start), steps + more, backoff).db.batches
    ensures Run(Initial(start), steps + more, backoff).db.batches[id].submittedAt
         == Run(Initial(start), steps, backoff).db.batches[id].submittedAt
    decreases |more|
  {
    hide DbOk, StampOk, Next, Enabled, Initial, SubmittedBy;
    if more == [] {
      assert steps + more == steps;
    } else {
      var n := |more| - 1;
      var all := steps + more;
      SubmittedAtStays(start, steps, more[..n], backoff, id);
      assert all[..|all| - 1] == steps + more[..n];
      var before := Run(Initial(start), all[..|all| - 1], backoff);
      RunIsDbOk(start, all[..|all| - 1], backoff);
      RunStamps(start, all[..|all| - 1], backoff, id);
      if Enabled(before, all[|all| - 1]) {
        StepStamps(before, all[|all| - 1], backoff, id);
      }
    }
  }

  // Reports

  lemma ReportedExactly(db: Db, id: int, now: int)
    requires id in db.batches && db.batches[id].state in {Submitted, AwaitingAck} && db.batches[id].submittedAt.Some?
    ensures ExceptionRow(SubmissionUnacknowledged, ExceptionItem(db.batches[id].client, 0, id, "", "ACK_DELAY"))
            in ExceptionRows(db, db.batches[id].firm, db.batches[id].client, now)
       <==> now - db.batches[id].submittedAt.value > 1_800_000_000
  {
    var row := db.batches[id];
    var reported := ExceptionRow(SubmissionUnacknowledged, ExceptionItem(row.client, 0, id, "", "ACK_DELAY"));
    if now - row.submittedAt.value > 1_800_000_000 {
      assert BatchAttention(row, now) && BatchException(db, id, now) == reported;
    } else if reported in ExceptionRows(db, row.firm, row.client, now) {
      OnlyOwnReport(db, row.firm, row.client, id, now);
    }
  }

  lemma OnlyOwnReport(db: Db, firm: string, client: string, id: int, now: int)
    requires ExceptionRow(SubmissionUnacknowledged, ExceptionItem(client, 0, id, "", "ACK_DELAY"))
             in ExceptionRows(db, firm, client, now)
    ensures id in db.batches && BatchAttention(db.batches[id], now)
  {
    var reported := ExceptionRow(SubmissionUnacknowledged, ExceptionItem(client, 0, id, "", "ACK_DELAY"));
    if f :| f in db.filings && Troubled(db.filings[f]) && FilingException(db, f) == reported {
      assert false;
    }
    var b :| b in db.batches && BatchAttention(db.batches[b], now) && BatchException(db, b, now) == reported;
  }

  /**
   In every run a submitted batch that is not acknowledged is reported from half an hour after the
   commit that submitted it, and not before; its client then needs attention.
   */
  lemma UnacknowledgedIsReported(start: int, steps: seq<Step>, backoff: Backoff, id: int, now: int)
    requires id in Run(Initial(start), steps, backoff).db.batches
    requires Run(Initial(start), steps, backoff).db.batches[id].state in {Submitted, AwaitingAck}
    ensures var s := Run(Initial(start), steps, backoff);
            var row := s.db.batches[id];
            exists k, at ::
              && SubmittedBy(start, steps, backoff, id, k, at)
              && (now - at > 1_800_000_000 <==>
                    ExceptionRow(SubmissionUnacknowledged, ExceptionItem(row.client, 0, id, "", "ACK_DELAY"))
                    in ExceptionRows(s.db, row.firm, row.client, now))
              && (now - at > 1_800_000_000 ==> HeadlineOf(ReadFacts(s.db, row.firm, row.client, now)).NeedsAttention?)
  {
    hide SubmittedBy, ExceptionRows, Run, Initial;
    SubmittedAtIsItsCommit(start, steps, backoff, id);
    var s := Run(Initial(start), steps, backoff);
    var row := s.db.batches[id];
    var k :| SubmittedBy(start, steps, backoff, id, k, row.submittedAt.value);
    ReportedExactly(s.db, id, now);
    OverdueNeedsAttention(s.db, id, now);
  }

  lemma OverdueNeedsAttention(db: Db, id: int, now: int)
    requires id in db.batches && db.batches[id].state in {Submitted, AwaitingAck} && db.batches[id].submittedAt.Some?
    ensures now - db.batches[id].submittedAt.value > 1_800_000_000 ==>
              HeadlineOf(ReadFacts(db, db.batches[id].firm, db.batches[id].client, now)).NeedsAttention?
  {
    if now - db.batches[id].submittedAt.value > 1_800_000_000 {
      assert id in BatchesOf(db, db.batches[id].firm, db.batches[id].client) && Overdue(db.batches[id], now);
    }
  }
}
